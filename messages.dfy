/**
 * The values exchanged by the call bridge: identifiers of the sockets it
 * holds, the typed form of the JSON messages it receives, and the records it
 * leaves behind (outbound media frames and HTTP responses).
 *
 * Sockets are opaque identifiers. A telephony media-stream connection is a
 * `ConnId`; a text-to-speech engine socket is named by the `/speak` request
 * that opened it (`ReqId`), since every request that finds a session opens
 * exactly one engine socket.
 */
module Messages {

  datatype Option<T> = None | Some(value: T)

  /** The `callSid` of a phone call, as assigned by the telephony platform. */
  type CallSid = string

  /** An accepted telephony media-stream connection. */
  type ConnId = nat

  /** A `/speak` request, and the engine socket it opened, if any. */
  type ReqId = nat

  /** JavaScript truthiness of a string-valued field: present and non-empty. */
  predicate Truthy(v: Option<string>) {
    v.Some? && v.value != ""
  }

  /** A parsed message from the telephony platform, keyed on its `event` field. */
  datatype TelephonyMsg =
    | Start(callSid: CallSid)      // event "start", carrying start.callSid
    | Media(track: string)         // event "media", carrying media.track
    | Stop                         // event "stop"
    | Unknown(event: string)       // any other event name

  /** One outbound media message written to a telephony socket: its payload only. */
  datatype Frame = Frame(conn: ConnId, payload: string)

  /** One HTTP status sent back for a `/speak` request. */
  datatype Response = Response(req: ReqId, status: int)

  /** Every callback the bridge reacts to, each handled as one atomic step. */
  datatype Event =
    | Connection                                          // a telephony socket is accepted
    | TelephonyMessage(conn: ConnId, msg: TelephonyMsg)   // a message on it
    | TelephonyClose(conn: ConnId)                        // it closes
    | SpeakRequest(callSid: Option<CallSid>, text: Option<string>)  // POST /speak
    | EngineMessage(engine: ReqId, audio: Option<string>) // a message from an engine socket
    | EngineClose(engine: ReqId)                          // an engine socket closes
}

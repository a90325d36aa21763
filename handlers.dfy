/**
 * The bookkeeping of server.js as pure functions on a snapshot of its state.
 *
 * `State` holds the two module-level tables (`sessions`, `speakers`), the
 * `callSid` variable that every telephony connection keeps, the engine
 * sockets opened by `/speak` with what their callbacks captured, and the
 * observable side effects: the engine sockets on which `close()` was called,
 * those whose `close` event has fired, the media frames written to telephony
 * sockets and the HTTP responses sent. There is one function per callback;
 * `Step` dispatches an `Event` to it and `Run` folds a trace of events.
 */
module Handlers {
  import opened Messages

  /** What the callbacks of one engine socket captured when `/speak` opened it. */
  datatype Speech = Speech(call: CallSid, telephony: ConnId, text: Option<string>)

  datatype State = State(
    sessions: map<CallSid, ConnId>,        // callSid -> telephony socket
    speakers: map<CallSid, ReqId>,         // callSid -> engine socket
    callSidOf: map<ConnId, Option<CallSid>>, // each accepted connection's `callSid` (None = null)
    engines: map<ReqId, Speech>,           // engine sockets opened so far
    closeCalls: seq<ReqId>,                // engine sockets on which close() was called, in order
    engineClosed: set<ReqId>,              // engine sockets whose `close` event has fired
    frames: seq<Frame>,                    // media frames sent to telephony sockets, in order
    responses: seq<Response>,              // HTTP responses to /speak, in order
    nextConn: ConnId,                      // identifier of the next accepted connection
    nextReq: ReqId)                        // identifier of the next /speak request

  /** The request identifiers that have received a response. */
  function Answered(rs: seq<Response>): set<ReqId> {
    set i | 0 <= i < |rs| :: rs[i].req
  }

  /** Every identifier handed out is below the counter that produced it. */
  ghost predicate IdsIssued(s: State) {
    && (forall c :: c in s.callSidOf ==> c < s.nextConn)
    && (forall e :: e in s.engines ==> e < s.nextReq)
  }

  /** The tables and logs only mention telephony connections that were accepted. */
  ghost predicate ConnsKnown(s: State) {
    && (forall sid :: sid in s.sessions ==> s.sessions[sid] in s.callSidOf)
    && (forall e :: e in s.engines ==> s.engines[e].telephony in s.callSidOf)
    && (forall i :: 0 <= i < |s.frames| ==> s.frames[i].conn in s.callSidOf)
  }

  /**
   * The engine socket registered for a call was opened for that call and is
   * live: close() has not been called on it and it has not closed.
   */
  ghost predicate SpeakersLive(s: State) {
    forall sid :: sid in s.speakers ==>
      var e := s.speakers[sid];
      && e in s.engines
      && s.engines[e].call == sid
      && e !in s.closeCalls
      && e !in s.engineClosed
  }

  /** close() is called at most once per engine socket, and only on engine sockets. */
  ghost predicate ClosedOnce(s: State) {
    && (forall i, j :: 0 <= i < j < |s.closeCalls| ==> s.closeCalls[i] != s.closeCalls[j])
    && (forall i :: 0 <= i < |s.closeCalls| ==> s.closeCalls[i] in s.engines)
    && s.engineClosed <= s.engines.Keys
  }

  /**
   * Every /speak request is answered at most once: with 404 at once when it
   * found no session, with 200 when its engine socket closes.
   */
  ghost predicate AnsweredOnce(s: State) {
    && (forall i, j :: 0 <= i < j < |s.responses| ==> s.responses[i].req != s.responses[j].req)
    && (forall i :: 0 <= i < |s.responses| ==>
          && s.responses[i].req < s.nextReq
          && s.responses[i].status == (if s.responses[i].req in s.engines then 200 else 404))
    && (forall r :: 0 <= r < s.nextReq ==>
          (r in Answered(s.responses) <==> r !in s.engines || r in s.engineClosed))
  }

  ghost predicate Inv(s: State) {
    IdsIssued(s) && ConnsKnown(s) && SpeakersLive(s) && ClosedOnce(s) && AnsweredOnce(s)
  }

  /** The bridge as the server starts: both tables empty, nothing sent. */
  function Initial(): (s: State)
    ensures Inv(s)
    ensures s.sessions == map[] && s.speakers == map[]
    ensures s.callSidOf == map[] && s.engines == map[]
    ensures s.closeCalls == [] && s.frames == [] && s.responses == []
  {
    State(map[], map[], map[], map[], [], {}, [], [], 0, 0)
  }

  /** The engine socket registered for connection `c`'s current callSid, if any. */
  function SpeakerOf(s: State, c: ConnId): Option<ReqId>
    requires c in s.callSidOf
  {
    match s.callSidOf[c]
    case Some(sid) => if sid in s.speakers then Some(s.speakers[sid]) else None
    case None => None
  }

  /** `wss.on("connection")`: a new connection whose `callSid` starts as null. */
  function OnConnection(s: State): (r: State)
    ensures r.callSidOf == s.callSidOf[s.nextConn := None]
    ensures r.nextConn == s.nextConn + 1
    ensures r.(callSidOf := s.callSidOf, nextConn := s.nextConn) == s
  {
    s.(callSidOf := s.callSidOf[s.nextConn := None], nextConn := s.nextConn + 1)
  }

  /** A `start` message: remember the callSid and route it to this connection. */
  function OnStart(s: State, c: ConnId, sid: CallSid): (r: State)
    requires c in s.callSidOf
    ensures c in r.callSidOf && r.callSidOf[c] == Some(sid)
    ensures sid in r.sessions && r.sessions[sid] == c
    ensures forall k :: k != sid ==> (k in r.sessions <==> k in s.sessions)
    ensures forall k :: k in s.sessions && k != sid ==> r.sessions[k] == s.sessions[k]
    ensures forall d :: d != c ==> (d in r.callSidOf <==> d in s.callSidOf)
    ensures forall d :: d in s.callSidOf && d != c ==> r.callSidOf[d] == s.callSidOf[d]
    ensures r.(callSidOf := s.callSidOf, sessions := s.sessions) == s
  {
    s.(callSidOf := s.callSidOf[c := Some(sid)], sessions := s.sessions[sid := c])
  }

  /**
   * A `media` message: an inbound track while an engine socket is registered
   * for this connection's callSid closes that socket and unregisters it
   * (barge-in); anything else changes nothing.
   */
  function OnMedia(s: State, c: ConnId, track: string): (r: State)
    requires c in s.callSidOf
    ensures track == "inbound" && SpeakerOf(s, c).Some? ==>
      && r.closeCalls == s.closeCalls + [SpeakerOf(s, c).value]
      && s.callSidOf[c].value !in r.speakers
      && r.speakers == s.speakers - {s.callSidOf[c].value}
      && r.(closeCalls := s.closeCalls, speakers := s.speakers) == s
    ensures track != "inbound" || SpeakerOf(s, c).None? ==> r == s
  {
    if track == "inbound" then
      match s.callSidOf[c]
      case Some(sid) =>
        if sid in s.speakers then
          s.(closeCalls := s.closeCalls + [s.speakers[sid]], speakers := s.speakers - {sid})
        else s
      case None => s
    else s
  }

  /**
   * A `stop` message: forget the connection's callSid in both tables. The
   * engine socket that was registered is not closed.
   */
  function OnStop(s: State, c: ConnId): (r: State)
    requires c in s.callSidOf
    ensures r.closeCalls == s.closeCalls
    ensures s.callSidOf[c].None? ==> r == s
    ensures s.callSidOf[c].Some? ==>
      && s.callSidOf[c].value !in r.sessions
      && s.callSidOf[c].value !in r.speakers
      && r.sessions == s.sessions - {s.callSidOf[c].value}
      && r.speakers == s.speakers - {s.callSidOf[c].value}
      && r.(sessions := s.sessions, speakers := s.speakers) == s
  {
    match s.callSidOf[c]
    case Some(sid) => s.(sessions := s.sessions - {sid}, speakers := s.speakers - {sid})
    case None => s
  }

  /** `twilioWs.on("message")`, after parsing: the three checks on `event`. */
  function OnTelephonyMessage(s: State, c: ConnId, msg: TelephonyMsg): (r: State)
    requires c in s.callSidOf
    ensures r.engines == s.engines && r.engineClosed == s.engineClosed
    ensures r.frames == s.frames && r.responses == s.responses
    ensures r.nextConn == s.nextConn && r.nextReq == s.nextReq
    ensures msg.Unknown? ==> r == s
  {
    match msg
    case Start(sid) => OnStart(s, c, sid)
    case Media(track) => OnMedia(s, c, track)
    case Stop => OnStop(s, c)
    case Unknown(_) => s
  }

  /**
   * `twilioWs.on("close")`: like `stop`, but only when the connection's
   * callSid is truthy, so a connection that never saw `start`, or whose
   * callSid is the empty string, changes nothing.
   */
  function OnTelephonyClose(s: State, c: ConnId): (r: State)
    requires c in s.callSidOf
    ensures r.closeCalls == s.closeCalls
    ensures !Truthy(s.callSidOf[c]) ==> r == s
    ensures Truthy(s.callSidOf[c]) ==>
      && s.callSidOf[c].value !in r.sessions
      && s.callSidOf[c].value !in r.speakers
      && r == OnStop(s, c)
  {
    if Truthy(s.callSidOf[c]) then
      var sid := s.callSidOf[c].value;
      s.(sessions := s.sessions - {sid}, speakers := s.speakers - {sid})
    else s
  }

  /** Whether a /speak body's callSid names a call with a telephony session. */
  predicate Found(s: State, callSid: Option<CallSid>) {
    callSid.Some? && callSid.value in s.sessions
  }

  /**
   * `POST /speak`: request `s.nextReq`. Without a session it is answered 404
   * at once. Otherwise the engine socket registered for the call, if any, is
   * closed, and a new one, bound to the call's telephony socket, replaces it.
   * `text` is not inspected.
   */
  function OnSpeak(s: State, callSid: Option<CallSid>, text: Option<string>): (r: State)
    ensures r.nextReq == s.nextReq + 1
    ensures r.sessions == s.sessions && r.callSidOf == s.callSidOf && r.nextConn == s.nextConn
    ensures r.frames == s.frames && r.engineClosed == s.engineClosed
    ensures !Found(s, callSid) ==>
      r == s.(nextReq := s.nextReq + 1, responses := s.responses + [Response(s.nextReq, 404)])
    ensures Found(s, callSid) ==>
      var sid := callSid.value;
      && r.speakers == s.speakers[sid := s.nextReq]
      && r.engines == s.engines[s.nextReq := Speech(sid, s.sessions[sid], text)]
      && r.closeCalls == s.closeCalls + (if sid in s.speakers then [s.speakers[sid]] else [])
      && r.responses == s.responses
  {
    if Found(s, callSid) then
      var sid := callSid.value;
      var closed := if sid in s.speakers then s.closeCalls + [s.speakers[sid]] else s.closeCalls;
      s.(closeCalls := closed,
         engines := s.engines[s.nextReq := Speech(sid, s.sessions[sid], text)],
         speakers := s.speakers[sid := s.nextReq],
         nextReq := s.nextReq + 1)
    else
      s.(responses := s.responses + [Response(s.nextReq, 404)], nextReq := s.nextReq + 1)
  }

  /**
   * `elevenWs.on("message")`: a truthy `audio` field is written unchanged as
   * the payload of one media frame to the telephony socket captured by /speak.
   */
  function OnEngineMessage(s: State, e: ReqId, audio: Option<string>): (r: State)
    requires e in s.engines
    ensures Truthy(audio) ==> r.frames == s.frames + [Frame(s.engines[e].telephony, audio.value)]
    ensures !Truthy(audio) ==> r.frames == s.frames
    ensures r.(frames := s.frames) == s
  {
    if Truthy(audio) then
      s.(frames := s.frames + [Frame(s.engines[e].telephony, audio.value)])
    else s
  }

  /**
   * `elevenWs.on("close")`: unregister whatever engine socket is registered
   * for the captured callSid, and answer the request 200.
   */
  function OnEngineClose(s: State, e: ReqId): (r: State)
    requires e in s.engines
    ensures s.engines[e].call !in r.speakers
    ensures r.speakers == s.speakers - {s.engines[e].call}
    ensures r.engineClosed == s.engineClosed + {e}
    ensures r.responses == s.responses + [Response(e, 200)]
    ensures r.(speakers := s.speakers, engineClosed := s.engineClosed, responses := s.responses) == s
  {
    s.(speakers := s.speakers - {s.engines[e].call},
       engineClosed := s.engineClosed + {e},
       responses := s.responses + [Response(e, 200)])
  }

  /**
   * Whether the runtime can deliver `ev`: events come only from accepted
   * connections and opened engine sockets, and an engine socket emits
   * nothing after its `close` event.
   */
  predicate Enabled(s: State, ev: Event) {
    match ev
    case Connection => true
    case TelephonyMessage(c, _) => c in s.callSidOf
    case TelephonyClose(c) => c in s.callSidOf
    case SpeakRequest(_, _) => true
    case EngineMessage(e, _) => e in s.engines && e !in s.engineClosed
    case EngineClose(e) => e in s.engines && e !in s.engineClosed
  }

  /**
   * The media frame that delivering `ev` in state `s` writes, if any: only
   * an engine message that can be delivered and carries truthy audio writes one.
   */
  function Sent(s: State, ev: Event): (fs: seq<Frame>)
    ensures |fs| <= 1
    ensures fs != [] ==> ev.EngineMessage? && Enabled(s, ev) && Truthy(ev.audio)
  {
    match ev
    case EngineMessage(e, audio) =>
      if Enabled(s, ev) && Truthy(audio) then [Frame(s.engines[e].telephony, audio.value)] else []
    case _ => []
  }

  /** One callback; an event the runtime cannot deliver leaves the state as it is. */
  function Step(s: State, ev: Event): (r: State)
    ensures !Enabled(s, ev) ==> r == s
    ensures r.frames == s.frames + Sent(s, ev)
  {
    if !Enabled(s, ev) then s
    else match ev
      case Connection => OnConnection(s)
      case TelephonyMessage(c, msg) => OnTelephonyMessage(s, c, msg)
      case TelephonyClose(c) => OnTelephonyClose(s, c)
      case SpeakRequest(callSid, text) => OnSpeak(s, callSid, text)
      case EngineMessage(e, audio) => OnEngineMessage(s, e, audio)
      case EngineClose(e) => OnEngineClose(s, e)
  }

  /** The callbacks of a trace, one after another. */
  function Run(s: State, evs: seq<Event>): State
    decreases |evs|
  {
    if evs == [] then s else Run(Step(s, evs[0]), evs[1..])
  }
}

/**
 * The server of server.js as an object: the `sessions` and `speakers` maps,
 * each connection's `callSid` variable and the engine sockets are fields that
 * the callbacks update in place. Each callback is one atomic method; its
 * postcondition ties the new state to the pure handler of the same callback
 * and keeps the invariant `Handlers.Inv`.
 */
module Server {
  import opened Messages
  import opened Handlers
  import Properties

  class Bridge {
    var sessions: map<CallSid, ConnId>
    var speakers: map<CallSid, ReqId>
    var callSidOf: map<ConnId, Option<CallSid>>
    var engines: map<ReqId, Speech>
    var closeCalls: seq<ReqId>
    var engineClosed: set<ReqId>
    var frames: seq<Frame>
    var responses: seq<Response>
    var nextConn: ConnId
    var nextReq: ReqId

    /** The fields as one value, for the handlers and lemmas to talk about. */
    function Snapshot(): State
      reads this
    {
      State(sessions, speakers, callSidOf, engines, closeCalls, engineClosed,
            frames, responses, nextConn, nextReq)
    }

    ghost predicate Valid()
      reads this
    {
      Inv(Snapshot())
    }

    constructor ()
      ensures Valid() && Snapshot() == Initial()
    {
      sessions, speakers, callSidOf, engines := map[], map[], map[], map[];
      closeCalls, engineClosed, frames, responses := [], {}, [], [];
      nextConn, nextReq := 0, 0;
    }

    /** A telephony socket connects; its `callSid` starts as null. */
    method Accept() returns (c: ConnId)
      requires Valid()
      modifies this
      ensures Valid()
      ensures c == old(nextConn) && c !in old(callSidOf)
      ensures Snapshot() == OnConnection(old(Snapshot()))
    {
      c := nextConn;
      callSidOf := callSidOf[c := None];
      nextConn := nextConn + 1;
      Properties.ConnectionKeepsInv(old(Snapshot()));
    }

    /** A parsed message arrives on telephony connection `c`. */
    method ReceiveTelephony(c: ConnId, msg: TelephonyMsg)
      requires Valid() && c in callSidOf
      modifies this
      ensures Valid()
      ensures Snapshot() == OnTelephonyMessage(old(Snapshot()), c, msg)
    {
      match msg {
        case Start(sid) =>
          callSidOf := callSidOf[c := Some(sid)];
          sessions := sessions[sid := c];
        case Media(track) =>
          if track == "inbound" && callSidOf[c].Some? && callSidOf[c].value in speakers {
            var sid := callSidOf[c].value;
            closeCalls := closeCalls + [speakers[sid]];
            speakers := speakers - {sid};
          }
        case Stop =>
          if callSidOf[c].Some? {
            var sid := callSidOf[c].value;
            sessions := sessions - {sid};
            speakers := speakers - {sid};
          }
        case Unknown(_) =>
      }
      Properties.TelephonyMessageKeepsInv(old(Snapshot()), c, msg);
    }

    /** Telephony connection `c` closes. */
    method CloseTelephony(c: ConnId)
      requires Valid() && c in callSidOf
      modifies this
      ensures Valid()
      ensures Snapshot() == OnTelephonyClose(old(Snapshot()), c)
    {
      if Truthy(callSidOf[c]) {
        var sid := callSidOf[c].value;
        sessions := sessions - {sid};
        speakers := speakers - {sid};
      }
      Properties.TelephonyCloseKeepsInv(old(Snapshot()), c);
    }

    /** `POST /speak` with the body's `callSid` and `text`; returns the request's identifier. */
    method Speak(callSid: Option<CallSid>, text: Option<string>) returns (req: ReqId)
      requires Valid()
      modifies this
      ensures Valid()
      ensures req == old(nextReq)
      ensures Snapshot() == OnSpeak(old(Snapshot()), callSid, text)
    {
      ghost var s := Snapshot();
      req := nextReq;
      if callSid.None? || callSid.value !in sessions {
        responses := responses + [Response(req, 404)];
      } else {
        var sid := callSid.value;
        if sid in speakers {
          closeCalls := closeCalls + [speakers[sid]];
        }
        engines := engines[req := Speech(sid, sessions[sid], text)];
        speakers := speakers[sid := req];
      }
      nextReq := nextReq + 1;
      assert Snapshot() == OnSpeak(s, callSid, text);
      Properties.SpeakKeepsInv(s, callSid, text);
    }

    /** Engine socket `e` delivers a message with the given `audio` field. */
    method ReceiveEngine(e: ReqId, audio: Option<string>)
      requires Valid() && e in engines && e !in engineClosed
      modifies this
      ensures Valid()
      ensures Snapshot() == OnEngineMessage(old(Snapshot()), e, audio)
    {
      if Truthy(audio) {
        frames := frames + [Frame(engines[e].telephony, audio.value)];
      }
      Properties.EngineMessageKeepsInv(old(Snapshot()), e, audio);
    }

    /** Engine socket `e` closes. */
    method CloseEngine(e: ReqId)
      requires Valid() && e in engines && e !in engineClosed
      modifies this
      ensures Valid()
      ensures Snapshot() == OnEngineClose(old(Snapshot()), e)
    {
      speakers := speakers - {engines[e].call};
      engineClosed := engineClosed + {e};
      responses := responses + [Response(e, 200)];
      Properties.EngineCloseKeepsInv(old(Snapshot()), e);
    }
  }

  /**
   * A client of `Bridge`: a call starts, /speak opens an engine socket for it,
   * and the caller's inbound audio interrupts it. The engine socket is the
   * only one closed, and no speaker is left registered for the call.
   */
  method BargeInOnBridge(sid: CallSid, text: Option<string>)
    returns (req: ReqId, closed: seq<ReqId>, speaking: bool)
    ensures closed == [req]
    ensures !speaking
  {
    var bridge := new Bridge();
    var c := bridge.Accept();
    bridge.ReceiveTelephony(c, Start(sid));
    req := bridge.Speak(Some(sid), text);
    bridge.ReceiveTelephony(c, Media("inbound"));
    closed, speaking := bridge.closeCalls, sid in bridge.speakers;
  }
}

/**
 * What the callbacks of server.js guarantee together: the invariant every
 * callback keeps, its consequences for every reachable state (close() at
 * most once per engine socket, one response per /speak request, a registered
 * engine socket is always live), the order of outbound audio, and the
 * quirks of the code (stale close events, stop without close, the identity
 * of a callSid that is shared across connections).
 */
module Properties {
  import opened Messages
  import opened Handlers

  lemma AnsweredAppend(rs: seq<Response>, x: Response)
    ensures Answered(rs + [x]) == Answered(rs) + {x.req}
  {
    var rs' := rs + [x];
    assert rs'[|rs|] == x;
    forall r | r in Answered(rs) ensures r in Answered(rs') {
      var i :| 0 <= i < |rs| && rs[i].req == r;
      assert rs'[i] == rs[i];
    }
  }

  lemma ConnectionKeepsInv(s: State)
    requires Inv(s)
    ensures Inv(OnConnection(s))
  {
  }

  lemma TelephonyMessageKeepsInv(s: State, c: ConnId, msg: TelephonyMsg)
    requires Inv(s) && c in s.callSidOf
    ensures Inv(OnTelephonyMessage(s, c, msg))
  {
    var r := OnTelephonyMessage(s, c, msg);
    if msg.Media? && r != s {
      var sid := s.callSidOf[c].value;
      var e := s.speakers[sid];
      assert r.closeCalls == s.closeCalls + [e];
      forall k | k in r.speakers ensures r.speakers[k] != e {
        assert s.engines[s.speakers[k]].call == k;
      }
    }
  }

  lemma TelephonyCloseKeepsInv(s: State, c: ConnId)
    requires Inv(s) && c in s.callSidOf
    ensures Inv(OnTelephonyClose(s, c))
  {
  }

  lemma SpeakFoundKeepsInv(s: State, sid: CallSid, text: Option<string>)
    requires Inv(s) && sid in s.sessions
    ensures Inv(OnSpeak(s, Some(sid), text))
  {
    var r := OnSpeak(s, Some(sid), text);
    var e := s.nextReq;
    assert e !in s.closeCalls && e !in s.engines;
    assert IdsIssued(r) && ConnsKnown(r);
    forall k | k in r.speakers
      ensures r.speakers[k] in r.engines && r.engines[r.speakers[k]].call == k
      ensures r.speakers[k] !in r.closeCalls && r.speakers[k] !in r.engineClosed
    {
      if k != sid {
        assert s.engines[s.speakers[k]].call == k;
      }
    }
    assert SpeakersLive(r);
    assert ClosedOnce(r);
    assert r.responses == s.responses && r.engineClosed == s.engineClosed;
    forall x | 0 <= x < r.nextReq
      ensures x in Answered(r.responses) <==> x !in r.engines || x in r.engineClosed
    {
      if x == e {
        assert e !in Answered(s.responses);
      }
    }
    assert AnsweredOnce(r);
  }

  lemma SpeakKeepsInv(s: State, callSid: Option<CallSid>, text: Option<string>)
    requires Inv(s)
    ensures Inv(OnSpeak(s, callSid, text))
  {
    if Found(s, callSid) {
      SpeakFoundKeepsInv(s, callSid.value, text);
    } else {
      AnsweredAppend(s.responses, Response(s.nextReq, 404));
    }
  }

  lemma EngineMessageKeepsInv(s: State, e: ReqId, audio: Option<string>)
    requires Inv(s) && e in s.engines
    ensures Inv(OnEngineMessage(s, e, audio))
  {
  }

  lemma EngineCloseKeepsInv(s: State, e: ReqId)
    requires Inv(s) && e in s.engines && e !in s.engineClosed
    ensures Inv(OnEngineClose(s, e))
  {
    var r := OnEngineClose(s, e);
    AnsweredAppend(s.responses, Response(e, 200));
    assert e !in Answered(s.responses);
    forall k | k in r.speakers ensures r.speakers[k] != e {
      assert s.engines[s.speakers[k]].call == k;
    }
  }

  /** Every callback keeps the invariant. */
  lemma StepKeepsInv(s: State, ev: Event)
    requires Inv(s)
    ensures Inv(Step(s, ev))
  {
    if Enabled(s, ev) {
      match ev
      case Connection => ConnectionKeepsInv(s);
      case TelephonyMessage(c, msg) => TelephonyMessageKeepsInv(s, c, msg);
      case TelephonyClose(c) => TelephonyCloseKeepsInv(s, c);
      case SpeakRequest(callSid, text) => SpeakKeepsInv(s, callSid, text);
      case EngineMessage(e, audio) => EngineMessageKeepsInv(s, e, audio);
      case EngineClose(e) => EngineCloseKeepsInv(s, e);
    }
  }

  /** Any trace of callbacks keeps the invariant. */
  lemma {:induction false} RunKeepsInv(s: State, evs: seq<Event>)
    requires Inv(s)
    ensures Inv(Run(s, evs))
    decreases |evs|
  {
    if evs != [] {
      StepKeepsInv(s, evs[0]);
      RunKeepsInv(Step(s, evs[0]), evs[1..]);
    }
  }

  /** Every state the server can reach from start-up satisfies the invariant. */
  lemma Reachable(evs: seq<Event>)
    ensures Inv(Run(Initial(), evs))
  {
    RunKeepsInv(Initial(), evs);
  }

  /**
   * In every reachable state, the engine socket registered for a call was
   * opened by /speak for that call, has not had close() called on it and
   * has not closed; so no engine socket is registered for two calls.
   */
  lemma RegisteredSpeakerIsLive(evs: seq<Event>, sid: CallSid)
    ensures var s := Run(Initial(), evs);
      sid in s.speakers ==>
        && s.speakers[sid] in s.engines
        && s.engines[s.speakers[sid]].call == sid
        && s.speakers[sid] !in s.closeCalls
        && s.speakers[sid] !in s.engineClosed
        && (forall k :: k in s.speakers && k != sid ==> s.speakers[k] != s.speakers[sid])
  {
    var s := Run(Initial(), evs);
    Reachable(evs);
    if sid in s.speakers {
      forall k | k in s.speakers && k != sid ensures s.speakers[k] != s.speakers[sid] {
        assert s.engines[s.speakers[k]].call == k;
      }
    }
  }

  /** The server never calls close() twice on the same engine socket. */
  lemma CloseCalledAtMostOnce(evs: seq<Event>, i: nat, j: nat)
    requires var s := Run(Initial(), evs); i < j < |s.closeCalls|
    ensures var s := Run(Initial(), evs); s.closeCalls[i] != s.closeCalls[j]
  {
    Reachable(evs);
  }

  /**
   * Each /speak request gets at most one response; it has one exactly when
   * it found no session (404) or its engine socket has closed (200).
   */
  lemma OneResponsePerRequest(evs: seq<Event>, r: ReqId)
    ensures var s := Run(Initial(), evs);
      && (forall i, j :: 0 <= i < j < |s.responses| ==> s.responses[i].req != s.responses[j].req)
      && (r < s.nextReq ==> (r in Answered(s.responses) <==> r !in s.engines || r in s.engineClosed))
      && (forall i :: 0 <= i < |s.responses| ==>
            s.responses[i].status == (if s.responses[i].req in s.engines then 200 else 404))
  {
    Reachable(evs);
  }

  /** Media frames are only ever appended: a trace never rewrites what was sent. */
  lemma {:induction false} FramesOnlyGrow(s: State, evs: seq<Event>)
    ensures s.frames <= Run(s, evs).frames
    decreases |evs|
  {
    if evs != [] {
      var s' := Step(s, evs[0]);
      assert s.frames <= s'.frames;
      FramesOnlyGrow(s', evs[1..]);
    }
  }

  /** The frames that a run of engine messages carrying `audios` should produce. */
  function AudioFrames(conn: ConnId, audios: seq<Option<string>>): (fs: seq<Frame>)
    ensures |fs| <= |audios|
    ensures forall i :: 0 <= i < |fs| ==> fs[i].conn == conn
  {
    if audios == [] then []
    else (if Truthy(audios[0]) then [Frame(conn, audios[0].value)] else [])
         + AudioFrames(conn, audios[1..])
  }

  /** The trace of engine `e` delivering the messages `audios`, in order. */
  function EngineMessages(e: ReqId, audios: seq<Option<string>>): (evs: seq<Event>)
    ensures |evs| == |audios|
    ensures forall i :: 0 <= i < |evs| ==> evs[i] == EngineMessage(e, audios[i])
  {
    seq(|audios|, i requires 0 <= i < |audios| => EngineMessage(e, audios[i]))
  }

  /**
   * Engine audio reaches the telephony socket captured by /speak one frame
   * per truthy `audio`, payload unchanged, in arrival order; a message
   * without audio sends nothing.
   */
  lemma {:induction false} EngineAudioInOrder(s: State, e: ReqId, audios: seq<Option<string>>)
    requires e in s.engines && e !in s.engineClosed
    ensures Run(s, EngineMessages(e, audios)).frames
         == s.frames + AudioFrames(s.engines[e].telephony, audios)
    decreases |audios|
  {
    var evs := EngineMessages(e, audios);
    if audios != [] {
      var s' := Step(s, evs[0]);
      assert s' == OnEngineMessage(s, e, audios[0]);
      assert evs[1..] == EngineMessages(e, audios[1..]);
      EngineAudioInOrder(s', e, audios[1..]);
    }
  }

  /** The frames a trace writes, event by event, each in the state it is delivered in. */
  function SentFrames(s: State, evs: seq<Event>): seq<Frame>
    decreases |evs|
  {
    if evs == [] then [] else Sent(s, evs[0]) + SentFrames(Step(s, evs[0]), evs[1..])
  }

  /**
   * Over any trace, interleaved with barge-in, /speak, stop or closes, the
   * frame log grows by exactly the frames of the deliverable engine messages
   * with truthy audio, in the order those messages arrive.
   */
  lemma {:induction false} FramesInArrivalOrder(s: State, evs: seq<Event>)
    ensures Run(s, evs).frames == s.frames + SentFrames(s, evs)
    decreases |evs|
  {
    if evs != [] {
      var s' := Step(s, evs[0]);
      FramesInArrivalOrder(s', evs[1..]);
      assert Run(s, evs) == Run(s', evs[1..]);
      assert SentFrames(s, evs) == Sent(s, evs[0]) + SentFrames(s', evs[1..]);
    }
  }

  /**
   * Barge-in: after /speak for a call, an inbound media message on the
   * call's connection closes the engine socket that /speak opened and leaves
   * no engine socket registered for the call.
   */
  lemma BargeInStopsSpeech(s: State, c: ConnId, sid: CallSid, text: Option<string>)
    requires Inv(s) && c in s.callSidOf && s.callSidOf[c] == Some(sid) && sid in s.sessions
    ensures var s1 := Step(s, SpeakRequest(Some(sid), text));
            var s2 := Step(s1, TelephonyMessage(c, Media("inbound")));
      && s2.closeCalls == s1.closeCalls + [s.nextReq]
      && sid !in s2.speakers
      && s2.responses == s.responses
  {
    var s1 := Step(s, SpeakRequest(Some(sid), text));
    assert s1 == OnSpeak(s, Some(sid), text);
    assert SpeakerOf(s1, c) == Some(s.nextReq);
  }

  /** After `stop`, /speak for the same callSid is answered 404 and opens no engine socket. */
  lemma StopThenSpeakNotFound(s: State, c: ConnId, sid: CallSid, text: Option<string>)
    requires c in s.callSidOf && s.callSidOf[c] == Some(sid)
    ensures var s1 := Step(s, TelephonyMessage(c, Stop));
            var s2 := Step(s1, SpeakRequest(Some(sid), text));
      && s2.responses == s.responses + [Response(s.nextReq, 404)]
      && s2.engines == s.engines
      && s2.speakers == s.speakers - {sid}
  {
    var s1 := Step(s, TelephonyMessage(c, Stop));
    assert s1 == OnStop(s, c);
    assert !Found(s1, Some(sid));
  }

  /**
   * `stop` unregisters the call's engine socket without closing it: the
   * socket stays open and no later barge-in can reach it, since it is no
   * longer registered for any call.
   */
  lemma StopLeavesSpeechOpen(s: State, c: ConnId, sid: CallSid)
    requires Inv(s) && c in s.callSidOf && s.callSidOf[c] == Some(sid) && sid in s.speakers
    ensures var e := s.speakers[sid];
            var s1 := Step(s, TelephonyMessage(c, Stop));
      && e !in s1.closeCalls
      && e !in s1.engineClosed
      && (forall k :: k in s1.speakers ==> s1.speakers[k] != e)
  {
    var e := s.speakers[sid];
    var s1 := Step(s, TelephonyMessage(c, Stop));
    assert s1 == OnStop(s, c);
    forall k | k in s1.speakers ensures s1.speakers[k] != e {
      assert s.engines[s.speakers[k]].call == k;
    }
  }

  /**
   * A stale engine `close` event evicts a newer speaker: /speak twice for
   * one call closes the first engine socket, and when that socket's `close`
   * event arrives it unregisters the second one, which stays open, is not
   * reachable by barge-in any more, and still holds its request unanswered.
   */
  lemma StaleCloseEvictsNewerSpeech(s: State, sid: CallSid, t1: Option<string>, t2: Option<string>)
    requires Inv(s) && sid in s.sessions
    ensures var e1 := s.nextReq;
            var e2 := s.nextReq + 1;
            var s1 := Step(s, SpeakRequest(Some(sid), t1));
            var s2 := Step(s1, SpeakRequest(Some(sid), t2));
            var s3 := Step(s2, EngineClose(e1));
      && s2.closeCalls == s.closeCalls + (if sid in s.speakers then [s.speakers[sid]] else []) + [e1]
      && s2.speakers[sid] == e2
      && sid !in s3.speakers
      && e2 in s3.engines && e2 !in s3.closeCalls && e2 !in s3.engineClosed
      && (forall k :: k in s3.speakers ==> s3.speakers[k] != e2)
      && e2 !in Answered(s3.responses)
  {
    var e1, e2 := s.nextReq, s.nextReq + 1;
    var s1 := Step(s, SpeakRequest(Some(sid), t1));
    assert s1 == OnSpeak(s, Some(sid), t1);
    SpeakKeepsInv(s, Some(sid), t1);
    var s2 := Step(s1, SpeakRequest(Some(sid), t2));
    assert s2 == OnSpeak(s1, Some(sid), t2);
    SpeakKeepsInv(s1, Some(sid), t2);
    assert e1 in s2.engines && e1 !in s2.engineClosed;
    var s3 := Step(s2, EngineClose(e1));
    assert s3 == OnEngineClose(s2, e1);
    EngineCloseKeepsInv(s2, e1);
    assert e2 !in s3.engineClosed;
    forall k | k in s3.speakers ensures s3.speakers[k] != e2 {
      assert s2.engines[s2.speakers[k]].call == k;
    }
  }

  /**
   * `stop` or close on an older connection evicts a newer connection's
   * session for the same callSid (close only for a non-empty callSid):
   * `sessions.delete` does not check which socket is registered.
   */
  lemma StaleStopEvictsNewerSession(s: State, c: ConnId, d: ConnId, sid: CallSid)
    requires c in s.callSidOf && d in s.callSidOf && c != d && s.callSidOf[c] == Some(sid)
    ensures var s1 := Step(s, TelephonyMessage(d, Start(sid)));
            var s2 := Step(s1, TelephonyMessage(c, Stop));
            var s3 := Step(s1, TelephonyClose(c));
      && s1.sessions[sid] == d
      && sid !in s2.sessions
      && (sid != "" ==> sid !in s3.sessions)
  {
    var s1 := Step(s, TelephonyMessage(d, Start(sid)));
    assert s1 == OnStart(s, d, sid);
    assert s1.callSidOf[c] == Some(sid);
  }

  /** Closing a telephony socket twice has the effect of closing it once. */
  lemma TelephonyCloseIdempotent(s: State, c: ConnId)
    ensures Step(Step(s, TelephonyClose(c)), TelephonyClose(c)) == Step(s, TelephonyClose(c))
  {
    if c in s.callSidOf {
      var s1 := Step(s, TelephonyClose(c));
      assert s1 == OnTelephonyClose(s, c);
      assert s1.callSidOf == s.callSidOf;
    }
  }
}

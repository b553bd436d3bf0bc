/**
 * Pausing playback while the phone rings or a call is taken, and resuming it
 * once the call is over, as a two-state machine over `wasPlaying`.
 */
module AutoPause {
  import opened Modes

  datatype CallState = CallIdle | CallRinging | CallOffHook

  /** What a call-state change sends to the server. */
  datatype CallAction = NoAction | SendPause | SendPlay

  /**
   * One call-state change: the new `wasPlaying` and the command sent. The play
   * state is only consulted when a session is live.
   */
  function CallStep(autoPause: bool, wasPlaying: bool, state: CallState,
                    sessionLive: bool, play: PlayState): (r: (bool, CallAction))
    ensures r.1 == SendPause <==> autoPause && state != CallIdle && sessionLive && play == Playing
    ensures r.1 == SendPlay <==> autoPause && state == CallIdle && wasPlaying && sessionLive && play == Paused
    ensures r.1 == SendPause ==> r.0
    ensures r.1 == SendPlay ==> !r.0
    ensures r.1 == NoAction ==> r.0 == wasPlaying
  {
    if !autoPause then (wasPlaying, NoAction)
    else match state
      case CallIdle =>
        if wasPlaying && sessionLive && play == Paused then (false, SendPlay) else (wasPlaying, NoAction)
      case CallOffHook =>
        if sessionLive && play == Playing then (true, SendPause) else (wasPlaying, NoAction)
      case CallRinging =>
        if sessionLive && play == Playing then (true, SendPause) else (wasPlaying, NoAction)
  }

  /** A call-state change as the listener receives it, with the readings it makes. */
  datatype CallEvent = CallEvent(autoPause: bool, state: CallState, sessionLive: bool, play: PlayState)

  /** The final `wasPlaying` and the actions of a run of call-state changes. */
  function RunCalls(wasPlaying: bool, es: seq<CallEvent>): (bool, seq<CallAction>)
    decreases |es|
  {
    if es == [] then (wasPlaying, [])
    else
      var e := es[0];
      var step := CallStep(e.autoPause, wasPlaying, e.state, e.sessionLive, e.play);
      var tail := RunCalls(step.0, es[1..]);
      (tail.0, [step.1] + tail.1)
  }

  function Count(acts: seq<CallAction>, a: CallAction): nat
  {
    if acts == [] then 0 else (if acts[0] == a then 1 else 0) + Count(acts[1..], a)
  }

  /**
   * Playback is only ever resumed after it was paused for a call: over any run
   * of call-state changes, resumes plus a still-pending resume never outnumber
   * the pauses (plus one pending at the start).
   */
  lemma {:induction false} ResumesFollowPauses(w0: bool, es: seq<CallEvent>)
    ensures var (wf, acts) := RunCalls(w0, es);
            Count(acts, SendPlay) + (if wf then 1 else 0) <= Count(acts, SendPause) + (if w0 then 1 else 0)
    decreases |es|
  {
    if es != [] {
      var e := es[0];
      var step := CallStep(e.autoPause, w0, e.state, e.sessionLive, e.play);
      ResumesFollowPauses(step.0, es[1..]);
      var rest := RunCalls(step.0, es[1..]).1;
      assert RunCalls(w0, es).1 == [step.1] + rest;
      assert ([step.1] + rest)[1..] == rest;
    }
  }

  /** A ring while playing followed, once the server reports paused, by the call ending: pause then play. */
  lemma RingThenIdle()
    ensures RunCalls(false, [CallEvent(true, CallRinging, true, Playing), CallEvent(true, CallIdle, true, Paused)])
      == (false, [SendPause, SendPlay])
  {
    var idle := CallEvent(true, CallIdle, true, Paused);
    var es := [CallEvent(true, CallRinging, true, Playing), idle];
    assert es[1..] == [idle];
    assert [idle][1..] == [];
    assert RunCalls(false, []) == (false, []);
    assert RunCalls(true, [idle]) == (false, [SendPlay] + []);
    assert [SendPlay] + [] == [SendPlay];
    var step := CallStep(es[0].autoPause, false, es[0].state, es[0].sessionLive, es[0].play);
    assert step == (true, SendPause);
    assert RunCalls(step.0, es[1..]) == (false, [SendPlay]);
    assert RunCalls(false, es) == (false, [SendPause] + [SendPlay]);
    assert [SendPause] + [SendPlay] == [SendPause, SendPlay];
  }

  /** With auto-pause off, no run of call-state changes sends anything or touches `wasPlaying`. */
  lemma {:induction false} OffSendsNothing(w0: bool, es: seq<CallEvent>)
    requires forall i :: 0 <= i < |es| ==> !es[i].autoPause
    ensures RunCalls(w0, es).0 == w0
    ensures Count(RunCalls(w0, es).1, SendPause) == 0 && Count(RunCalls(w0, es).1, SendPlay) == 0
    decreases |es|
  {
    if es != [] {
      assert forall i :: 0 <= i < |es[1..]| ==> !es[1..][i].autoPause by {
        forall i | 0 <= i < |es[1..]| ensures !es[1..][i].autoPause { assert es[1..][i] == es[i + 1]; }
      }
      OffSendsNothing(w0, es[1..]);
      var rest := RunCalls(w0, es[1..]).1;
      assert RunCalls(w0, es).1 == [NoAction] + rest;
      assert ([NoAction] + rest)[1..] == rest;
    }
  }
}

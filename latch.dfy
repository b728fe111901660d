/** The hat block's received flag (`when_received`) together with the resets that
    `whenReceived` schedules, as a state machine over explicit time. */
module HatLatch {

  /** Delay, in milliseconds, between a poll that reads the flag as true and the reset
      that poll schedules. */
  const HAT_TIMEOUT: int := 100

  /** The flag, and the deadlines of the resets scheduled and not yet fired. */
  datatype State = State(flag: bool, pending: seq<int>)

  /** What happens to the latch: a successful classification completes, the hat block
      is polled at a time, or the clock reaches a time and every reset due fires. */
  datatype Event = Completed | Polled(at: int) | Ticked(at: int)

  /** Some pending reset is due at `now`. */
  predicate Due(pending: seq<int>, now: int)
  {
    exists i :: 0 <= i < |pending| && pending[i] <= now
  }

  /** The resets still pending once every reset due at `now` has fired. */
  function Later(pending: seq<int>, now: int): (rest: seq<int>)
    ensures forall d :: d in rest <==> d in pending && now < d
    ensures |rest| <= |pending|
    ensures |rest| == |pending| <==> !Due(pending, now)
  {
    if pending == [] then []
    else
      var tail := Later(pending[1..], now);
      assert Due(pending, now) <==> pending[0] <= now || Due(pending[1..], now) by {
        if Due(pending, now) && pending[0] > now {
          var i :| 0 <= i < |pending| && pending[i] <= now;
          assert pending[1..][i - 1] <= now;
        }
        if Due(pending[1..], now) {
          var i :| 0 <= i < |pending[1..]| && pending[1..][i] <= now;
          assert pending[i + 1] <= now;
        }
      }
      if pending[0] <= now then tail else [pending[0]] + tail
  }

  /** The latch after one event. */
  function Step(s: State, e: Event): State
  {
    match e
    case Completed => State(true, s.pending)
    case Polled(now) => if s.flag then State(true, s.pending + [now + HAT_TIMEOUT]) else s
    case Ticked(now) => State(s.flag && !Due(s.pending, now), Later(s.pending, now))
  }

  /** The latch after a series of events, applied first to last. */
  function Run(s: State, es: seq<Event>): State
    decreases |es|
  {
    if es == [] then s else Step(Run(s, es[..|es| - 1]), es[|es| - 1])
  }

  lemma RunSnoc(s: State, es: seq<Event>, e: Event)
    ensures Run(s, es + [e]) == Step(Run(s, es), e)
  {
    assert (es + [e])[..|es|] == es;
  }

  /** No event but a tick that reaches it removes a pending reset: later polls and
      completions never cancel it. */
  lemma {:induction false} ResetNeverCancelled(s: State, es: seq<Event>, d: int)
    requires d in s.pending
    requires forall i :: 0 <= i < |es| && es[i].Ticked? ==> es[i].at < d
    ensures d in Run(s, es).pending
    decreases |es|
  {
    if es != [] {
      var init := es[..|es| - 1];
      ResetNeverCancelled(s, init, d);
      RunSnoc(s, init, es[|es| - 1]);
      assert es == init + [es[|es| - 1]];
    }
  }

  /** Once a poll has scheduled the reset at `d`, the flag is false after the clock
      reaches `d`, whatever completions and polls came in between: the hold is not
      extended by later polls. */
  lemma EarliestResetClearsFlag(s: State, es: seq<Event>, d: int, now: int)
    requires d in s.pending && d <= now
    requires forall i :: 0 <= i < |es| && es[i].Ticked? ==> es[i].at < d
    ensures !Run(s, es + [Ticked(now)]).flag
  {
    ResetNeverCancelled(s, es, d);
    RunSnoc(s, es, Ticked(now));
    var p := Run(s, es).pending;
    var i :| 0 <= i < |p| && p[i] == d;
    assert Due(p, now);
  }

  /** The flag goes from false to true only through a successful completion. */
  lemma {:induction false} RaisedOnlyByCompletion(s: State, es: seq<Event>)
    requires !s.flag && Run(s, es).flag
    ensures exists i :: 0 <= i < |es| && es[i] == Completed
    decreases |es|
  {
    var init := es[..|es| - 1];
    var last := es[|es| - 1];
    if last != Completed {
      RaisedOnlyByCompletion(s, init);
      var i :| 0 <= i < |init| && init[i] == Completed;
      assert es[i] == Completed;
    }
  }
}

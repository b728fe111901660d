/** The command guard `actionRepeated`: one time stamp shared by every command block,
    and a strict 250 ms window after the previous attempt. */
module Debounce {
  import opened Optional

  /** Length of the window, in milliseconds, in which a further attempt is ignored. */
  const COOLDOWN: int := 250

  /** Whether a previous attempt is on record in the sense of the guard's test
      `this.blockClickedAt && ...`: JavaScript treats `null` and `0` alike as false. */
  predicate Recorded(prev: Option<int>)
  {
    prev.Some? && prev.value != 0
  }

  /** The verdict of `actionRepeated` for an attempt at `now` when the previous
      attempt was at `prev`. */
  predicate Repeated(prev: Option<int>, now: int)
  {
    Recorded(prev) && prev.value + COOLDOWN > now
  }

  /** The verdicts for a series of attempts, starting from the stamp `prev`. Every
      attempt, suppressed or not, becomes the stamp for the next. */
  function Verdicts(prev: Option<int>, attempts: seq<int>): (verdicts: seq<bool>)
    ensures |verdicts| == |attempts|
    decreases attempts
  {
    if attempts == [] then [] else [Repeated(prev, attempts[0])] + Verdicts(Some(attempts[0]), attempts[1..])
  }

  /** Each verdict depends only on the attempt just before it (or on `prev` for the first). */
  lemma {:induction false} VerdictAt(prev: Option<int>, attempts: seq<int>, i: int)
    requires 0 <= i < |attempts|
    ensures Verdicts(prev, attempts)[i] == Repeated(if i == 0 then prev else Some(attempts[i - 1]), attempts[i])
    decreases attempts
  {
    if i > 0 {
      VerdictAt(Some(attempts[0]), attempts[1..], i - 1);
    }
  }

  /** Rapid retries keep extending the window: once an attempt is suppressed, every
      following attempt less than 250 ms after its predecessor is suppressed too, however
      long ago the last admitted attempt was. */
  lemma RetriesExtendWindow(prev: Option<int>, attempts: seq<int>)
    requires |attempts| > 0 && Repeated(prev, attempts[0])
    requires forall i :: 0 <= i < |attempts| - 1 ==> attempts[i] != 0 && attempts[i + 1] < attempts[i] + COOLDOWN
    ensures forall i :: 0 <= i < |attempts| ==> Verdicts(prev, attempts)[i]
  {
    forall i | 0 <= i < |attempts|
      ensures Verdicts(prev, attempts)[i]
    {
      VerdictAt(prev, attempts, i);
      if i > 0 {
        assert attempts[i - 1] != 0 && attempts[(i - 1) + 1] < attempts[i - 1] + COOLDOWN;
      }
    }
  }

  /** An attempt 250 ms or more after the one before it is admitted, whether that one
      was admitted or suppressed. */
  lemma QuietGapAdmits(prev: Option<int>, attempts: seq<int>, i: int)
    requires 0 < i < |attempts| && attempts[i] >= attempts[i - 1] + COOLDOWN
    ensures !Verdicts(prev, attempts)[i]
  {
    VerdictAt(prev, attempts, i);
  }

  /** Two attempts less than 250 ms apart give "admit, suppress"; a third 300 ms after
      the second is admitted again. The boundary is strict: exactly 250 ms is admitted. */
  lemma CooldownSequence(t: int, gap: int)
    requires t != 0 && 0 <= gap < COOLDOWN
    ensures Verdicts(None, [t, t + gap, t + gap + 300]) == [false, true, false]
    ensures Verdicts(None, [t, t + COOLDOWN]) == [false, false]
  {
    var three := [t, t + gap, t + gap + 300];
    VerdictAt(None, three, 0);
    VerdictAt(None, three, 1);
    VerdictAt(None, three, 2);
    VerdictAt(None, [t, t + COOLDOWN], 1);
  }

  /** A suppressed retry 400 ms after the last admitted attempt: the window is not
      measured from the last command that took effect. */
  lemma SuppressedPastFirstWindow(t: int)
    requires t != 0 && t + 200 != 0
    ensures Verdicts(Some(t), [t + 200, t + 400]) == [true, true]
  {
    RetriesExtendWindow(Some(t), [t + 200, t + 400]);
  }
}

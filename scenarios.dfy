/** Clients of the extension that run it through the situations its timing rules are
    about, and what they observe. */
module Scenarios {
  import opened Optional
  import opened Classification
  import opened Extension

  /** Start with the one-second interval, let a classification complete at 1000 ms,
      poll at 1050 ms and at 1200 ms. The first poll sees the flag and the new top
      label; the reset it scheduled for 1150 ms has fired before the second. Before
      the completion the result getter is out of range. */
  method EndToEnd(ps: seq<Prediction>) returns (before: Option<string>, heldAt1050: bool, top: Option<string>, heldAt1200: bool)
    requires |ps| >= 1
    ensures before == None
    ensures heldAt1050 && top == Some(ps[0].className)
    ensures !heldAt1200
  {
    var b := new ImageClassifierBlocks("en", true);
    b.ToggleClassification("on", 1);
    before := b.GetResult1();
    b.Tick(1000);
    b.OnClassified(Succeeded(ps));
    b.Tick(1050);
    heldAt1050 := b.WhenReceived(1050);
    top := b.GetResult1();
    b.Tick(1200);
    heldAt1200 := b.WhenReceived(1200);
  }

  /** A later completion and a later poll do not move the first scheduled reset: the
      poll at 0 ms schedules a reset for 100 ms, and although a new result arrives at
      50 ms and is polled at 90 ms, the flag is down at 120 ms. */
  method ResetNotExtended(ps: seq<Prediction>, qs: seq<Prediction>) returns (first: bool, second: bool, third: bool)
    ensures first && second && !third
  {
    var b := new ImageClassifierBlocks("en", true);
    b.OnClassified(Succeeded(ps));
    first := b.WhenReceived(0);
    b.Tick(50);
    b.OnClassified(Succeeded(qs));
    second := b.WhenReceived(90);
    b.Tick(100);
    third := b.WhenReceived(120);
  }

  /** A result that arrives while an earlier reset is pending, and is not polled before
      that reset fires, is stored but never signalled to the hat block. */
  method UnpolledCompletionLost(ps: seq<Prediction>, qs: seq<Prediction>) returns (firstSeen: bool, signalled: bool, stored: seq<Prediction>)
    ensures firstSeen && !signalled && stored == qs
  {
    var b := new ImageClassifierBlocks("en", true);
    b.OnClassified(Succeeded(ps));
    firstSeen := b.WhenReceived(0);
    b.Tick(95);
    b.OnClassified(Succeeded(qs));
    b.Tick(100);
    signalled := b.WhenReceived(110);
    stored := b.results;
  }

  /** A failed classification leaves the flag and the results as they were. */
  method FailureChangesNothing(ps: seq<Prediction>, error: string) returns (held: bool, stored: seq<Prediction>)
    ensures held && stored == ps
  {
    var b := new ImageClassifierBlocks("en", true);
    b.OnClassified(Succeeded(ps));
    b.OnClassified(Failed(error));
    held := b.WhenReceived(0);
    stored := b.results;
  }

  /** All command blocks share one guard: turning the video off 249 ms after turning
      classification on is ignored, and a second try 250 ms after the ignored one goes
      through. */
  method SharedCooldown(t: int) returns (stillOn: bool, nowOff: bool)
    requires t != 0
    ensures stillOn && nowOff
  {
    var b := new ImageClassifierBlocks("ja", false);
    b.ToggleClassification("on", t);
    b.VideoToggle("off", t + 249);
    stillOn := b.videoEnabled;
    b.VideoToggle("off", t + 499);
    nowOff := !b.videoEnabled;
  }

  /** Turning classification off keeps the stale handle but stops its timer; turning it
      off again is harmless; choosing an interval afterwards starts a timer again, at
      the chosen period. */
  method OffThenInterval(t: int) returns (stale: Option<nat>, staleRuns: bool, running: nat, period: int)
    requires t != 0
    ensures stale == Some(1) && !staleRuns
    ensures running == 2 && period == 500
  {
    var b := new ImageClassifierBlocks("zh-cn", false);
    b.ToggleClassification("on", t);
    b.ToggleClassification("off", t + 250);
    b.ToggleClassification("off", t + 500);
    stale := b.timer;
    staleRuns := b.IssuesClassify(1);
    b.SetClassificationInterval("0.5", t + 750);
    running := b.timer.value;
    period := b.activeTimers[running];
  }
}

/** The state machine inside `Scratch3ImageClassifierBlocks`: the command guard, the
    classification timer slot, the result store with its completion callback, the hat
    latch and the video switch. Time is the explicit argument `now`, in milliseconds;
    timer handles are numbers and the browser's table of running repeating timers is
    the field `activeTimers`. */
module Extension {
  import opened Optional
  import opened Classification
  import Messages
  import Menus
  import Debounce
  import HatLatch

  class ImageClassifierBlocks {
    /** The locale chosen at construction. */
    var locale: string
    /** Time of the last attempt at any command block; `null` until the first one. */
    var blockClickedAt: Option<int>
    /** Period of the classification timer, in milliseconds. */
    var interval: int
    /** The handle last returned by `setInterval`; undefined until the first command
        that starts a timer. It is kept after the timer is cancelled. */
    var timer: Option<nat>
    /** Repeating timers still running, by handle, with their periods. */
    var activeTimers: map<nat, int>
    /** The handle the next `setInterval` returns; browsers never return 0. */
    var nextHandle: nat
    /** `when_received`, read by the hat block. */
    var received: bool
    /** Deadlines of the resets of `received` scheduled by polls and not yet fired. */
    var pendingResets: seq<int>
    /** The entries of the last successful classification. */
    var results: seq<Prediction>
    /** Whether the stage video device is on, and whether it is mirrored. */
    var videoEnabled: bool
    var mirror: bool

    /** The object invariant: at most one repeating timer runs, it is the one `timer`
        names, and it runs at the current `interval`. */
    ghost predicate Valid()
      reads this
    {
      && locale in Messages.AVAILABLE_LOCALES
      && interval in Menus.INTERVAL_CHOICES
      && nextHandle >= 1
      && (timer.Some? ==> 1 <= timer.value < nextHandle)
      && (forall h | h in activeTimers :: timer == Some(h) && activeTimers[h] == interval)
    }

    /** The hat latch part of the state. */
    function Latch(): HatLatch.State
      reads this
    {
      HatLatch.State(received, pendingResets)
    }

    /** Construction, apart from loading the camera and the classifier: no attempt on
        record, no timer, no results, the flag down, a one-second interval and the
        video device switched on with the mirroring it already had. */
    constructor (detectedLocale: string, deviceMirror: bool)
      ensures Valid()
      ensures locale == Messages.SetLocale(detectedLocale)
      ensures blockClickedAt == None && interval == 1000
      ensures timer == None && activeTimers == map[] && nextHandle == 1
      ensures Latch() == HatLatch.State(false, []) && results == []
      ensures videoEnabled && mirror == deviceMirror
    {
      locale := Messages.SetLocale(detectedLocale);
      blockClickedAt := None;
      interval := 1000;
      timer := None;
      activeTimers := map[];
      nextHandle := 1;
      received := false;
      pendingResets := [];
      results := [];
      videoEnabled := true;
      mirror := deviceMirror;
    }

    /** No two repeating timers ever run at once. */
    lemma AtMostOneTimer()
      requires Valid()
      ensures |activeTimers| <= 1
      ensures forall h | h in activeTimers :: activeTimers[h] == interval
    {
      if timer.Some? && timer.value in activeTimers {
        assert activeTimers.Keys == {timer.value};
      } else {
        assert activeTimers.Keys == {};
      }
    }

    /** `actionRepeated`: records `now` as the latest attempt in both branches and says
        whether it falls strictly within 250 ms of the previous recorded attempt. */
    method ActionRepeated(now: int) returns (repeated: bool)
      modifies this`blockClickedAt
      ensures repeated == Debounce.Repeated(old(blockClickedAt), now)
      ensures repeated <==> Debounce.Recorded(old(blockClickedAt)) && now < old(blockClickedAt).value + Debounce.COOLDOWN
      ensures blockClickedAt == Some(now)
    {
      if blockClickedAt.Some? && blockClickedAt.value != 0 && blockClickedAt.value + Debounce.COOLDOWN > now {
        blockClickedAt := Some(now);
        repeated := true;
      } else {
        blockClickedAt := Some(now);
        repeated := false;
      }
    }

    /** `setInterval`: starts a repeating timer with a fresh handle. */
    method SetInterval(period: int) returns (handle: nat)
      requires nextHandle !in activeTimers
      modifies this`activeTimers, this`nextHandle
      ensures handle == old(nextHandle) && nextHandle == handle + 1
      ensures handle !in old(activeTimers) && activeTimers == old(activeTimers)[handle := period]
    {
      handle := nextHandle;
      activeTimers := activeTimers[handle := period];
      nextHandle := nextHandle + 1;
    }

    /** `clearTimeout`: stops the timer `handle` if it still runs; harmless otherwise. */
    method ClearTimeout(handle: nat)
      modifies this`activeTimers
      ensures activeTimers == old(activeTimers) - {handle}
    {
      activeTimers := activeTimers - {handle};
    }

    /** `toggleClassification`: unless suppressed, stops the running timer and, for
        "on", starts exactly one new one at the unchanged interval. For any other
        state no timer runs afterwards and the stale handle stays in `timer`. */
    method ToggleClassification(state: string, now: int)
      requires Valid()
      modifies this`blockClickedAt, this`timer, this`activeTimers, this`nextHandle
      ensures Valid()
      ensures blockClickedAt == Some(now)
      ensures Debounce.Repeated(old(blockClickedAt), now) ==>
        timer == old(timer) && activeTimers == old(activeTimers) && nextHandle == old(nextHandle)
      ensures !Debounce.Repeated(old(blockClickedAt), now) && state == "on" ==>
        timer == Some(old(nextHandle)) && activeTimers == map[old(nextHandle) := interval] && nextHandle == old(nextHandle) + 1
      ensures !Debounce.Repeated(old(blockClickedAt), now) && state != "on" ==>
        timer == old(timer) && activeTimers == map[] && nextHandle == old(nextHandle)
    {
      var repeated := ActionRepeated(now);
      if repeated {
        return;
      }
      if timer.Some? {
        ClearTimeout(timer.value);
      }
      assert activeTimers == map[];
      if state == "on" {
        var handle := SetInterval(interval);
        timer := Some(handle);
      }
    }

    /** `setClassificationInterval`: unless suppressed, sets the period to the menu
        value times 1000 and leaves exactly one timer running at it, even when
        classification had been turned off. */
    method SetClassificationInterval(value: string, now: int)
      requires Valid() && value in Menus.INTERVAL_VALUES
      modifies this`blockClickedAt, this`interval, this`timer, this`activeTimers, this`nextHandle
      ensures Valid()
      ensures blockClickedAt == Some(now)
      ensures Debounce.Repeated(old(blockClickedAt), now) ==>
        interval == old(interval) && timer == old(timer) && activeTimers == old(activeTimers) && nextHandle == old(nextHandle)
      ensures !Debounce.Repeated(old(blockClickedAt), now) ==>
        && interval == Menus.IntervalMillis(value)
        && timer == Some(old(nextHandle)) && activeTimers == map[old(nextHandle) := interval]
        && nextHandle == old(nextHandle) + 1
    {
      var repeated := ActionRepeated(now);
      if repeated {
        return;
      }
      if timer.Some? {
        ClearTimeout(timer.value);
      }
      assert activeTimers == map[];
      interval := Menus.IntervalMillis(value);
      var handle := SetInterval(interval);
      timer := Some(handle);
    }

    /** `videoToggle`: unless suppressed, "off" switches the device off and leaves its
        mirroring alone; any other state switches it on, mirrored exactly for "on". */
    method VideoToggle(state: string, now: int)
      modifies this`blockClickedAt, this`videoEnabled, this`mirror
      ensures blockClickedAt == Some(now)
      ensures Debounce.Repeated(old(blockClickedAt), now) ==> videoEnabled == old(videoEnabled) && mirror == old(mirror)
      ensures !Debounce.Repeated(old(blockClickedAt), now) && state == "off" ==> !videoEnabled && mirror == old(mirror)
      ensures !Debounce.Repeated(old(blockClickedAt), now) && state != "off" ==> videoEnabled && mirror == (state == "on")
    {
      var repeated := ActionRepeated(now);
      if repeated {
        return;
      }
      if state == "off" {
        videoEnabled := false;
      } else {
        videoEnabled := true;
        mirror := state == "on";
      }
    }

    /** Whether the firing of timer `handle` issues a classification request: only the
        timer `timer` names can, and only while it runs, so a cancelled handle never does. */
    function IssuesClassify(handle: nat): (issues: bool)
      requires Valid()
      reads this
      ensures issues ==> timer == Some(handle)
      ensures issues <==> handle in activeTimers
    {
      handle in activeTimers
    }

    /** The completion callback of `classify`: an error changes nothing; a success
        raises the flag and replaces the results wholesale. */
    method OnClassified(completion: Completion)
      modifies this`received, this`results
      ensures completion.Failed? ==> received == old(received) && results == old(results)
      ensures completion.Succeeded? ==>
        received && results == completion.predictions && Latch() == HatLatch.Step(old(Latch()), HatLatch.Completed)
    {
      if completion.Succeeded? {
        received := true;
        results := completion.predictions;
      }
    }

    /** `whenReceived`, the hat block's poll: returns the flag; when it is up, schedules
        a reset `HAT_TIMEOUT` later and keeps every reset already scheduled. */
    method WhenReceived(now: int) returns (fired: bool)
      modifies this`pendingResets
      ensures fired == old(received)
      ensures pendingResets == if fired then old(pendingResets) + [now + HatLatch.HAT_TIMEOUT] else old(pendingResets)
      ensures Latch() == HatLatch.Step(old(Latch()), HatLatch.Polled(now))
    {
      if received {
        pendingResets := pendingResets + [now + HatLatch.HAT_TIMEOUT];
        fired := true;
        return;
      }
      fired := false;
    }

    /** The clock reaches `now`: every scheduled reset due by then fires, each lowering
        the flag, and no other reset is touched. */
    method Tick(now: int)
      modifies this`received, this`pendingResets
      ensures received <==> old(received) && forall d | d in old(pendingResets) :: now < d
      ensures forall d :: d in pendingResets <==> d in old(pendingResets) && now < d
      ensures Latch() == HatLatch.Step(old(Latch()), HatLatch.Ticked(now))
    {
      if HatLatch.Due(pendingResets, now) {
        var i :| 0 <= i < |pendingResets| && pendingResets[i] <= now;
        assert pendingResets[i] in pendingResets;
        received := false;
      } else {
        forall d | d in pendingResets
          ensures now < d
        {
          var i :| 0 <= i < |pendingResets| && pendingResets[i] == d;
        }
      }
      pendingResets := HatLatch.Later(pendingResets, now);
    }

    /** `getResult1`: the label ranked first; out of range while no result is held. */
    function GetResult1(): (name: Option<string>)
      reads this
      ensures name.None? <==> results == []
      ensures name.Some? ==> name.value == results[0].className
    {
      if |results| >= 1 then Some(results[0].className) else None
    }

    /** `getResult2`: the label ranked second; out of range with fewer than two entries. */
    function GetResult2(): (name: Option<string>)
      reads this
      ensures name.Some? <==> |results| >= 2
      ensures name.Some? ==> name.value == results[1].className
    {
      if |results| >= 2 then Some(results[1].className) else None
    }

    /** `getResult3`: the label ranked third; out of range with fewer than three entries. */
    function GetResult3(): (name: Option<string>)
      reads this
      ensures name.Some? <==> |results| >= 3
      ensures name.Some? ==> name.value == results[2].className
    {
      if |results| >= 3 then Some(results[2].className) else None
    }

    /** `getConfidence1`: the confidence ranked first; out of range while no result is held. */
    function GetConfidence1(): (confidence: Option<real>)
      reads this
      ensures confidence.None? <==> results == []
      ensures confidence.Some? ==> confidence.value == results[0].confidence
    {
      if |results| >= 1 then Some(results[0].confidence) else None
    }

    /** `getConfidence2`: the confidence ranked second; out of range with fewer than two entries. */
    function GetConfidence2(): (confidence: Option<real>)
      reads this
      ensures confidence.Some? <==> |results| >= 2
      ensures confidence.Some? ==> confidence.value == results[1].confidence
    {
      if |results| >= 2 then Some(results[1].confidence) else None
    }

    /** `getConfidence3`: the confidence ranked third; out of range with fewer than three entries. */
    function GetConfidence3(): (confidence: Option<real>)
      reads this
      ensures confidence.Some? <==> |results| >= 3
      ensures confidence.Some? ==> confidence.value == results[2].confidence
    {
      if |results| >= 3 then Some(results[2].confidence) else None
    }
  }
}

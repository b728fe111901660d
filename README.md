# ImageClassifier2Scratch: a Dafny model of the classification scheduler and hat latch

The Scratch extension `Scratch3ImageClassifierBlocks` classifies the camera image with an
image classifier on a repeating timer. It reports the last results through six reporter
blocks and signals each new result to a hat block through the flag `when_received`. Three
command blocks turn classification on or off, choose its interval and switch the stage
video. All three share one guard against repeated clicks. This project models that state
machine and proves what it does.

- `Messages` (messages.dfy): the table of block texts in four locales and the fallback
  `setLocale` makes to English.
- `Menus` (menus.dfy): the video, classification and interval menus, and the period in
  milliseconds each interval value produces.
- `Debounce` (debounce.dfy): the verdict of `actionRepeated` and its behaviour over a
  series of attempts. A suppressed attempt still refreshes the window. The comparison is
  strict, so an attempt exactly 250 ms after the previous one is admitted. The guard reads
  the stored time the way JavaScript does: a stored time of `0` counts as no attempt.
- `HatLatch` (latch.dfy): the flag and the list of reset deadlines scheduled by polls, as
  a state machine over completions, polls and clock ticks.
- `Classification` (classification.dfy): what a classification call delivers.
- `Extension` (extension.dfy): the class `ImageClassifierBlocks`. Its fields are the ones the
  source updates in place. Its methods are the commands, the completion callback, the hat
  poll and the clock tick. Each method is specified by the new values of the fields it may
  change. The object invariant `Valid` says that at most one repeating timer runs, that it
  is the one `timer` names, and that it runs at the current `interval`.
- `Scenarios` (scenarios.dfy): client methods that drive the class through the timing
  situations below and state what they observe.

Time is an explicit argument `now` in milliseconds, standing for `Date.now()`. A timer
handle is a number. The browser's table of running repeating timers is the field
`activeTimers`, and `nextHandle` is the next handle `setInterval` returns. A reset
scheduled by `setTimeout` in `whenReceived` is a deadline in `pendingResets`. The method
`Tick(now)` fires every deadline at or before `now`. Each reset only lowers the flag, so the
order in which due resets fire does not matter. A caller expresses any interleaving of
completions, polls and resets by ticking the clock between events.

Three consequences of the code are worth stating:
- The hold of the flag is not rolling. Every poll that reads the flag as true schedules
  its own reset 100 ms later, and no reset is ever cancelled. So the flag drops at the
  earliest pending deadline, even when later polls and later results came in between
  (`HatLatch.EarliestResetClearsFlag`, `Scenarios.ResetNotExtended`). A result that arrives
  while a reset is pending, with no poll before that reset fires, is never signalled
  (`Scenarios.UnpolledCompletionLost`). So delivery is not guaranteed at least once.
- A getter whose rank exceeds the number of results makes JavaScript throw a TypeError.
  The model returns `None` there.
- `videoToggle` drives the stage video device only. The classifier reads the extension's
  own camera element, so turning the video off does not stop classification.

## Model

| member | source | states |
|---|---|---|
| Messages.SetLocale | scratch-vm/src/extensions/scratch3_ic2scratch/index.js:363-370 | the result is always an available locale, and it equals the detected locale exactly when that locale is available (otherwise "en") |
| Messages.MessageTableComplete | scratch-vm/src/extensions/scratch3_ic2scratch/index.js:10-91 | every message key has a text for each of the four available locales and for no other |
| Messages.LocalizedTextDefined | scratch-vm/src/extensions/scratch3_ic2scratch/index.js:10-98 | looking up any message under the locale chosen by `setLocale` always finds a text |
| Menus.VideoMenu | scratch-vm/src/extensions/scratch3_ic2scratch/index.js:312-327 | the values are off, on, on-flipped in that order, each labelled with its own message in the current locale |
| Menus.ClassificationMenu | scratch-vm/src/extensions/scratch3_ic2scratch/index.js:350-361 | the values are off, on in that order, each labelled with its own message in the current locale |
| Menus.ClassificationIntervalMenu | scratch-vm/src/extensions/scratch3_ic2scratch/index.js:329-348 | the values are 5, 2, 1, 0.5 seconds in that order, each shown as its own value |
| Menus.IntervalMillis | scratch-vm/src/extensions/scratch3_ic2scratch/index.js:271 | each menu value times 1000 is one of the periods 5000, 2000, 1000, 500 ms |
| Menus.IntervalMenuCoversChoices | scratch-vm/src/extensions/scratch3_ic2scratch/index.js:329-348 | every period is produced by some menu value, and the menu lists the periods strictly from longest to shortest |
| Debounce.Verdicts | scratch-vm/src/extensions/scratch3_ic2scratch/index.js:300-310 | a series of attempts gets one verdict per attempt |
| Debounce.VerdictAt | scratch-vm/src/extensions/scratch3_ic2scratch/index.js:300-310 | each verdict depends only on the attempt just before it: every attempt, suppressed or not, becomes the new stamp |
| Debounce.RetriesExtendWindow | scratch-vm/src/extensions/scratch3_ic2scratch/index.js:302-305 | once one attempt is suppressed, every following attempt less than 250 ms after its predecessor is suppressed too, however long ago the last admitted attempt was |
| Debounce.QuietGapAdmits | scratch-vm/src/extensions/scratch3_ic2scratch/index.js:302-308 | an attempt 250 ms or more after the previous attempt is admitted, whether that attempt was admitted or not |
| Debounce.CooldownSequence | scratch-vm/src/extensions/scratch3_ic2scratch/index.js:300-310 | two attempts less than 250 ms apart give admit then suppress, a third 300 ms later is admitted, and an attempt exactly 250 ms later is admitted |
| Debounce.SuppressedPastFirstWindow | scratch-vm/src/extensions/scratch3_ic2scratch/index.js:302-305 | a retry 400 ms after the last admitted attempt is still suppressed when a retry 200 ms after it came between |
| HatLatch.Later | scratch-vm/src/extensions/scratch3_ic2scratch/index.js:242-244 | after the due resets fire, the pending deadlines are exactly the old ones later than now, and the list is shorter exactly when some reset was due |
| HatLatch.ResetNeverCancelled | scratch-vm/src/extensions/scratch3_ic2scratch/index.js:240-248 | a scheduled reset stays pending through any completions and polls until the clock reaches its deadline |
| HatLatch.EarliestResetClearsFlag | scratch-vm/src/extensions/scratch3_ic2scratch/index.js:240-248 | once the clock reaches the deadline of any scheduled reset, the flag is false, whatever completions and polls came in between |
| HatLatch.RaisedOnlyByCompletion | scratch-vm/src/extensions/scratch3_ic2scratch/index.js:289-298 | the flag goes from false to true only through a successful completion |
| Extension.ImageClassifierBlocks.constructor | scratch-vm/src/extensions/scratch3_ic2scratch/index.js:94-127 | initially no attempt is recorded, no timer runs, no results are held, the flag is down with no pending reset, the interval is 1000 ms, the video device is on, and the locale is the one `setLocale` chose |
| Extension.ImageClassifierBlocks.AtMostOneTimer | scratch-vm/src/extensions/scratch3_ic2scratch/index.js:250-275 | in every valid state at most one repeating timer runs, at the current interval |
| Extension.ImageClassifierBlocks.ActionRepeated | scratch-vm/src/extensions/scratch3_ic2scratch/index.js:300-310 | returns true exactly when a nonzero previous time is recorded and now is strictly before it plus 250 ms; records now in both branches |
| Extension.ImageClassifierBlocks.SetInterval | scratch-vm/src/extensions/scratch3_ic2scratch/index.js:258-260 | starting a repeating timer returns a fresh handle and adds exactly that timer with the given period |
| Extension.ImageClassifierBlocks.ClearTimeout | scratch-vm/src/extensions/scratch3_ic2scratch/index.js:254-256 | cancelling a handle removes that timer if it runs and is harmless otherwise |
| Extension.ImageClassifierBlocks.ToggleClassification | scratch-vm/src/extensions/scratch3_ic2scratch/index.js:250-262 | a suppressed call changes only the guard; otherwise the running timer stops, "on" leaves exactly one new timer at the unchanged interval, and any other state leaves none while keeping the stale handle |
| Extension.ImageClassifierBlocks.SetClassificationInterval | scratch-vm/src/extensions/scratch3_ic2scratch/index.js:264-275 | a suppressed call changes only the guard; otherwise the interval becomes the menu value times 1000 and exactly one new timer runs at it, even after classification was turned off |
| Extension.ImageClassifierBlocks.VideoToggle | scratch-vm/src/extensions/scratch3_ic2scratch/index.js:277-287 | a suppressed call changes only the guard; otherwise "off" disables the video and keeps mirroring, and any other state enables it, mirrored exactly for "on" |
| Extension.ImageClassifierBlocks.IssuesClassify | scratch-vm/src/extensions/scratch3_ic2scratch/index.js:258-260 | a timer firing issues a classification request exactly when it still runs, and then it is the timer the extension holds |
| Extension.ImageClassifierBlocks.OnClassified | scratch-vm/src/extensions/scratch3_ic2scratch/index.js:289-298 | an error changes nothing; a success raises the flag and replaces the results wholesale with the returned entries |
| Extension.ImageClassifierBlocks.WhenReceived | scratch-vm/src/extensions/scratch3_ic2scratch/index.js:240-248 | returns the flag; when it is down nothing changes; when it is up a reset at now plus 100 ms is added and no earlier reset is removed |
| Extension.ImageClassifierBlocks.Tick | scratch-vm/src/extensions/scratch3_ic2scratch/index.js:242-244 | the flag stays up exactly when it was up and no pending reset is due, and exactly the resets not yet due remain pending |
| Extension.ImageClassifierBlocks.GetResult1 | scratch-vm/src/extensions/scratch3_ic2scratch/index.js:216-218 | the top-ranked label, out of range exactly when no result is held |
| Extension.ImageClassifierBlocks.GetResult2 | scratch-vm/src/extensions/scratch3_ic2scratch/index.js:220-222 | the second label, out of range exactly when fewer than two results are held |
| Extension.ImageClassifierBlocks.GetResult3 | scratch-vm/src/extensions/scratch3_ic2scratch/index.js:224-226 | the third label, out of range exactly when fewer than three results are held |
| Extension.ImageClassifierBlocks.GetConfidence1 | scratch-vm/src/extensions/scratch3_ic2scratch/index.js:228-230 | the top-ranked confidence, out of range exactly when no result is held |
| Extension.ImageClassifierBlocks.GetConfidence2 | scratch-vm/src/extensions/scratch3_ic2scratch/index.js:232-234 | the second confidence, out of range exactly when fewer than two results are held |
| Extension.ImageClassifierBlocks.GetConfidence3 | scratch-vm/src/extensions/scratch3_ic2scratch/index.js:236-238 | the third confidence, out of range exactly when fewer than three results are held |
| Scenarios.EndToEnd | scratch-vm/src/extensions/scratch3_ic2scratch/index.js:216-260 | with classification on and a result at 1000 ms, a poll at 1050 ms sees the flag and the new top label, a poll at 1200 ms does not, and the getter is out of range before the result |
| Scenarios.ResetNotExtended | scratch-vm/src/extensions/scratch3_ic2scratch/index.js:240-248 | a reset scheduled at 0 ms for 100 ms lowers the flag by 120 ms although a new result came at 50 ms and was polled at 90 ms |
| Scenarios.UnpolledCompletionLost | scratch-vm/src/extensions/scratch3_ic2scratch/index.js:240-248 | the first result is seen by a poll; a second result that arrives while that poll's reset is pending, and is not polled before it fires, is stored but never signalled |
| Scenarios.FailureChangesNothing | scratch-vm/src/extensions/scratch3_ic2scratch/index.js:289-298 | a failed classification after a successful one leaves the flag up and the earlier results in place |
| Scenarios.SharedCooldown | scratch-vm/src/extensions/scratch3_ic2scratch/index.js:250-287 | turning the video off 249 ms after turning classification on is ignored, and a retry 250 ms after the ignored attempt goes through |
| Scenarios.OffThenInterval | scratch-vm/src/extensions/scratch3_ic2scratch/index.js:250-275 | turning classification off keeps the stale handle but stops its timer, turning it off again is harmless, and choosing 0.5 s afterwards starts a new timer at 500 ms |

## Left out

- The constructor's model-load callback (lines 119-124) is left out. It starts a timer
  without cancelling an existing one, at whatever time the model finishes loading. That is
  an asynchronous race outside this sequential model, and with it the at-most-one-timer
  invariant would not hold. In the model no timer runs until a command starts one.
- Camera acquisition (`getUserMedia`), the `<video>` element and the stage video device are
  not modelled. The device is reduced to its on/off and mirror flags. Its mirroring at
  construction is an input.
- The classifier and its internals are external. Each completion is an input event carrying
  an error or the ranked entries. Confidences are opaque numbers (`real`).
- Real timer scheduling is not modelled, and neither are classification calls still in
  flight when the next one starts. Each timer firing is only the question
  `IssuesClassify`. A completion may be delivered at any point.
- `getInfo` and its refresh of the locale, the block declarations, and logging to the
  console are left out. They are metadata and I/O.
- Extension.ImageClassifierBlocks.SetClassificationInterval: accepts only the four interval
  menu values. JavaScript's coercion of any other string in `value * 1000` is not modelled.

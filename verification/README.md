# The doorbell daemon, verified

A Dafny model of the porchlight doorbell's decision engine (`porchlightd/src/core/`), of the
objects that run its two child processes (`porchlightd/src/io/`, `porchlightd/src/daemon.cpp`),
and of four smaller pieces around them: the person detector (`pi/record-clip.py`), the
reassembly of lines from pipes, the face-list worker (`pi/server-bridge.py`) and the boot slot
chooser (`boot.cmd`). `dafny verify dfyconfig.toml` checks all of it.

## How it is built

Code that works by changing fields is a class whose methods change those fields, and every such
method is proved equal to a function of the old state: `Cores.Core` to `CoreRules`,
`AlertQueues.AlertQueue` to `AlertQueueRules`, `Recorders.GstRecorder` to `RecorderRules`,
`Medias.ScriptMedia` to `MediaRules`, `Boots.BootScript` to `BootRules`, and so on. The theorems
are about those functions, over every run, and say what an event comes to in terms of what was
handled before it, without naming the rule that handles it.

| file | what it holds |
|---|---|
| `types.dfy` | events, actions, policy |
| `backoff.dfy`, `alert_queue.dfy`, `alert_ledger.dfy` | the retry schedule; the alert queue; the queue as a FIFO with drops |
| `core_rules.dfy`, `core.dfy` | the decision engine as a function, and as the object that runs |
| `core_runs.dfy` | the invariant of who has the camera |
| `core_stories.dfy`, `core_alerting.dfy`, `core_timing.dfy`, `core_deadlines.dfy`, `core_wakeups.dfy` | exactly-once alerting, rate limits, timers and bounded response, all told beat by beat; when the wake-up asked for lies ahead |
| `core_sensors.dfy`, `core_verdicts.dfy`, `core_viewers.dfy` | what each motion, press, verdict and request to watch comes to, from everything before it |
| `core_clips.dfy`, `core_spool.dfy`, `core_discards.dfy`, `core_spooling.dfy` | what is said about a clip; the cap; no clip lost track of; which are kept, which go, when one is uploaded |
| `core_sends.dfy`, `core_retries.dfy`, `core_outbox.dfy` | which alerts left and when; retry spacing; whose turn it is and that nobody waits in vain |
| `core_light.dfy`, `core_orders.dfy`, `core_actions.dfy` | the light; what the recorder and the call are told; that nothing leaves uncalled for |
| `drain_rules.dfy`, `daemon.dfy` | the drain loop and why it ends |
| `recorder.dfy`, `recorder_runs.dfy`, `media.dfy`, `device.dfy` | the two child processes, and the whole device: one camera |
| `lines.dfy`, `detector.dfy`, `faces.dfy`, `boot.dfy` | the smaller pieces |

A `State` of the engine carries history fields (`log`, `enqueued`, `attempts`, the spool's
`history`) that no rule reads; the theorems are stated over them, and where a field could drift from the
run it stands for, a theorem ties it back to the inputs and the trace (`CoreRuns.MintedBySensor`,
`CoreSends.AttemptsAreSends`, `CoreSends.SendsWereQueued`). A run is a sequence of inputs,
each an event, the steady time it is handled at and the id the id source would give out.

## Assumptions

- Steady time does not go back, and the id source never gives the same id twice (`CoreRules.Legal`).
- The policy is one `config.cpp` accepts (`Types.ValidPolicy`, `porchlightd/src/config.cpp:155-244`);
  only the retry and drain theorems need it.
- The drain theorems let the clock move on between two core steps of one drain, by less than the first
  retry delay in all (`DrainRules.Within`). A drain that outlasts that delay may retry inside itself.
- The recorder is at rest before it reports an end of its own, so `Daemons.Daemon.recorderBusy` is
  already false when the drain that report starts asks for it (`Daemons.Daemon.RecorderEnds`).
- The reactor runs one callback at a time and `deliver` drains before it returns, so an event from
  outside arrives only when nothing is pending; a backend may report from inside an action.
- A backend asked to send an alert or a clip answers with alert results, upload results and link
  reports only, at any time and as many as it likes (`DeviceRules.Answer`).
- What processes, pipes, disks and clocks do is an argument or an arbitrary choice: whether a spawn
  works, when a child exits and how, what bytes a read returns, what is found on disk.

## What turned out

- With `ring_led` set to zero the light still shows a ring on the press itself: the pattern lapses
  only at the next event (`CoreLight.LightNeverLies` carries that clause).
- A queue of capacity one holds two alerts while one is in flight (`AlertLedger.CapacityOneHoldsTwo`);
  from two on, the capacity is the bound.
- "Discarded if and only if evicted" fails of the core alone: reporting one recording's end twice discards
  a clip that is still queued (`CoreDiscards.StrayAnswerDiscards`, a run of three events). Exactly: a spooled
  clip's id is discarded if and only if it was evicted or some report with a file named it while it was
  not the running event's (`CoreDiscards.DiscardedIffEvictedOrStray`). The device's recorder never gives
  such a report (`DeviceRuns.DeviceIsARun`), so in the device the plain statement holds
  (`DeviceRuns.ClipsAreAccountedFor`).
- The wake-up asked for need not lie ahead. A retry time is cleared only by a success, so once it has come
  and the answer has not, or the link is down, every wake-up asks for another at once: during an outage that
  began with an alert in flight the daemon does not sleep (`CoreWakeups.OutageSpins`, three events;
  `CoreWakeups.WakesOnAndOn`, any number of wake-ups). It lies ahead exactly when no such retry time is over,
  the alert in flight is younger than the maximum age, and no timer was set for no time
  (`CoreWakeups.DeadlineIsAheadIff`, `CoreWakeups.TimersLieAhead`). No action is repeated by it
  (`CoreDeadlines.SettledAfter`).
- The clip being uploaded is never evicted while it is on its way (`CoreSpooling.OldestGoFirst`), and no
  more than that: once its upload has failed it is the oldest like any other, and the next to go.
- The boot script's comment promises the other slot "after three tries". With both slots named, in either
  order, the other slot comes within a slot's own tries if and only if it has a try itself
  (`BootRules.WithinItsTriesIff`); in general it takes up to those tries plus five runs
  (`BootRules.FallsBack`), and that bound is reached (`BootRules.NoSooner`).
- The recorder reports an error if it is started while busy, and a comment there says the core never
  does this. It never does (`DeviceSafety.OrdersFindRoom`).

## Model

| member | source | states |
|---|---|---|
| `DeviceSafety.CameraExclusion` | porchlightd/src/io/script_media.cpp:20-24 | In every state the device can reach, under any order of child exits, spawn failures, timers, viewers, presses and shutdown, the recorder's child and the call's child are never both there |
| `DeviceSafety.OrdersFindRoom` | porchlightd/src/io/gst_recorder.cpp:407-415 | Whenever StartRecording is carried out the recorder is at rest and no call process runs; whenever StartCall is, no recording is running or unreported |
| `DeviceSafety.TheCoreIsRight` | porchlightd/src/io/script_media.cpp:255-266 | With nothing pending, the core counts a recording exactly while the recorder has a child, and its viewers are exactly those the call process serves, which runs exactly while there are any |
| `DeviceSafety.ShutdownWindsDown` | porchlightd/src/core/core.cpp:283-299 | After a shutdown, once drained, a call still running has been told to stop and a recording still running is flushing |
| `DeviceSafety.MoveKeeps` | porchlightd/src/daemon.cpp:37-88 | Every single step of the device keeps the invariant: one ticket per recording, every viewer in exactly one place, one event behind order, child and report |
| `DeviceRuns.DeviceIsARun` | porchlightd/src/daemon.cpp:42-69 | The core inside the device is in the state of a run over the events it handled, and no recording is ever reported under another event's id |
| `DeviceRuns.ClipsAreAccountedFor` | porchlightd/src/core/core.cpp:185-214 | In the device, a spooled clip was announced by DiscardClip exactly when it was evicted |
| `CoreOrders.HandleOrders` | porchlightd/src/core/core.cpp:24-54 | What one handling tells the recorder and the call, with the times it gives the recorder, is exactly what the camera's state before and after calls for; a recording begins only from rest, is freed only by its end report, and starts stopping only for a viewer, a verdict or a shutdown |
| `CoreOrders.NewOrders` | porchlightd/src/core/core.cpp:24-54 | The same, read off the actions that handling adds |
| `CoreActions.NothingUncalledFor` | porchlightd/src/core/core.cpp:24-54 | In every reachable state, whatever leaves the core is of a kind its event calls for |
| `CoreActions.ShutdownIsQuiet` | porchlightd/src/core/core.cpp:283-299 | After a shutdown nothing leaves but the light and, at the end of a recording, the discarding of files |
| `CoreActions.EveryPressChimes` | porchlightd/src/core/core.cpp:110-120 | Every press before a shutdown sounds the chime, before anything else and once |
| `CoreRuns.CameraRun` | porchlightd/src/core/core.cpp:89-220 | In every reachable state a recording excludes viewers, a deferred call waits only for a recording being stopped, an event exists exactly while recording, cut short exactly while stopping |
| `CoreAlerting.ExactlyOnce` | porchlightd/src/core/core.cpp:110-156 | For every id ever drawn the alerts queued are a motion, a ring, or a motion then a ring; none only while the alert is still held, or after the camera said nobody about that very motion while it was held; and none while it is held |
| `CoreAlerting.NeverTwice` | porchlightd/src/core/core.cpp:301-371 | Two alerts under one id are a motion first and a ring after it: nothing is queued twice and no motion follows its ring |
| `CoreAlerting.NoStrangers` | porchlightd/src/core/core.cpp:301-361 | Every alert queued is under an id that was drawn |
| `CoreAlerting.SilencedRun` | porchlightd/src/core/core.cpp:222-254 | An id is silenced only by a no-person verdict that came while its motion was being held |
| `CoreVerdicts.HushSilences` | porchlightd/src/core/core.cpp:237-254 | In every reachable state a no-person verdict about the motion being held queues nothing, marks the recording unwanted, sets the cooldown to the short one from now, and stops the recording if it runs |
| `CoreVerdicts.HushedIsNeverAMotion` | porchlightd/src/core/core.cpp:222-254 | Over every legal run, an id so answered is never queued as a motion, however long the run goes on |
| `CoreVerdicts.VerdictReleases` | porchlightd/src/core/core.cpp:237-240 | Any other verdict about the alert being held, and any verdict about a held ring, queues it in that very handling under its own stamp with the faces the verdict names, and leaves the cooldown alone |
| `CoreVerdicts.OtherVerdictsSayNothing` | porchlightd/src/core/core.cpp:222-234 | A verdict about another id or an alert already decided silences nothing, and queues nothing but an alert whose time is up |
| `CoreVerdicts.FacesAreKept` | porchlightd/src/core/core.cpp:227-230 | The faces kept with a recording are those the last verdict about it that saw somebody named |
| `CoreSensors.TimersFollowTheInputs` | porchlightd/src/core/core.cpp:77-122 | In every legal run the press window and the motion cooldown are those the presses, motions and verdicts handled set |
| `CoreSensors.MotionIgnored` | porchlightd/src/core/core.cpp:89-99 | A motion inside the cooldown, after shutdown or while a recording is there draws no id and queues nothing new |
| `CoreSensors.MotionAnswered` | porchlightd/src/core/core.cpp:100-108 | Any other is alerted at once, unrecorded, while somebody watches; is recorded and held for the full wait when a person is looked for; is alerted at once and recorded otherwise |
| `CoreSensors.PressIgnored` | porchlightd/src/core/core.cpp:110-121 | A press inside the window or after shutdown draws no id and is owed no ring |
| `CoreSensors.PressAnswered` | porchlightd/src/core/core.cpp:155-156 | One that counts and joins no recording draws an id and is a ring: at once if the camera is taken, else recorded, held for the face wait if there is one and queued at once if not |
| `CoreSensors.PressJoined` | porchlightd/src/core/core.cpp:124-153 | One that joins a recording draws none: a ring's goes on as it was, a motion's becomes a ring under its own id, held on for at most the face wait if it was held, otherwise queued at once with the faces seen |
| `CoreSensors.EndReleases` | porchlightd/src/core/core.cpp:185-193 | The end of a recording queues the alert held for it, with no faces, and no other |
| `CoreSensors.OthersQueueTheLate` | porchlightd/src/core/core.cpp:366-371 | An event from neither sensor nor recorder queues nothing but a held alert whose time is up |
| `CoreStories.TheStoryGoesOn` | porchlightd/src/core/core.cpp:24-54 | In every reachable state one event changes the held alert, the alerts queued, the ids drawn and the silenced as one table over event and state says |
| `CoreViewers.TheKeptCall` | porchlightd/src/core/core.cpp:158-220 | In every run the call kept is that of the last viewer to ask while the present recording was there, unless since withdrawn, shut down or over |
| `CoreViewers.AskedWhileFree` | porchlightd/src/core/core.cpp:158-176 | A request before shutdown that finds no recording is a StartCall in its own handling |
| `CoreViewers.AskedWhileRecording` | porchlightd/src/core/core.cpp:158-220 | One that finds a recording leaves it stopping, and the handling of that recording's end starts the call, unless another request, a withdrawal or a shutdown came between |
| `CoreViewers.OnlyTheAskedAreCalled` | porchlightd/src/core/core.cpp:158-220 | No call is started but for these two reasons |
| `CoreTiming.RateLimits` | porchlightd/src/core/core.cpp:77-156 | Any two ring alerts of a run carry stamps at least the press window apart, any two motion alerts at least the motion cooldown, although a silenced motion shortens the cooldown |
| `CoreTiming.AlertBudget` | porchlightd/src/core/core.cpp:89-156 | In any interval at most length / spacing + 1 alerts of a kind are stamped |
| `CoreDeadlines.DeadlineIsTheFirst` | porchlightd/src/core/core.cpp:56-75 | The wake-up asked for is the first of all the instants at which something runs out; none exactly when there is none, or after a shutdown |
| `CoreWakeups.DeadlineIsAheadIff` | porchlightd/src/core/core.cpp:56-75 | After every event before shutdown the wake-up asked for lies ahead, if any is, if and only if no retry time that came is still set, the alert in flight is young, and no timer was set for no time |
| `CoreWakeups.WakesOnAndOn` | porchlightd/src/core/core.cpp:56-75 | Once a retry time is over, every one of any number of wake-ups asks for another at once |
| `CoreWakeups.OutageSpins` | porchlightd/src/core/alert_queue.cpp:66-83 | A legal run of three events after which that is so for as long as the link stays down |
| `CoreWakeups.TimersLieAhead` | porchlightd/src/core/core.cpp:77-122 | With durations above zero no timer is over in the handling that set it |
| `CoreDeadlines.TickIsSilent` | porchlightd/src/core/core.cpp:56-87 | From a settled state a Tick before the deadline emits no action |
| `CoreDeadlines.SettledAfter` | porchlightd/src/core/core.cpp:45-54 | After any handling nothing is due: no held alert overdue, no alert or upload ready, the light as wanted |
| `CoreDeadlines.OneTimerIsEnough` | porchlightd/src/core/core.cpp:56-75 | After any run, a Tick at any time before the deadline asked for emits nothing, shutdown included |
| `CoreDeadlines.NotOverdueAfter` | porchlightd/src/core/core.cpp:366-371 | After any handling a held alert is still within its verdict time, and the deadline asked for is not later than it |
| `CoreDeadlines.HeldIsDue` | porchlightd/src/core/core.cpp:124-151 | In every legal run, however late its events, a held motion is due exactly window + face search + grace after its sensor fired, a held ring at most the face wait after its press |
| `CoreDeadlines.RingInTime` | porchlightd/src/core/core.cpp:110-151 | A driver late by at most some slack queues every ring within the face wait plus that slack of its press, or is still holding it in time |
| `CoreDeadlines.AlertInTime` | porchlightd/src/core/core.cpp:301-371 | Every alert is queued no earlier than its stamp and no later than the wait of its kind plus the driver's slack |
| `CoreDeadlines.PressIsOwedARing` | porchlightd/src/core/core.cpp:110-156 | Exactly which presses owe a ring: not after shutdown, not inside the window, not onto a ring's recording; and under which id |
| `CoreClips.EveryClipHasItsAlert` | porchlightd/src/core/core.cpp:185-220 | Every clip ever spooled has an alert of its id and kind queued, carries the time of the very sensor event that drew its id, is partial exactly when that recording was told to stop, and is a ring's if its motion was silenced |
| `CoreSpool.EvictKeepsLongestFit` | porchlightd/src/core/core.cpp:408-427 | Eviction keeps the part it may not touch and the longest suffix that fits, and drops exactly the clips between |
| `CoreDiscards.SpoolConserves` | porchlightd/src/core/core.cpp:185-267 | In every reachable state the queued clips fit the cap, and each clip ever spooled is in exactly one place: queued, confirmed or evicted |
| `CoreDiscards.DiscardedIffEvictedOrStray` | porchlightd/src/core/core.cpp:193-214 | In every legal run a spooled clip's id was discarded exactly when the clip was evicted or a report with a file named that id while it was not the running event's |
| `CoreDiscards.DiscardedIffEvicted` | porchlightd/src/core/core.cpp:408-427 | Hence exactly when evicted, if no report ever names another event than the running one |
| `CoreDiscards.StrayDiscards` | porchlightd/src/core/core.cpp:203-214 | A report that names another event discards the file it names and leaves the spool and its books as they are |
| `CoreDiscards.StrayAnswerDiscards` | porchlightd/src/core/core.cpp:199-214 | A legal run of three events after which a clip still queued, never evicted, has been discarded |
| `CoreDiscards.ConfirmedByItsOwnUpload` | porchlightd/src/core/core.cpp:256-267 | A clip leaves as confirmed only if some upload of that id succeeded |
| `CoreDiscards.SendsAreYoung` | porchlightd/src/core/core.cpp:378-389 | No SendAlert ever carries an alert as old as the maximum age |
| `CoreSpooling.ClipIsKeptIff` | porchlightd/src/core/core.cpp:195-214 | In every reachable state an end report spools its clip exactly when it is ok, not empty, long enough, about the running event and not unwanted; then the fewest oldest clips that make it fit go, the one on its way spared, and exactly those are discarded; otherwise the spool stays and the file goes |
| `CoreSpooling.OldestFirst` | porchlightd/src/core/core.cpp:195-214 | In every reachable state clips wait in the order they were accepted |
| `CoreSpooling.OldestGoFirst` | porchlightd/src/core/core.cpp:408-427 | Every clip evicted was accepted before every clip kept other than the one on its way, which stays in front |
| `CoreSpooling.TheOldestIsUploaded` | porchlightd/src/core/core.cpp:391-406 | An UploadClip carries the clip in front, one at a time, and only with the link up, nobody watching, no shutdown and the retry time come |
| `CoreSpooling.NoClipWaitsInVain` | porchlightd/src/core/core.cpp:391-406 | After every event before shutdown, online and unwatched, a clip is on its way, or none waits, or the retry time is ahead |
| `CoreSpooling.UploadRetryIsDue` | porchlightd/src/core/core.cpp:256-281 | A failed upload, or one lost with the link, is retried min(initial * 2^k, cap) later, k failures after the last success, its clip still in place |
| `CoreSpooling.UploadConfirms` | porchlightd/src/core/core.cpp:256-267 | A successful one takes its own clip off the front and clears the retry time |
| `CoreOutbox.QueueIsALedger` | porchlightd/src/core/alert_queue.cpp:12-72 | In every run the alerts queued are those waiting, in order, and those that settled by their own result, grew too old, or made room |
| `CoreOutbox.TheOldestGoes` | porchlightd/src/core/core.cpp:378-389 | One event sends at most one alert, the front of the queue it leaves |
| `CoreOutbox.NobodyWaitsInVain` | porchlightd/src/core/core.cpp:378-389 | After every event before shutdown with the link up an alert is in flight, or none waits, or the retry time is ahead |
| `CoreOutbox.TickSends` | porchlightd/src/core/alert_queue.cpp:32-40 | A wake-up at the retry time or later, with nothing held, sends the oldest alert that is not too old |
| `CoreOutbox.RetryIsDue` | porchlightd/src/core/alert_queue.cpp:44-72 | The n-th failure of an alert since one last settled sets the retry time to exactly min(initial * 2^(n-1), cap) from now |
| `CoreOutbox.SettlingFreesTheNext` | porchlightd/src/core/alert_queue.cpp:44-64 | A result of the alert in flight that is no failure clears the retry time, and online the next alert leaves in that handling |
| `CoreSends.HandleSends` | porchlightd/src/core/core.cpp:378-389 | An alert in flight stays the front, and nothing else leaves meanwhile |
| `CoreRetries.RetriesAreSpaced` | porchlightd/src/core/alert_queue.cpp:44-72 | Of the SendAlerts in the trace since a result last settled an alert, the n-th after the first leaves no earlier than the sum of the capped doubled delays after it, whatever failed |
| `CoreSends.AttemptsAreSends` | porchlightd/src/core/core.cpp:378-389 | The attempts noted are the times of the SendAlerts emitted since a result last settled an alert |
| `CoreSends.SendsWereQueued` | porchlightd/src/core/core.cpp:378-389 | Every SendAlert ever emitted carries an alert that was queued |
| `CoreRuns.MintedBySensor` | porchlightd/src/core/core.cpp:301-352 | Every id drawn is one the id source gave a press or a motion, noted with that event's time |
| `CoreLight.LightNeverLies` | porchlightd/src/core/core.cpp:429-458 | After every event the last SetLed ever emitted is what the history of events calls for, faults since the last ServerOnline included |
| `BackoffRules.ScheduleIsCappedDoubling` | porchlightd/src/core/backoff.h:10-29 | After k failures the delay is min(initial * 2^k, cap) |
| `BackoffRules.DelayBounds` | porchlightd/src/core/backoff.h:18-23 | Delays never shrink while failures go on and stay between initial and cap |
| `Backoffs.Backoff.constructor` | porchlightd/src/core/backoff.h:13-14 | Starts at the initial delay |
| `Backoffs.Backoff.Reset` | porchlightd/src/core/backoff.h:16 | Goes back to the initial delay, the rest unchanged |
| `Backoffs.Backoff.Fail` | porchlightd/src/core/backoff.h:18-23 | Gives the present delay from now and moves one step on the schedule |
| `AlertLedger.FifoWithDrops` | porchlightd/src/core/alert_queue.cpp:12-72 | After any calls the queue is the pushed alerts still waiting, in push order; pushed = queued + settled + evicted + expired; at most max(capacity, 2), and capacity from two on |
| `AlertLedger.InFlightIsSafe` | porchlightd/src/core/alert_queue.cpp:12-72 | No call but its own result or a lost link touches the alert in flight; results for anything else change nothing |
| `AlertLedger.CapacityOneHoldsTwo` | porchlightd/src/core/alert_queue.cpp:12-21 | Capacity one and an alert in flight: two entries |
| `AlertQueues.AlertQueue.constructor` | porchlightd/src/core/alert_queue.cpp:7-10 | Empty, nothing in flight, the policy's bounds |
| `AlertQueues.AlertQueue.Push` | porchlightd/src/core/alert_queue.cpp:12-21 | The whole new queue: the oldest droppable goes when full |
| `AlertQueues.AlertQueue.Expire` | porchlightd/src/core/alert_queue.cpp:23-30 | The compacting loop keeps exactly the young ones in order, and the one in flight |
| `AlertQueues.AlertQueue.Ready` | porchlightd/src/core/alert_queue.cpp:32-40 | The front, when online, nothing in flight and no retry pending |
| `AlertQueues.AlertQueue.MarkSent` | porchlightd/src/core/alert_queue.cpp:42 | In flight, the rest unchanged |
| `AlertQueues.AlertQueue.OnResult` | porchlightd/src/core/alert_queue.cpp:44-64 | Only the front's own result counts; failure backs off, the rest settles |
| `AlertQueues.AlertQueue.LinkLost` | porchlightd/src/core/alert_queue.cpp:66-72 | An alert in flight goes back to waiting, after a backoff |
| `AlertQueues.AlertQueue.NextDeadline` | porchlightd/src/core/alert_queue.cpp:74-83 | The earlier of the retry and the front's expiry |
| `Cores.Core.constructor` | porchlightd/src/core/core.cpp:18-22 | The initial state |
| `Cores.Core.Handle` | porchlightd/src/core/core.cpp:24-54 | The object goes to the state the rules give and returns exactly the actions added |
| `Cores.Core.Dispatch` | porchlightd/src/core/core.cpp:28-44 | Each event goes to its own rule |
| `Cores.Core.NextDeadline` | porchlightd/src/core/core.cpp:56-75 | The earliest of six timers, none after shutdown |
| `Cores.Core.Lapse` | porchlightd/src/core/core.cpp:77-87 | Each cooldown that is over is cleared, in place |
| `Cores.Core.OnMotion` | porchlightd/src/core/core.cpp:89-108 | The motion rule, in place |
| `Cores.Core.OnButton` | porchlightd/src/core/core.cpp:110-120 | Chime and light first, then the window, then the rule of a new press |
| `Cores.Core.OnNewPress` | porchlightd/src/core/core.cpp:121-156 | Joins the recording that runs or triggers its own |
| `Cores.Core.Upgrade` | porchlightd/src/core/core.cpp:127-151 | The running event turns into a ring under its own id, held for a name only while the motion was held |
| `Cores.Core.OnViewer` | porchlightd/src/core/core.cpp:158-176 | A call at once, or after the recording it cuts short |
| `Cores.Core.OnCallEnded` | porchlightd/src/core/core.cpp:178-183 | The viewer is gone, and so is a call kept for them |
| `Cores.Core.OnRecordingFinished` | porchlightd/src/core/core.cpp:185-220 | Held alert out, camera free, clip kept or discarded, kept call started: in that order |
| `Cores.Core.PutAway` | porchlightd/src/core/core.cpp:195-214 | A clip worth keeping is spooled within the cap, any other is discarded if there is a file |
| `Cores.Core.OnDetection` | porchlightd/src/core/core.cpp:222-254 | The verdict rule for the current event only |
| `Cores.Core.Silence` | porchlightd/src/core/core.cpp:242-253 | A held motion nobody caused: unwanted, short cooldown, recording stopped |
| `Cores.Core.OnUploadFinished` | porchlightd/src/core/core.cpp:256-267 | A failure backs off; a success confirms the front only if it is that clip |
| `Cores.Core.OnServerOffline` | porchlightd/src/core/core.cpp:269-281 | Fault latched, the alert and the upload in flight put back |
| `Cores.Core.OnShutdown` | porchlightd/src/core/core.cpp:283-299 | Recording stopped, call hung up, light off |
| `Cores.Core.Trigger` | porchlightd/src/core/core.cpp:301-318 | Alert first, recording second, or a ring held for a name |
| `Cores.Core.WatchForPerson` | porchlightd/src/core/core.cpp:323-335 | A motion held for the whole window, face search and grace |
| `Cores.Core.RingWithAName` | porchlightd/src/core/core.cpp:341-352 | A ring held for the face wait |
| `Cores.Core.ReleaseHeldAlert` | porchlightd/src/core/core.cpp:356-361 | The held alert is queued with its own time and the faces given |
| `Cores.Core.CheckVerdictDeadline` | porchlightd/src/core/core.cpp:366-371 | A held alert past its time goes out unjudged |
| `Cores.Core.StartCall` | porchlightd/src/core/core.cpp:373-376 | One viewer more, one StartCall |
| `Cores.Core.PumpAlerts` | porchlightd/src/core/core.cpp:378-389 | Expires, then sends the front if it is ready |
| `Cores.Core.PumpUploads` | porchlightd/src/core/core.cpp:391-406 | One upload at a time, never beside a viewer |
| `Cores.Core.EnforceSpoolCap` | porchlightd/src/core/core.cpp:408-427 | The loop with its running total drops exactly what the eviction rule drops, announcing each |
| `Cores.Core.DesiredLed` | porchlightd/src/core/core.cpp:429-449 | The priority of the patterns |
| `Cores.Core.UpdateLed` | porchlightd/src/core/core.cpp:451-458 | SetLed only on a change |
| `DrainRules.HandleCosts` | porchlightd/src/core/core.cpp:24-54 | One handling, all its actions failing at once, costs at least one of the event's weight and of two tokens, at any time of a drain shorter than the first retry delay |
| `DrainRules.StepCosts` | porchlightd/src/daemon.cpp:46-56 | So the failures an event's actions can come back with weigh less than it did |
| `Daemons.Daemon.Deliver` | porchlightd/src/daemon.cpp:37-40 | From outside: empty queue on return, each event handled once in delivery order, every action the core asked for carried out in that order, boundedly many core steps, at most five for one event, the clock read anew at each; from inside: the event only joins the queue |
| `Daemons.Daemon.RecorderEnds` | porchlightd/src/daemon.cpp:60-68 | When a stopping daemon hears the recorder's end, the reactor is stopped |
| `Daemons.Daemon.Drain` | porchlightd/src/daemon.cpp:42-69 | Terminates by the weighted measure; re-entered it changes nothing; afterwards everything asked for is done and the reactor is stopped exactly when it was before or it is stopping with the recorder at rest, and otherwise the timer is the core's deadline; once it is stopping no recording starts |
| `Daemons.Daemon.RunDry` | porchlightd/src/daemon.cpp:48-57 | The loop empties the queue and makes the measure no larger |
| `Daemons.Daemon.Step` | porchlightd/src/daemon.cpp:48-57 | Handles exactly the front event, carries out all it leads to and makes the measure smaller |
| `Daemons.Daemon.CarryOut` | porchlightd/src/daemon.cpp:54-56 | Every action is done, once and in order, adding at most the weight of their answers |
| `Daemons.Daemon.Execute` | porchlightd/src/daemon.cpp:71-88 | One action is done; a started recording leaves the recorder busy or its failed end pending; any of the four answered actions may fail at once, with the answer that is its own, and nothing else reports |
| `Daemons.Daemon.IsARun` | porchlightd/src/daemon.cpp:42-69 | The daemon's core is in the state of the run over the events it handled, so that the theorems about runs hold of it |
| `Daemons.StopsRecording` | porchlightd/src/daemon.cpp:60-65 | No core that was told to stop asks for a recording |
| `RecorderRules.ContractHolds` | porchlightd/src/io/gst_recorder.cpp:407-642 | Over any interleaving of starts, stops, timers, reads and exits the recorder's contract holds |
| `RecorderRules.OneEndPerStart` | porchlightd/src/io/gst_recorder.cpp:407-415 | A start that is over has exactly one RecordingFinished, the one running none; before it at most one DetectionResult |
| `RecorderRules.EndsCountStarts` | porchlightd/src/io/gst_recorder.cpp:612-642 | As many ends as starts, less one while a recording runs |
| `RecorderRuns.TheFirstWordIsReported` | porchlightd/src/io/gst_recorder.cpp:547-610 | While a recording runs, its verdict is the first word among the lines of all its child wrote, however the pipe cut it up, an unknown word being unknown; none exactly when there is no such word |
| `RecorderRuns.TheEndIsHonest` | porchlightd/src/io/gst_recorder.cpp:502-642 | The end names that recording and what is on disk, and is ok exactly when the process ended cleanly, was not killed for running out of its time to stop, and left at least 1024 bytes |
| `RecorderRuns.AStartRollsOrEnds` | porchlightd/src/io/gst_recorder.cpp:407-487 | A start gets a recorder at rest rolling with nothing reported, or is answered at once by one end that is not ok |
| `Recorders.StopWhileHearing` | porchlightd/src/io/gst_recorder.cpp:517-525 | A stop from inside a verdict's delivery leaves what a stop after the read would |
| `Recorders.GstRecorder.constructor` | porchlightd/src/io/gst_recorder.h:84-95 | At rest |
| `Recorders.GstRecorder.Start` | porchlightd/src/io/gst_recorder.cpp:407-487 | Refused while busy or without a spool, reported at once when no process or no watch, otherwise rolling |
| `Recorders.GstRecorder.Stop` | porchlightd/src/io/gst_recorder.cpp:489-500 | Only a rolling recording begins to flush |
| `Recorders.GstRecorder.OnTimer` | porchlightd/src/io/gst_recorder.cpp:502-515 | First the stop, then the kill |
| `Recorders.GstRecorder.OnChildExit` | porchlightd/src/io/gst_recorder.cpp:517-531 | What the pipe holds is heard first, then the child is let go of and the end reported, whatever the sink did in between |
| `Recorders.GstRecorder.ReleaseChild` | porchlightd/src/io/gst_recorder.cpp:533-545 | No child, no pipe, no buffer |
| `Recorders.GstRecorder.ReadDetector` | porchlightd/src/io/gst_recorder.cpp:547-577 | Hears exactly the complete lines of buffer and read, keeps the tail |
| `Recorders.GstRecorder.SplitLines` | porchlightd/src/io/gst_recorder.cpp:570-576 | The erase-then-handle loop hears all lines in order, even if stopped meanwhile |
| `Recorders.GstRecorder.HandleLine` | porchlightd/src/io/gst_recorder.cpp:579-610 | One verdict per recording, an unknown word is unknown |
| `Recorders.GstRecorder.Conclude` | porchlightd/src/io/gst_recorder.cpp:612-642 | Playable only after a clean exit with enough bytes; at rest before the report |
| `MediaRules.CallKeepsServing` | porchlightd/src/io/script_media.cpp:148-171 | The process runs exactly while somebody is owed an end, and every viewer asked for stays or is told, once |
| `MediaRules.ExitKeepsServing` | porchlightd/src/io/script_media.cpp:222-254 | An exit tells everybody or restarts for everybody; one that was asked for never restarts |
| `MediaRuns.RequestIsServed` | porchlightd/src/io/script_media.cpp:148-171 | Over everything before: a request joins the process that runs or starts one, and is told it ended at once only when that fails |
| `MediaRuns.ExitRestartsIff` | porchlightd/src/io/script_media.cpp:222-254 | Over everything before: an exit restarts for everybody exactly when the process was not asked to end, it was no misconfiguration, the last request lies within the window and the process can be started; otherwise it ends for everybody |
| `Medias.ScriptMedia.constructor` | porchlightd/src/io/script_media.h:41-71 | No call |
| `Medias.ScriptMedia.StartCall` | porchlightd/src/io/script_media.cpp:148-171 | The whole new state, and exactly one CallEnded for each viewer when it cannot start |
| `Medias.ScriptMedia.StopCall` | porchlightd/src/io/script_media.cpp:200-212 | Asks once, and only a process that is there |
| `Medias.ScriptMedia.OnChildExit` | porchlightd/src/io/script_media.cpp:222-254 | Restarts only an unasked exit inside the race window, otherwise everybody is told |
| `Medias.ScriptMedia.EndForEveryone` | porchlightd/src/io/script_media.cpp:256-266 | Forgets all, and tells each exactly once |
| `LineRules.LinesAreTheText` | porchlightd/src/io/bridge_server_link.cpp:204-210 | Lines and tail together are the text, and no line is cut |
| `LineRules.OnlyOneCut` | porchlightd/src/io/bridge_server_link.cpp:204-210 | And no other cutting into lines is |
| `LineRules.ReadOn` | porchlightd/src/io/bridge_server_link.cpp:203-210 | Reading on from the buffered tail is reading the whole |
| `LineRules.ChunksDoNotMatter` | porchlightd/src/io/bridge_server_link.cpp:190-211 | However a stream is cut into reads, the lines handled and the buffer left are the stream's |
| `LinkLines.BridgeReader.OnReadable` | porchlightd/src/io/bridge_server_link.cpp:190-211 | After any reads the lines handled are the lines of everything received, and the buffer its tail |
| `DetectorRules.WindowDecides` | pi/record-clip.py:418-421 | The three-frame window decides, frame by frame and exactly, whether two hits lie closer than three judged frames |
| `DetectorRules.SparseHitsAreFew` | pi/record-clip.py:243-247 | Silence then has at most (judged + 2) / 3 hits |
| `Detectors.Detector.constructor` | pi/record-clip.py:253-270 | Nothing said, nothing judged |
| `Detectors.Detector.Offer` | pi/record-clip.py:275-281 | The newest frame wins, until something was said |
| `Detectors.Detector.Say` | pi/record-clip.py:293-317 | The first word stands |
| `Detectors.Detector.BeginFinish` | pi/record-clip.py:283-290 | The detector is asked to stop, and nothing is said yet |
| `Detectors.Detector.EndFinish` | pi/record-clip.py:291 | Unknown, unless something was said meanwhile |
| `Detectors.Detector.Detect` | pi/record-clip.py:319-431 | With frames offered and either half of the end happening at any point between its steps: one line at most, whose reason is true of the frames taken; two hits in three judged frames are a person unless the recording ended first; an answer by the deadline |
| `Detectors.Detector.Turn` | pi/record-clip.py:362-384 | One turn takes the frame that is waiting, the newest and never twice, unless it is to stop or the time is up |
| `Detectors.Detector.Prepare` | pi/record-clip.py:344-355 | Goes on exactly when the model loads and a ring has somebody to look for; otherwise a ring with nobody saved is a person and a model that does not load is unknown |
| `Detectors.Detector.TimeIsUp` | pi/record-clip.py:377-382 | At the deadline there is an answer, a ring's being unknown |
| `Detectors.Detector.OnlyLookForWho` | pi/record-clip.py:386-396 | A ring is answered from its first frame: a person, or unknown exactly if looking at it raises |
| `Detectors.Detector.Look` | pi/record-clip.py:404-426 | A settled frame ends the search exactly when looking at it raises or it is the second hit in three, and then with a person unless the recording ended first |
| `Detectors.Detector.Count` | pi/record-clip.py:404-421 | A settled frame of the right size is dark or judged, and only a judged one is scored |
| `Detectors.Detector.Conclude` | pi/record-clip.py:433-444 | Enough judged frames and no two hits in three are no person; otherwise unknown for the reason that holds: no frames, too dark, too slow |
| `FacesRules.OneAtATime` | pi/server-bridge.py:780-805 | Under every interleaving at most one thread is in or can still reach faces_once, and a waiting list has one unless stopping |
| `FacesRules.LatestWins` | pi/server-bridge.py:798-805 | What is processed is a subsequence of what was accepted, in order; with no thread at work and not stopping, the last of each is the same |
| `Faces.FacesSlot.Offer` | pi/server-bridge.py:791-796 | The locked part of start_faces |
| `Faces.FacesSlot.TakeNext` | pi/server-bridge.py:801-805 | The locked part of run_faces |
| `BootRules.FirstWithTries` | image/buildroot/board/porchlight/rpi4/boot.cmd:17-30 | The earliest slot named that has a try left; none exactly when no slot named has |
| `BootRules.OneTryOrBothBack` | image/buildroot/board/porchlight/rpi4/boot.cmd:17-40 | Every run spends exactly one try of the slot it boots, or gives both three |
| `BootRules.OtherAfterItsTries` | image/buildroot/board/porchlight/rpi4/boot.cmd:3-9 | While the other slot has a try it is booted within this one's tries plus one runs |
| `BootRules.WithinItsTriesIff` | image/buildroot/board/porchlight/rpi4/boot.cmd:3-9 | With both slots named, in any order, the other slot comes within this one's tries if and only if it has a try itself |
| `BootRules.FallsBack` | image/buildroot/board/porchlight/rpi4/boot.cmd:13-51 | From any counters, with both slots named, the other slot is booted within this one's tries plus five runs |
| `BootRules.NoSooner` | image/buildroot/board/porchlight/rpi4/boot.cmd:32-41 | That bound is reached when the other slot comes second and has no try |
| `BootRules.ThreeFirst` | image/buildroot/board/porchlight/rpi4/boot.cmd:3-9 | The slot named first is booted for exactly as long as it has tries |
| `BootRules.UnsetIsAThrice` | image/buildroot/board/porchlight/rpi4/boot.cmd:13-15 | With nothing set, slot A is booted three times |
| `Boots.BootScript.Run` | image/buildroot/board/porchlight/rpi4/boot.cmd:13-51 | The loop chooses that slot, and what is stored before the kernel starts has its try spent |

## Left out

- Daemons.Daemon.Execute: at most one answer per action and only failures, as the termination claim is about backends failing at once; `device.dfy` allows any backend answers but claims no termination.
- Medias.ScriptMedia.OnChildExit: the sink is a list here; that the core answers a CallEnded with no order to the call is `CoreOrders.HandleOrders`, and the interleaving is in `device.dfy`.
- Recorders.GstRecorder.Start: calls of the sink from inside Start only join the daemon's queue, since Start is only called from its drain.
- epoll, timerfd, signalfd, pidfds, spawning, pipes and waitpid: steps of the environment.
- `build_pipeline`, `build_media_command`, config parsing and logging: string assembly.
- `BridgeServerLink` beyond line reassembly, and the WebSocket half of `server-bridge.py`: network code. Its promise of one result per send does not survive a stale acknowledgement, and no theorem here uses it.
- `ScriptUploader`, `upload-clip.py`, `upload_clip.cpp`, `record_clip.cpp`: HTTP and GStreamer calls; an upload answers when and how it likes.
- After a ServerOffline an uploader child may still run; "in flight" is the core's flag.
- A second viewer while a recording is stopping replaces the first one's kept call, as in the code: `CoreViewers.AskedWhileRecording` is about the last to ask.
- Face finding, image sampling and the model: a frame's size, brightness and score are given.
- JSON parsing of a detector line: an arbitrary function from lines to what they say.
- `Detectors`: the reporting notes and inference timing.
- `boot.cmd` after the slot is chosen: the device tree and kernel arguments. U-Boot's `setexpr` counts in hexadecimal; counters above nine are not modelled as it would print them.
- RAUC and `porchlight-health`: nothing else writes the environment between runs.
- `porchlight-setup.py`, `porchlight-wifi.py`, `porchlight-update.py`, `porchlight-firstboot.py`, `webrtc-video.py`, GPIO, ALSA and the LED's phase tables.
- Machine integer widths: times and durations are unbounded, and a delay never overflows.

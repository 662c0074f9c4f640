# A verified model of the WiVRn NX helper and its SteamVR shim

The system moves rendered frames out of SteamVR to a headset and poses back. A shim
inside vrserver blits each frame into a ring of shared textures and hands it to a
helper process over a pipe; the helper encodes it, cuts it into shards, paces them onto
the network, adapts the bitrate, and decides when a key frame is needed. This project
models the parts of that system whose correctness is a matter of protocol, history or
exact arithmetic, and proves what they promise over every run.

| files | what they model |
|---|---|
| `StagingRing.dfy`, `Intake.dfy`, `VideoIntake.dfy`, `EncoderStage.dfy` | the shim's ring of keyed-mutex slots, the helper's frame intake and its two threads, the helper's half of the mutex discipline and the encode |
| `TransportCore.dfy`, `Transport.dfy`, `TransportSafety.dfy` | the cross-process frame transport as a step system of four threads, its eleven core actions, and safety over all runs |
| `BitrateLaw.dfy`, `BitrateSafety.dfy`, `BitrateRuns.dfy`, `BitrateDecisions.dfy`, `BitrateRestarts.dfy`, `BitrateRecovery.dfy`, `BitrateController.dfy` | both bitrate control laws and the frame ring: one step at a time, over whole runs, when they move the bitrate, what a restart forgets, through a recovery, and as the object |
| `MaxFilter.dfy`, `RadioTrend.dfy` | the windowed maximum; the radio trend as a fit |
| `Pacing.dfy`, `PacedSender.dfy` | shard pacing and the resumable sender |
| `VideoBridge.dfy`, `KeyFrames.dfy`, `IdrTracker.dfy` | the seam between session and encoder, key frames across the two threads, the key-frame tracker |
| `StateBridge.dfy`, `PoseSanitizer.dfy`, `ClockOffset.dfy`, `KeyStore.dfy` | the change feed to the shim, the pose filter, the clock offset, the file of paired headsets |
| `Prelude.dfy` | shared vocabulary |

Operations are specified by functions on values; the lemmas are about those functions
and about runs of them, and each class carries the source's own loops and updates and is
proved to compute those functions. Times are integers (nanoseconds); doubles and floats
are reals; a fixed-point factor applied to an integer is the floor of the exact product.

Where the code does not do what it is meant to, the model follows the code, a lemma
gives an input that shows it, and another lemma gives the exact condition:

* A comment in `helper/src/video_intake.cpp:218-223` says a failed configure is not
  retried on every frame. It is: what the failure records is never looked at, because the
  early return also needs a ready encoder (`KeyFrames.FailureIsRetriedOnTheNextFrame` is
  the two-frame run). A frame goes without a configure exactly when a build for its ring
  and configuration still stands (`KeyFrames.ConfigureSkippedExactly`), so a run goes
  without a retry exactly when no second frame of the same kind follows a failure
  (`KeyFrames.NeverRetriedExactly`).
* The windowed maximum can miss a sample that is still inside the window
  (`MaxFilter.WindowMaximumCanBeMissed`). It is the maximum of the window for every
  history that spans at most d exactly when d is at most the window
  (`MaxFilter.WindowMaximumExactly`), and an update loses exactness only when the oldest
  entry ages out and the new sample does not reach it
  (`MaxFilter.ExactnessIsLostOnlyByAgeing`). What is computed in general is
  `MaxFilter.ValueIsRecentMaximum`.
* A recovery from a bitrate of zero never ends. `BitrateRecovery.DropCanReachZero` is a
  run from construction that gets there; it needs a configured floor of zero, which
  `BitrateController::configure` accepts but its only caller does not pass (the session
  uses the default floor of 10 Mbit/s, `helper/src/wivrn/session.cpp:889-896`).
  `BitrateRuns.RecoveryEndsExactly` gives the condition on the rate, and
  `BitrateRecovery.RecoveryEndsInEveryRun` shows that a floor above zero at every
  configure is enough in every run.
* Without a ceiling the bitrate is below the floor (`BitrateRuns.FloorNeedsACeiling`);
  the bitrate is within its bounds exactly when there is a ceiling or the floor is zero
  (`BitrateRuns.EveryRunStaysInBounds`).
* Every encode runs at the bitrate of its request exactly when the configured bitrate is
  not zero (`KeyFrames.ZeroPreferenceIsNotFollowed`,
  `KeyFrames.EncodesRunAtSnapshotBitrate`). A zero can be handed to
  `VideoBridge::set_prefs`; the command line refuses it, allowing 1 to 500
  (`helper/src/main.cpp:236-241`).
* `helper/src/video_bridge.h:64` promises that the next encoded frame after a request is a
  key frame. A request that comes in between the snapshot of a frame and its encode is
  served only by the frame after it (`KeyFrames.LateRequestIsNotServed`); the next encode
  is sure to be forced exactly when the encoder thread is waiting or encoding at the
  request (`KeyFrames.NextEncodeForcedExactly`).
* A change of the bitrate does not cut off the frames reported before it when it is made
  by a restart, such as a new ceiling (`BitrateRestarts.RestartLetsOldFramesThrough`); it
  does so exactly when it is not a restart (`BitrateRestarts.ChangeCutsOffExactly`).
* A frame begun after the window of its pacing slot is spent is due after the window's
  end (`Pacing.SpentWindowIsOverrun`, `Pacing.DeadlinesWithinWindowExactly`).
* A value that has not changed is sent again when it was written again, as poses and
  inputs are at every sample (`StateBridge.EqualPoseIsResent`); a value is sent exactly
  when it was set since the last collect (`StateBridge.SentExactlyWhenSet`).
* A recovery key frame granted at the clock's epoch does not hold off the next one
  (`IdrTracker.DistanceKeptExactly`).
* A headset whose name begins with `#` is written to the key file and not read back
  (`KeyStore.CommentMarkIsLost`, `KeyStore.AddingRemembersExactly`).

## Model

| member | source | states |
|---|---|---|
| `StagingRing.PickFindsFirst` | shim/src/frame_staging.cpp:294-323 | the round-robin search returns the first takable slot in order, and none exactly when no slot is takable |
| `StagingRing.LeaseRefusedExactly` | shim/src/frame_staging.cpp:288-324 | a lease is refused exactly when the ring is missing, stale or has no takable slot; what is leased is takable |
| `StagingRing.FrameStagingRing.constructor` | shim/src/frame_staging.cpp:53-56 | a new ring has no slots and generation zero |
| `StagingRing.FrameStagingRing.Create` | shim/src/frame_staging.cpp:112-229 | all textures or none: a fresh ring under the next generation with every mutex under key 0, or the old one torn down; without a device or an area the old one stays as it is |
| `StagingRing.FrameStagingRing.Destroy` | shim/src/frame_staging.cpp:231-269 | the ring is gone, its generation kept, and a slot still leased is given back under key 0 |
| `StagingRing.FrameStagingRing.AcquireSlot` | shim/src/frame_staging.cpp:288-324 | the loop leases the slot the specification names, under key 0 or key 1, and otherwise changes nothing |
| `StagingRing.FrameStagingRing.ReleaseToHelper` | shim/src/frame_staging.cpp:326-343 | a leased slot goes to the helper under key 1, booked for the frame; any other lease is ignored |
| `StagingRing.FrameStagingRing.ReturnSlot` | shim/src/frame_staging.cpp:345-360 | a leased slot goes back under key 0 and is free |
| `StagingRing.FrameStagingRing.OnFrameDone` | shim/src/frame_staging.cpp:362-380 | frees exactly the slot booked for that frame; a stale or foreign answer changes nothing |
| `StagingRing.FrameStagingRing.MarkStale` | shim/src/frame_staging.cpp:382-394 | an existing ring becomes stale, nothing else changes |
| `Intake.EveryRunBalances` | helper/src/pipe_server.cpp:288-347 | over every interleaving of pipe and encoder thread every received frame is accounted for exactly once and at most three are outstanding |
| `Intake.NoAnswerIsEvicted` | helper/src/video_intake.cpp:143-154 | the eight-entry queue of answers never evicts one: it holds at most three, and pushes append |
| `Intake.AnsweredExactlyOnce` | helper/src/video_intake.cpp:54-195 | while no client is lost, each frame received is answered exactly once as soon as nothing is outstanding, and never twice before |
| `Intake.OwedAnswersCanBeSent` | helper/src/pipe_server.cpp:288-347 | from every state of every run with a client connected, steps of the helper alone, at most three per answer owed and one more, leave nothing outstanding |
| `VideoIntake.FrameIntake.OnStagingConfig` | helper/src/video_intake.cpp:54-78 | a pending frame of another generation is answered as dropped, then the new ring is recorded |
| `VideoIntake.FrameIntake.OnFrameReady` | helper/src/video_intake.cpp:80-116 | an unknown or unwanted frame is answered at once, any other becomes pending and the one it displaces is answered |
| `VideoIntake.FrameIntake.OnShimGone` | helper/src/video_intake.cpp:118-131 | ring, pending frame and answers are forgotten |
| `VideoIntake.FrameIntake.PopDone` | helper/src/video_intake.cpp:133-141 | answers leave in order |
| `VideoIntake.FrameIntake.PushDone` | helper/src/video_intake.cpp:143-154 | an answer is appended, at the cost of the oldest when eight are queued |
| `VideoIntake.FrameIntake.NoteChange` | helper/src/video_intake.cpp:161-172 | a changed ring is noted once, and the encoder is to be shut down exactly when it is ready |
| `VideoIntake.FrameIntake.EndShutdown` | helper/src/video_intake.cpp:172-178 | back under the lock only the encoder's bookkeeping changes; ring, flag, frame and answers stay as the other thread left them |
| `VideoIntake.FrameIntake.TakePending` | helper/src/video_intake.cpp:181-185 | the frame taken is the one pending at that moment, whatever arrived during the shutdown |
| `VideoIntake.FrameIntake.EnsureEncoder` | helper/src/video_intake.cpp:197-237 | configure is tried exactly when the encoder is not ready or differs in ring or configuration, a rebuilt encoder owes a key frame, and after a failure no request whatever finds the encoder up to date |
| `VideoIntake.FrameIntake.ReadRing` | helper/src/video_intake.cpp:239-252 | the ring is read as it is at that moment, and a frame without one is answered as dropped at once |
| `VideoIntake.FrameIntake.EncodeFrame` | helper/src/video_intake.cpp:254-312 | between the two critical sections only the encoder changes; the answer that follows says encoded exactly when the encode succeeded; a key frame is forced exactly when one is owed, and only success settles it; without an encode the encoder is as the failed configure left it, or untouched |
| `EncoderStage.Stage.constructor` | helper/src/encoder/d3d11_stage.cpp:238-256 | an opened ring has its generation and slot count and nothing is held |
| `EncoderStage.Stage.Acquire` | helper/src/encoder/d3d11_stage.cpp:288-316 | succeeds exactly for a slot of the ring not held already whose mutex is free under key 1 (or abandoned) in time |
| `EncoderStage.Stage.Release` | helper/src/encoder/d3d11_stage.cpp:318-325 | a held slot goes back under key 0, any other is left alone |
| `EncoderStage.Stage.CloseRing` | helper/src/encoder/d3d11_stage.cpp:269-286 | every slot still held goes back under key 0 and no other mutex is touched |
| `EncoderStage.Encode` | helper/src/encoder/amf_video_encoder.cpp:125-245 | exactly when an encode is ok, dropped or fatal; both eyes come out or nothing does; on every path the slot, if taken, is back under key 0 and nothing is held |
| `EncoderStage.Collect` | helper/src/encoder/amf_video_encoder.cpp:181-218 | the loop collects the eyes that came out, in order, and notices any fatal failure |
| `TransportCore.ActionKeepsInv` | ipc/wivrnnx_ipc.h:197-219 | each of the eleven actions of the contract keeps the core invariant |
| `TransportCore.LeaseExactlyWhenUnbooked` | shim/src/frame_staging.cpp:294-323 | under the invariant a usable ring refuses a lease exactly when every slot is booked |
| `TransportSafety.PresentMeans` | shim/src/direct_mode.cpp:747-886 | every step of the present thread is one action of the core or none |
| `TransportSafety.LeaseMeans` | shim/src/direct_mode.cpp:976-1212 | leasing inside a present is the core's lease, or nothing when none is to be had |
| `TransportSafety.IpcMeans` | shim/src/ipc_client.cpp:107-235 | every step of the shim's IPC thread is one action of the core or none |
| `TransportSafety.DisconnectMeans` | shim/src/direct_mode.cpp:898-907 | a reported disconnect leaves frames and answers as they are and makes the ring stale |
| `TransportSafety.ReceiveMeans` | shim/src/direct_mode.cpp:909-922 | an answer that arrives frees at most the slot booked for it |
| `TransportSafety.PipeMeans` | helper/src/pipe_server.cpp:288-347 | every step of the helper's pipe thread is one action of the core or none |
| `TransportSafety.ReadMeans` | helper/src/pipe_server.cpp:429-516 | reading one message answers, displaces or passes on exactly one frame |
| `TransportSafety.EncoderMeans` | helper/src/video_intake.cpp:156-312 | every step of the encoder thread is one action of the core or none |
| `TransportSafety.EveryRunKeepsInv` | ipc/wivrnnx_ipc.h:197-219 | the invariant holds in every state of every run, through disconnects, rebuilds, lost messages and a dying helper |
| `TransportSafety.FrameFidelity` | helper/src/encoder/amf_video_encoder.cpp:125-179 | whenever the helper holds a slot for a frame, the texture holds exactly the pixels blitted for that frame |
| `TransportSafety.UnansweredFramesKeepTheirPixels` | shim/src/frame_staging.cpp:288-380 | no frame is overwritten before it is answered, wherever it is on its way, and until it is encoded its slot is free under key 1 |
| `TransportSafety.LeaseRefusedOnlyWhenAllBooked` | shim/src/frame_staging.cpp:294-323 | in every reachable state a usable ring with no lease out refuses a lease exactly when every slot is helper-owned |
| `TransportSafety.FreeSlotsAreFree` | shim/src/frame_staging.cpp:294-323 | in every reachable state a slot the shim regards as free has a mutex free under key 0 or 1, never held by the helper |
| `TransportSafety.AnswersStayBounded` | helper/src/pipe_server.cpp:302-347 | in every run of the whole system the helper owes at most three answers |
| `MaxFilter.UpdateTracks` | helper/src/wivrn/bitrate_controller.h:424-456 | an update keeps each entry a sample that tops everything after it, and the first no older than a window |
| `MaxFilter.CapTracks` | helper/src/wivrn/bitrate_controller.h:458-467 | capping is as if every past sample had been capped |
| `MaxFilter.EveryHistoryIsTracked` | helper/src/wivrn/bitrate_controller.h:405-483 | the meaning of the entries holds after any samples and caps at non-decreasing times |
| `MaxFilter.ValueIsRecentMaximum` | helper/src/wivrn/bitrate_controller.h:413-456 | the value is the exact maximum of the samples from one at most a window old |
| `MaxFilter.EntriesAreOrdered` | helper/src/wivrn/bitrate_controller.h:424-456 | older entries are no later and no smaller |
| `MaxFilter.WindowMaximumCanBeMissed` | helper/src/wivrn/bitrate_controller.h:424-456 | for every window of at least four a history of three samples whose maximum over the window is not the value |
| `MaxFilter.WindowMaximumExactly` | helper/src/wivrn/bitrate_controller.h:424-456 | the value is the maximum over the window for all histories spanning at most d exactly when d is at most the window |
| `MaxFilter.ExactnessIsLostOnlyByAgeing` | helper/src/wivrn/bitrate_controller.h:424-456 | an exact value stays exact through an update unless the first entry is older than the window and the sample does not reach it |
| `MaxFilter.WindowedMax.Update` | helper/src/wivrn/bitrate_controller.h:424-456 | the in-place update computes the specified filter |
| `MaxFilter.WindowedMax.Cap` | helper/src/wivrn/bitrate_controller.h:458-467 | the loop caps each of the three entries |
| `MaxFilter.WindowedMax.Reset` | helper/src/wivrn/bitrate_controller.h:418-422 | the filter is empty |
| `BitrateLaw.SortedSorts` | helper/src/wivrn/bitrate_controller.cpp:398-413 | the percentile is read off an ascending permutation of the samples |
| `BitrateSafety.StepKeepsInv` | helper/src/wivrn/bitrate_controller.cpp:27-1016 | every entry point keeps the bounds, the ring's congruence and the freshness of the window |
| `BitrateSafety.StepAdvances` | helper/src/wivrn/bitrate_controller.cpp:196-209 | short of a restart slots and marks only grow, and a bitrate change makes every known frame stale |
| `BitrateSafety.AimdDecides` | helper/src/wivrn/bitrate_controller.cpp:679-788 | a decision of the first law keeps the bounds, flushes when it moves the bitrate and lowers it only after the cooldown |
| `BitrateSafety.BbrDecides` | helper/src/wivrn/bitrate_controller.cpp:790-1016 | so does a decision of the second law, in all its phases |
| `BitrateSafety.RadioDecides` | helper/src/wivrn/bitrate_controller.cpp:470-602 | a radio report never raises the bitrate under either law and respects and restarts the cooldown when it lowers it |
| `BitrateSafety.DisplacedIsOlder` | helper/src/wivrn/bitrate_controller.cpp:617-632 | the frame that gives way in a slot is the older one |
| `BitrateRuns.EveryRunStaysInBounds` | helper/src/wivrn/bitrate_controller.cpp:191-194 | in every run floor <= bitrate <= ceiling and floor <= target <= ceiling once a ceiling is set, zero before; the bitrate is within its bounds exactly when there is a ceiling or the floor is zero; a recovering controller is below its target |
| `BitrateRuns.FloorNeedsACeiling` | helper/src/wivrn/bitrate_controller.cpp:27-47 | without a ceiling the bitrate is zero, below the floor |
| `BitrateRuns.RadioNeverRaises` | helper/src/wivrn/bitrate_controller.cpp:555-601 | in every run no radio report raises the bitrate |
| `BitrateRuns.SlotsOnlyGrow` | helper/src/wivrn/bitrate_controller.cpp:344-374 | between restarts a slot holds indices congruent to its position and only moves to larger ones |
| `BitrateRuns.OneSamplePerFrame` | helper/src/wivrn/bitrate_controller.cpp:305-374 | between restarts, under any order of reports, no frame leaves the ring twice |
| `BitrateRuns.OnlyClosedFramesAreSampled` | helper/src/wivrn/bitrate_controller.cpp:305-342 | nothing enters the decision window but the fresh frame that just left the ring |
| `BitrateRuns.WindowHasDistinctFrames` | helper/src/wivrn/bitrate_controller.cpp:305-342 | the decision window never holds two samples of one frame |
| `BitrateRuns.WindowFollowsLastChange` | helper/src/wivrn/bitrate_controller.cpp:196-209 | between restarts every sample in the window is of a frame newer than all frames known when the bitrate last changed |
| `BitrateRuns.NoSampleFromBeforeTheChange` | helper/src/wivrn/bitrate_controller.cpp:604-632 | between restarts, in terms of reports: no sample is of a frame reported before the change, or of an older one |
| `BitrateRestarts.ChangeCutsOffExactly` | helper/src/wivrn/bitrate_controller.cpp:287-290 | a change of the bitrate cuts off the frames reported before it, in every run, exactly when it is not a restart |
| `BitrateRestarts.ChangeMarksExactly` | helper/src/wivrn/bitrate_controller.cpp:196-209 | in every run a change marks every frame known before it as stale exactly when it is not a restart |
| `BitrateRestarts.RestartLetsOldFramesThrough` | helper/src/wivrn/bitrate_controller.cpp:278-303 | a run in which a new ceiling moves the bitrate and a frame older than one reported before it becomes a sample |
| `BitrateRuns.DecreasesAreSpaced` | helper/src/wivrn/bitrate_controller.cpp:693-699 | any two of a run are a cooldown apart, resets or not: decreases of the first law from frame timings, steps down on the radio under either law, backoffs of the second law; the second law following its estimate down is not among them |
| `BitrateDecisions.FirstLawMovesExactly` | helper/src/wivrn/bitrate_controller.cpp:679-788 | in every run a report under the first law lowers the bitrate exactly when a decision is due on a degraded window, cooled down and above the floor, and raises it exactly when one is due on a window healthy for the time the rebound or the increase asks for |
| `BitrateDecisions.SevereStartsRecovery` | helper/src/wivrn/bitrate_controller.cpp:700-729 | in every run a decrease of the first law starts a recovery towards the bitrate before it exactly when the window was severe, and brings the target down while recovering |
| `BitrateDecisions.BackoffFollowsTheLink` | helper/src/wivrn/bitrate_controller.cpp:872-894 | in every run a backoff of the second law leaves the estimate at most the measured rate and the bitrate at most seven tenths of it, short of the floor |
| `BitrateRuns.ReboundsDouble` | helper/src/wivrn/bitrate_controller.cpp:737-748 | n rebound steps double the bitrate n times, up to the target and no further |
| `BitrateRuns.RecoveryEndsExactly` | helper/src/wivrn/bitrate_controller.cpp:737-748 | recovery ends after as many doublings as separate bitrate and target, and ends at all exactly when the bitrate is not zero |
| `BitrateRecovery.DropCanReachZero` | helper/src/wivrn/bitrate_controller.cpp:708-726 | a run from construction with a configured floor of zero whose deep drop reaches zero, from where no number of rebounds ends the recovery |
| `BitrateRecovery.RecoveryEndsInEveryRun` | helper/src/wivrn/bitrate_controller.cpp:737-748 | in every run whose configures all have a floor above zero, a recovering controller is above zero and its rebounds end at the target |
| `BitrateRecovery.RecoveryDoublesInEveryRun` | helper/src/wivrn/bitrate_controller.cpp:737-748 | in every run, from a recovering state on and with no decrease and no restart, n moves of the bitrate leave it doubled n times, up to the target, and recovery is over exactly when the target is reached |
| `BitrateController.Controller.Configure` | helper/src/wivrn/bitrate_controller.cpp:27-59 | takes the specified step: the ceiling becomes the bitrate and everything measured is forgotten |
| `BitrateController.Controller.ResetLocked` | helper/src/wivrn/bitrate_controller.cpp:278-303 | starts over at the ceiling, keeping the radio samples but not the hold; nothing without a ceiling |
| `BitrateController.Controller.SetClientMode` | helper/src/wivrn/bitrate_controller.cpp:127-145 | starts over exactly when the law in force changes |
| `BitrateController.Controller.SetClientEnabled` | helper/src/wivrn/bitrate_controller.cpp:153-167 | starts over exactly when the switch changes |
| `BitrateController.Controller.SetRadioAware` | helper/src/wivrn/bitrate_controller.cpp:169-183 | forgets the radio trend, never the bitrate |
| `BitrateController.Controller.SetCeiling` | helper/src/wivrn/bitrate_controller.cpp:250-260 | a new ceiling other than zero starts over at it |
| `BitrateController.Controller.Flush` | helper/src/wivrn/bitrate_controller.cpp:196-209 | empties the window and marks every known frame stale |
| `BitrateController.Controller.CloseFrame` | helper/src/wivrn/bitrate_controller.cpp:305-342 | turns the frame of a slot into the samples specified and empties the slot |
| `BitrateController.Controller.OnFrameBytes` | helper/src/wivrn/bitrate_controller.cpp:344-374 | adds the bytes to their frame, closing an older frame in the way, unless the frame is too old; ignored under the first law |
| `BitrateController.Controller.OnFeedback` | helper/src/wivrn/bitrate_controller.cpp:604-656 | joins a report into its frame and decides, exactly as the step studied over whole runs; returns the bitrate exactly when it moved |
| `BitrateController.Controller.MergeReport` | helper/src/wivrn/bitrate_controller.cpp:634-653 | joins one stream's report into its frame |
| `BitrateController.Controller.Analyse` | helper/src/wivrn/bitrate_controller.cpp:376-420 | drops samples older than the window and computes its statistics |
| `BitrateController.Controller.Evaluate` | helper/src/wivrn/bitrate_controller.cpp:658-677 | evaluates at most every interval, releases a stale hold, decides by the law in force |
| `BitrateController.Controller.EvaluateAimd` | helper/src/wivrn/bitrate_controller.cpp:679-788 | lowers, rebounds, increases or holds as the decision proved safe in `BitrateSafety.AimdDecides` says |
| `BitrateController.Controller.EvaluateBbr` | helper/src/wivrn/bitrate_controller.cpp:790-870 | backs off, cruises or walks up as the decision proved safe in `BitrateSafety.BbrDecides` says |
| `BitrateController.Controller.BackOff` | helper/src/wivrn/bitrate_controller.cpp:872-894 | computes the backoff |
| `BitrateController.Controller.Cruise` | helper/src/wivrn/bitrate_controller.cpp:895-956 | moves through startup, steady and probe as specified |
| `BitrateController.Controller.Follow` | helper/src/wivrn/bitrate_controller.cpp:958-995 | moves the bitrate to the gain times the estimate, under the steady limits |
| `BitrateController.Controller.AnalyseRadio` | helper/src/wivrn/bitrate_controller.cpp:422-468 | computes the least-squares trend of the recent reports |
| `BitrateController.Controller.Means` | helper/src/wivrn/bitrate_controller.cpp:438-447 | the first pass computes the means of time and level |
| `BitrateController.Controller.Spread` | helper/src/wivrn/bitrate_controller.cpp:449-466 | the second pass computes covariance, variance and the peak link speed |
| `RadioTrend.TrendFitsBest` | helper/src/wivrn/bitrate_controller.cpp:438-463 | of all slopes through the means the computed one has the smallest sum of squared errors, and no other has it |
| `BitrateController.Controller.OnWifiState` | helper/src/wivrn/bitrate_controller.cpp:470-602 | follows the trend, releases or takes the hold and steps down after both cooldowns, exactly as the step studied over whole runs; returns the bitrate exactly when it moved |
| `Pacing.DeadlinesAreMonotone` | helper/src/wivrn/shard_pacer.h:79-100 | deadlines start at the start, never go back, never pass start + budget |
| `Pacing.DeadlinesWithinWindowExactly` | helper/src/wivrn/shard_pacer.h:148-166 | all bytes of a frame begun in a slot are due by the end of its window, at most half a period after the slot opened, exactly when the frame is begun by then |
| `Pacing.SpentWindowIsOverrun` | helper/src/wivrn/shard_pacer.h:148-166 | a frame begun after the window of its slot is spent is due too late |
| `Pacing.SharesUseTheWindow` | helper/src/wivrn/shard_pacer.h:148-166 | frames served back to back use up exactly what is left of the window in shares that differ by at most one, longer ones last |
| `Pacing.FreshSlotIsSharedOut` | helper/src/wivrn/shard_pacer.h:148-166 | a slot opened for k frames spends exactly its whole window on them |
| `Pacing.ShardPacer.WaitUntil` | helper/src/wivrn/shard_pacer.h:107-122 | pauses only on crossing into a new group and only for long enough, until that byte's deadline |
| `Pacing.PacingSlot.BeginFrame` | helper/src/wivrn/shard_pacer.h:148-166 | computes the specified share and opens a slot when due |
| `PacedSenders.WholeShards` | helper/src/wivrn/video_out.cpp:79-172 | the shards carry the frame's bytes in order, numbered from zero, view info only on the first, timing info only on the last |
| `PacedSenders.ParityCoversEveryShard` | helper/src/wivrn/video_out.cpp:55-77 | with parity on, the parity covers every data shard exactly once and in order |
| `PacedSenders.PacedSender.Begin` | helper/src/wivrn/video_out.cpp:27-53 | a frame is taken up with any pacer, new or used; an empty one is over at once |
| `PacedSenders.EveryPacerFits` | helper/src/wivrn/shard_pacer.h:107-122 | whatever a pacer was asked, the groups it has passed stay within its frame, so it may pace a frame |
| `PacedSenders.PacedSender.SendShard` | helper/src/wivrn/video_out.cpp:86-150 | sends the next shard and the parity of a group it completes |
| `PacedSenders.PacedSender.Pump` | helper/src/wivrn/video_out.cpp:79-172 | at any time and with any pacer hands out the next stretch of the same packets, idle exactly when all are out, with fewer pauses than groups |
| `PacedSenders.SendWhole` | helper/src/wivrn/video_out.cpp:174-191 | the unpaced sender puts out the whole frame |
| `PacedSenders.SendPaced` | helper/src/wivrn/video_out.cpp:27-191 | for every pacer and sequence of pump times the data shards are a beginning of the unpaced sender's and the packets one of the frame's, parity included; all of them after group_count pumps or one at start + budget |
| `PacedSenders.SamePacketsExactly` | helper/src/wivrn/video_out.cpp:55-172 | a frame's packets are the unpaced sender's, or a beginning of them, exactly when no parity goes out |
| `PacedSenders.SameShards` | helper/src/wivrn/video_out.cpp:79-172 | with or without parity the data shards of a frame are the unpaced sender's |
| `VideoBridge.OverflowByPairs` | helper/src/video_bridge.cpp:140-150 | a queue of whole pairs overflows by whole pairs and by no more than needed |
| `VideoBridge.EveryRunKeepsLedger` | helper/src/video_bridge.cpp:74-151 | in every run what was accepted is what left, in order, followed by what is queued, at most two frames and none without a client |
| `VideoBridge.NothingIsLost` | helper/src/video_bridge.cpp:99-151 | frames queued = taken + dropped + discarded + still queued, in order and eye for eye |
| `VideoBridge.QueueAndTakesAreWhole` | helper/src/video_bridge.cpp:99-151 | the queue, and everything ever taken, is whole pairs in order |
| `VideoBridge.Bridge.SetClient` | helper/src/video_bridge.cpp:37-72 | a change of parameters moves the configuration and key-frame counters, a change of bitrate only its own |
| `VideoBridge.Bridge.SetBitrate` | helper/src/video_bridge.cpp:23-35 | a new bitrate other than zero moves only its counter, and only for a connected client |
| `VideoBridge.Bridge.ClearClient` | helper/src/video_bridge.cpp:74-82 | discards the queue of a connected client |
| `VideoBridge.Bridge.RequestIdr` | helper/src/video_bridge.cpp:84-91 | moves the key-frame counter and nothing else |
| `VideoBridge.Bridge.TakeFrames` | helper/src/video_bridge.cpp:99-107 | hands over the whole queue in order |
| `VideoBridge.Bridge.PushFrames` | helper/src/video_bridge.cpp:125-151 | appends for a connected client, then drops whole frames from the front; the counters count |
| `VideoBridge.Bridge.DropOldest` | helper/src/video_bridge.cpp:140-150 | the nested loop removes exactly the specified number of entries |
| `VideoBridge.Bridge.DropFrame` | helper/src/video_bridge.cpp:144-149 | the inner loop drops every leading entry of one frame and counts them |
| `KeyFrames.ConfigureSkippedExactly` | helper/src/video_intake.cpp:197-201 | in every run a frame does not configure the encoder exactly when an earlier one did for the same ring and configuration, with success, and no teardown, fatal failure or other configure came since |
| `KeyFrames.FailureIsRetried` | helper/src/video_intake.cpp:216-225 | in every run after a failed configure every frame tries again until one succeeds |
| `KeyFrames.NeverRetriedExactly` | helper/src/video_intake.cpp:216-225 | a run goes without a retry before the ring changes exactly when no frame of the same ring and configuration follows a failed configure |
| `KeyFrames.FailureIsRetriedOnTheNextFrame` | helper/src/video_intake.cpp:216-225 | a run of two frames in which a failed configure is tried again |
| `KeyFrames.ForcedExactlyWhenOwed` | helper/src/video_intake.cpp:274-299 | in every run an encode is forced exactly when its build of the encoder has not yet put out a key frame for the requests it has seen |
| `KeyFrames.FirstOutputOfBuildIsForced` | helper/src/video_intake.cpp:226-232 | until a rebuilt encoder has put out a frame every encode is forced |
| `KeyFrames.RequestForcesKeyFrame` | helper/src/video_bridge.cpp:84-91 | an encode whose snapshot was taken after a request is forced until such an encode has succeeded on the present encoder |
| `KeyFrames.RequestForcesNextEncode` | helper/src/video_bridge.h:64-65 | in every run the first encode that begins after a request is forced, if no frame is between its snapshot and its encode when the request is made |
| `KeyFrames.NextEncodeForcedExactly` | helper/src/video_bridge.h:64-65 | the first encode after a request made in a given phase of the encoder thread is forced in every run exactly when that phase is waiting or encoding |
| `KeyFrames.LateRequestIsNotServed` | helper/src/video_intake.cpp:254-279 | a run for each other phase in which the first encode after the request is no key frame |
| `KeyFrames.EncodesRunAtSnapshotBitrate` | helper/src/video_intake.cpp:272-278 | every encode of every run goes at the bitrate of its snapshot exactly when the configured bitrate is not zero |
| `KeyFrames.ZeroPreferenceIsNotFollowed` | helper/src/encoder/amf_video_encoder.cpp:101-111 | a run in which a configured bitrate of zero is not followed |
| `IdrTracker.KeyFrameBetweenGrants` | helper/src/wivrn/idr_tracker.h:81-173 | between any two grants a key frame is sent |
| `IdrTracker.GrantsAreSpaced` | helper/src/wivrn/idr_tracker.h:160-173 | grants between resets, none at time zero, are the floor apart |
| `IdrTracker.DistanceKeptExactly` | helper/src/wivrn/idr_tracker.h:160-173 | a grant keeps its distance from the next in every run exactly when it is not at time zero |
| `IdrTracker.HeldRequestNeedsIdr` | helper/src/wivrn/idr_tracker.h:81-145 | a held request implies that a key frame is needed |
| `IdrTracker.HeldUntilPolled` | helper/src/wivrn/idr_tracker.h:135-145 | a held request stays held until a key frame, a reset or its grant, and the first poll past the floor grants it |
| `IdrTracker.LossIsGrantedOrHeld` | helper/src/wivrn/idr_tracker.h:102-131 | a loss is granted at once or held and counted |
| `IdrTracker.KeyFrameTracker.OnFrameSent` | helper/src/wivrn/idr_tracker.h:81-95 | a key frame serves any held request and awaits its feedback; the first frame after it was received starts the run of dependent frames |
| `IdrTracker.KeyFrameTracker.OnFeedback` | helper/src/wivrn/idr_tracker.h:102-131 | moves as the tracker whose runs are studied and returns true exactly when it grants |
| `IdrTracker.KeyFrameTracker.PollHeld` | helper/src/wivrn/idr_tracker.h:135-145 | issues a held request exactly when the floor has passed |
| `IdrTracker.KeyFrameTracker.Request` | helper/src/wivrn/idr_tracker.h:160-173 | grants, or holds and counts |
| `StateBridge.CollectAgrees` | helper/src/bridge.cpp:98-145 | a reader that hears a collect in order ends it in agreement with the bridge |
| `StateBridge.EveryCollectAgrees` | helper/src/bridge.cpp:34-145 | after any writes, collects, connections lost half way and reconnects, each collect leaves the reader with exactly the bridge's configuration, presence, poses and inputs |
| `StateBridge.ConfigComesFirst` | helper/src/pipe_server.cpp:104-112 | on a new connection the configuration comes first |
| `StateBridge.SentExactlyWhenSet` | helper/src/bridge.cpp:98-145 | of two collects in a row on one connection, the second carries a value, its latest, exactly when some step between them set it: any pose or input written, a configuration or presence that differs, a client that leaves |
| `StateBridge.FirstCollectSendsWhatWasSet` | helper/src/bridge.cpp:98-145 | the first collect of a connection carries the configuration and exactly the values that were ever set |
| `StateBridge.OnlyLatestIsSent` | helper/src/bridge.cpp:98-145 | every message carries the latest value of what it is about |
| `StateBridge.GenerationCountsSets` | helper/src/bridge.cpp:34-96 | a generation grows over a stretch of a run exactly when a step of it sets the value |
| `StateBridge.EqualPoseIsResent` | helper/src/bridge.cpp:43-53 | for every pose a run in which writing it again unchanged sends it again |
| `StateBridge.NothingUnchangedIsResent` | helper/src/bridge.cpp:98-145 | a second collect with no write in between is empty |
| `StateBridge.Bridge.constructor` | helper/src/bridge.cpp:22-32 | every device disconnected, the configuration at generation one |
| `StateBridge.Bridge.SetConfig` | helper/src/bridge.cpp:34-41 | a different configuration moves its generation |
| `StateBridge.Bridge.SetPose` | helper/src/bridge.cpp:43-53 | stores the pose of a known device and moves its generation |
| `StateBridge.Bridge.SetInput` | helper/src/bridge.cpp:55-64 | stores the input of a known device and moves its generation |
| `StateBridge.Bridge.SetPresent` | helper/src/bridge.cpp:66-77 | a change of presence moves its generation |
| `StateBridge.Bridge.OnClientGone` | helper/src/bridge.cpp:79-96 | the loop marks every device absent and disconnected, moving only what changes |
| `StateBridge.Bridge.Collect` | helper/src/bridge.cpp:98-145 | the loops produce exactly the news, in order, and the advanced cursor |
| `PoseSanitizer.PoseFollowsHistory` | helper/src/wivrn/pose_sanitize.h:162-274 | for every history each component is that of the last sane valid sample that was tracked, or came with the freeze off, or before any tracked one; usable once both exist |
| `PoseSanitizer.VelocityFollowsHistory` | helper/src/wivrn/pose_sanitize.h:253-272 | velocities are those of this sample exactly when it was sane and nothing was held back |
| `PoseSanitizer.NoVelocityWhenHeld` | helper/src/wivrn/pose_sanitize.h:253-261 | a rejected or frozen sample reports no velocity |
| `PoseSanitizer.OnlyFiniteGetsThrough` | helper/src/wivrn/pose_sanitize.h:43-82 | whatever arrives, everything reported is finite and the orientation has unit length |
| `PoseSanitizer.SomeSupplyIsLast` | helper/src/wivrn/pose_sanitize.h:162-195 | once any sample supplied a component there is a last one that did |
| `PoseSanitizer.Sanitizer.UpdateTrackedState` | helper/src/wivrn/pose_sanitize.h:162-195 | computes the tracked state and whether the component is taken |
| `PoseSanitizer.Sanitizer.Sanitize` | helper/src/wivrn/pose_sanitize.h:197-274 | computes the specified state and report |
| `ClockOffset.WindowIsLastAdmitted` | helper/src/wivrn/clock_offset.cpp:74-94 | after any samples the window is exactly the last hundred admitted |
| `ClockOffset.EstimateError` | helper/src/wivrn/clock_offset.cpp:67-139 | with honest samples the estimate is within half the mean round trip of the window plus 2 ns of the true offset, in warm-up and after |
| `ClockOffset.FlagFollowsHistory` | helper/src/wivrn/clock_offset.cpp:131-145 | after any samples the flag is set exactly when a hundred were admitted and the mean of the last hundred is within 20 ms of the estimate before the last admitted one |
| `ClockOffset.EstimateFollowsHistory` | helper/src/wivrn/clock_offset.cpp:67-139 | after any honest samples the estimate is within half the mean round trip of the last hundred admitted ones plus 2 ns, wherever the circular buffer begins |
| `ClockOffset.FlagReadsBack` | helper/src/wivrn/clock_offset.cpp:131-145 | the low bit says stable exactly when the window is full and the mean moved less than 20 ms |
| `ClockOffset.Estimator.AddSample` | helper/src/wivrn/clock_offset.cpp:67-139 | computes the specified window and estimate, so the state is always that of the samples fed since the reset |
| `ClockOffset.Estimator.Recentred` | helper/src/wivrn/clock_offset.cpp:118-128 | the second pass adds nothing to the mean |
| `ClockOffset.Estimator.Means` | helper/src/wivrn/clock_offset.cpp:98-108 | the first pass computes both means |
| `ClockOffset.Estimator.TotalTrips` | helper/src/wivrn/clock_offset.cpp:82-85 | the loop sums the round trips |
| `ClockOffset.Estimator.GetOffset` | helper/src/wivrn/clock_offset.cpp:141-145 | stable exactly when the samples fed so far are steady, and the offset is within half their mean round trip plus 2 ns of every clock they are honest about |
| `KeyStore.KnownKeys` | helper/src/wivrn/store.cpp:250-282 | the reading loop computes the parse of the file |
| `KeyStore.RoundTrip` | helper/src/wivrn/store.cpp:250-332 | parsing what was printed gives back the list exactly when every entry is clean |
| `KeyStore.SanitizeName` | helper/src/wivrn/store.cpp:140-150 | replaces every separator, never yields an empty name |
| `KeyStore.FreshName` | helper/src/wivrn/store.cpp:309-326 | the renaming loop finds the first free candidate within one try more than there are headsets |
| `KeyStore.CandidatesRunOut` | helper/src/wivrn/store.cpp:309-326 | no more candidates can be taken than there are headsets |
| `KeyStore.IsKeyKnown` | helper/src/wivrn/store.cpp:284-295 | a key is known exactly when it is not empty and in the file |
| `KeyStore.AddKnownKey` | helper/src/wivrn/store.cpp:297-332 | leaves the file alone exactly for an empty or known key, otherwise prints it with the headset under the first free name |
| `KeyStore.Written` | helper/src/wivrn/store.cpp:330-332 | the writing loop prints the list |
| `KeyStore.AddingRemembersExactly` | helper/src/wivrn/store.cpp:297-332 | everything known stays known and the new headset is known exactly when its name does not begin with the comment mark |
| `KeyStore.EveryFileIsSound` | helper/src/wivrn/store.cpp:250-332 | however many headsets are added, names and keys stay distinct and every entry survives the next rewrite |
| `KeyStore.CommentMarkIsLost` | helper/src/wivrn/store.cpp:269-272 | a headset called "#1" is not read back |

## Left out

- Win32 pipes and events, Winsock, D3D11, DXGI, AMF and OpenVR calls: only the keyed mutex and first-in first-out semantics they provide are modelled.
- The crypto handshake, PIN exchange, sockets and the parity arithmetic: parity is a list that is full at the group size and emptied when taken.
- Failures of single D3D calls: an acquire on an abandoned mutex counts as acquired, as in the code, and a ring opens whole or not at all.
- Reuse of NT handles by the operating system: a texture is identified by ring generation and slot for the length of a run, and a run is one vrserver lifetime.
- Slots lost when the shim's outgoing queue of 64 evicts a FrameReady for a StagingConfig: the frame is modelled as lost, and no claim is made that its slot is ever freed.
- StagingRing.FrameStagingRing.AcquireSlot: is one atomic step of the present thread; `TransportSafety.FreeSlotsAreFree` is what justifies it, since the helper cannot change a slot the shim regards as free.
- Floating-point rounding, and wrap-around of 64-bit frame indices, byte totals and 16-bit shard indices: reals and unbounded integers are used.
- The square root in the scaling of a quaternion: PoseSanitizer takes the scaling as a parameter, and `PoseSanitizer.OnlyFiniteGetsThrough` asks of it that it divides by a square root of the squared length.
- PacedSender's count of bytes on the wire and its timestamp hook: bookkeeping beside the packets.
- That a burst is never early: the sender does not recheck the time it returned, so this depends on the caller.
- Whole eye pairs in the session's own queue: with the left eye in flight, overflow there can drop the right eye of the same frame.
- Recovery when a key frame is dropped before it is booked as sent: the tracker then waits for feedback on a frame that never went out.
- Counters for logs (frames seen, encoded, dropped, poses received, sanitizer timestamps): conservation is stated over answers and queue entries instead.
- The bitrate controller's snapshot and status names, and log lines: read-only.
- BitrateController.Controller: keeps its fields in five records rather than one by one, and its maximum filter as a value; the filter's in-place form is MaxFilter.WindowedMax.
- Haptics, the synthetic tracker and video, the display component, command line and mDNS: easy or not meaningful to prove.

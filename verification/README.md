# Verified model of the hand-tracking SDK

This project models the parts of the hand-tracking SDK whose correctness rests on their own
logic rather than on a neural network or a library, and proves what each of them is for.

| component | files here |
|---|---|
| coordinate-frame service and its camera set-up | `Geometry`, `CoordTransform`, `CameraFrames` |
| matching of the packets of several output streams to frames | `StreamMatching`, `StreamMatchingSafety`, `StreamMatchingQueues`, `StreamMatchingReads`, `StreamMatchingSplit`, `StreamMatchingTurns`, `StreamMatchingFreeRuns`, `StreamMatchingRepeats`, `BaseXGraph` |
| hand-over between the one-camera and the two-camera hand model | `HandBlend` |
| the detect / track / correct machine of one frame | `HandTracking`, `HandTracker` |
| gesture features with memory, and the pinch machine | `FingerState`, `Gesture`, `GesturePostures`, `GestureRecognizer` |
| keypoint head: soft-argmax over heatmaps, in both tensor layouts | `Sums`, `TensorKernels`, `SoftArgmax` |
| forward kinematics of the hand | `HandKinematics` |
| non-maximum suppression, the pick of one box per hand, and the way back to the picture | `BoxOverlap`, `PictureScale`, `NonMaximumSuppression` |
| blocked tensor layout of the NPU | `NpuLayout` |
| One Euro filter, and the filters of a hand | `OneEuro`, `OneEuroFilter`, `HandFilters` |
| memory pool and thread pool | `MemoryPool`, `MemoryPoolRace`, `ThreadPool` |
| shared by several | `Collections` |

Code that updates objects or buffers is a class or a method over an array here, proved against a
function or predicate on values; the properties of whole runs are then lemmas about those. A run
is a sequence of states in which each follows from the one before by a step of the program, so
that the lemmas hold for every interleaving and every input. Floating point is modelled by `real`,
`exp` by any positive function, and what networks, cameras and the system answer by inputs.

Where the code differs from what it seems to mean, the model follows the code and says so:

* A pinch output means that the index opposition is closed only if all three bands that can be in
  force cover the close range of the rule (`Gesture.PinchClosedIffBandsCover`). Around the open
  threshold there is a gap of one band width in which a pinch does not end (`Gesture.PinchEnds`).
* A state of a finger feature cannot flicker only if the thresholds are in order
  (`FingerState.CostlyIffOrdered`).
* `nms` with a threshold below -0.1 lets one hand suppress the other
  (`NonMaximumSuppression.HandsKeptIffThreshold`).
* The One Euro filter accepts a negative beta, and then a fast signal raises the range error
  (`OneEuro.NeverFailsIffBeta`); a stamp that is not later than the one before always does
  (`OneEuro.LateStampFails`). Its reset does not restore the frequency that stamps have changed:
  a reset filter acts as a new one exactly if the last two stamps of its past with nothing in
  between are one period apart, or there are no two such stamps (`OneEuro.ResetActsNewIff`); two
  stamped values at half the frequency are enough to spoil it (`OneEuro.StampsSpoilReset`).
* The detector stretches the picture to the network input and moves boxes back as if it had been
  scaled and padded. Boxes of whole pixels all come back exactly if the ratios of the two axes are
  so close that twice the difference of the crosswise products of the sizes is less than the side
  of the network input (`PictureScale.AllReturnIffRatiosClose`); a 640 x 400 picture and a
  320 x 320 input are a case where they do not.
* The keypoint head takes the side of its maps from the second dimension of the tensor and the
  number of keypoints from the third, in both layouts. It stays inside the tensor exactly if the
  second dimension is not greater than the first (`SoftArgmax.ReadsInsideIff`), and it reports every
  channel, where it is, for all heatmaps, exactly if the maps are square and, with channels first,
  as many as they have columns (`SoftArgmax.AlwaysRightIffShapesAgree`). With channels first,
  21 maps of 32 x 32 cells are read past their end (`SoftArgmax.ChannelsFirstFails`).
* The queue of a thread pool with a depth takes one task more than the depth
  (`TaskQueue.BurstFillsQueue`).
* With one camera the landmark node never finds a right hand, because it looks for a hand seen by one
  camera only on the hand's own side (`HandTracking.OneCameraNoRightHand`).
* A thread pool without workers exits with accepted tasks undone (`TaskQueue.DrainsIffWorkers`).
* A packet that a stream sends twice for a frame is counted like any other, so that the harm can
  come later, with ordinary packets. A frame that leaves the table with its last packet has all its
  packets exactly if none was a repeat; otherwise, with one group, it is handed over with an empty
  slot, and with several groups, the group of the missing stream never gets it
  (`StreamMatchingRepeats.FinishedCompleteIffNoRepeat`). Over whole runs exactly-once and
  completeness hold exactly if no such frame had a repeat and, with several groups, no packet was
  repeated for a full group (`StreamMatchingRepeats.ServedIffNoHarmfulRepeat`). Runs of each kind of
  harm are `ShortFrameHanded`, `FullGroupMissed` and `FullGroupTwice`. The graph must not send a
  packet twice.
* The matcher fills a frame under one lock and hands it over later under another. Whatever happens
  in between, frames are handed over exactly once (`StreamMatchingSplit.ExactlyOnceInterleaved`).
  Queues stay newest first if callbacks of a group take the second lock in the order of their packets
  (`StreamMatchingTurns.InTurnNewestFirst`); if one overtakes another, the older frame can be in
  front (`StreamMatchingTurns.Overtaken`).
* A frame that waits for room in a blocking queue waits until the graph is stopped and is then
  dropped, because the waiting side holds the lock that a read needs
  (`StreamMatchingQueues.WaitEndsOnlyByStop`).
* A second camera set-up writes into the table that the first one has completed. It leaves a table
  that some placement of the frames implies exactly if it brings the same parameters, because the
  derived entries stay as they were (`CameraFrames.SecondSetUpPlacedIff`).
* The memory pool tests its limit before it takes its lock. With callers at the same time the limit
  can be passed by one greatest request for each further caller, and by no more
  (`MemoryPoolRace.OvershootBound`, `MemoryPoolRace.OvershootReached`).
* A change of the band in force can change a state without any movement, with the shipped numbers
  at a distance of 0.0205 (`Gesture.SwitchIsFree`).
* The flexion update starts from the curl states, and the orientation test calls every angle from
  60 up to 150 degrees vertical, because one half of it compares two
  constants (`GesturePostures.FeaturesFollowJoints`, `GesturePostures.OrientationFollowsAngle`).

Environment assumptions are preconditions or predicates with a name: `OncePerStream`, `LockFree`,
`InOrder` and `InTurn` for the stream matcher, `WellFormed` for its grouping and for the NPU block
sizes, `Enabled` for the memory pool.

## Model

| member | source | states |
|---|---|---|
| CoordTransform.CoordTransformService.constructor | aisdk/base/coord_transform_service.h:21-33 | a new table knows no pair of frames |
| CoordTransform.CoordTransformService.SetTransformInternal | aisdk/base/coord_transform_service.h:117-122 | exactly one entry becomes known |
| CoordTransform.CoordTransformService.SetTransform | aisdk/base/coord_transform_service.h:53-71 | a matrix that fails the rotation test is refused and changes nothing; otherwise the transform is registered and, after it, its inverse the other way |
| CoordTransform.CoordTransformService.SetTransformByQuaternion | aisdk/base/coord_transform_service.h:73-91 | the same for a quaternion, whose norm is tested |
| CoordTransform.CoordTransformService.Chain | aisdk/base/coord_transform_service.h:134-136 | writing the composition through a frame in between keeps every entry within what walks over the registered pairs connect, and equal to what any placement of the frames implies |
| CoordTransform.CoordTransformService.CalculateTransform | aisdk/base/coord_transform_service.h:124-146 | the search ends although it reads the table it writes; known entries are kept, only the target's column in newly visited rows is written, and a failed search writes nothing and leaves a visited set that is closed under the known pairs and misses the target |
| CoordTransform.FailureSeparates | aisdk/base/coord_transform_service.h:39-47 | the visited set of a failed search shows that no walk over registered pairs joins its end points |
| CoordTransform.CoordTransformService.EnsurePair | aisdk/base/coord_transform_service.h:38-47 | a pair is left unknown only if nothing registered connects it |
| CoordTransform.CoordTransformService.Finalize | aisdk/base/coord_transform_service.h:35-51 | it succeeds exactly when the registered pairs connect all frames; registered entries are never overwritten, and a complete table not at all; if any placement of the frames agrees with what was registered, the completed table, diagonal included, is the one it implies |
| CoordTransform.CoordTransformService.TableLaws | aisdk/base/coord_transform_service.h:97-99 | in such a table transforms chain, the two directions invert each other, diagonals are the identity, and moving a point there and back changes nothing |
| CoordTransform.CoordTransformService.TransformPoints | aisdk/base/coord_transform_service.h:105-114 | every point is moved by the entry of the pair, in order |
| CoordTransform.ForestHasPoses | aisdk/base/coord_transform_service.h:69-70 | whatever transforms a forest of pairs is registered with, some placement of all frames agrees with all of them, so the condition of Finalize can always be met |
| CoordTransform.ReposedAgrees | aisdk/base/coord_transform_service.h:53-71 | registering a pair that was not connected keeps a consistent placement, found by moving one side |
| CoordTransform.ChangedPlacedIff | aisdk/base/coord_transform_service.h:117-122 | if the entries that an overwriting leaves alone still connect all frames, a placement agrees with the table exactly if the overwriting changed nothing |
| CoordTransform.RelativeChain | aisdk/base/coord_transform_service.h:134-135 | the transforms implied by a placement chain |
| CoordTransform.RelativeInverse | aisdk/base/coord_transform_service.h:70 | the transform implied the other way is the inverse |
| Geometry.ComposeInverse | aisdk/base/coord_transform_service.h:70 | the inverse built from the transposed rotation undoes a rigid transform on both sides |
| Geometry.RotationIsRigid | aisdk/base/coord_transform_service.h:148-151 | rotations give rigid transforms, orthogonal by rows although only columns are tested |
| Geometry.TestAcceptsRotations | aisdk/base/coord_transform_service.h:148-151 | the test with its tolerance accepts every exact rotation, at any precision of the comparison |
| Geometry.QuaternionRotates | aisdk/base/coord_transform_service.h:84-87 | every unit quaternion makes a rotation matrix, orthogonal and of determinant one |
| Geometry.QuaternionTurns | aisdk/base/coord_transform_service.h:84-87 | that matrix turns a vector the way the quaternion does, to q v q* |
| Geometry.OrthogonalTranspose | aisdk/base/coord_transform_service.h:148-151 | a matrix that is orthogonal by columns is so by rows |
| Geometry.UnitPasses | aisdk/base/coord_transform_service.h:153-155 | the norm test accepts every unit quaternion |
| CameraFrames.CameraPairsFormTree | aisdk/task/handtracking/nrcore_pipeline.cpp:32-39 | the four registered pairs form a tree that connects all five frames |
| CameraFrames.SetGlobalCameraParams | aisdk/task/handtracking/nrcore_pipeline.cpp:9-41 | into the shared service, whatever it holds: with rotations that pass the tests the set-up never fails; on an empty table exact rotations give the table implied by a placement of the cameras and the head, in which a point of an input camera reaches the head by way of the graphics cameras, the right one through the left one; on a completed table only the entries of the four pairs change |
| CameraFrames.CameraPaths | aisdk/task/handtracking/nrcore_pipeline.cpp:32-40 | where a completed table takes points, spelled out by the three parameters, right camera to left camera and to the head included |
| CameraFrames.SecondSetUpPlacedIff | aisdk/task/handtracking/nrcore_pipeline.cpp:32-40 | a set-up on a completed table leaves one that a placement implies exactly if its parameters are those the table holds |
| StreamMatching.MaxGroupBounds | aisdk/task/handtracking/base_xgraph.cpp:292-298 | every group index fits the table of queues |
| StreamMatchingSafety.NextInv | aisdk/task/handtracking/base_xgraph.cpp:42-280 | every step of the graph keeps the whole invariant: in-flight table, slots, hand-overs, queues and bounds |
| StreamMatchingSafety.RunInv | aisdk/task/handtracking/base_xgraph.cpp:42-280 | so does every run |
| StreamMatchingSafety.ExactlyOncePerGroup | aisdk/task/handtracking/base_xgraph.cpp:194-262 | in every run a frame is handed to a group exactly once if all streams of the group have reported it and never otherwise, and the packets handed over are the ones it holds ever after |
| StreamMatchingSafety.LastCallbackHands | aisdk/task/handtracking/base_xgraph.cpp:148-262 | a callback hands its frame over exactly when it completes the group and changes no other slot; the queue takes the frame, in front of the newest ones that fit, exactly when the graph runs and the policy has room |
| StreamMatchingSafety.PublishesIffFilled | aisdk/task/handtracking/base_xgraph.cpp:194-237 | the bitmap test, or the packet count with a single group, means exactly that all packets of the group are there |
| StreamMatchingSafety.BoundsHold | aisdk/task/handtracking/base_xgraph.cpp:101-117 | in every run fewer than 900 frames are in flight, and queues hold distinct frames handed to them, at most their depth |
| StreamMatchingSafety.FateStep | aisdk/task/handtracking/base_xgraph.cpp:93-146 | a frame leaves the table only for the reason its fate names: finished by its last packet, evicted by a registration into a full table while older than all that stay, dropped by a newer frame's packet, or cleared under its stamp |
| StreamMatchingSafety.ClearForgets | aisdk/task/handtracking/base_xgraph.cpp:93-98 | a cleared frame is in flight no more and everything else stays |
| StreamMatchingSafety.FateIsFinal | aisdk/task/handtracking/base_xgraph.cpp:63-146 | over any run a frame is in flight exactly while the table holds it, and after that keeps its fate |
| StreamMatchingSafety.OneEnding | aisdk/task/handtracking/base_xgraph.cpp:148-262 | every frame has exactly one ending in every group: in progress, gone from the table before, or at the queue as published, dropped because full, dropped because stopped, or waiting; one that got all its packets has been at the queue |
| StreamMatchingSafety.EndingStep | aisdk/task/handtracking/base_xgraph.cpp:51-262 | an ending changes only from in progress, with the outcome that the queue and the started flag fix, and from waiting to dropped by a stop |
| StreamMatchingSafety.EndingIsFinal | aisdk/task/handtracking/base_xgraph.cpp:51-280 | over any run a published or dropped frame, and one that left the table before, stays so |
| StreamMatchingSafety.FlowCleanDropsOlder | aisdk/task/handtracking/base_xgraph.cpp:119-146 | flow control keeps exactly the frames that are not older than the stamp |
| StreamMatchingSafety.CallbackCleans | aisdk/task/handtracking/base_xgraph.cpp:252-260 | a callback that does not wait drops frames exactly if there is one group and 30 frames or more stay in flight after its packet, and then exactly the frames older than the packet |
| StreamMatchingSafety.StopCleans | aisdk/task/handtracking/base_xgraph.cpp:174-182 | a stop drops frames exactly if it ends a wait, by the stamp of the frame that waited |
| StreamMatchingSafety.EvictTakesOldest | aisdk/task/handtracking/base_xgraph.cpp:101-117 | every evicted stamp is below every kept one, and exactly as many go as the table holds beyond 899 |
| StreamMatchingSafety.NewestIsKept | aisdk/task/handtracking/base_xgraph.cpp:82-84 | eviction never takes the frame just registered, if its stamp is the newest |
| StreamMatchingQueues.InOrderEnabled | aisdk/task/handtracking/base_xgraph.h:91-92 | streams in stamp order cannot report a frame twice |
| StreamMatchingQueues.QueuesNewestFirst | aisdk/task/handtracking/base_xgraph.cpp:164-190 | if every stream delivers in stamp order, all queues stay strictly newest first throughout every run |
| StreamMatchingQueues.FrontIsNewest | aisdk/task/handtracking/base_xgraph.cpp:264-280 | so from the start on, what a read gives is the newest frame the queue holds |
| StreamMatchingQueues.CoveringQueueShowsFrame | aisdk/task/handtracking/base_xgraph.cpp:169-173 | a queue that covers old frames has a completed frame in front at once, and the others moved back by one |
| StreamMatchingQueues.QueueHoldsHanded | aisdk/task/handtracking/base_xgraph.cpp:164-190 | in every run without a stop and without a removing read, a covering queue is the last frames handed to its group up to its depth, any other queue the first ones, newest in front |
| StreamMatchingReads.EachGivenOnce | aisdk/task/handtracking/base_xgraph.cpp:164-190 | in every run a removing read never gives a frame twice and gives only frames that the queue took; the queue is the frames it took and has not given, newest in front: all of them, or the newest if it covers old ones |
| StreamMatchingReads.ReadsDrain | aisdk/task/handtracking/base_xgraph.cpp:264-280 | removing reads without a hand-over in between give the frames of the queue in order from the front, each once, and then nothing |
| StreamMatchingReads.ReuseKeeps | aisdk/task/handtracking/base_xgraph.cpp:264-280 | a reusing read leaves everything as it was |
| StreamMatchingQueues.WaitEndsOnlyByStop | aisdk/task/handtracking/base_xgraph.cpp:164-182 | in every run without a stop a frame that waits for room goes on waiting and all queues stay as they are, given `LockFree`: a call that needs the output lock does not go on while the waiting hand-over holds it |
| StreamMatchingQueues.StopEndsWait | aisdk/task/handtracking/base_xgraph.cpp:51-56 | a stop ends the wait, and the frame that waited is dropped |
| StreamMatchingRepeats.RepeatsCounted | aisdk/task/handtracking/base_xgraph.cpp:219-222 | in every run, repeats allowed, the count of a frame exceeds its filled slots by the number of steps that repeated one of its packets |
| StreamMatchingRepeats.FinishedCompleteIffNoRepeat | aisdk/task/handtracking/base_xgraph.cpp:201-262 | in every run, a frame that left with its last packet has all slots filled exactly if no packet was a repeat; with one group it was handed over exactly once, with its packets exactly in that case; with several groups it reached every group exactly in that case, and never the group of an empty slot |
| StreamMatchingRepeats.FinishedStays | aisdk/task/handtracking/base_xgraph.cpp:223-238 | nothing is added to such a frame later |
| StreamMatchingRepeats.ServedIffNoHarmfulRepeat | aisdk/task/handtracking/base_xgraph.cpp:201-262 | over all runs, exactly-once holds and every frame that left with its last packet is with all groups, exactly if none of these frames had a repeat and, with several groups, no packet was repeated for a full group |
| StreamMatchingRepeats.ShortFrameHanded | aisdk/task/handtracking/base_xgraph.cpp:223-226 | three outputs in one group: a repeat and an ordinary packet after it hand the frame over with an empty slot |
| StreamMatchingRepeats.FullGroupMissed | aisdk/task/handtracking/base_xgraph.cpp:227-237 | three outputs in two groups: after a repeat a group all of whose streams report never gets the frame |
| StreamMatchingRepeats.FullGroupTwice | aisdk/task/handtracking/base_xgraph.cpp:227-231 | two outputs in groups of their own: a repeat hands the frame to its group a second time |
| StreamMatchingSplit.AfterInv | aisdk/task/handtracking/base_xgraph.cpp:164-262 | with the look at the started flag, the two locks and the end of a wait as separate steps in any order, every step keeps that hand-overs made and due together are exactly-once, and the bounds of table and queues |
| StreamMatchingSplit.ExactlyOnceInterleaved | aisdk/task/handtracking/base_xgraph.cpp:215-255 | in every interleaving a frame whose group is full has been handed over once or is due once, and no other is; what is handed over are the packets the frame holds ever after; queues hold distinct frames, at most their depth |
| StreamMatchingSplit.AtomicRunReached | aisdk/task/handtracking/base_xgraph.cpp:201-262 | every run of atomic callbacks is one of these interleavings |
| StreamMatchingTurns.InTurnNewestFirst | aisdk/task/handtracking/base_xgraph.cpp:164-190 | in every interleaving in which streams deliver in stamp order and callbacks of a group take the output lock in the order of their packets, all queues stay newest first |
| StreamMatchingTurns.Overtaken | aisdk/task/handtracking/base_xgraph.cpp:248-255 | a run with packets in stamp order in which one callback overtakes another and the older frame is in front |
| BaseXGraph.CountGroups | aisdk/task/handtracking/base_xgraph.cpp:292-298 | the loop finds the number of queues: one more than the greatest group index |
| BaseXGraph.BaseXGraph.constructor | aisdk/task/handtracking/base_xgraph.cpp:282-303 | a configured graph starts with empty queues and nothing in flight |
| BaseXGraph.BaseXGraph.Start | aisdk/task/handtracking/base_xgraph.cpp:42-49 | refines the start step |
| BaseXGraph.BaseXGraph.Stop | aisdk/task/handtracking/base_xgraph.cpp:51-61 | refines the stop step, with the end of a waiting callback |
| BaseXGraph.BaseXGraph.SetInputStreamCache | aisdk/task/handtracking/base_xgraph.cpp:63-91 | registers and evicts as the step does; fails exactly when stopped or when the stamp is in flight, without any change |
| BaseXGraph.BaseXGraph.ClearInputStreamCache | aisdk/task/handtracking/base_xgraph.cpp:93-98 | refines the clear step |
| BaseXGraph.BaseXGraph.CleanGraphNoResultInferenceCache | aisdk/task/handtracking/base_xgraph.cpp:101-117 | the loop over the ordered table evicts frames older than all that stay, and leaves 899 or all there were |
| BaseXGraph.BaseXGraph.CleanMediapipeDropedInferenceCache | aisdk/task/handtracking/base_xgraph.cpp:119-146 | the loop drops all and only the frames older than the stamp |
| BaseXGraph.BaseXGraph.MoveOutputCache | aisdk/task/handtracking/base_xgraph.cpp:148-192 | the queue step under each clean-up policy; nothing is queued once stopped, and a frame that finds a blocking queue full waits |
| BaseXGraph.BaseXGraph.CallBackInferenceResult | aisdk/task/handtracking/base_xgraph.cpp:201-262 | refines the callback step; the result tells whether the frame was in flight |
| BaseXGraph.BaseXGraph.GetOutputStreamCache | aisdk/task/handtracking/base_xgraph.cpp:264-280 | gives the front of an existing queue and leaves the others in order behind it, all of them if it is to be reused; no other queue changes |
| HandBlend.WorldRoundTrip | aisdk/algorithm/common/NR_Transfer.cpp:69-92 | publishing points in the world and re-expressing them in the camera undo each other, for every rig and head pose |
| HandBlend.TableConversions | aisdk/algorithm/common/NR_Transfer.cpp:12-48 | the conversions through the frame table are these conversions, for a table that a placement implies |
| HandBlend.SmoothHand | aisdk/algorithm/calculator/hand_lift_calculator.cpp:193-216 | the in-place loop shifts all 26 points by the same blend and counts one frame down |
| HandBlend.PublishedHand | aisdk/algorithm/calculator/mono_hand_kpt3d_nimble_DLT_flora_calculator.cpp:133-156 | a published root lies on the segment from the raw to the previous root at the fraction count / 30; all keypoint differences are those of the raw hand; without a count the hand is raw |
| HandBlend.SwitchKeepsRoot | aisdk/algorithm/calculator/hand_lift_calculator.cpp:193-216 | a switch of models on a hand valid in the previous frame publishes the previous world root |
| HandBlend.CountsDown | aisdk/algorithm/calculator/mono_hand_kpt3d_nimble_DLT_flora_calculator.cpp:138-155 | after k frames with the new model 30 - k blended frames are left, never fewer than none |
| HandBlend.HandOver | aisdk/algorithm/calculator/hand_lift_calculator.cpp:192-216 | a whole hand-over from any reachable state: frame k is blended by (30 - k) / 30, so the first keeps the root and from the 31st on all are raw |
| HandBlend.ValidIffAccepted | aisdk/algorithm/calculator/block_hard_rules_calculator.cpp:131-155 | a frame leaves a valid hand for the next one exactly if a model saw the hand and the hard rules did not reject it |
| HandBlend.BlendFromFrames | aisdk/algorithm/calculator/hand_lift_calculator.cpp:192-216 | the blending of every frame of every run from the frames alone: by (30 - k) / 30 in the k-th frame after the other model's last one, and none at all if the hand was unseen or rejected in between |
| HandTracking.NextInv | aisdk/algorithm/calculator/hand_filter_calculator.cpp:91-204 | every frame restores: a 2D predictor is tracking exactly when its stored 2D flag and 3D hand flag are set, a 3D one exactly when its hand is, and the stored points that tracking reads exist |
| HandTracking.RunInv | aisdk/algorithm/calculator/hand_detection_track_calculator.cpp:148-362 | so do all frame boundaries of every run |
| HandTracking.MeasuredHavePoints | aisdk/algorithm/calculator/hand_lift_calculator.cpp:217-226 | every view with a measurement has 2D points, in the one-camera and the two-camera case |
| HandTracking.TrackedStep | aisdk/algorithm/calculator/hand_detection_track_calculator.cpp:267-275 | a frame that only tracks advances the step counter within 1 to the interval, wrapping to 0 |
| HandTracking.DetectorRunsInEveryWindow | aisdk/algorithm/calculator/hand_detection_track_calculator.cpp:267-320 | in every run, among any interval + 1 consecutive frames with a valid pose one runs the detector |
| HandTracking.BoundIsMet | aisdk/algorithm/calculator/hand_detection_track_calculator.cpp:267-320 | the bound is exact: a run with good boxes detects in frame 0 and again only in frame interval + 1 |
| HandTracking.OwnSideAlways | aisdk/algorithm/calculator/hand_landmark_batch_calculator.cpp:373-419 | at every frame boundary of every run a valid hand is measured by the camera on its own side; the other camera alone never leads to landmarks, points or a predictor |
| HandTracking.OneCameraNoRightHand | aisdk/algorithm/calculator/hand_landmark_batch_calculator.cpp:408-419 | with one camera no run ever reports a right hand or uses a box of the other camera |
| HandTracking.HandsFound | aisdk/algorithm/calculator/hand_landmark_batch_calculator.cpp:373-419 | which views get landmarks and which hands are valid, left and right spelled out |
| HandTracking.RejectedStops | aisdk/algorithm/calculator/hand_filter_calculator.cpp:91-204 | a hand that the hard rules reject is not valid and none of its predictors goes on, whatever the networks found |
| HandTracking.LostNeedsDetector | aisdk/algorithm/calculator/hand_detection_track_calculator.cpp:161-265 | in every run a hand that is not valid becomes valid again only after the detector has run |
| HandTracking.ViewNeedsDetector | aisdk/algorithm/calculator/hand_detection_track_calculator.cpp:161-265 | likewise tracking finds a hand only in a camera that had landmarks of it |
| HandTracking.RejectedNeedsDetector | aisdk/algorithm/calculator/hand_detection_track_calculator.cpp:161-265 | so a rejected hand stays lost until the detector runs |
| HandTracking.NoPoseIsRestart | aisdk/algorithm/calculator/hand_detection_track_calculator.cpp:149-156 | a frame without a valid pose puts the machine back to its start |
| HandTracking.FailureChangesNothing | aisdk/algorithm/calculator/hand_detection_track_calculator.cpp:284-287 | a failed detection leaves everything as it was |
| HandTracking.EmptyFrameDetectsNext | aisdk/algorithm/calculator/hand_detection_track_calculator.cpp:330-350 | after a frame without a box all predictors are stopped and the next frame with a valid pose detects |
| HandTracker.HandTracker.Detect | aisdk/algorithm/calculator/hand_detection_track_calculator.cpp:148-362 | tracks or detects, and stops all six predictors exactly if there is no box; no unstarted predictor is queried and no missing point vector read |
| HandTracker.HandTracker.Filter | aisdk/algorithm/calculator/hand_filter_calculator.cpp:86-210 | starts, stops or corrects each predictor so that it tracks exactly what was measured |
| HandTracker.HandTracker.ProcessFrame | aisdk/algorithm/calculator/hand_detection_track_calculator.cpp:126-362 | a frame, from detection to the storing of its hands, refines the step and keeps the invariant, also when the detector fails |
| FingerState.RegionsApart | aisdk/algorithm/func/gesture_recognition_v2.cpp:86-96 | measurements that force different states are at least the band width apart |
| FingerState.LastChange | aisdk/algorithm/func/gesture_recognition_v2.cpp:86-96 | by its last change a feature, frozen on any frames, has cost its signal one band width per change but the first |
| FingerState.ChangesCostVariation | aisdk/algorithm/func/gesture_recognition_v2.cpp:86-96 | for every signal: changes times width is at most the total variation plus one width |
| FingerState.CostlyIffOrdered | aisdk/algorithm/func/gesture_recognition_v2.cpp:86-96 | for a positive width this holds exactly when the thresholds are in order |
| Gesture.CurlHistory | aisdk/algorithm/func/gesture_recognition_v2.cpp:108-123 | in every run a curl feature is the state of its own angle signal alone |
| Gesture.AbductionHistory | aisdk/algorithm/func/gesture_recognition_v2.cpp:141-154 | likewise an abduction feature |
| Gesture.CurlChangesCost | aisdk/algorithm/func/gesture_recognition_v2.cpp:108-123 | in every run of the recogniser the changes of a curl feature are paid for by the variation of its angle |
| Gesture.AbductionChangesCost | aisdk/algorithm/func/gesture_recognition_v2.cpp:141-154 | likewise for the gaps between fingers |
| Gesture.OppositionChangesCost | aisdk/algorithm/func/gesture_recognition_v2.cpp:156-177 | for the thumb-to-finger distances, whatever frames are masked and however the three bands alternate: every change of state costs a path of the least band width, but for the first and for one more at each change of band |
| FingerState.FlipsAcrossBands | aisdk/algorithm/func/gesture_recognition_v2.cpp:86-96 | the same for any feature whose band changes from measurement to measurement |
| Gesture.PinchIsTriedFirst | aisdk/algorithm/func/gesture_recognition_v2.cpp:328-337 | a pinch is recognised exactly when its rule matches, whatever other rules match |
| Gesture.RulesExclusiveUnlessOrdered | aisdk/algorithm/func/gesture_recognition_v2.h:171-252 | apart from pinches a hand fits two rules exactly for the pairs Grab and ThumbUp, OpenHand and Home, Call and Home, so only there the order decides |
| Gesture.ThumbUpNeedsStraightThumb | aisdk/algorithm/func/gesture_recognition_v2.cpp:328-337 | a fist with the thumb up is recognised as ThumbUp only with the thumb straight, because Grab is tried before |
| Gesture.StepKeepsPinchClosed | aisdk/algorithm/func/gesture_recognition_v2.h:111-123 | if the bands cover the close range, a frame keeps: a recognised pinch has the index opposition closed |
| Gesture.PinchClosedIffBandsCover | aisdk/algorithm/func/gesture_recognition_v2.h:153-215 | in all runs a pinch has the index opposition closed, exactly if each of the three bands covers the close range |
| Gesture.MaskedFrameRepeatsPinch | aisdk/algorithm/func/gesture_recognition_v2.cpp:244-256 | a masked frame outputs the pinch again and freezes the distances |
| Gesture.PinchEnds | aisdk/algorithm/func/gesture_recognition_v2.cpp:156-177 | a pinch ends exactly on an unmasked frame whose distance releases the band in force, which is then beyond its upper edge |
| Gesture.DefaultBandsCoverPinch | aisdk/algorithm/func/gesture_recognition_v2.h:152-170 | the shipped thresholds meet the condition and are in order |
| GesturePostures.FeaturesFollowJoints | aisdk/algorithm/func/gesture_recognition_v2.cpp:86-154 | the curl, flexion and abduction states of all fingers after a frame, by how far in degrees joints are bent and fingers spread |
| GesturePostures.OrientationFollowsAngle | aisdk/algorithm/func/gesture_recognition_v2.cpp:98-106 | a hand is level up to 30 and from 150 degrees on, and upright at all angles from 60 up to 150 |
| GesturePostures.RulesRead | aisdk/algorithm/func/gesture_recognition_v2.h:171-252 | the rules and their order, read from joints and tips instead of states |
| GesturePostures.SettledFrame | aisdk/algorithm/func/gesture_recognition_v2.cpp:279-340 | in every run, on a frame with no measurement inside a threshold's width and not masked, the gesture is the one that the joints and tips show, in degrees and metres; of the past only a pinch and the last tracked pinch distance matter |
| GestureRecognizer.GestureRecognizer.UpdateCurl | aisdk/algorithm/func/gesture_recognition_v2.cpp:108-123 | the loop updates all five fingers, thumb by its own angle and band |
| GestureRecognizer.GestureRecognizer.UpdateFlexion | aisdk/algorithm/func/gesture_recognition_v2.cpp:125-139 | the states depend on the new curl states, not on earlier flexion states |
| GestureRecognizer.GestureRecognizer.UpdateAbduction | aisdk/algorithm/func/gesture_recognition_v2.cpp:141-154 | the last entry is never updated |
| GestureRecognizer.GestureRecognizer.UpdateOpposition | aisdk/algorithm/func/gesture_recognition_v2.cpp:156-177 | a relaxed band wins over a moving one; the thumb entry stays |
| GestureRecognizer.GestureRecognizer.UpdateFeatures | aisdk/algorithm/func/gesture_recognition_v2.h:111-123 | all features step together, distances only when not masked |
| GestureRecognizer.GestureRecognizer.Classify | aisdk/algorithm/func/gesture_recognition_v2.cpp:328-339 | the first matching gesture in the order, or Invalid if none matches |
| GestureRecognizer.GestureRecognizer.Predict | aisdk/algorithm/func/gesture_recognition_v2.cpp:279-340 | one frame is one step of the machine whose runs the lemmas are about |
| Sums.GridTurns | aisdk/algorithm/func/reducesum.cpp:18-49 | summing a grid by rows or by columns is the same |
| TensorKernels.ReduceSumW | aisdk/algorithm/func/reducesum.cpp:18-28 | every entry of the output buffer is the sum over its row |
| TensorKernels.ReduceSumH | aisdk/algorithm/func/reducesum.cpp:39-49 | every entry of the output buffer is the sum over its column |
| TensorKernels.SoftmaxLane | aisdk/algorithm/func/softmax.cpp:17-31 | three in-place loops leave the softmax in the lane and touch nothing else |
| TensorKernels.SoftmaxLastDim | aisdk/algorithm/func/softmax.cpp:33-41 | every lane of the output is the softmax of its own lane |
| TensorKernels.SoftmaxIsDistribution | aisdk/algorithm/func/softmax.cpp:17-31 | the result is positive and sums to one |
| TensorKernels.PeakCancels | aisdk/algorithm/func/softmax.cpp:18-30 | subtracting the peak first does not change the result, when exp turns sums into products |
| TensorKernels.PeakIsGreatest | aisdk/algorithm/func/softmax.cpp:17-22 | the subtracted value is not below any entry of the lane, and is one of them unless all lie below the least float |
| TensorKernels.ElementwiseMult | aisdk/algorithm/func/elementwise_mul.cpp:17-21 | products in one stretch of the buffer, the rest untouched |
| TensorKernels.ElementwiseMultHm | aisdk/algorithm/func/elementwise_mul.cpp:23-30 | every channel is weighted by the same coefficients |
| TensorKernels.Linspace | aisdk/algorithm/common/math.h:4-19 | equally spaced points from start on, ending at stop or leaving it out; no number exactly for one point with the end point included |
| TensorKernels.NHWC2NCHW | aisdk/algorithm/func/permute.cpp:11-25 | entry (batch, pixel, channel) moves to (batch, channel, pixel), for all of them |
| TensorKernels.HoldsUnique | aisdk/algorithm/func/permute.cpp:17-23 | a buffer is determined by its logical entries |
| SoftArgmax.TurnedMoment | aisdk/algorithm/model/hand_rsntiny.cpp:24-28 | the expected column is the expected row of the turned grid |
| SoftArgmax.RowMoment | aisdk/algorithm/model/hand_rsntiny.cpp:25-33 | adding up row masses weighted by a ramp gives the expected row times the ramp's step |
| SoftArgmax.ExpectedRowInside | aisdk/algorithm/model/hand_rsntiny.cpp:22-34 | the expected row of any distribution lies on the grid |
| SoftArgmax.Ipr | aisdk/algorithm/model/hand_rsntiny.cpp:22-34 | the pipeline of seven loops returns, for every keypoint, the expected column and row under the softmax of its heatmap, scaled by the grid |
| SoftArgmax.PositionsInside | aisdk/algorithm/model/hand_rsntiny.cpp:16-19 | both are fractions in [0, 1) for every heatmap |
| SoftArgmax.Coefficients | aisdk/algorithm/model/hand_rsntiny.cpp:55 | the ramp steps by one over the grid size |
| SoftArgmax.ToChannelsFirst | aisdk/algorithm/model/hand_rsntiny.cpp:121-126 | either layout of the same logical heatmaps yields the same dense buffer |
| SoftArgmax.ReadsInsideIff | aisdk/algorithm/model/hand_rsntiny.cpp:23-33 | what is read lies inside the output tensor exactly if the second dimension is not greater than the first, or nothing is read |
| SoftArgmax.AlwaysRightIffShapesAgree | aisdk/algorithm/model/hand_rsntiny.cpp:46-48 | the head reads inside its tensor, reports every channel, and puts each at its expected position for every heatmap, exactly for square maps, with channels first only if there are as many channels as columns; otherwise the empty heatmap already comes out wrong |
| SoftArgmax.ChannelsFirstFails | aisdk/algorithm/model/hand_rsntiny.cpp:46-48 | channels-first 21 x 32 x 32 reads 32768 of 21504 values for 32 keypoints; channels-last 32 x 32 x 21 is always right |
| SoftArgmax.KeypointsRight | aisdk/algorithm/model/hand_rsntiny.cpp:128-131 | for shapes that agree the reported keypoints are the expected positions of all channels, in pixels |
| SoftArgmax.PositionsMirrored | aisdk/algorithm/model/hand_rsntiny.cpp:128-131 | a heatmap with its columns in reverse order has the mirrored expected column and the same expected row |
| SoftArgmax.KeypointsMirrored | aisdk/algorithm/model/hand_rsntiny.cpp:128-131 | so for agreeing shapes mirroring the heatmaps mirrors the first coordinate of every keypoint and leaves the second |
| SoftArgmax.PostProcess | aisdk/algorithm/model/hand_rsntiny.cpp:91-134 | for every shape that is read inside the tensor, as many keypoints as the third dimension says, each the position computed from the values read, inside the input image; they depend on the logical heatmaps only, not on the layout |
| ParentTable.Fill | aisdk/algorithm/func/hand_nimble.cpp:46-61 | a loop that reads earlier entries gives every node the value carried down its chain of parents |
| Kinematics.PosesAreOrthogonal | aisdk/algorithm/func/hand_nimble.cpp:46-61 | composing orthogonal joint rotations down the tree keeps every pose orthogonal |
| Kinematics.BoneLength | aisdk/algorithm/func/hand_nimble.cpp:54-60 | however the joints are turned, every joint stays as far from its parent as at rest |
| Kinematics.OnlyAncestorsMove | aisdk/algorithm/func/hand_nimble.cpp:57-60 | a joint moves only with rotations of joints strictly above it |
| Kinematics.RelativePose | aisdk/algorithm/func/hand_nimble.cpp:47-60 | seen from its parent, every joint has its own rotation and its own bone, so rotations compose from the root down |
| Kinematics.TurnsBelow | aisdk/algorithm/func/hand_nimble.cpp:47-60 | for skeletons that differ in the rotation of one joint, everything below it moves as one rigid body about that joint and nothing else moves |
| Kinematics.RestPose | aisdk/algorithm/func/hand_nimble.cpp:42-60 | without rotation every joint is at its rest position |
| HandNimble.HandParents | aisdk/algorithm/func/hand_nimble.cpp:30-31 | in the parent table parents precede their children |
| HandNimble.BuildSkeleton | aisdk/algorithm/func/hand_nimble.cpp:39-58 | template scaled about its root, and the rotation of each joint's bone or none |
| HandNimble.DecodeHandJoints | aisdk/algorithm/func/hand_nimble.cpp:34-68 | the 26 rows are the posed joints of the index table, relative to the root, in metres |
| HandNimble.DecodedBoneLength | aisdk/algorithm/func/hand_nimble.cpp:34-68 | for any orthogonal rotations and any scale the squared length of a bone is ((1 + scale) / 1000)^2 times that of the template |
| HandNimble.DecodedRest | aisdk/algorithm/func/hand_nimble.cpp:39-65 | without rotation the hand is the scaled template about its root |
| HandNimble.DecodedTurn | aisdk/algorithm/func/hand_nimble.cpp:47-66 | turning one bone of the decoded hand turns all joints below it by one orthogonal map about it and leaves all others |
| BoxOverlap.IntersectionIsArea | aisdk/algorithm/func/netalgo_utils.cpp:32-34 | the points that two boxes share form a box, and the computed intersection is its area |
| BoxOverlap.ApartIffDisjoint | aisdk/algorithm/func/netalgo_utils.cpp:19-30 | the four early tests find exactly the boxes without a common point |
| BoxOverlap.RatioIsShare | aisdk/algorithm/func/netalgo_utils.cpp:32-37 | the intersection is at most either area and the denominator at least either area, all equal for a copy |
| BoxOverlap.UnionIsArea | aisdk/algorithm/func/netalgo_utils.cpp:32-37 | the denominator is the area of the points in either box: at most four boxes without common area hold exactly the points of the one outside the other, and it is the area of the other plus theirs |
| NonMaximumSuppression.ExceedsSymmetric | aisdk/algorithm/func/netalgo_utils.cpp:15-38 | the overlap test does not depend on the order of the boxes |
| NonMaximumSuppression.ExceedsWithin | aisdk/algorithm/func/netalgo_utils.cpp:15-52 | an exact copy of a box with area exceeds every threshold below one, and no box of the hand exceeds one or more |
| NonMaximumSuppression.ExceedsIsShare | aisdk/algorithm/func/netalgo_utils.cpp:15-52 | for boxes of one hand that meet, the test is whether the shared area is more than the threshold times the area of the points in either box |
| NonMaximumSuppression.StableSort | aisdk/algorithm/func/netalgo_utils.cpp:12-13 | a permutation in descending confidence, ties in the order found |
| NonMaximumSuppression.Suppress | aisdk/algorithm/func/netalgo_utils.cpp:40-56 | the nested loops leave unsuppressed exactly the boxes that no surviving earlier box overlaps, and change nothing but flags |
| NonMaximumSuppression.Nms | aisdk/algorithm/func/netalgo_utils.cpp:11-57 | sorting and suppressing the list found |
| NonMaximumSuppression.SuppressionIsJustified | aisdk/algorithm/func/netalgo_utils.cpp:40-56 | survivors overlap by at most the threshold; a suppressed box overlaps a surviving box of the same hand at least as confident |
| NonMaximumSuppression.HandsAreSeparate | aisdk/algorithm/func/netalgo_utils.cpp:15-56 | for thresholds from -0.1 on a box survives exactly as it would with all boxes of the other hand left out |
| PictureScale.RoundNearest | aisdk/algorithm/model/hand_detect.cpp:213-216 | a rounded coordinate is within half a pixel, on a tie the one further from zero |
| PictureScale.PositionLands | aisdk/algorithm/model/hand_detect.cpp:205-214 | in the stretched picture a position is moved away from the middle in proportion to the quotient of the ratios |
| PictureScale.AllReturnIffExcess | aisdk/algorithm/model/hand_detect.cpp:102-108 | all boxes of whole pixels come back exactly if each axis as a whole is off by less than half a pixel |
| PictureScale.AllReturnIffRatiosClose | aisdk/algorithm/model/hand_detect.cpp:205-216 | the same in the sizes of picture and network input; otherwise the box of the whole picture does not come back |
| PictureScale.CloseAndFar | aisdk/algorithm/model/hand_detect.cpp:205-216 | a picture with unequal ratios where all boxes come back, and one where the whole picture's box does not |
| NonMaximumSuppression.Pick | aisdk/algorithm/model/hand_detect.cpp:209-225 | the scan takes, per hand, the first surviving box moved to the image, or none |
| NonMaximumSuppression.FirstSurvivorIsBest | aisdk/algorithm/model/hand_detect.cpp:193-225 | the first survivor of a hand is the arg-max of confidence over all its candidates, the earliest on a tie |
| NonMaximumSuppression.DetectHands | aisdk/algorithm/model/hand_detect.cpp:187-225 | sorting, suppressing and picking together report per hand its most confident candidate, moved to the picture by scale and padding from the sizes, and none exactly if it has none |
| NonMaximumSuppression.HandsKeptIffThreshold | aisdk/algorithm/func/netalgo_utils.cpp:15-18 | suppression never loses a whole hand, exactly if the threshold is at least -0.1 |
| NpuLayout.IndexIsNested | aisdk/xengine/nrhal_common.cpp:43-67 | the byte arithmetic is the nested index block, batch, row, column, lane |
| NpuLayout.IndexInBounds | aisdk/xengine/nrhal_common.cpp:43-67 | no entry lies outside the blocks |
| NpuLayout.EntryRoundTrip | aisdk/xengine/nrhal_common.cpp:43-67 | an entry can be read back from its index |
| NpuLayout.IndexInjective | aisdk/xengine/nrhal_common.cpp:43-67 | different entries never share an index, over batch, channel, row and column |
| NpuLayout.EveryTensorStored | aisdk/xengine/nrhal_common.cpp:50-64 | every tensor can be stored in the layout, so the premise of Gather is met |
| NpuLayout.Gather | aisdk/algorithm/model_artosyn/hand_rsntiny_artosyn.cpp:136-145 | the triple loop yields exactly the dense channels-first tensor of its batch |
| OneEuro.AlphaInRange | aisdk/algorithm/common/ofxOneEuroFilter.h:92-96 | the factor passes the range check exactly for a positive cutoff, and is then below one |
| OneEuro.NeverFailsIffBeta | aisdk/algorithm/common/ofxOneEuroFilter.cpp:51-64 | over all signals with increasing stamps, resets included, the range error never fires, exactly if beta is not negative |
| OneEuro.LateStampFails | aisdk/algorithm/common/ofxOneEuroFilter.cpp:53-59 | a stamp that is not later than the one before always raises the range error |
| OneEuro.FastSignalFails | aisdk/algorithm/common/ofxOneEuroFilter.cpp:7-12 | for every negative beta a signal of two values raises the range error |
| OneEuro.OutputsBetween | aisdk/algorithm/common/ofxOneEuroFilter.cpp:20-31 | every output lies between the least and the greatest input since the filter was new or reset |
| OneEuro.ResetIsNew | aisdk/algorithm/common/ofxOneEuroFilter.cpp:46-50 | from its first value on, a reset filter is a new one of its frequency, for every signal |
| OneEuro.ResetForgets | aisdk/algorithm/common/ofxOneEuroFilter.cpp:46-64 | without stamps, a filter reset after any past, earlier resets included, puts out for ever what a new filter of the same parameters does |
| OneEuro.FrequencyFromGap | aisdk/algorithm/common/ofxOneEuroFilter.cpp:51-56 | in every run the frequency is the inverse of the last gap between stamps with nothing in between, or as set |
| OneEuro.AlphaOrder | aisdk/algorithm/common/ofxOneEuroFilter.h:92-96 | the factor grows strictly with the cutoff measured in the frequency |
| OneEuro.AlphaIsShare | aisdk/algorithm/common/ofxOneEuroFilter.h:92-96 | the factor is the share of the angular cutoff in the angular cutoff and the frequency together |
| OneEuro.SecondOutput | aisdk/algorithm/common/ofxOneEuroFilter.cpp:51-64 | the second output after a zero and a positive value, with the cutoff raised by beta times the filtered speed |
| OneEuro.SpeedIgnoresOutput | aisdk/algorithm/common/ofxOneEuroFilter.cpp:57-60 | in every run two filters of the same derivative cutoff estimate the same speed for ever, whatever their minCutoff and beta, so the estimate never reads what was put out |
| OneEuro.RampSpeed | aisdk/algorithm/common/ofxOneEuroFilter.cpp:57-60 | on a ramp the estimate approaches the true speed geometrically |
| OneEuro.StepAnswer | aisdk/algorithm/common/ofxOneEuroFilter.cpp:51-64 | with beta zero the answer to a step approaches it geometrically |
| OneEuro.FrequencyShows | aisdk/algorithm/common/ofxOneEuroFilter.cpp:51-64 | two empty filters of different frequency differ on a signal of two values, whatever beta is |
| OneEuro.ResetActsNewIff | aisdk/algorithm/common/ofxOneEuroFilter.cpp:46-64 | after any past of values and resets a reset filter fails and puts out as a new one on every signal, exactly if the last gap between stamps, with nothing in between, is one period or there is none |
| OneEuro.StampsSpoilReset | aisdk/algorithm/common/ofxOneEuroFilter.cpp:46-56 | for every filter two stamped zeros are a past after which a reset filter is not as new |
| OneEuroFilter.LowPassFilter.constructor | aisdk/algorithm/common/ofxOneEuroFilter.cpp:14-18 | a new low-pass filter has no last value |
| OneEuroFilter.LowPassFilter.Filter | aisdk/algorithm/common/ofxOneEuroFilter.cpp:20-31 | the fields move as the step on values whose outputs are bounded |
| OneEuroFilter.LowPassFilter.WithAlpha | aisdk/algorithm/common/ofxOneEuroFilter.cpp:33-36 | a factor out of range fails and leaves the filter as it was |
| OneEuroFilter.OneEuroFilter.constructor | aisdk/algorithm/common/ofxOneEuroFilter.cpp:38-45 | parameters that pass the setters always give factors that pass the range check |
| OneEuroFilter.OneEuroFilter.Reset | aisdk/algorithm/common/ofxOneEuroFilter.cpp:46-50 | forgets values and stamp, keeps the frequency |
| OneEuroFilter.OneEuroFilter.Filter | aisdk/algorithm/common/ofxOneEuroFilter.cpp:51-64 | refines the step for every stamp; with beta at least zero it returns a value exactly if the stamp is later than the one before |
| HandFilters.FilterHandData | aisdk/algorithm/common/NR_Seq_Manager.cpp:362-371 | point i goes through filter i, coordinate by coordinate |
| HandFilters.GroupSizes | aisdk/algorithm/func/hand_filters.h:19-30 | in both layouts the split fills the banks exactly |
| HandFilters.SlotsDiffer | aisdk/algorithm/func/hand_filters.cpp:57-69 | different keypoints never share a filter |
| HandFilters.SlotsDetermine | aisdk/algorithm/func/hand_filters.cpp:81-94 | no filter is left without a keypoint |
| HandFilters.Split | aisdk/algorithm/func/hand_filters.cpp:54-69 | every keypoint, relative to the root, is in the place of its rank in its group |
| HandFilters.Merge | aisdk/algorithm/func/hand_filters.cpp:79-95 | the three running indices put every keypoint back and keep the root |
| HandFilters.Process | aisdk/algorithm/func/hand_filters.cpp:54-96 | every keypoint meets the filter of its own place in every frame, and the root is unchanged |
| HandFilters.FrameMoves | aisdk/algorithm/func/hand_filters.cpp:54-96 | moving the whole hand moves every output with it and leaves the filters the same |
| HandFilters.RunMoves | aisdk/algorithm/func/hand_filters.cpp:54-96 | in every run, a translation of its own for each frame moves that frame's output alike and never shows in the filters |
| HandFilters.ResetHandIsNew | aisdk/algorithm/func/hand_filters.cpp:98-109 | after any frames and a reset a hand is filtered as by new filters for as many frames as follow, and its first frame comes out as it went in |
| HandFilters.HandFilters.constructor | aisdk/algorithm/func/hand_filters.h:19-30 | both hands get banks of the sizes the layout needs |
| HandFilters.HandFilters.FilterHand | aisdk/algorithm/func/hand_filters.cpp:70-78 | one hand is filtered and the other hand's filters stay |
| HandFilters.HandFilters.Reset | aisdk/algorithm/func/hand_filters.cpp:98-109 | all filters of one hand are reset, none of the other |
| MemoryPool.NamesDiffer | aisdk/base/mem_buffer.h:64 | the decimal numbering never gives two blocks the same name |
| MemoryPool.NextInv | aisdk/base/mem_buffer.h:35-74 | requests and releases keep: every block is in one place under its own name, and the sizes add up to the cache size within the limit |
| MemoryPool.EveryBlockAccountedFor | aisdk/base/mem_buffer.h:35-74 | at every moment of every run a block is either free or with one caller, a release never overwrites a free entry, and the sizes of all blocks add up to the cache size, at most the limit |
| MemoryPool.RequestGives | aisdk/base/mem_buffer.h:35-61 | a granted block has exactly the size asked for and was with nobody; a request fails exactly if no free block fits and there is no room or no memory, and then changes nothing |
| MemoryPool.ReleasedIsReused | aisdk/base/mem_buffer.h:38-46 | after a release, a request of that size needs no new memory |
| MemoryPoolRace.OvershootBound | aisdk/base/mem_buffer.h:54-66 | with the test of the limit before the lock, in every interleaving of so many callers the cache size exceeds the limit by at most one greatest request for each caller but one |
| MemoryPoolRace.OvershootReached | aisdk/base/mem_buffer.h:54-66 | for any number of callers a run reaches that bound |
| MemoryPoolRace.LimitKeptIffSerial | aisdk/base/mem_buffer.h:54-66 | the limit holds in every interleaving exactly if there is one caller at a time |
| FixedMembuffer.FixedMembuffer.FindFree | aisdk/base/mem_buffer.h:40-51 | the scan finds the first free block of the size in the order of names, if there is one |
| FixedMembuffer.FixedMembuffer.RequestMemBlob | aisdk/base/mem_buffer.h:35-74 | refines the request step; the result has the size asked for |
| FixedMembuffer.FixedMembuffer.Release | aisdk/base/mem_buffer.h:68-71 | refines the release step; no entry is overwritten |
| TaskQueue.NextInv | aisdk/base/thread_pool.h:44-88 | every step of callers and workers keeps the accounting of tasks, the queue bound, and that a worker exits only from an empty stopped queue |
| TaskQueue.NothingLost | aisdk/base/thread_pool.h:44-88 | in every interleaving accepted tasks are taken in order, each is queued, running or done as often as accepted, and the queue holds at most depth + 1 |
| TaskQueue.BurstFillsQueue | aisdk/base/thread_pool.h:69-88 | of tasks enqueued one after the other exactly the first ones are accepted until the queue holds one more than its depth, all without a depth, none once stopped |
| TaskQueue.NothingAcceptedAfterStop | aisdk/base/thread_pool.h:78-80 | once stopped, a pool stays stopped and accepts nothing |
| TaskQueue.DrainsIffWorkers | aisdk/base/thread_pool.h:91-99 | that all workers have exited means that all accepted tasks are done, exactly if there is a worker |
| TaskQueue.StoppedPoolDrains | aisdk/base/thread_pool.h:49-61 | a stopped pool is never stuck before its workers have exited, and every worker step brings it closer to that |
| ThreadPool.ThreadPool.constructor | aisdk/base/thread_pool.h:44-65 | all workers start waiting on an empty queue |
| ThreadPool.ThreadPool.Enqueue | aisdk/base/thread_pool.h:69-88 | refines the enqueue step; the future is invalid exactly if the task is rejected |
| ThreadPool.ThreadPool.Stop | aisdk/base/thread_pool.h:24-28 | refines the stop step |
| ThreadPool.ThreadPool.WakeUp | aisdk/base/thread_pool.h:52-59 | one turn of the worker loop exits exactly with the queue empty, and otherwise takes the front task |
| ThreadPool.ThreadPool.TaskDone | aisdk/base/thread_pool.h:61 | refines the finish step |

## Left out

Main results that are deliberately weaker than the code, or simpler:

- StreamMatching.CallbackStep: a callback is one atomic step here, but for the wait in a blocking queue; its parts under the two locks are apart in `StreamMatchingSplit`, where a callback that wakes reads the started flag once, and cleaning up may come at any time. What is proved about endings, and about which frames a queue holds, is for atomic callbacks.
- BaseXGraph.BaseXGraph.CallBackInferenceResult: refines the atomic step.
- StreamMatching.SyncOrderBitmap: bitmaps are sets of stream numbers; the code needs fewer than 64 outputs.
- HandBlend.PublishedHand: the blend is stated for one hand; the two hands run the same code on their own fields.
- HandTracking.Next: a predictor is its tracking flag; Kalman state, the smoothing of boxes and the switch node between the two hand models are not modelled, and frames do not overlap.
- Gesture.FeatureStep: angles, distances and the triangle tests are given with the sample, not computed from keypoints; no claim about how often flexion or orientation changes.
- TensorKernels.SoftmaxLastDim: the portable loop, not the assembly version for some phones.
- SoftArgmax.PostProcess: what comes out of values past the end of the tensor; maps without rows.
- HandNimble.DecodeHandJoints: the template coordinates are a parameter, so that the results hold for every template.
- NonMaximumSuppression.StableSort: the library sort is modelled by an insertion sort with the same result.
- PictureScale.Stretched: the coordinates of the stretched picture are exact; interpolation, and the resize of one platform, concern the pixels only.
- NpuLayout.EntryIndex: integers are unbounded; overflow of 32-bit offsets is not modelled.
- OneEuro.Create: the constructor leaves the last stamp uninitialised; the model starts without one, which matters only if the first value has a stamp.
- OneEuroFilter.OneEuroFilter.Filter: after a stamp that is not later than the one before the object is not followed further; its frequency is then negative or infinite.
- HandFilters.FilterHandData: filters are values in a bank, not shared objects; that two banks never share a filter is thereby given.
- MemoryPool.RequestStep: requests and releases are serialised; the test of the cache size outside the lock is apart in `MemoryPoolRace`, for the sizes only. Key numbers do not wrap, and whether the system has memory is an input.
- FixedMembuffer.FixedMembuffer.RequestMemBlob: refines the serialised step.
- TaskQueue.Next: a step under the lock is atomic; lost wake-ups of the condition variable and the scheduling of threads are not modelled, only that some worker step is always possible.

Not modelled at all:

- Rounding, overflow and NaN of floating point, beyond the division cases named in the files.
- Network back ends, model loading, platform probing, file and JSON recording, Python bindings, demos and tools: input and output, or foreign calls.
- Kalman gains, singular value decomposition, the Ceres solver, fisheye undistortion and image resizing: the work is in libraries.
- The memory of past hands in the lift network, box arithmetic helpers and the box smoothing reset.
- Parallel selection sort, clearing and copying of structures, and enum-to-string tables: nothing modelled here depends on them, and they promise nothing beyond what each line does.

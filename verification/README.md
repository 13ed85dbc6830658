# Veilsight runner: verified model

This project models the tracking and frame-coordination engine of the Veilsight runner, with the
algorithms around it, and proves what they promise.

* **Association** (`Hungarian`, `Matchings`, `Association`, `Overlaps`, `SceneGrids`). The assignment solver works
  in place on the arrays of the source; its optimality is shown by dual potentials. Costs may lie in any
  range `lo <= 0 <= hi` with `(min(rows, cols) + 1) * (hi - lo)` below the `1e9` sentinel.
* **Coordinator** (`Coordinator`, `StreamCoordinators` and the modules named `Coordinator...`).
  `StreamCoordinator` is a class with the source's seven maps, three cursors and three marks. Each method
  is proved equal to a function on the state, and the theorems over whole runs are about those functions.
  Callbacks append to outboxes, as the runtime's callbacks push to queues. `BoundedQueues` justifies the
  environment: a stage sees an order-preserving selection of what it was sent, and all of it exactly if
  its queue never overflows.
* **Trackers** (`ByteTracks`, `ByteStages`, `ByteBoxes`, `ByteLimits`, `ByteTrackers`; `GreedyMatching`, `DemoTrackers`). Tracks of
  the two-stage tracker are shared objects in lists. A `Story` records a frame: who took which detection,
  the exact new value of every track, and which detections became tracks. The Kalman filter is a
  parameter; what a box is made of is not.
* **Recognition and privacy** (`RecognitionCache`, `RecognitionWorkers`, `IdentityDecider`, `FacePolicy`, `FaceFit`,
  `PrivacyChain`, `PrivacyRuns`, `PrivacyLeaks`, `ChainBoxes`, `Anonymizers`). Every locked section of the shared cache
  is one step, and so is every run of the network. The privacy theorem spans planner, workers, decider and
  commit, with exceptions at any step of a recognizer.
* **Fast forms** (`DualSource`, `Metrics`, `Polylines`, `AreaAnalytics`, `AreaVisits`), each against a
  simple specification: a merge join, nearest-rank statistics, a chord criterion, and visits.

## What the proofs found

* In independent face mode, frames probed ahead of tracking skip the planner's reset
  (`core/src/pipeline/stream_coordinator.cpp:162-166`). A tracker output with an identity and without
  anonymization would then be shown if the recognizer throws, and without any exception if it is the no-op
  one (`core/src/recognizer/recognizer.cpp:11-29`), which hands on its tracks in the same way
  (`PrivacyRuns.UnjudgedShownIff`). `PrivacyLeaks.OnlyEarnedIff` states exactly when this cannot happen: when
  the tracker is closed, as every tracker is that anonymizes all its answers
  (`PrivacyChain.AnonymizingTrackerIsClosed`). The two-stage tracker anonymizes every box
  (`ByteTrackers.ByteTracker.Update`), the demo tracker every box if the detections it was given were
  anonymized (`DemoTrackers.DemoTracker.Update`).
* A margin below one display pixel can leave a pixel a box touches outside its region
  (`Anonymizers.SmallBoxCanShow`). The exact condition, for all boxes and views, is
  `Anonymizers.CoveredEverywhereIff`.
* A track without an id is processed under id 0 but not counted as present, so its areas are never left.
  The exact condition is `AreaVisits.VanishedTracksLeaveIff`.
* A track can be kept as lost for longer than `track_buffer`, for one frame: removal is decided on the
  lost list of the frame before. `ByteTrackers.KeepTooLong` is such a run. After a frame the limit holds,
  whatever is detected, exactly if its number does not jump by more than `track_buffer` or no track was
  tracked before it (`ByteLimits.InTimeWhateverDetected`, and the contract of
  `ByteTrackers.ByteTracker.Update`); what it takes for given detections says `ByteLimits.InTimeIff`.
* The deques of the dual source hold 8 frames, and a branch that runs ahead can push a frame out before its
  partner comes. `DualSource.EveryRunKeepsThePairsIff` states exactly for which branches no run loses a pair.
* The demo tracker learns less than half of a steady speed: 35/76 of it, whatever it starts from
  (`DemoTrackers.SpeedIsLearned`).
* The seeding of the commit cursor in `drain_commit_ready_` is never used: tracking sets the cursor first
  (`CoordinatorSafety.CommitCursorSet`).

## Model

| member | source | states |
|---|---|---|
| Hungarian.HungarianAssignment | core/src/tracking/association.cpp:34-127 | the shortest-augmenting-path solver returns an optimal assignment: injective, as many pairs as the smaller side, and no other such assignment is cheaper; both orientations, all loops terminate |
| Hungarian.InsertRow | core/src/tracking/association.cpp:63-105 | inserting a row keeps dual feasibility and tight held pairs for one row more, with the potentials in their range |
| Hungarian.Augment | core/src/tracking/association.cpp:100-104 | walking back the tree shifts every row on the path by one column, keeps all held pairs tight and leaves the new row held |
| Hungarian.SlackBelowSentinel | core/src/tracking/association.cpp:57-66 | every reduced cost stays below the 1e9 sentinel while a tree grows, so the scan always finds a column |
| Hungarian.ReadTransposed | core/src/tracking/association.cpp:117-126 | reads the answer of the transposed matrix: each original row gets the column holding it, or -1 |
| Matchings.CertificateIsOptimal | core/src/tracking/association.cpp:57-105 | weak duality: potentials that are feasible and tight on the pairs prove that no complete assignment is cheaper |
| Association.BoxIou | core/src/tracking/association.cpp:13-32 | overlap lies in [0, 1], does not depend on the order of the boxes, and is positive only for boxes with area; what it measures is said by the lemmas of `Overlaps` |
| Overlaps.IouMeans | core/src/tracking/association.cpp:13-32 | the overlap, times the area the boxes cover together, is the area of the rectangle whose inner points are exactly those inside both |
| Overlaps.OverlapsItself | core/src/tracking/association.cpp:13-32 | a box with area overlaps itself by 1 |
| Overlaps.OnlyItselfCompletely | core/src/tracking/association.cpp:13-32 | boxes that overlap by 1 are the same rectangle |
| Overlaps.OverlapIff | core/src/tracking/association.cpp:13-32 | boxes overlap by 0 exactly if no point lies inside both |
| Overlaps.MoreSharedOverlapsMore | core/src/tracking/association.cpp:13-32 | with the areas of the boxes fixed, the overlap is greater exactly if the shared area is |
| Association.AssociateDetections | core/src/tracking/association.cpp:129-204 | every track and detection appears once, among matches or leftovers; the matches are exactly the pairs of a minimum-cost assignment that overlap at least the clamped threshold, with their true costs; without a grid no complete assignment has a greater total overlap (weighed by the scores if they are fused in) |
| Association.CostsInRange | core/src/tracking/association.cpp:154-176 | every total cost lies between 0 and 1 plus the largest extra cost of the grid |
| Association.CheaperMoveCostsLess | core/src/tracking/association.cpp:146-176 | of two detections a track overlaps alike, the total costs differ by exactly what the grid charges for the two moves |
| SceneGrids.SceneGrid.BeginFrame | core/src/tracking/scene_grid.cpp:29-36 | decays the masses of exactly one stream, creating it at its full size if new, and keeps all masses nonnegative |
| SceneGrids.SceneGrid.ObserveTransition | core/src/tracking/scene_grid.cpp:46-61 | adds one to exactly one transition and one occupancy cell of the stream, all indices in range |
| SceneGrids.SceneGrid.CellForBox | core/src/tracking/scene_grid.cpp:63-76 | the cell of any box, on any frame, lies inside the grid |
| SceneGrids.SceneGrid.CellHoldsFoot | core/src/tracking/scene_grid.cpp:63-76 | that cell is the one of equally many parts of the frame that holds the foot point, drawn into the frame |
| SceneGrids.SceneGrid.Cost | core/src/tracking/scene_grid.cpp:78-123 | the raw cost lies between 0 and the sum of the three weights and the extra cost between 0 and its maximum, in every reachable grid |
| SceneGrids.SceneGrid.BusierNeverCostsMore | core/src/tracking/scene_grid.cpp:78-123 | a cell that is no farther from the track, was seen no less often and was reached from there no less often never costs more |
| SceneGrids.SceneGrid.FartherCellsAreFarther | core/src/tracking/scene_grid.cpp:95-101 | for any square root that grows: no distance within a cell, never less for more rows and columns apart, and 1 to the opposite corner |
| SceneGrids.OccupancyIsPart | core/src/tracking/scene_grid.cpp:103-108 | the occupancy of a cell is what was seen in it as a part of what was seen in the busiest cell |
| SceneGrids.TransitionIsPart | core/src/tracking/scene_grid.cpp:110-115 | the probability of a move is how often it was made as a part of all moves out of its cell |
| SceneGrids.MassStaysBounded | core/src/tracking/scene_grid.cpp:29-61 | over any history with at most k observations per frame no cell exceeds k/(1 - decay), and none is negative |
| SceneGrids.MassIsFadedHistory | core/src/tracking/scene_grid.cpp:29-61 | the mass of a cell is the number of observations that reached it, each faded once for every later frame; likewise for a transition and its moves |
| SceneGrids.SceneGrid.MassIsBounded | core/src/tracking/scene_grid.cpp:29-61 | so it is in every stream of every reachable grid, which is what its recorded history makes it |
| StreamCoordinators.StreamCoordinator.constructor | core/src/pipeline/stream_coordinator.cpp:8-19 | a negative window counts as 0 and a limit of 0 as 1; everything else starts empty |
| StreamCoordinators.StreamCoordinator.PushFrame | core/src/pipeline/stream_coordinator.cpp:21-25 | stores the frame unless the tracking cursor has passed it |
| StreamCoordinators.StreamCoordinator.PushDetection | core/src/pipeline/stream_coordinator.cpp:27-30 | stores the detections unless the tracking cursor has passed them |
| StreamCoordinators.StreamCoordinator.PushFace | core/src/pipeline/stream_coordinator.cpp:32-44 | takes an answer to an outstanding probe, keeps an early one in independent mode, drops the rest |
| StreamCoordinators.StreamCoordinator.PushRecognition | core/src/pipeline/stream_coordinator.cpp:46-49 | stores the answer unless the recognition cursor has passed it |
| StreamCoordinators.StreamCoordinator.PushIdentity | core/src/pipeline/stream_coordinator.cpp:51-54 | stores the answer unless the commit cursor has passed it |
| Coordinator.LastInputCounts | core/src/pipeline/stream_coordinator.cpp:21-54 | of two frames, detections or answers for one frame id the later one counts, as if the earlier one had not been |
| StreamCoordinators.StreamCoordinator.DrainReady | core/src/pipeline/stream_coordinator.cpp:56-63 | all loops of a drain terminate and the new state and outboxes are those of the drain function |
| StreamCoordinators.StreamCoordinator.DrainTracking | core/src/pipeline/stream_coordinator.cpp:65-109 | the tracking loop refines its recursive form: joined frames, gap jumps and frames given up on |
| StreamCoordinators.StreamCoordinator.DrainIndependentFaceProbes | core/src/pipeline/stream_coordinator.cpp:111-131 | probes every waiting frame that was not probed yet, oldest first |
| StreamCoordinators.StreamCoordinator.ProcessTrackedFrame | core/src/pipeline/stream_coordinator.cpp:133-211 | one tracker call; then faces are started, or early answers consumed and recognition queued at once; the frame put down, or its recognition task, begins with exactly the boxes the tracker answered, all anonymized and no more unless faces are independent |
| StreamCoordinators.StreamCoordinator.DrainFaceReady | core/src/pipeline/stream_coordinator.cpp:213-232 | frames whose probes are answered or timed out go to recognition, oldest first, and leave |
| StreamCoordinators.StreamCoordinator.DrainRecognitionReady | core/src/pipeline/stream_coordinator.cpp:256-283 | answers go to the identity stage in frame order, skipping what is more than a window late |
| StreamCoordinators.StreamCoordinator.DrainCommitReady | core/src/pipeline/stream_coordinator.cpp:300-330 | decided frames are committed in frame order, skipping what is more than a window late |
| StreamCoordinators.StreamCoordinator.TrimPending | core/src/pipeline/stream_coordinator.cpp:332-358 | every map loses its oldest entries beyond the limit, and the commit cursor moves past trimmed face frames |
| Coordinator.TrackStepShrinks | core/src/pipeline/stream_coordinator.cpp:70-102 | the tracking loop terminates: each round removes a frame or closes the gap before the next one |
| Coordinator.CommitStepShrinks | core/src/pipeline/stream_coordinator.cpp:305-323 | the commit loop terminates: each round removes an answer or catches up with the newest task |
| CoordinatorSafety.EveryRunIsSafe | core/src/pipeline/stream_coordinator.cpp:21-330 | on every run with lost, late, reordered or repeated results: tracker calls, identity tasks and commits have strictly increasing ids, every stage gets a frame at most once, and only after the stage before |
| CoordinatorSafety.CommitCursorSet | core/src/pipeline/stream_coordinator.cpp:300-303 | the drain never seeds the commit cursor: tracking has set it before any identity answer can wait |
| CoordinatorBoxes.EveryTaskCarriesItsBoxes | core/src/pipeline/stream_coordinator.cpp:133-254 | on every run the recognition task of the frame of the i-th tracker call begins with the boxes the tracker answered to that call, box by box with the same id and place; with faces off or bound to persons it has exactly those, all anonymized |
| CoordinatorBoxes.EveryCommitCarriesItsBoxes | core/src/pipeline/stream_coordinator.cpp:133-330 | on every run whose workers answer with the boxes they were given, a committed frame has every box the tracker answered for it |
| CoordinatorFaces.EveryRecognisedFrameIsProbed | core/src/pipeline/stream_coordinator.cpp:111-254 | on every run at all, with faces on, each frame with an image that goes on to recognition was given to the face detector |
| CoordinatorFaces.FaceReachesRecognition | core/src/pipeline/stream_coordinator.cpp:32-44 | the answer to the last outstanding probe, if a face of it is plausible for a person of the frame, sends the frame to recognition with a fresh face on some box |
| CoordinatorFaces.EarlyFaceIsUsed | core/src/pipeline/stream_coordinator.cpp:184-200 | an answer that came before its frame was tracked does the same once it is |
| CoordinatorOrder.EveryRunCallsInOrder | core/src/pipeline/stream_coordinator.cpp:21-109 | with no assumption on what is pushed at all, the tracker sees natural frame ids in strictly increasing order |
| CoordinatorProbes.EveryFrameProbedAtMostOnce | core/src/pipeline/stream_coordinator.cpp:111-211 | on every run each pushed frame is sent to the face detector at most once, also when probes go out early and the maps overflow |
| CoordinatorProbes.RememberedAfterTrim | core/src/pipeline/stream_coordinator.cpp:332-341 | trimming forgets the probe of a frame only with the frame itself |
| CoordinatorBounds.DrainBoundsPending | core/src/pipeline/stream_coordinator.cpp:65-358 | after any run a drain leaves frames and face frames spanning at most window + 1 ids and held answers within a window of their cursor; with a limit above the window none of them is ever trimmed |
| CoordinatorTransparency.LossFreeRunIsTransparent | core/src/pipeline/stream_coordinator.cpp:65-330 | without losses the commits are at every moment the first pushed frames in order, and each frame is tracked with its own detections |
| CoordinatorTransparency.QuiescentRunCommitsAll | core/src/pipeline/stream_coordinator.cpp:65-330 | once everything is answered, a drain has committed exactly the pushed frames |
| CoordinatorTransparency.RunInOrder | core/src/pipeline/stream_coordinator.cpp:65-358 | the pipeline invariant behind transparency holds at every point of a loss-free run |
| CoordinatorTransparency.CursorHasFrame | core/src/pipeline/stream_coordinator.cpp:70-102 | whenever the tracking loop acts on a loss-free run it joins a frame with its detections: no gap jump, no timeout |
| CoordinatorTransparency.DrainFaceInOrder | core/src/pipeline/stream_coordinator.cpp:213-232 | on a loss-free run the oldest waiting frame leaves because its probe was answered, never by timeout |
| CoordinatorTransparency.RecognitionStepInOrder | core/src/pipeline/stream_coordinator.cpp:261-276 | on a loss-free run the recognition loop never skips |
| CoordinatorTransparency.CommitStepInOrder | core/src/pipeline/stream_coordinator.cpp:305-323 | on a loss-free run the commit loop never skips |
| CoordinatorTransparency.NothingToTrim | core/src/pipeline/stream_coordinator.cpp:332-358 | on a loss-free run trimming changes nothing |
| CoordinatorSmoothness.LossFreeRunIsSmooth | core/src/pipeline/stream_coordinator.cpp:65-358 | after any loss-free run the next drain takes no shortcut in any of its loops: no jump of the tracking cursor, nothing given up on, no face timeout, no skip in recognition or commit, nothing trimmed |
| BoundedQueues.BoundedQueue.Push | core/include/pipeline/bounded_queue.hpp:19-30 | a stopped or zero-capacity queue ignores the entry; a full one drops its oldest and counts it |
| BoundedQueues.BoundedQueue.TryPop | core/include/pipeline/bounded_queue.hpp:32-38 | hands out the oldest entry, also from a stopped queue |
| BoundedQueues.BoundedQueue.PopFor | core/include/pipeline/bounded_queue.hpp:40-47 | after the wait a stopped or empty queue hands out nothing |
| BoundedQueues.DeliveryIsASelection | core/include/pipeline/bounded_queue.hpp:19-65 | under any interleaving a queue stays within its capacity, holds the newest entries it took in, and has handed out an order-preserving selection of the older ones |
| BoundedQueues.EntriesAreConserved | core/include/pipeline/bounded_queue.hpp:19-47 | every entry taken in was handed out, is queued, or was counted as dropped |
| BoundedQueues.LossFreeIff | core/include/pipeline/bounded_queue.hpp:19-47 | a queue is a loss-free first-in first-out channel exactly if no push ever found it full |
| FacePolicy.AssignFullFrameFaces | core/src/face_detector/face_policy.cpp:81-121 | the loops over faces and tracks compute the greedy placement of the faces, highest score first |
| FacePolicy.Apply | core/src/face_detector/face_policy.cpp:173-181 | the results of a frame are placed one after the other, each by a stable one-to-one seating; tracks keep everything but their face; if any face of any result is plausible for a person, some box carries a fresh face stamped with the frame; in independent mode the faces seated and the boxes added make up all faces, in person mode no box is added; without faces nothing changes |
| FacePolicy.PlacedSeats | core/src/face_detector/face_policy.cpp:81-121 | one result: nobody is seated twice, a face is seated only where plausible, whoever is preferred is taken, a seated face arrives whole and stamped, and in independent mode every other face gets a box of its own at its place, numbered -1, -2, and so on |
| FacePolicy.FittingFaceIsSeen | core/src/face_detector/face_policy.cpp:173-181 | any series of such seatings in which some face is plausible for some person leaves a fresh face |
| FaceFit.PlausibleMeans | core/src/face_detector/face_policy.cpp:35-57 | a face is plausible for a person exactly if its middle and at least half of its points are inside, it is detected surely enough, and its sides lie between the stated fractions of the person |
| FaceFit.FaceWithinIsPlausible | core/src/face_detector/face_policy.cpp:35-57 | in particular a face of such size that lies within the person |
| FaceFit.SmallerHolderFitsBetter | core/src/face_detector/face_policy.cpp:59-65 | of two persons that hold the whole face the one with less area fits better |
| FaceFit.HolderFitsBetter | core/src/face_detector/face_policy.cpp:59-65 | a person that holds the whole face fits better than one that shares at most two thirds of it |
| FacePolicy.ChoicesStable | core/src/face_detector/face_policy.cpp:95-119 | stable and maximal: if a face would rather have a plausible person it did not get, that person holds a face of at least its score |
| FacePolicy.ChoicesOneToOne | core/src/face_detector/face_policy.cpp:102-119 | no person gets two faces of one result |
| FacePolicy.ChoicesPlausible | core/src/face_detector/face_policy.cpp:35-57 | a face is only ever given to a person it is plausible for |
| FacePolicy.PeopleAfterwards | core/src/face_detector/face_policy.cpp:95-120 | a chosen person carries exactly the stamped face that chose it, every other person is untouched |
| FacePolicy.AdditionsAfterwards | core/src/face_detector/face_policy.cpp:113-117 | in independent mode the tracks are followed by one box per face without a person; in person mode the number of tracks does not change |
| FacePolicy.FaceOnlyBoxesAreUnplaced | core/src/face_detector/face_policy.cpp:67-79 | those boxes are the unplaced faces in order, anonymized, with ids -1, -2, and so on |
| FacePolicy.FacesConserved | core/src/face_detector/face_policy.cpp:95-120 | the faces placed and the faces left add up to the faces given |
| FacePolicy.SortedIsSorted | core/src/face_detector/face_policy.cpp:85-87 | the order in which faces choose is a permutation by falling score |
| RecognitionCache.BestGalleryMatch | core/src/recognizer/mobilefacenet_recognizer.cpp:301-316 | the scan returns the first entry of greatest similarity, or no key and 0 for an empty gallery |
| RecognitionCache.BestMatchUnique | core/src/recognizer/mobilefacenet_recognizer.cpp:301-316 | that match is uniquely determined |
| RecognitionCache.PassesQualityGates | core/src/recognizer/mobilefacenet_recognizer.cpp:252-299 | the early returns compute exactly the conjunction of the gates |
| RecognitionCache.AtMostOneDuplicatePasses | core/src/recognizer/mobilefacenet_recognizer.cpp:290-296 | of two tracks whose faces overlap beyond the duplicate bound at most one is recognised |
| RecognitionCache.FrontalFacePasses | core/src/recognizer/mobilefacenet_recognizer.cpp:252-299 | a fresh frontal face of enough score and size is recognised unless a better, or an equal earlier, fresh face overlaps it beyond the bound |
| RecognitionCache.MoreSimilarIsNearer | core/src/recognizer/mobilefacenet_recognizer.cpp:301-316 | among entries of the same length the more similar one is the one at the smaller distance |
| RecognitionCache.SimilarToItself | core/src/recognizer/mobilefacenet_recognizer.cpp:104-115 | an embedding of length one is similar to itself by 1 |
| RecognitionCache.EmbeddingIsUnit | core/src/recognizer/mobilefacenet_recognizer.cpp:388-400 | an embedding comes out exactly if there is an image and an output of the right size and positive norm; it has the direction of the output and length one |
| RecognitionCache.TrackCache.CleanupCache | core/src/recognizer/mobilefacenet_recognizer.cpp:537-552 | removes exactly the expired entries of the stream |
| RecognitionCache.TrackCache.ApplyCachedDecision | core/src/recognizer/mobilefacenet_recognizer.cpp:554-573 | a decided entry is copied to the track and refreshed, one in progress only marks it, none is a miss |
| RecognitionCache.TrackCache.MarkInProgress | core/src/recognizer/mobilefacenet_recognizer.cpp:575-602 | claims the track if nobody has an entry for it, otherwise reports the entry |
| RecognitionCache.TrackCache.ClearInProgress | core/src/recognizer/mobilefacenet_recognizer.cpp:613-623 | removes the entry only if it is still in progress |
| RecognitionCache.Recognizer.Recognize | core/src/recognizer/mobilefacenet_recognizer.cpp:466-529 | for every track: one that passes the gates, has no live entry and has an embedding is allowed exactly if some gallery entry reaches the threshold, with key and similarity of the first most similar one, and the cache holds that decision; one with a live decision is told it; any other stays hidden. No entry in progress is left behind that was not there before |
| RecognitionCache.NothingLeftInProgress | core/src/recognizer/mobilefacenet_recognizer.cpp:466-529 | a worker on its own leaves no new entry in progress, whatever fails |
| RecognitionCache.TaskTold | core/src/recognizer/mobilefacenet_recognizer.cpp:466-529 | the same for a worker on its own, for every track it is given |
| RecognitionWorkers.AtMostOneWorkerEmbedsATrack | core/src/recognizer/mobilefacenet_recognizer.cpp:480-502 | under any interleaving of the locked sections no two workers run the network for the same tracked person of a stream |
| RecognitionWorkers.RunKeepsExclusive | core/src/recognizer/mobilefacenet_recognizer.cpp:537-623 | claims stay exclusive: every embedding or finishing worker owns the entry of its track, and no other does |
| RecognitionWorkers.DecisionHolds | core/src/recognizer/mobilefacenet_recognizer.cpp:554-611 | a decision stays in the cache unchanged, except for when it was last seen, until its entry expires |
| RecognitionWorkers.EveryLookupAgrees | core/src/recognizer/mobilefacenet_recognizer.cpp:554-611 | once a track is decided every later lookup, by any worker, gives its box exactly that decision until the entry expires |
| RecognitionWorkers.NothingExpiredIsLookedUp | core/src/recognizer/mobilefacenet_recognizer.cpp:537-573 | on every run whose workers on a stream are close enough in frames, no lookup is answered with an expired decision |
| IdentityDecider.Decide | core/src/identity/identity_decider.cpp:10-63 | the loops of both deciders compute their effect on every box |
| IdentityDecider.DecidersOnlyTighten | core/src/identity/identity_decider.cpp:10-63 | a decider never lifts a box out of anonymization, and one it leaves shown is unchanged and has an identity; the no-op decider and an exception leave nobody shown and no identity; place, id and face of a box stay |
| PrivacyRuns.UnjudgedShownIff | core/src/pipeline/runtime.cpp:370-386 | a track the recognizer handed on without judging it is shown in the end exactly if the passthrough decider runs and the tracker gave it an identity without anonymizing it |
| PrivacyRuns.JudgementJustifies | core/src/recognizer/mobilefacenet_recognizer.cpp:493-511 | a decision to show a box comes with a best gallery match of at least the threshold for that key and score, and whoever has such a match is shown |
| PrivacyRuns.OnlyEarnedIdentitiesAreShown | core/src/pipeline/stream_coordinator.cpp:133-330 | on every run of planner, workers, decider and commit, with losses, repeats, exceptions and reloads: a committed box that is not anonymized has a nonempty identity that was the best gallery match at or above the threshold when that track was decided |
| ChainBoxes.NobodyIsLost | core/src/pipeline/stream_coordinator.cpp:133-330 | on every run of planner, workers, decider and commit, with losses, repeats and exceptions: a committed frame is that of some tracker call and has every box the tracker answered to it, with the same id and place |
| PrivacyChain.AnonymizingTrackerIsClosed | core/src/pipeline/stream_coordinator.cpp:133-170 | a tracker that anonymizes every box of every answer is closed: it cannot make anything unearned be shown |
| PrivacyChain.DrainReadyKeeps | core/src/pipeline/stream_coordinator.cpp:56-358 | a whole drain keeps the fail-closed data-flow invariant from tracker output to commit |
| PrivacyLeaks.OnlyEarnedIff | core/src/pipeline/stream_coordinator.cpp:160-178 | exactness: with a worker and the passthrough decider, only earned identities are shown on every run if and only if probes are not sent ahead of tracking or the tracker never hands out an identity that is not anonymized |
| PrivacyLeaks.OpenTrackerLeaks | core/src/pipeline/stream_coordinator.cpp:160-178 | the failing direction: for any calls a tracker can see and any harmful box it answers with, a concrete run shows that box |
| PrivacyLeaks.CallsRun | core/src/pipeline/stream_coordinator.cpp:65-211 | every strictly increasing sequence of tracker calls happens in some run |
| DualSource.GstDualSource.TryMatch | core/src/ingest/gst_dual_source.cpp:138-163 | erases and emits the first pending pair with equal positive timestamps, else the heads if both have none |
| DualSource.GstDualSource.TrimPending | core/src/ingest/gst_dual_source.cpp:165-195 | drops the oldest beyond the cap, then prunes heads, in the order of the source |
| DualSource.GstDualSource.Read | core/src/ingest/gst_dual_source.cpp:197-230 | the polling loop refines its recursive form; the state and packet are determined by what each poll delivers and by where the deadline falls, also right after a failed match |
| DualSource.PrunedHeadIsUseless | core/src/ingest/gst_dual_source.cpp:173-194 | a pruned head can never be matched by anything pending or still to come |
| DualSource.JointIsTheCommonTimestamps | core/src/ingest/gst_dual_source.cpp:138-163 | the reference join holds exactly the common timestamps, in increasing order |
| DualSource.LoseInf | core/src/ingest/gst_dual_source.cpp:165-172 | dropping the oldest frames of a branch drops the first pairs of the join, and none exactly if they have no partner |
| DualSource.EmittedAreASelection | core/src/ingest/gst_dual_source.cpp:121-230 | over any sequence of reads the emitted pairs are an order-preserving selection of the join of the two branches, with frame ids 0, 1, 2; emitted and owed pairs make up the whole join if and only if no trim takes away a frame that has a partner |
| DualSource.EveryRunKeepsThePairsIff | core/src/ingest/gst_dual_source.cpp:121-230 | every run keeps all pairs if and only if no frame further than the cap from the end of its branch has a partner in the other |
| DualSource.UnsafeLoses | core/src/ingest/gst_dual_source.cpp:165-230 | otherwise one read in which a single branch delivers loses such a pair |
| DualSource.SourceIsAMergeJoin | core/src/ingest/gst_dual_source.cpp:121-230 | if no pair is lost the emitted ones are the first common timestamps, and once the sinks are drained all of them |
| DualSource.EmptyReadMeansDrained | core/src/ingest/gst_dual_source.cpp:197-230 | with empty sinks a read that returns nothing proves the join complete |
| DualSource.UntimedFramesPairInOrder | core/src/ingest/gst_dual_source.cpp:156-162 | branches without timestamps are paired in the order of arrival, none of the pairs is lost, and once drained the shorter branch is used up |
| DemoTrackers.DemoTracker.MatchGreedy | core/src/tracking/demo_tracker.cpp:166-216 | the matching is the greedy choice by overlap among eligible pairs; each picked track took its detection, the rest are returned |
| DemoTrackers.DemoTracker.Update | core/src/tracking/demo_tracker.cpp:65-146 | a frame is prediction, two greedy passes, births and removals, keeping ids increasing and never reused; every box shown as detected lies at its detection, every high detection is shown, and of a track and a detection that overlap enough where the track is expected one is always matched |
| DemoTrackers.NoneIsLeftOpen | core/src/tracking/demo_tracker.cpp:84-116 | neither pass leaves a pair open: a high detection that overlaps a predicted track by the first threshold, or a low one by the second, is taken by a track of before, or that track was detected elsewhere |
| DemoTrackers.LostTrackDriftsLittle | core/src/tracking/demo_tracker.cpp:67-82 | a track nothing is detected for moves on in its direction, by at least 55 percent and in all at most four times its speed, however long it is missed |
| DemoTrackers.SpeedIsLearned | core/src/tracking/demo_tracker.cpp:67-164 | the speed of a track that is detected at a steady pace tends to 35/76 of that pace, what lacks shrinking to 24 percent each frame |
| DemoTrackers.ShownIff | core/src/tracking/demo_tracker.cpp:136-145 | a living track is shown exactly if it was just detected or was detected often enough |
| DemoTrackers.GreedyIsMaximal | core/src/tracking/demo_tracker.cpp:178-206 | one-to-one, only eligible pairs, and no eligible pair is left open |
| DemoTrackers.GreedyOverlapIsHalfOfBest | core/src/tracking/demo_tracker.cpp:166-206 | the total overlap is at least half that of any one-to-one choice of eligible pairs |
| DemoTrackers.AppliedOnce | core/src/tracking/demo_tracker.cpp:149-164 | a picked track is updated once with exactly its detection, all others are untouched |
| DemoTrackers.ShownOnce | core/src/tracking/demo_tracker.cpp:136-145 | every box shown belongs to one living track, ids strictly increasing, occluded exactly if missed |
| GreedyMatching.RestIsWorthHalf | core/src/tracking/demo_tracker.cpp:190-206 | from any point of the scan on, greedy earns at least half of what is still open to it |
| ByteTracks.JointTracks | core/src/tracking/bytetrack_tracker.cpp:234-242 | the union keeps the first track of each id and is plain concatenation when ids are distinct |
| ByteTracks.SubTracks | core/src/tracking/bytetrack_tracker.cpp:244-253 | keeps exactly the tracks whose id is not in the second list |
| ByteTracks.RemoveDuplicateTracks | core/src/tracking/bytetrack_tracker.cpp:255-286 | a tracked or lost track is dropped exactly if a track of the other list overlaps it by the clamped threshold and was followed for longer (for at least as long, against a tracked one) |
| ByteTracks.NoDuplicateSurvives | core/src/tracking/bytetrack_tracker.cpp:262-286 | no surviving tracked and lost track overlap by the clamped threshold |
| ByteStages.SplitDetections | core/src/tracking/bytetrack_tracker.cpp:318-328 | the high and the low list hold exactly the detections of valid size in their score ranges |
| ByteStages.SettingsInRangeStay | core/src/tracking/bytetrack_tracker.cpp:294-305 | settings are taken as they are exactly if they are in their ranges, and clamping twice is clamping once |
| ByteStages.LargeDetectionIsFollowed | core/src/tracking/bytetrack_tracker.cpp:318-492 | a detection wider and higher than a pixel, of the least area, and scoring at least the high and the new-track threshold is taken by a matched or a new track |
| ByteTracks.CentreIsMeasured | core/src/tracking/bytetrack_tracker.cpp:151-170 | the filter sees the centre of a box, and a motion puts its box about the centre it projects to |
| ByteBoxes.TrackedMotion | core/src/tracking/bytetrack_tracker.cpp:180-225 | a tracked track that took a detection has the motion predicted with its velocity and updated with the measurement of exactly that detection, and its score |
| ByteBoxes.LostMotion | core/src/tracking/bytetrack_tracker.cpp:180-225 | a lost track is predicted with its velocity reset before it is updated with the detection that found it |
| ByteBoxes.StartedMotion | core/src/tracking/bytetrack_tracker.cpp:188-203 | a new track starts in this frame with the motion initiated by its own detection |
| ByteBoxes.FollowedIsAtItsDetection | core/src/tracking/bytetrack_tracker.cpp:188-225 | for any filter that trusts its measurements, every followed track lies exactly at its detection |
| ByteBoxes.LostStandsStill | core/src/tracking/bytetrack_tracker.cpp:172-186 | for any filter that predicts no move without velocity, a lost track nothing is detected for keeps its place |
| ByteBoxes.LongerFollowedStays | core/src/tracking/bytetrack_tracker.cpp:255-286 | of a followed and a waiting track that overlap by the clamped threshold, the waiting one is dropped if the other was followed for longer, and the other one if not |
| ByteBoxes.OneOfAKindStays | core/src/tracking/bytetrack_tracker.cpp:255-286 | a track that overlaps none of the other list by the clamped threshold is never dropped |
| ByteLimits.EveryoneIsListed | core/src/tracking/bytetrack_tracker.cpp:338-522 | every track of the lists ends up among those followed, as tracked and seen in this frame; among those waiting, as lost; or removed and in neither next list; its state says which |
| ByteLimits.InTimeIff | core/src/tracking/bytetrack_tracker.cpp:494-522 | after a frame no track has been lost for longer than the buffer if and only if its number does not jump by more than the buffer or no track tracked before it is lost now |
| ByteLimits.NobodySeen | core/src/tracking/bytetrack_tracker.cpp:387-434 | a frame without detections keeps every tracked track as lost, with the frame before as its last |
| ByteLimits.InTimeWhateverDetected | core/src/tracking/bytetrack_tracker.cpp:308-522 | the limit holds whatever is detected if the number does not jump by more than the buffer or nobody was tracked, and without detections only then |
| ByteStages.OriginsDiffer | core/src/tracking/bytetrack_tracker.cpp:371-492 | no two tracks stand for the same detection |
| ByteStages.IdsStayUnique | core/src/tracking/bytetrack_tracker.cpp:483-510 | matching moves no id and new tracks get new ones, so an id names one track only |
| ByteStages.RetiredStay | core/src/tracking/bytetrack_tracker.cpp:494-522 | an id that is in neither list never returns to one |
| ByteStages.NoMoreBoxesThanDetections | core/src/tracking/bytetrack_tracker.cpp:524-535 | there are never more boxes than detections that can be followed |
| ByteTrackers.ByteTracker.MatchLists | core/src/tracking/bytetrack_tracker.cpp:348-385 | a stage matches by a cheapest complete assignment cut at the overlap threshold, updates exactly the matched tracks, and returns exactly the rest |
| ByteTrackers.ByteTracker.SplitConfirmed | core/src/tracking/bytetrack_tracker.cpp:335-342 | the unconfirmed list is empty in every reachable state |
| ByteTrackers.ByteTracker.Advance | core/src/tracking/bytetrack_tracker.cpp:344-501 | the stages together: the exact new value of every track, who took which detection, and which tracks are new |
| ByteTrackers.ByteTracker.Settle | core/src/tracking/bytetrack_tracker.cpp:503-522 | the next lists are those followed and those lost, less the duplicates, with distinct ids |
| ByteTrackers.ByteTracker.Report | core/src/tracking/bytetrack_tracker.cpp:524-535 | one box per tracked track, each standing for a detection of its own, of valid size and scoring at least the low threshold |
| ByteTrackers.ByteTracker.Update | core/src/tracking/bytetrack_tracker.cpp:308-536 | a whole frame, told by an optimal two-stage matching; ids fresh and unique, tracked tracks followed in this frame, retired ids gone for good, every box at the place of its detection for any filter that trusts its measurements, no overlapping tracked and lost pair, lost tracks in time whatever is detected exactly if the number does not jump by more than the buffer or nobody was tracked, no more observations in the grid than detections, boxes anonymized and at least one pixel wide and high |
| ByteTrackers.KeepTooLong | core/src/tracking/bytetrack_tracker.cpp:308-522 | for any settings, a new tracker that sees one strong detection and then an empty frame with a jump keeps a lost track beyond the limit |
| Metrics.StageAccumulator.Observe | core/src/pipeline/metrics.cpp:67-74 | every field stays the summary of the observations: count, sum, extremes and one more in the right bin |
| Metrics.StageAccumulator.Percentile | core/src/pipeline/metrics.cpp:42-56 | the scan with its running total returns the histogram estimate |
| Metrics.StageAccumulator.TakeSnapshot | core/src/pipeline/metrics.cpp:76-90 | exact count, rate and mean; p50 at most p95 at most p99; the mean lies between the extremes; zeros without observations |
| Metrics.CumulatedIsCount | core/src/pipeline/metrics.cpp:35-40 | the bins up to a bound count exactly the observations within it, and all bins all of them |
| Metrics.ReachedHoldsExact | core/src/pipeline/metrics.cpp:42-54 | the bucket the scan stops at contains the exact nearest-rank order statistic |
| Metrics.EstimateBracketsExact | core/src/pipeline/metrics.cpp:42-56 | the estimate is never below the exact statistic and above it by at most one bucket; in the overflow bucket it is the maximum and no less than the last bound |
| Metrics.EstimateMonotone | core/src/pipeline/metrics.cpp:42-56 | a higher percentile is never reported lower |
| Metrics.RankByCount | core/src/pipeline/metrics.cpp:44-48 | in ascending order the k-th is within a bound exactly if at least k observations are |
| Anonymizers.Anonymizer.PlannedRegions | core/src/anonymization/anonymizer.cpp:34-77 | one region per eligible box and no other, in order, each inside the frame and at least 2 by 2 |
| Anonymizers.EligibleListedOnce | core/src/anonymization/anonymizer.cpp:44-66 | each eligible box is listed exactly once |
| Anonymizers.MapInside | core/src/anonymization/anonymizer.cpp:95-120 | every mapped rectangle lies inside the frame |
| Anonymizers.CoveredEverywhereIff | core/src/anonymization/anonymizer.cpp:40-119 | every eligible box whose target has given sides is covered by its region wherever it lies, in any frame, if and only if the margins on both axes absorb the rounding of start and length (or the sides are too short for any such box to be eligible) |
| Anonymizers.RegionCoversTarget | core/src/anonymization/anonymizer.cpp:48-66 | with sufficient margins a region contains every frame pixel its target touches |
| Anonymizers.FaceIsCovered | core/src/anonymization/anonymizer.cpp:44-66 | with faces preferred, an anonymized box whose face is larger than a pixel and maps to at least 2 by 2 gets one region, which covers every pixel the face touches |
| Anonymizers.BodyIsCovered | core/src/anonymization/anonymizer.cpp:44-66 | without such a face, or when faces are not preferred, it covers every pixel the whole box touches |
| Anonymizers.OnlyAnonymizedAreCovered | core/src/anonymization/anonymizer.cpp:44-45 | nobody who may be shown is covered |
| Anonymizers.OnePixelSuffices | core/src/anonymization/anonymizer.cpp:102-119 | a margin of one display pixel is always sufficient |
| Anonymizers.FifteenPercent | core/src/anonymization/anonymizer.cpp:102-107 | the margin is 15 percent of the shown side, and 27.5 percent for an occluded box |
| Anonymizers.SmallBoxCanShow | core/src/anonymization/anonymizer.cpp:40-119 | a concrete eligible box with a smaller margin: pixel (2, 15) of a 100 by 100 frame belongs to it and not to its region (0, 7, 2, 26) |
| Polylines.SimplifyPolyline | controller/veilsight_controller/analytics_engine.py:174-196 | the scan and the recursion compute the simplification, and terminate |
| Polylines.DeviationIsDistance | controller/veilsight_controller/analytics_engine.py:182-187 | in the Euclidean plane the deviation that is compared with epsilon is the distance from the line through both ends: no point of the line is nearer, and one is just as near |
| Polylines.SimplifiedReduces | controller/veilsight_controller/analytics_engine.py:174-196 | a subsequence with both ends, every dropped point within epsilon of the chord of the kept points around it |
| Polylines.SimplifyingTwiceIsOnce | controller/veilsight_controller/analytics_engine.py:174-196 | simplifying a simplified polyline changes nothing |
| Polylines.HalvesAgain | controller/veilsight_controller/analytics_engine.py:192-195 | a simplified polyline splits again exactly where the polyline did, into its simplified halves |
| AreaAnalytics.StreamState.AreaEvents | controller/veilsight_controller/analytics_engine.py:503-561 | the loop over the rules computes the transitions and events of one track |
| AreaAnalytics.StreamState.FinalizeMissingTrack | controller/veilsight_controller/analytics_engine.py:592-629 | a vanished track leaves every area it was in, at its last foot point |
| AreaAnalytics.StreamState.ProcessFrame | controller/veilsight_controller/analytics_engine.py:265-374 | vanished tracks are finalized before the tracks of the frame are processed |
| AreaVisits.EveryLogReplays | controller/veilsight_controller/analytics_engine.py:503-629 | on every run, while rules come and go, the events of a rule and track are well-formed visits whose replay gives the state the engine keeps |
| AreaVisits.PresentTrackIsTold | controller/veilsight_controller/analytics_engine.py:503-561 | a present track with an id of its own ends the frame inside exactly the rules that contain its foot point, with an enter or exit event when that changes, and with a dwell warning exactly when one is due |
| AreaVisits.CrossingsAlternate | controller/veilsight_controller/analytics_engine.py:520-542 | enter and exit alternate, starting with enter |
| AreaVisits.WarnedOncePerVisit | controller/veilsight_controller/analytics_engine.py:543-560 | between two dwell warnings lies an exit |
| AreaVisits.TotalIsDwellSum | controller/veilsight_controller/analytics_engine.py:525-530 | the accumulated dwell is the sum over the finished visits |
| AreaVisits.ExitClosesEnter | controller/veilsight_controller/analytics_engine.py:587-590 | each exit carries the time since the enter it closes, never negative |
| AreaVisits.InsideMeansActive | controller/veilsight_controller/analytics_engine.py:265-268 | with a fixed rule set and ids on every track, whoever is marked inside is active |
| AreaVisits.VanishedTracksLeaveIff | controller/veilsight_controller/analytics_engine.py:265-277 | that holds for a frame under all rules and states if and only if its tracks carry ids |
| AreaVisits.UnidentifiedIsLeftInside | controller/veilsight_controller/analytics_engine.py:265-277 | a frame with a track without an id leaves that track inside any rule in force that contains the foot points of the frame, and not active |

## Left out

- Hungarian.HungarianAssignment: costs are real numbers below the sentinel bound; rounding, NaN and costs beyond the bound are not modelled.
- ByteTrackers.ByteTracker.Update: leaves open the order of the lists and of the boxes, and which cells the scene grid recorded; needs the sentinel bound for the number of detections.
- RecognitionWorkers.AtMostOneWorkerEmbedsATrack: excludes gallery reloads and the expiry of entries in progress, since the code does not order a late decision after either.
- RecognitionWorkers.EveryLookupAgrees: excludes the same, and the expiry of the entry itself.
- CoordinatorTransparency.LossFreeRunIsTransparent: face detection off or bound to persons only; independent mode may issue recognition tasks out of order.
- CoordinatorSafety.EveryRunIsSafe: frame ids are natural numbers pushed at most once, and recognition and identity results belong to issued tasks.
- PrivacyLeaks.OnlyEarnedIff: its runs have the gallery recognizer, not the no-op one; assumes the passthrough decider and at least one recognizer worker; otherwise nobody is ever shown.
- DualSource.EmittedAreASelection: positive, strictly increasing timestamps and images that are not empty, as in all theorems about whole runs of reads.
- BoundedQueues.BoundedQueue.PopFor: models the moment after the wait, not the wait or the notification.
- Floating-point rounding and NaN: all measures are real numbers; square roots, distances, angles and the Kalman algebra are parameters.
- Orders `std::sort` leaves open: equal scores keep their order, one of the outcomes it allows.
- The shared frame object: updates of its tracked boxes and counters, timing callbacks, and null frames, trackers and callbacks.
- Face results other than full-frame ones; probe ids are a datatype instead of text; the choice between detector back ends.
- The nested per-stream maps of the recognition cache are one map with (stream, track) keys; embedding dimensions of the gallery are those the loader enforces.
- Real threads and clocks: locked sections are atomic steps, and a read's deadline is a list of polls and whether one more match is tried.
- Overflow of 64-bit counters and conversions of coordinates and frame numbers to narrower integers.
- Blur and pixelation themselves, and the rounding of dwell times in event payloads.
- Line events, routes, heatmaps and snapshots of the analytics engine; vanished tracks are finalized in the order of their ids, where the source leaves the order open.
- The order of the face list between two results of one frame beyond arrival order, and landmarks of boxes that were never recognised.
- GStreamer, ncnn, OpenCV, SQLite, network services, configuration parsing, telemetry and the user interface.

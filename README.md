# orbital-ring core, modelled in Dafny

This project models the computational core of the orbital-ring visualiser.
The visualiser is a web application that shows an orbital ring around the
Earth, plays an intro of seven construction stages, runs a controllable
simulation and presents the construction campaign as a tree. Everything it
draws is left to the host (the 3-D engine, React and the state-machine
library). What is modelled is the logic that decides what to draw:

- **Floating origin** (`camera_relative_group.dfy`). This is the per-frame
  rebase that keeps the camera near the scene origin. It moves the world
  origin, the content group, the camera and the orbit-controls target
  together, so that no true position changes. `FloatingOrigin` is a class
  whose `OnFrame` is proved to perform the pure `Rebase` step.
- **Ring level of detail** (`ring_lod.dfy`). This covers the hysteresis
  thresholds, `computeLODLevel`, the camera-to-ring distance and the choice
  of ring variant for each level. `LodSelector` holds the level currently
  shown.
- **Frame order** (`frame_pipeline.dfy`). The rebase callback runs before
  the level-of-detail callback in every frame.
- **Tethers** (`tethers.dfy`). This covers the displayed-count cap, the loop
  that builds the position buffer, and the condition for rendering.
- **Intro** (`stage_definitions.dfy`, `intro_machine.dfy`,
  `camera_keyframes.dfy`). It comprises:
  - the stage table and its prefix-sum start times;
  - the intro state machine as a step function;
  - the camera keyframe lookup with its per-stage curve cache.
- **Simulation control** (`simulation_machine.dfy`). This is the simulation
  state machine as a step function: clock, frame counter, speed and
  parameters.
- **Campaign** (`campaign_tree.dfy`, `campaign_page.dfy`). This covers the
  campaign tree and its id scheme, and `buildNodeMap` as a recursive method
  over a mutable map. It also covers `findNode`, `getTopLevelIds` and the
  selection/expansion state of the campaign page.

Numbers are modelled as `real`, and the arithmetic is exact.

Host functions are passed in as function parameters:

- `Math.sqrt`, `Math.cos` and `Math.sin`;
- the Catmull-Rom curve evaluation.

A lemma asks of such a parameter only what it needs, at the points it uses
it. Examples are "`sqrt` gives the non-negative square root at this value"
and "the curve starts at its first control point".

Angles in the tether loop are written in turns (fractions of a full circle).
The source's angle is the turn times 2π.

## Model

| member | source | states |
|---|---|---|
| CameraRelativeGroup.Rebase | src/components/canvas/CameraRelativeGroup.tsx:25-58 | Within 1000 units of the origin nothing changes. Beyond that, the world origin gains the camera position P, the camera goes to zero, and the group and the optional target lose P. True group, camera and target positions are preserved, and afterwards the camera is within the threshold. |
| CameraRelativeGroup.RebaseIdempotent | src/components/canvas/CameraRelativeGroup.tsx:40-52 | A second rebase straight after a rebase changes nothing. |
| CameraRelativeGroup.RunFramesKeepsGroupAtNegatedOrigin | src/components/canvas/CameraRelativeGroup.tsx:30-52 | Over any sequence of camera moves, each followed by a frame step, the group position stays the negated world origin and the camera stays within the threshold. |
| CameraRelativeGroup.FloatingOrigin.constructor | src/components/canvas/CameraRelativeGroup.tsx:29-30 | The world origin and the group start at zero, and the group ref starts unattached. |
| CameraRelativeGroup.FloatingOrigin.Attach | src/components/canvas/CameraRelativeGroup.tsx:64 | Mounting the group sets the ref. |
| CameraRelativeGroup.FloatingOrigin.GetWorldOrigin | src/components/canvas/CameraRelativeGroup.tsx:33-35 | Returns the accumulated world origin and changes nothing. |
| CameraRelativeGroup.FloatingOrigin.OnFrame | src/components/canvas/CameraRelativeGroup.tsx:37-60 | Without a mounted group the state is unchanged. Otherwise the new origin, group, camera and target are exactly `Rebase` of the old ones. |
| RingLod.LevelIndex | src/components/canvas/RingLOD.tsx:31-33 | The rank in the order DETAIL < CLOSE < MEDIUM < FAR: DETAIL is 0, CLOSE 1, MEDIUM 2 and FAR 3, each exactly. |
| RingLod.ThresholdWithHysteresis | src/components/canvas/RingLOD.tsx:21-41 | The threshold is base·0.9 or base·1.1. For a positive base it is below the base exactly when the target level is strictly more detailed than the current one. |
| RingLod.ComputeLodLevel | src/components/canvas/RingLOD.tsx:15-54 | Below 90 the level is DETAIL and from 11000 it is FAR, whatever is shown. Inside its sticky band the current level is kept. A finer level is chosen only below its entering threshold, and a coarser one only at or beyond the current level's leaving threshold. Conversely, the result is the most detailed level whose threshold (adjusted for the shown level) exceeds the distance: passing a finer level's entering threshold always refines at least to it, and passing the current level's leaving threshold always coarsens. |
| RingLod.ApproachNeverCoarsens | src/components/canvas/RingLOD.tsx:43-54 | Moving closer never gives a coarser level. |
| RingLod.RetreatNeverRefines | src/components/canvas/RingLOD.tsx:43-54 | Moving away never gives a finer level. |
| RingLod.JitterNeverChangesLevel | src/components/canvas/RingLOD.tsx:24-54 | Once either level at a boundary is shown, distances jittering between 95% and 105% of that boundary never change it. |
| RingLod.ApproachTraceRefines | src/components/canvas/RingLOD.tsx:43-54 | Over non-increasing distances, the level trace only gets more detailed. |
| RingLod.LevelsAlongDistances | src/components/canvas/RingLOD.tsx:43-54 | Starting from FAR, the successive distances 50, 500, 5000 and 15000 (moving away from the ring) give DETAIL, CLOSE, MEDIUM and FAR. |
| RingLod.HysteresisAnchoredAtCurrentLevel | src/components/canvas/RingLOD.tsx:31-54 | The hysteresis is taken from the level shown: from FAR, 950 gives MEDIUM, and from DETAIL, 1500 gives MEDIUM. |
| RingLod.RingRadius | src/components/canvas/RingLOD.tsx:88 | The ring radius is the Earth radius plus the altitude, in scene units. For a non-negative altitude it is at least the Earth radius. |
| RingLod.DistanceToRing | src/components/canvas/RingLOD.tsx:99-103 | Where the host square root is the non-negative root at the two points used, the distance is non-negative and its square is (distance from the axis − radius)² + y². |
| RingLod.DistanceAboveRing | src/components/canvas/RingLOD.tsx:88-103 | A camera at (R, h, 0) is \|h\| from a ring of radius R. |
| RingLod.DistanceAtTwiceRadius | src/components/canvas/RingLOD.tsx:88-103 | A camera at (2R, 0, 0) is R from a ring of radius R. |
| RingLod.VariantFor | src/components/canvas/RingLOD.tsx:111-133 | FAR, and only FAR, draws the line loop. Every tube has eight tubular segments per radial segment. Only DETAIL leaves the tether count uncapped. |
| RingLod.VariantSegmentsGrowWithDetail | src/components/canvas/RingLOD.tsx:114-131 | A more detailed level has strictly more tubular and radial segments. |
| RingLod.LodSelector.constructor | src/components/canvas/RingLOD.tsx:81 | The level starts at FAR. |
| RingLod.LodSelector.OnFrame | src/components/canvas/RingLOD.tsx:88-109 | The new level is `ComputeLodLevel` of the distance from the camera's true position (camera plus world origin) to the ring of radius (6371 + altitude)·1, from the old level. It reports a change exactly when the level differs. |
| FramePipeline.RenderFrame | src/components/canvas/CameraRelativeGroup.tsx:37-60 | The rebase step runs first, then the level-of-detail step. The level depends on the true camera position before the frame, so a rebase in the same frame does not disturb it. |
| Tethers.DisplayCount | src/components/canvas/Tethers.tsx:23 | The count is at most the tether count, and at most a non-zero cap. It is one of the two. A missing or zero cap means the tether count itself. |
| Tethers.TetherCapGrowsWithDetail | src/components/canvas/Tethers.tsx:23 | A more detailed ring variant never draws fewer tethers. |
| Tethers.Turn | src/components/canvas/Tethers.tsx:32 | Tether i of n sits at a turn in [0, 1). |
| Tethers.TurnStrictlyIncreasing | src/components/canvas/Tethers.tsx:32 | Later tethers sit at strictly larger angles. |
| Tethers.TetherPointsOnCircles | src/components/canvas/Tethers.tsx:26-39 | The surface point lies at Earth radius and the ring point at ring radius. Both have y = 0 and the same direction. |
| Tethers.TetherBuffer | src/components/canvas/Tethers.tsx:29-40 | The buffer after c tethers holds 6·c numbers. |
| Tethers.TetherBufferLayout | src/components/canvas/Tethers.tsx:29-40 | The buffer for c tethers has 6·c numbers, and numbers 6i to 6i+5 are tether i's two points. |
| Tethers.BuildPositions | src/components/canvas/Tethers.tsx:25-40 | The loop builds nothing for a count of zero or less. Otherwise it builds the buffer of all `displayCount` tethers, at Earth radius 6371 and ring radius (6371 + altitude)·1. |
| Tethers.ShouldRender | src/components/canvas/Tethers.tsx:50 | Tethers are drawn exactly when `showTethers` is present and not one of the falsy values 0, `false` and the empty string, and the count is not zero. |
| Tethers.DefaultsRenderNothing | src/components/canvas/Tethers.tsx:19-50 | `showTethers` is not a default parameter, so by default nothing is drawn. |
| Tethers.ShowTethersEnablesRendering | src/components/canvas/Tethers.tsx:50 | Once SET_PARAMETER turns `showTethers` on, a non-zero count is drawn. |
| StageDefinitions.SliceEnd | src/lib/intro/stageDefinitions.ts:79 | The end index `slice` uses: it clamps to the length, and counts negative ends from the back. |
| StageDefinitions.StageTable | src/lib/intro/stageDefinitions.ts:10-74 | There are seven stages, with ids 1 to 7 and durations 8, 10, 8, 10, 8, 10, 10. |
| StageDefinitions.GetStageStartTime | src/lib/intro/stageDefinitions.ts:78-80 | A stage starts at the summed durations of the stages before it. An index at or past the end gives the total running time, and one at or below −7 gives 0. |
| StageDefinitions.StartTimeTable | src/lib/intro/stageDefinitions.ts:78-80 | The start times of stages 0 to 7 are 0, 8, 18, 26, 36, 44, 54 and 64. |
| StageDefinitions.TotalDurationIs64 | src/lib/intro/stageDefinitions.ts:76 | The total duration is 64. |
| StageDefinitions.FirstStageStartsAtZero | src/lib/intro/stageDefinitions.ts:78-80 | Stage 0 starts at 0. |
| StageDefinitions.StartTimeStep | src/lib/intro/stageDefinitions.ts:78-80 | The start of stage i+1 is the start of stage i plus stage i's duration. |
| StageDefinitions.PrefixSumMonotone | src/lib/intro/stageDefinitions.ts:79 | A longer prefix never sums to less. |
| StageDefinitions.StartTimeMonotone | src/lib/intro/stageDefinitions.ts:76-80 | Start times never decrease and never exceed the total. From index 7 on they equal the total. |
| StageDefinitions.NegativeIndexCountsFromEnd | src/lib/intro/stageDefinitions.ts:78-80 | A negative index from −7 to −1 gives the start time of the stage counted from the end. |
| IntroMachine.DurationsPositive | src/lib/intro/stageDefinitions.ts:10-74 | Every stage has a positive duration, so dividing by it is defined. |
| IntroMachine.StartFraction | src/machines/introMachine.ts:21-27 | The share of the intro before stage i is in [0, 1]. It is 0 for the first stage and 1 past the last. |
| IntroMachine.ComputeGlobalProgress | src/machines/introMachine.ts:21-27 | The result is in [0, 1] for stage progress in [0, 1]. It is the stage's start share at progress 0 and the next stage's start share at progress 1. |
| IntroMachine.HasNextStage | src/machines/introMachine.ts:54 | From a valid stage, there is a next stage exactly when the following index is a valid stage. |
| IntroMachine.HasPrevStage | src/machines/introMachine.ts:55 | From a valid stage, there is a previous stage exactly when the preceding index is a valid stage. |
| IntroMachine.AdvanceStage | src/machines/introMachine.ts:58-69 | It adds the tick to the elapsed time and keeps the stage. Progress stays at most 1, and below 1 it is elapsed/duration. Global progress is `ComputeGlobalProgress` of the new stage progress: below 1 it is (stage start + elapsed)/total, and at 1 it is the next stage's start share. With non-negative elapsed time, both progresses are in range. |
| IntroMachine.GoNextStage | src/machines/introMachine.ts:70-78 | It moves to the next stage, or stays on the last. Progress and elapsed time become zero, and global progress becomes the stage's start share. |
| IntroMachine.GoPrevStage | src/machines/introMachine.ts:79-87 | It moves to the previous stage, or stays on the first. Progress and elapsed time become zero, and global progress becomes the stage's start share. |
| IntroMachine.StepIntro | src/machines/introMachine.ts:100-176 | The state moves only along an edge of the transition table, and `complete` is final. LOADED from `loading` starts playing, PAUSE from `playing` pauses and PLAY from `paused` resumes, each keeping the stage, elapsed time and progresses (only `isPaused` follows the state). A TICK outside `playing` is ignored. The stage index stays in [0, 6] and progress at most 1. `isPaused` holds exactly in `paused`. With non-negative ticks the times and progresses stay non-negative, and global progress stays within [0, 1]. |
| IntroMachine.InitialIsValid | src/machines/introMachine.ts:89-98 | The initial context (stage 0, zero progress, not paused) meets the invariants. |
| IntroMachine.RunKeepsInv | src/machines/introMachine.ts:100-176 | Any sequence of events keeps the invariants. |
| IntroMachine.TickWithinStage | src/machines/introMachine.ts:58-132 | A tick that does not finish the stage keeps the stage and adds to the elapsed time. Progress becomes elapsed/duration, which is below 1. |
| IntroMachine.TickFinishesStage | src/machines/introMachine.ts:110-119 | A tick that finishes a stage other than the last moves to the start of the next stage. Progress is zeroed and the leftover time is dropped. |
| IntroMachine.TickFinishesIntro | src/machines/introMachine.ts:120-128 | A tick that finishes the last stage completes the intro at full stage and global progress. |
| IntroMachine.SkipStageMovesOn | src/machines/introMachine.ts:135-165 | SKIP_STAGE goes to the start of the next stage and plays (resuming if paused). On the last stage it completes the intro. |
| IntroMachine.PrevStageMovesBack | src/machines/introMachine.ts:144-170 | PREV_STAGE is ignored on stage 0. Otherwise it goes to the start of the previous stage and plays. |
| IntroMachine.SkipAllCompletes | src/machines/introMachine.ts:148-176 | SKIP_ALL from `playing` or `paused` completes the intro, and every later event is ignored. |
| CameraKeyframes.PathsCoverStages | src/lib/intro/cameraKeyframes.ts:18-151 | Every stage has a path, every path belongs to a stage, and every path has three keyframes. |
| CameraKeyframes.PathsJoinUp | src/lib/intro/cameraKeyframes.ts:18-151 | Each stage's last keyframe equals the next stage's first in position, target and fov. |
| CameraKeyframes.Clamp01 | src/lib/intro/cameraKeyframes.ts:168 | The result is in [0, 1]. It equals the progress inside the range, 0 below it and 1 above it. |
| CameraKeyframes.Segment | src/lib/intro/cameraKeyframes.ts:180-183 | For n ≥ 2 keyframes the segment index is in [0, n−2] and the offset in [0, 1], and together they sum to t·(n−1). At t = 0 the result is (0, 0), and at t = 1 it is (n−2, 1). |
| CameraKeyframes.Lerp | src/lib/intro/cameraKeyframes.ts:188-189 | Weight 0 gives the start value and weight 1 the end value. |
| CameraKeyframes.LerpBetween | src/lib/intro/cameraKeyframes.ts:185-189 | With a weight in [0, 1] the result lies between the two ends. |
| CameraKeyframes.TargetAt | src/lib/intro/cameraKeyframes.ts:180-187 | At t = 0 the target is the first keyframe's, and at t = 1 the last keyframe's. |
| CameraKeyframes.FovAt | src/lib/intro/cameraKeyframes.ts:180-189 | At t = 0 the field of view is the first keyframe's, and at t = 1 the last keyframe's. |
| CameraKeyframes.FovWithinSegment | src/lib/intro/cameraKeyframes.ts:185-189 | The fov lies between the fovs of the segment's two keyframes. |
| CameraKeyframes.TargetWithinSegment | src/lib/intro/cameraKeyframes.ts:185-187 | Every target coordinate lies between that coordinate of the segment's two keyframes. |
| CameraKeyframes.CurveFor | src/lib/intro/cameraKeyframes.ts:172-173 | The curve is open and its control points are the path's positions, in order. |
| CameraKeyframes.UnknownKeyGetsDefault | src/lib/intro/cameraKeyframes.ts:4-166 | A key with no path gets position (0, 0, 2.5·6371), target at the origin and fov 45. |
| CameraKeyframes.CameraAtProgress | src/lib/intro/cameraKeyframes.ts:155-192 | A key with no path gets the default pose. Otherwise progress at or below 0 gives the first keyframe's target and fov, and at or above 1 the last keyframe's. The position is also the first or last keyframe's when the host curve passes through its end points. |
| CameraKeyframes.NoJumpBetweenStages | src/lib/intro/cameraKeyframes.ts:18-192 | The pose at the end of one stage equals the pose at the start of the next, given a curve that passes through its end points. |
| CameraKeyframes.CurveCache.constructor | src/lib/intro/cameraKeyframes.ts:153 | The cache starts empty. |
| CameraKeyframes.CurveCache.GetCameraAtProgress | src/lib/intro/cameraKeyframes.ts:155-192 | The pose is the one computed without a cache. The cache gains at most one entry, for the key asked for, the first time that key is asked for. An existing entry is reused unchanged. |
| SimulationMachine.Truthy | src/components/canvas/Tethers.tsx:50 | A parameter value is truthy exactly when it is not one of the falsy values 0, `false` and the empty string. |
| SimulationMachine.AdvanceTime | src/machines/simulationMachine.ts:66-73 | The time moves on by delta·speed and one more frame is counted. Nothing else in the context changes. |
| SimulationMachine.StepOnce | src/machines/simulationMachine.ts:74-77 | The time moves on by one time step, whatever the speed, and one more frame is counted. Nothing else changes. |
| SimulationMachine.ResetTime | src/machines/simulationMachine.ts:78-81 | Time and frame count become 0. Speed, time step and parameters are kept. |
| SimulationMachine.StepMachine | src/machines/simulationMachine.ts:66-136 | The state changes exactly along loading→idle on LOADED, idle→running and paused→running on PLAY, running→paused on PAUSE and running/paused→idle on RESET: an event that labels an edge from the current state always takes it, and no other event changes the state. LOADED, PLAY and PAUSE leave the context unchanged. While running, TICK advances the time by delta·speed and counts one frame, with everything else unchanged; elsewhere it does nothing. While paused, STEP advances the time by one time step and counts one frame; elsewhere it does nothing. RESET from running or paused goes to idle with time and frame count zero and speed, step and parameters kept. No other event touches the time or the frame count. SET_PARAMETER changes exactly the named key and nothing else. Only SET_SPEED changes the speed. The frame count never decreases except on RESET. |
| SimulationMachine.InitialMachine | src/machines/simulationMachine.ts:31-113 | The machine starts loading with time 0, step 1/60, speed 1, frame count 0 and the seven default parameters. Only LOADED leaves loading. |
| SimulationMachine.ClockMonotoneBetweenResets | src/machines/simulationMachine.ts:66-77 | Without a RESET, the frame count never decreases. The time never decreases either, given non-negative ticks, speeds and step. |
| CampaignTree.FlattenUnder | src/lib/data/buildCampaignTree.ts:12-348 | In a well-numbered forest every id extends its parent's prefix, and within one subtree every id carries that subtree's digit. |
| CampaignTree.WellNumberedIdsAreUnique | src/lib/data/buildCampaignTree.ts:12-348 | In a well-numbered forest no two nodes, at any depth, share an id. |
| CampaignTree.CampaignTreeIsWellNumbered | src/lib/data/buildCampaignTree.ts:12-348 | The campaign's ids follow the scheme: "1" to "6" at the top, and the k-th child of p is "p.k". |
| CampaignTree.InsertAll | src/lib/data/buildCampaignTree.ts:351-362 | The map ends up with the keys it had plus the id of every node at any depth. |
| CampaignTree.InsertAllIsFlatSetting | src/lib/data/buildCampaignTree.ts:351-362 | The recursive insertion equals setting every node of the pre-order flattening in turn. |
| CampaignTree.SetEachLookup | src/lib/data/buildCampaignTree.ts:356 | The new keys are the old keys plus the ids set. An id not set keeps its entry, and of several nodes with one id the last wins. |
| CampaignTree.UniqueSetEachLookup | src/lib/data/buildCampaignTree.ts:356 | With unique ids, every node is found under its own id. |
| CampaignTree.InsertAllLookup | src/lib/data/buildCampaignTree.ts:351-362 | After `buildNodeMap(nodes, m)` every node at every depth is keyed by its id, and entries of other ids are kept. The pre-order last of several same-id nodes wins. |
| CampaignTree.NodeMap.Set | src/lib/data/buildCampaignTree.ts:356 | `map.set` replaces the entry for the id. |
| CampaignTree.BuildNodeMap | src/lib/data/buildCampaignTree.ts:351-362 | The method changes the map passed in and returns it. The map ends up as the pre-order insertion of the forest into its old contents. |
| CampaignTree.BuildCampaignNodeMap | src/lib/data/buildCampaignTree.ts:364 | The module's index is the insertion of the campaign into an empty map. |
| CampaignTree.IndexIsExact | src/lib/data/buildCampaignTree.ts:351-364 | For a well-numbered forest the ids are unique. The index built from empty holds exactly the forest's ids, each mapped to its own node. |
| CampaignTree.CampaignNodeMapIsExact | src/lib/data/buildCampaignTree.ts:12-364 | The campaign's index holds exactly its ids, each mapped to its node. |
| CampaignTree.FindNode | src/lib/data/buildCampaignTree.ts:366-368 | A node is found exactly when some node at any depth has the id, and the node found has that id. |
| CampaignTree.GetTopLevelIds | src/lib/data/buildCampaignTree.ts:371-373 | The result is "1" to "6" in order, none containing a dot. |
| CampaignPage.Toggle | src/app/campaign/page.tsx:20-30 | The id is in the result exactly when it was not in the set. Every other id keeps its membership. |
| CampaignPage.ToggleTwiceRestores | src/app/campaign/page.tsx:20-30 | Toggling an id twice restores the set. |
| CampaignPage.TogglesCommute | src/app/campaign/page.tsx:20-30 | Toggles of two ids commute. |
| CampaignPage.SelectedNode | src/app/campaign/page.tsx:18 | Nothing is shown for no selection or an empty (falsy) id. Otherwise the result is `findNode` of the id, and a node shown has the selected id. |
| CampaignPage.TopLevelIdSet | src/app/campaign/page.tsx:14-16 | The set of top-level ids is {"1", …, "6"}. |
| CampaignPage.PageState.constructor | src/app/campaign/page.tsx:13-16 | The selection starts at "1", and the expanded set starts as exactly the top-level ids. |
| CampaignPage.PageState.Select | src/app/campaign/page.tsx:13-38 | Selecting sets the selected id. |
| CampaignPage.PageState.HandleToggle | src/app/campaign/page.tsx:20-30 | The expanded set becomes `Toggle` of the old set. |
| CampaignPage.InitialSelectionIsPhaseOne | src/app/campaign/page.tsx:13-18 | At the start the detail pane shows phase "1", the first top-level node of the tree. |

## Left out

- Rendering, React hooks and effects, the 3-D engine's scene graph and materials, xstate's interpreter, and the ticker's `requestAnimationFrame` loop are out of scope. The ticker is represented by the TICK events it sends.
- Floating-point rounding is out of scope, because numbers are exact reals. At exactly d = 110 from DETAIL, the source computes the threshold 100·1.1 as 110.00000000000001 and stays in DETAIL, while the model leaves it. No other threshold is affected.
- NaN and infinite inputs are out of scope, because reals have neither. This applies to a NaN progress in `getCameraAtProgress` and a NaN tick delta.
- RingLod.ThresholdWithHysteresis: the source looks levels up with `indexOf`, which would give −1 for a string that is not a level. The level type is closed, so the model has no such input.
- RingLod.LodSelector.OnFrame: the React state update `setLodLevel` is treated as taking effect at once. In the source the new level is seen from the next render.
- CameraRelativeGroup.FloatingOrigin.GetWorldOrigin: the source returns the live vector, which later rebases change in place. The model returns its value at the time of the call.
- `useWorldOrigin` and its error for use outside the provider are React context plumbing, so they are not modelled.
- CameraRelativeGroup.FloatingOrigin.OnFrame: controls without a `target` are modelled as a null `controls`. The `priority -100` ordering is modelled by `FramePipeline.RenderFrame`.
- Tethers.BuildPositions: `displayCount` is an integer in the model. A fractional tether count from the parameter panel would run the source loop ⌈count⌉ times. `Math.cos` and `Math.sin` are host functions, and only cos² + sin² = 1 is assumed of them.
- The BufferGeometry and Float32 conversion of the tether positions, the `FarRing` loop and the ring tube geometry build only drawable geometry, so they are not modelled.
- CameraKeyframes.CurveCache.GetCameraAtProgress: a path with a single keyframe would index `path[-1]` in the source and fail. No path in the table has fewer than three keyframes, so the model requires two or more where it interpolates.
- Stage keys such as "constructor", which hit properties inherited by the path object, are not modelled, because the model's path table is a plain map.
- The Catmull-Rom evaluation (`getPointAt`) is a host function.
- The campaign nodes' `label` and `description` texts are not modelled, because they are display text that no operation reads or compares.
- A missing `children` list and an empty one are both `[]`, because `buildNodeMap` treats them alike.
- CampaignPage.PageState.HandleToggle: React's functional update that copies the old set is modelled as replacing a set value. Dafny sets are values, so the old set cannot be changed.
- SimulationMachine.StepMachine: parameter values are numbers, booleans or strings. The source accepts any value for SET_PARAMETER.
- The intro and simulation machines are modelled as step functions of (state, context, event), not as xstate's actor objects. Event payloads are assumed well-typed.

# PoseAR canvas component: scheduler and skeleton overlay

The canvas component of PoseAR (`src/canvas/index.tsx`) does two things:

- **Run/pause scheduler.** It runs the pose camera for `runningTime + 1` firings of a 600 ms interval, then pauses it for `intervalTime + 1` firings, over and over. The count is labelled in seconds but drops by one per firing.
  - A 600 ms interval, the *timer*, counts the remaining time down.
  - When the count goes negative, a reactive effect switches phase. An Active phase (camera on, `runningStatus` true) becomes Resting, and Resting becomes Active.
  - Start and Stop buttons trigger `startProgram` and `forceStopProgram`.
  - Two range sliders set the two durations.
- **Skeleton overlay.** Each result from the pose detector that carries landmarks makes `onResults` issue a fixed sequence of calls on a 2D canvas; a result without landmarks draws nothing:
  - it saves the context and clears the canvas;
  - it fills the whole canvas in `source-in` and draws the camera frame in `destination-atop`;
  - in `source-over` it hands the drawing library 31 bones (green), 14 joints (red) and the reference-line argument (yellow);
  - it restores the context.

The bones and joints are named through a table (`points`) that maps 38 names to indices:

- 0..32 are the detector's body points;
- 33..37 are five synthetic entries: reference points, the shoulder and ear midpoints, and a "normal vertex".

The project has four modules:

- `Landmarks` (landmarks.dfy): the `points` table as a datatype of names, with its index map and the inverse lookup, plus the bone list, the joint list and the reference-line argument.
- `Overlay` (overlay.dfy): the calls `onResults` issues, as a trace of abstract drawing operations. No pixels are modelled. It also models the part of the 2D context the trace changes: the composite mode and the stack of saved states. The lemmas say which mode each painting operation runs in, and that the context is the same after the call as before it, given that the library calls leave the context alone (see "## Left out").
- `Session` (session.dfy): the scheduler as a pure state machine. The state holds:
  - the component's signals: ready, running status, both durations and the remaining time;
  - its `let` variables: forceStop, interval, and whether the camera is on;
  - the set of interval handles still firing, and the next handle `setInterval` will return.

  Each command, each firing of a timer and each detector result is a function on that state. Lemmas cover a run of many quanta or many events.
- `CanvasComponent` (canvas.dfy): the component as an object. Its closures are methods that update its fields in place. Each method's postcondition says the new state is what the matching `Session` function computes, so everything proved in `Session` applies to the object.

Behaviour of the code that the model keeps as written:

- **forceStop is never set.** Nothing assigns `forceStop = true`, so the tick's branch at index.tsx:97-100 is dead (`Session.ForceStopNeverSet`). The branch is still modelled.
- **A forced stop is an ordinary Resting state.** `forceStopProgram` sets `runningStatus` to false, turns the camera off and clears the interval; the count is left as it was. No further tick arrives, because the cleared interval never fires.
- **No clear without landmarks.** A result without landmarks returns before any drawing, so the canvas keeps the last frame.
- **No skipping.** The bone and joint lists are passed unchanged, with no skipping of missing points.
- **The Active phase lasts runningTime + 1 quanta.** Each quantum is one firing of the 600 ms interval. The tick computes `Math.round(x - 0.6)`, which is `x - 1` on integers. The phase changes only once the count reaches −1, so it lasts `runningTime + 1` quanta, and a Resting phase `intervalTime + 1`.

## Model

| member | source | states |
|---|---|---|
| Landmarks.Index | src/canvas/index.tsx:11-68 | Every name in the `points` table maps to an index below 38. |
| Landmarks.TableOrder | src/canvas/index.tsx:11-68 | Position i of the name list in table order holds the name whose index is i, for every i below 38. |
| Landmarks.PointAt | src/canvas/index.tsx:11-68 | Every index 0..37 is the index of some name, the one the table lists at that position. So the index map is onto 0..37. |
| Landmarks.PointAtIndex | src/canvas/index.tsx:11-68 | Looking up a name's index gives back the same name. |
| Landmarks.IndexInjective | src/canvas/index.tsx:11-68 | Different names have different indices. With `PointAt`, the table is a bijection between the 38 names and 0..37. |
| Landmarks.SyntheticPoints | src/canvas/index.tsx:61-67 | A name has index 33 or more exactly when it is one of the five synthetic entries: the two reference points, the shoulder and ear midpoints, and the normal vertex. |
| Landmarks.BoneIndices | src/canvas/index.tsx:155-192 | Position k of the bone numbers is the pair of table indices of bone k's two endpoints, for every bone. |
| Landmarks.BonesInTable | src/canvas/index.tsx:155-192 | There are 31 bones, and the index pairs handed to the library are exactly the source's numbers, in order: (23, 24), (24, 12), … (32, 30). |
| Landmarks.SyntheticBones | src/canvas/index.tsx:155-192 | A bone has a synthetic endpoint exactly when it is bone 7 or bone 8, the two bones from a shoulder to the shoulder midpoint. Every other bone joins two detector points. |
| Landmarks.JointsInTable | src/canvas/index.tsx:194-202 | The joints handed to the library are exactly the indices 11, 12, 7, 8, 13, 14, 15, 16, 23, 24, 25, 26, 27, 28, in the source's order. |
| Landmarks.JointsAreDetectorPoints | src/canvas/index.tsx:194-202 | There are 14 joints. All are detector points (index below 33), and no two are the same. |
| Landmarks.ReferenceLineInTable | src/canvas/index.tsx:212-214 | The reference-line argument is the flat two-element index list [35, 37], and both entries are synthetic. |
| Overlay.Render | src/canvas/index.tsx:135-215 | A result without landmarks issues no operation. A result with landmarks issues 11 operations, which begin with a save and end with a restore. |
| Overlay.Apply | src/canvas/index.tsx:141-215 | A painting operation does not change the context's composite mode or its saved states. |
| Overlay.Painted | src/canvas/index.tsx:141-215 | Extracting the painting operations of a trace gives only painting operations, and no more of them than the trace has. |
| Overlay.PrologueEffect | src/canvas/index.tsx:141-142 | The save pushes the current mode, and the clear paints in whatever mode was in force. |
| Overlay.FillEffect | src/canvas/index.tsx:144-146 | The fill paints in source-in and leaves source-in set. |
| Overlay.FrameEffect | src/canvas/index.tsx:148-151 | The camera frame is drawn in destination-atop and leaves destination-atop set. |
| Overlay.SkeletonEffect | src/canvas/index.tsx:153-214 | Bones, joints and the reference line are drawn in that order, all in source-over, and source-over is left set. |
| Overlay.RenderStages | src/canvas/index.tsx:141-215 | The trace is the prologue, then the fill, frame and skeleton stages, then the restore. Its context effect and its painting operations compose stage by stage. |
| Overlay.RenderRestoresContext | src/canvas/index.tsx:141-215 | Whatever context a call starts from, it ends in that same context: the composite mode and the saved stack are both restored. |
| Overlay.RenderPaints | src/canvas/index.tsx:135-215 | A result with landmarks paints exactly six operations, each in a stated mode: the clear (in the incoming mode), the fill (source-in), the frame (destination-atop), then bones, joints and reference line (source-over). A result without landmarks paints nothing. |
| Session.Handles | src/canvas/index.tsx:84 | The `interval` variable names at most one handle. |
| Session.AtMostOneTimer | src/canvas/index.tsx:94-103 | When only the stored handle can be live, at most one interval is live. |
| Session.Initial | src/canvas/index.tsx:70-85 | As mounted, the component is not ready, is Resting, has the camera off and forceStop clear, has 0 remaining, has no live interval, and uses the durations 60 and 20. |
| Session.ClearInterval | src/canvas/index.tsx:95 | `clearInterval` stops the stored handle, so no interval is live. Nothing else changes, including the variable itself. |
| Session.SetInterval | src/canvas/index.tsx:96-102 | `setInterval` returns a handle not live before, adds it to the live set and stores it. |
| Session.SetIntervalAloneLeaks | src/canvas/index.tsx:94-103 | Without the clear in front of it, `setInterval` would leave two intervals live. |
| Session.StartTimer | src/canvas/index.tsx:94-103 | After `startTimer`, exactly one interval is live: the fresh one it stored. |
| Session.StartProgram | src/canvas/index.tsx:105-111 | `startProgram` clears forceStop and turns the camera on. It sets the remaining time to the running duration, becomes Active, and leaves exactly one new interval live. Readiness and the durations are unchanged. |
| Session.StopProgram | src/canvas/index.tsx:113-118 | `stopProgram` turns the camera off and sets the remaining time to the pause duration. It becomes Resting and leaves exactly one new interval live. forceStop, readiness and the durations are unchanged. |
| Session.ForceStopProgram | src/canvas/index.tsx:120-124 | `forceStopProgram` leaves no interval live, turns the camera off and becomes Resting. Every other field is unchanged, including the remaining time. |
| Session.ForceStopIdempotent | src/canvas/index.tsx:120-124 | Force-stopping twice gives the same state as force-stopping once, from any state. |
| Session.Effect | src/canvas/index.tsx:247-256 | The effect changes nothing while the remaining time is non-negative. Once it is negative, the effect clears the interval and then runs `stopProgram` when Active or `startProgram` when Resting. |
| Session.Tick | src/canvas/index.tsx:96-256 | Firing a handle that is not live changes nothing. A live handle with forceStop set clears the interval. Otherwise one second comes off the remaining time. When the count was already 0, the phase switches with the stated new state, and exactly one new interval is live. |
| Session.Init | src/canvas/index.tsx:88-92 | `init` makes the component ready and changes nothing else. |
| Session.OnResults | src/canvas/index.tsx:132-138 | After a result, the component is ready exactly when it was ready before or the result had landmarks. Nothing else changes. |
| Session.SetRunningTime | src/canvas/index.tsx:300-309 | The running-time slider sets the running duration to a value in 3..180 and keeps the invariant. |
| Session.SetIntervalTime | src/canvas/index.tsx:310-319 | The pause slider sets the pause duration to a value in 0..600 and keeps the invariant. |
| Session.Quantum | src/canvas/index.tsx:96-102 | One 600 ms quantum keeps the timer bookkeeping and the invariant. |
| Session.Advance | src/canvas/index.tsx:96-256 | Any number of quanta keeps the invariant, readiness and both durations. |
| Session.AdvanceAdd | src/canvas/index.tsx:96-102 | m quanta followed by n quanta is the same as m + n quanta. |
| Session.Countdown | src/canvas/index.tsx:101 | With one interval live and time remaining, k quanta take exactly k seconds off and change nothing else. |
| Session.ActivePhase | src/canvas/index.tsx:105-256 | After `startProgram`, the first runningTime quanta stay Active with the camera on while the count goes down. Quantum runningTime + 1 leaves the state exactly as `stopProgram` would: Resting, camera off, the pause duration remaining, one fresh interval live. |
| Session.RestingPhase | src/canvas/index.tsx:105-256 | After `stopProgram` with forceStop clear, the first intervalTime quanta stay Resting. Quantum intervalTime + 1 leaves the state exactly as `startProgram` would. |
| Session.Cycle | src/canvas/index.tsx:105-256 | runningTime + 1 Active quanta followed by intervalTime + 1 Resting quanta end exactly where `stopProgram` then `startProgram` would: Active, camera on, the full running time remaining, one interval live. |
| Session.FireAll | src/canvas/index.tsx:96-102 | Firing a sequence of handles keeps the timer bookkeeping. |
| Session.ForceStopQuiesces | src/canvas/index.tsx:120-124 | After `forceStopProgram`, firing any sequence of handles changes nothing. |
| Session.ForceStopHolds | src/canvas/index.tsx:120-124 | After `forceStopProgram`, any amount of time passing changes nothing. |
| Session.StoppedUntilStart | src/canvas/index.tsx:94-319 | From a stopped state (no interval live, Resting, camera off), any sequence of events without a Start (stops, firings of any handle, results, slider moves) leaves it stopped with the same remaining time. |
| Session.ForceStopUntilStart | src/canvas/index.tsx:120-124 | After `forceStopProgram`, any sequence of events without a Start leaves no interval live, Resting, the camera off and the count where it was at the stop. |
| Session.Step | src/canvas/index.tsx:94-319 | Every command, tick, result or slider move keeps the invariant. It never sets forceStop. It makes the component ready exactly when it was ready or the event is a result with landmarks. |
| Session.Run | src/canvas/index.tsx:94-319 | Any sequence of events keeps the invariant. |
| Session.ReadyMonotone | src/canvas/index.tsx:76-138 | After any sequence of events, the component is ready exactly when it was ready before or some result in the sequence had landmarks. So readiness never goes back to false. |
| Session.ForceStopNeverSet | src/canvas/index.tsx:85-106 | From a state with forceStop clear, no sequence of events sets it. |
| Session.OneTimerAlways | src/canvas/index.tsx:94-256 | From the mounted component, after any sequence of events, at most one interval is live and forceStop is still clear. |
| CanvasComponent.Canvas.constructor | src/canvas/index.tsx:76-85 | The new object satisfies the invariant and is in the state `Session.Initial`. |
| CanvasComponent.Canvas.ClearInterval | src/canvas/index.tsx:95 | The fields change exactly as `Session.ClearInterval` says. |
| CanvasComponent.Canvas.SetInterval | src/canvas/index.tsx:96-102 | The fields change exactly as `Session.SetInterval` says. |
| CanvasComponent.Canvas.StartTimer | src/canvas/index.tsx:94-103 | The fields change exactly as `Session.StartTimer` says. |
| CanvasComponent.Canvas.StartProgram | src/canvas/index.tsx:105-111 | The object keeps the invariant, and its fields change exactly as `Session.StartProgram` says. |
| CanvasComponent.Canvas.StopProgram | src/canvas/index.tsx:113-118 | The object keeps the invariant, and its fields change exactly as `Session.StopProgram` says. |
| CanvasComponent.Canvas.ForceStopProgram | src/canvas/index.tsx:120-124 | No interval is left live, and the fields change exactly as `Session.ForceStopProgram` says. |
| CanvasComponent.Canvas.Effect | src/canvas/index.tsx:247-256 | For any remaining time, the object ends satisfying the invariant (a negative count is reset), and its fields change exactly as `Session.Effect` says. |
| CanvasComponent.Canvas.Tick | src/canvas/index.tsx:96-256 | The object keeps the invariant, and its fields change exactly as `Session.Tick` says. |
| CanvasComponent.Canvas.Init | src/canvas/index.tsx:88-92 | The fields change exactly as `Session.Init` says. |
| CanvasComponent.Canvas.OnResults | src/canvas/index.tsx:132-215 | The fields change exactly as `Session.OnResults` says. The operations returned are exactly `Overlay.Render` for that result and canvas size. |
| CanvasComponent.Canvas.SetRunningTime | src/canvas/index.tsx:300-309 | The fields change exactly as `Session.SetRunningTime` says. |
| CanvasComponent.Canvas.SetIntervalTime | src/canvas/index.tsx:310-319 | The fields change exactly as `Session.SetIntervalTime` says. |

## Left out

- **The JSX markup.** The page layout, the ready banner and the Start/Stop buttons are not modelled. The model lets Start and Stop happen in any state. The page shows only the one that matches `runningStatus`.
- **The detector and camera bootstrap.** This covers the MediaPipe `Pose` and `Camera` objects, `setOptions`, the CDN `locateFile`, and the 1000 ms `setTimeout` that creates them.
  - A field stands in for the camera's on/off state.
  - Before the bootstrap, `camera?.start?.()` and `camera?.stop?.()` do nothing. The model still records the camera as on or off at that point.
- **Wall-clock time.** Timing is the 600 ms period of the browser interval. The model counts ticks as discrete quanta fired by handle.
- **Floating point.** `Math.round(x - 0.6)` is modelled as `x - 1`. This equals the source for the integer counts the scheduler holds.
- **The drawing library.** What `drawConnectors` and `drawLandmarks` do inside, and the pixels themselves, are not modelled. That includes:
  - whether the library uses or skips entries 33..37, for which the detector gives no coordinates;
  - what it does with the reference line, which the code passes as a flat list `[35, 37]` rather than a list of pairs.
  - The model records each call and its arguments as written.
- **Landmark coordinates.** Coordinates, and the points picked from the result into `pointsToDraw`, are represented only by which points they name.
- **Lookups and compositing arithmetic.** The `getElementsByClassName` lookups and the compositing arithmetic are left out. None of the midpoints or the normal vertex is ever computed in the code, so there is nothing to model for them.
- **Overlay.Apply: library calls are assumed to leave the context alone.** `drawConnectors` and `drawLandmarks` are modelled as changing neither the composite mode nor the save stack. `Overlay.RenderRestoresContext` and the source-over modes in `Overlay.RenderPaints` rest on that assumption; what the library does to the context is not modelled.
- **Landmarks: no distinctness proof.** The model does not state that the 31 bones are pairwise distinct or that every joint lies on a bone.
- **CanvasComponent.Canvas methods assume the object invariant.** Each method requires the invariant between events: a valid timer bookkeeping and non-negative durations; the tick, the sliders, `onResults` and `forceStopProgram` also require a non-negative remaining time. The JavaScript closures have no preconditions. These hold of every state the component reaches, as shown by `Session.Run`.

# Face-positioning guidance, modelled in Dafny

The face-detect-spike server coaches a user through a two-pose reference
capture: first a frontal face, then a face turned far to the right. Each video
frame goes to a face detector. The detector's list of faces goes to a
per-connection guidance session (`FaceState`). The session screens the list
(no face, several faces, missing geometry, a face too small), classifies the
yaw of the lone face into one of five facing directions, advances its step
(0 awaiting frontal, 1 awaiting right turn, 2 done) and returns one
instruction string.

This project models that core of `face.go`:

- `wrappers.dfy`: `Option`, for the detector's nullable fields.
- `face.dfy`, module `Face`: the direction constants and the `facing`
  classifier (`FacingOf`). A pure specification of one analysis call, in two
  parts: `Observe` screens the detector result and `Next` is the step table.
  `Step` composes them. The `FaceState` class has its `state` field and the
  imperative `AnalyzeFaces` method, proved equal to `Step`. `FaceDetector`
  is the fixture detector, which rotates through the four canned results.
- `guidance.dfy`, module `Guidance`: properties of the classifier and of
  whole sessions (`Run` feeds a sequence of detector results to a session).
  A session stays within its three steps and gains at most one step per
  frame. Reaching "done" from a fresh session needs a frontal frame followed
  later by a far-right frame. "Done" is kept on every usable face. The
  instruction alone reveals the step. One pass over the fixtures yields
  "Look at the camera", "Move the camera closer", "Turn to the right",
  "Thank you".
- `server.dfy`, module `Server`: the connection loop of `server.go`, reduced
  to its use of the core. It creates one fresh session, then for each frame
  calls the detector and then `AnalyzeFaces`. The fixture detector is one
  object for the whole process (server.go:18, 84), so a connection may find
  it at any fixture that an earlier connection left it at.

Three facts about the code that the model keeps:

- A single face is rejected with "Focus on your face" when either its
  bounding box or its pose is missing (face.go:65).
- A face that is too small resets the step to 0 (face.go:72), so progress
  already made is lost.
- The five yaw ranges are mirror-symmetric: negating the yaw negates the
  direction (`Guidance.FacingMirror`).

## Model

| member | source | states |
|---|---|---|
| Face.Direction.Code | face.go:95-101 | each direction's integer constant lies in -2..2; it is 0 exactly for `Facing` and negative exactly for the two left directions |
| Face.FacingOf | face.go:103-120 | the five directions partition the real line: Facing iff -20 < yaw < 20, RightTransition iff -45 < yaw <= -20, Right iff yaw <= -45, LeftTransition iff 20 <= yaw < 45, Left iff yaw >= 45; the final fallback is unreachable for real yaw |
| Face.Observe | face.go:55-77 | the screening, each outcome as an iff: no face iff the list is empty; several faces iff more than one; missing geometry iff a lone face lacks its box or its pose; too small iff width or height is below 0.25; otherwise usable, carrying the classified yaw and the pitch |
| Face.Next | face.go:78-92 | a result without a usable face resets to step 0; a usable face keeps the step or raises it by one; it raises iff step 0 sees a frontal face with pitch in (-20, 10) or step 1 sees a far-right face; from a valid step, "Thank you" is returned iff the new step is 2 and "Turn to the right" iff it is 1 |
| Face.Step | face.go:54-93 | the full case table of one call: empty list gives step 0 and "Look at the camera"; several faces or missing geometry give step 0 and "Focus on your face"; too small gives step 0 and "Move the camera closer"; step 0 goes to 1 with "Turn to the right" on a frontal face with pitch in (-20, 10), else stays 0 with "Face the camera"; step 1 goes to 2 with "Thank you" on a far-right face, else stays 1 with "Turn to the right"; any other step is kept with "Thank you"; from a valid step the new step is valid and at most one higher |
| Face.FaceState.constructor | server.go:39 | a new session starts at step 0 |
| Face.FaceState.AnalyzeFaces | face.go:54-93 | the new `state` and the returned instruction are exactly `Step` of the old state and the faces; a valid session stays valid and rises by at most one step |
| Face.Fixtures | face.go:43-48 | the four canned detector results: no face; a lone face too small (0.222 wide); a frontal face with pitch in (-20, 10); a face turned far right (yaw -65), which is not frontal |
| Face.FaceDetector.constructor | face.go:16-19 | the fixture detector starts at the first fixture |
| Face.FaceDetector.DetectFaces | face.go:25-36 | returns the fixture at `fakeIndex` and advances the index by one, wrapping to 0 after the last fixture |
| Guidance.FacingBoundaries | face.go:103-117 | -20 maps to RightTransition, 20 to LeftTransition, -45 to Right, 45 to Left, 0 to Facing |
| Guidance.FacingMonotone | face.go:103-118 | a larger yaw never gives a direction further to the right |
| Guidance.FacingMirror | face.go:103-118 | negating the yaw negates the direction's constant |
| Guidance.CommandShowsStep | face.go:54-93 | from a valid step, the call ends at step 0 iff its instruction is one of "Look at the camera", "Focus on your face", "Move the camera closer", "Face the camera" |
| Guidance.ResetUnlessUsable | face.go:55-92 | any result other than one large-enough face with geometry resets to 0, including a too-small face; from step 2 a usable face keeps step 2 |
| Guidance.Run | server.go:41-58 | a session fed n detector results returns n instructions |
| Guidance.RunSnoc | server.go:41-58 | feeding one more result continues the session from the state the shorter run ended in |
| Guidance.RunStaysInSteps | face.go:78-92 | from a valid step, a session stays within steps 0..2 and ends at most one step higher per frame fed |
| Guidance.DoneFromTurnNeedsRightTurn | face.go:85-90 | a session at step 1 that ends done has seen at least one far-right frame |
| Guidance.DoneNeedsFrontalThenRightTurn | face.go:78-92 | a fresh session that ends done has seen a frontal frame and, strictly later, a far-right frame |
| Guidance.DoneIsKept | face.go:91-92 | at step 2, a run of large-enough lone faces stays at step 2 and answers "Thank you" each time |
| Guidance.GuidedCapture | face.go:54-93 | from any step: no face, a frontal face, then a far-right face twice, yields step 2 and "Look at the camera", "Turn to the right", "Thank you", "Thank you" |
| Guidance.FixtureSteps | face.go:43-48 | the no-face and too-small fixtures reset any step; the frontal fixture takes step 0 to 1 with "Turn to the right"; the far-right fixture takes step 1 to 2 with "Thank you" and leaves step 0 with "Face the camera" |
| Guidance.FixturePass | face.go:43-48 | from any step, the four fixtures in order end at step 2 and yield "Look at the camera", "Move the camera closer", "Turn to the right", "Thank you" |
| Server.Serve | server.go:39-58 | a connection's instructions are those of a session run from step 0 on the detector's results |
| Server.ServeFixtures | server.go:39-58 | with the shared fixture detector found at index j, the k-th instruction of a connection is `FixtureCommandAt(j, k)`: the ((j + k) mod 4)-th of the fixture cycle, except that a connection starting at the far-right fixture (j = 3) is first told "Face the camera"; the detector ends advanced by the number of frames, modulo 4 |

## Left out

- The live detector is left out. `NewFaceDetector`'s AWS client and the
  `rekog.DetectFaces` call are a foreign service. `Server.Serve` takes that
  detector's results as its input, and `FaceDetector` models only the
  detector built with `fakeAPI` set.
- Error paths outside the core are left out: the detector's error return,
  the JSON decoding of the fixtures and the `break` on transport errors.
  The fixtures decode without error.
- The fixtures keep only the four numbers the core reads: box width and
  height, yaw and pitch. Landmarks, quality, confidence, roll and the box
  position are never consulted.
- The fixture numbers are taken as exact decimals, not as 64-bit floats.
  None of them is near a threshold, so every comparison comes out the same.
- Floating point is not modelled: angles and sizes are `real`. A NaN yaw
  falls through every guard of `facing` and is reported as frontal in the
  source. Here that fallback is unreachable.
- Nil inner pointers are not modelled. The fields `Width`, `Height`, `Yaw`
  and `Pitch` are dereferenced without a check in the source, so the model
  takes them as always present. Only the box and the pose themselves are
  optional. A nil face entry in the list is likewise not modelled.
- Server.ServeFixtures: connections are served one after another here.
  In the source, concurrent connections update the shared `fakeIndex`
  without a lock (face.go:32-35). That data race, including an index read
  at 4 between the increment and the wrap, is not modelled, because the
  model has no concurrency.
- Transport is not modelled: the WebSocket upgrade, reading binary frames,
  JSON encoding of the response, writing frames, the static file server
  and `main`'s environment lookup.
- The browser client (`static/main.js`) is not modelled: camera capture,
  drawing and the socket client.

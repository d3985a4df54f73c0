/**
 * The guidance core of face.go: the five-way yaw classifier, the per-session
 * step machine that turns one detector result into one instruction, and the
 * fixture detector that replays four canned results in a cycle.
 */
module Face {
  import opened Wrappers

  // ---------------------------------------------------------------------------
  // Facing classification
  // ---------------------------------------------------------------------------

  /** Where the head points, from far left to far right of the person. */
  datatype Direction =
    | FacingLeft
    | FacingLeftTransition
    | Facing
    | FacingRightTransition
    | FacingRight
  {
    /** The integer constant the source gives each direction. */
    function Code(): (c: int)
      ensures -2 <= c <= 2
      ensures c == 0 <==> this == Facing
      ensures c < 0 <==> this == FacingLeft || this == FacingLeftTransition
    {
      match this
      case FacingLeft => -2
      case FacingLeftTransition => -1
      case Facing => 0
      case FacingRightTransition => 1
      case FacingRight => 2
    }
  }

  /**
   * Classifies a head yaw in degrees. The guards are tried in the source's
   * order; for every real yaw one of the five holds, so the source's final
   * fallback (taken there only by NaN) is unreachable here.
   * The contract is the partition of the real line into the five ranges.
   */
  function FacingOf(yaw: real): (d: Direction)
    ensures d == Facing <==> -20.0 < yaw < 20.0
    ensures d == FacingRightTransition <==> -45.0 < yaw <= -20.0
    ensures d == FacingRight <==> yaw <= -45.0
    ensures d == FacingLeftTransition <==> 20.0 <= yaw < 45.0
    ensures d == FacingLeft <==> 45.0 <= yaw
  {
    if yaw > -20.0 && yaw < 20.0 then Facing
    else if yaw > -45.0 && yaw <= -20.0 then FacingRightTransition
    else if yaw <= -45.0 then FacingRight
    else if yaw >= 20.0 && yaw < 45.0 then FacingLeftTransition
    else if yaw >= 45.0 then FacingLeft
    else assert false; Facing
  }

  // ---------------------------------------------------------------------------
  // Detector output, as far as the core reads it
  // ---------------------------------------------------------------------------

  /** Face rectangle, as fractions of the frame's width and height. */
  datatype BoundingBox = BoundingBox(width: real, height: real)

  /** Head rotation in degrees. */
  datatype Pose = Pose(yaw: real, pitch: real)

  /** One detected face; either part may be missing from the detector's answer. */
  datatype FaceDetail = FaceDetail(boundingBox: Option<BoundingBox>, pose: Option<Pose>)

  /** Smallest width and height of a face the session accepts. */
  const MinSize: real := 0.25

  /** Open pitch interval in which a frontal face is accepted. */
  const MinPitch: real := -20.0
  const MaxPitch: real := 10.0

  // The instructions sent back to the client.
  const LookAtCamera := "Look at the camera"
  const FocusOnFace := "Focus on your face"
  const MoveCloser := "Move the camera closer"
  const FaceCamera := "Face the camera"
  const TurnRight := "Turn to the right"
  const ThankYou := "Thank you"

  // ---------------------------------------------------------------------------
  // Specification of one analysis step
  // ---------------------------------------------------------------------------

  /** What one detector result amounts to, before the session's step is consulted. */
  datatype Observation =
    | NoFace
    | SeveralFaces
    | MissingGeometry
    | TooSmall
    | Usable(direction: Direction, pitch: real)

  /** A lone face that carries both a bounding box and a pose. */
  predicate HasGeometry(faces: seq<FaceDetail>)
  {
    |faces| == 1 && faces[0].boundingBox.Some? && faces[0].pose.Some?
  }

  /** A lone face with geometry whose box is at least MinSize both ways. */
  predicate LargeEnough(faces: seq<FaceDetail>)
  {
    HasGeometry(faces) &&
    faces[0].boundingBox.value.width >= MinSize &&
    faces[0].boundingBox.value.height >= MinSize
  }

  /** Yaw of the lone face of a detector result that has geometry. */
  function Yaw(faces: seq<FaceDetail>): real
    requires HasGeometry(faces)
  {
    faces[0].pose.value.yaw
  }

  /** Pitch of the lone face of a detector result that has geometry. */
  function Pitch(faces: seq<FaceDetail>): real
    requires HasGeometry(faces)
  {
    faces[0].pose.value.pitch
  }

  /** The screening of a detector result, checked in the source's order. */
  function Observe(faces: seq<FaceDetail>): (o: Observation)
    ensures o.NoFace? <==> |faces| == 0
    ensures o.SeveralFaces? <==> |faces| > 1
    ensures o.MissingGeometry? <==> |faces| == 1 && !HasGeometry(faces)
    ensures o.TooSmall? <==> HasGeometry(faces) && !LargeEnough(faces)
    ensures o.Usable? <==> LargeEnough(faces)
    ensures o.Usable? ==> o.direction == FacingOf(Yaw(faces)) && o.pitch == Pitch(faces)
  {
    if |faces| == 0 then NoFace
    else if |faces| > 1 then SeveralFaces
    else
      var face := faces[0];
      if face.boundingBox.None? || face.pose.None? then MissingGeometry
      else
        var bb := face.boundingBox.value;
        if bb.width < MinSize || bb.height < MinSize then TooSmall
        else Usable(FacingOf(face.pose.value.yaw), face.pose.value.pitch)
  }

  /** The session's new step and the instruction sent back. */
  datatype Outcome = Outcome(state: int, command: string)

  /** A usable observation that lets step 0 advance: frontal, pitch in the open interval. */
  predicate FrontalPose(o: Observation)
  {
    o.Usable? && o.direction == Facing && MinPitch < o.pitch < MaxPitch
  }

  /** A usable observation that lets step 1 advance: turned far to the right. */
  predicate TurnedRight(o: Observation)
  {
    o.Usable? && o.direction == FacingRight
  }

  /**
   * The step table. Every observation without a usable face resets the
   * session; a usable face moves 0 to 1 or 1 to 2 when its pose is the one
   * awaited, and leaves the step unchanged otherwise.
   */
  function Next(state: int, o: Observation): (r: Outcome)
    ensures !o.Usable? ==> r.state == 0
    ensures o.Usable? ==> r.state == state || r.state == state + 1
    ensures r.state == state + 1 && o.Usable? <==>
              (state == 0 && FrontalPose(o)) || (state == 1 && TurnedRight(o))
    ensures 0 <= state <= 2 ==> (r.command == ThankYou <==> r.state == 2)
    ensures 0 <= state <= 2 ==> (r.command == TurnRight <==> r.state == 1)
  {
    match o
    case NoFace => Outcome(0, LookAtCamera)
    case SeveralFaces => Outcome(0, FocusOnFace)
    case MissingGeometry => Outcome(0, FocusOnFace)
    case TooSmall => Outcome(0, MoveCloser)
    case Usable(dir, pitch) =>
      if state == 0 then
        if dir == Facing && MinPitch < pitch < MaxPitch then Outcome(1, TurnRight)
        else Outcome(0, FaceCamera)
      else if state == 1 then
        if dir == FacingRight then Outcome(2, ThankYou)
        else Outcome(1, TurnRight)
      else Outcome(state, ThankYou)
  }

  /**
   * One call of AnalyzeFaces on a session at `state`, stated case by case on
   * the detector result.
   */
  function Step(state: int, faces: seq<FaceDetail>): (r: Outcome)
    ensures |faces| == 0 ==> r == Outcome(0, LookAtCamera)
    ensures |faces| > 1 ==> r == Outcome(0, FocusOnFace)
    ensures |faces| == 1 && !HasGeometry(faces) ==> r == Outcome(0, FocusOnFace)
    ensures HasGeometry(faces) && !LargeEnough(faces) ==> r == Outcome(0, MoveCloser)
    ensures LargeEnough(faces) && state == 0 ==>
              if FacingOf(Yaw(faces)) == Facing && MinPitch < Pitch(faces) < MaxPitch
              then r == Outcome(1, TurnRight)
              else r == Outcome(0, FaceCamera)
    ensures LargeEnough(faces) && state == 1 ==>
              if FacingOf(Yaw(faces)) == FacingRight
              then r == Outcome(2, ThankYou)
              else r == Outcome(1, TurnRight)
    ensures LargeEnough(faces) && state != 0 && state != 1 ==> r == Outcome(state, ThankYou)
    ensures 0 <= state <= 2 ==> 0 <= r.state <= 2 && r.state <= state + 1
  {
    Next(state, Observe(faces))
  }

  // ---------------------------------------------------------------------------
  // The session object
  // ---------------------------------------------------------------------------

  /** One guidance session; the server keeps one per connection. */
  class FaceState {
    var state: int

    /** The steps a session can be in: 0 awaiting frontal, 1 awaiting right turn, 2 done. */
    ghost predicate Valid()
      reads this
    {
      0 <= state <= 2
    }

    /** A fresh session, as the zero value of the source's struct. */
    constructor ()
      ensures state == 0 && Valid()
    {
      state := 0;
    }

    /** Screens one detector result, moves the step and returns the instruction. */
    method AnalyzeFaces(faces: seq<FaceDetail>) returns (cmd: string)
      modifies this
      ensures Outcome(state, cmd) == Step(old(state), faces)
      ensures old(Valid()) ==> Valid() && state <= old(state) + 1
    {
      if |faces| == 0 {
        state := 0;
        return LookAtCamera;
      }
      if |faces| > 1 {
        state := 0;
        return FocusOnFace;
      }

      var face := faces[0];
      if face.boundingBox.None? || face.pose.None? {
        state := 0;
        return FocusOnFace;
      }

      var bb := face.boundingBox.value;
      if bb.width < MinSize || bb.height < MinSize {
        state := 0;
        return MoveCloser;
      }

      var pose := face.pose.value;
      var dir := FacingOf(pose.yaw);
      if state == 0 {
        if dir == Facing && pose.pitch > MinPitch && pose.pitch < MaxPitch {
          state := 1;
          return TurnRight;
        }
        return FaceCamera;
      } else if state == 1 {
        if dir == FacingRight {
          state := 2;
          return ThankYou;
        }
        return TurnRight;
      }
      return ThankYou;
    }
  }

  // ---------------------------------------------------------------------------
  // The fixture detector
  // ---------------------------------------------------------------------------

  /** A single face with both a bounding box and a pose. */
  function OneFace(width: real, height: real, yaw: real, pitch: real): seq<FaceDetail>
  {
    [FaceDetail(Some(BoundingBox(width, height)), Some(Pose(yaw, pitch)))]
  }

  /**
   * The four canned detector results, reduced to the fields the core reads:
   * no face; a face too narrow; a frontal face; a face turned far right.
   */
  function Fixtures(): (fs: seq<seq<FaceDetail>>)
    ensures |fs| == 4
    ensures Observe(fs[0]) == NoFace
    ensures Observe(fs[1]) == TooSmall
    ensures FrontalPose(Observe(fs[2]))
    ensures TurnedRight(Observe(fs[3])) && !FrontalPose(Observe(fs[3]))
  {
    [ [],
      OneFace(0.22225633263587952, 0.5120102763175964, 6.412472724914551, 6.568717956542969),
      OneFace(0.3449418544769287, 0.836955726146698, 8.349883079528809, -17.631322860717773),
      OneFace(0.28551608324050903, 0.6982589960098267, -65.08802032470703, 9.773420333862305)
    ]
  }

  /** The fake detector: each call hands out the next fixture, wrapping round. */
  class FaceDetector {
    var fakeIndex: int

    ghost predicate Valid()
      reads this
    {
      0 <= fakeIndex < |Fixtures()|
    }

    constructor ()
      ensures fakeIndex == 0 && Valid()
    {
      fakeIndex := 0;
    }

    method DetectFaces() returns (faces: seq<FaceDetail>)
      requires Valid()
      modifies this
      ensures Valid()
      ensures faces == Fixtures()[old(fakeIndex)]
      ensures fakeIndex == (old(fakeIndex) + 1) % |Fixtures()|
    {
      faces := Fixtures()[fakeIndex];
      fakeIndex := fakeIndex + 1;
      if fakeIndex >= |Fixtures()| {
        fakeIndex := 0;
      }
    }
  }
}

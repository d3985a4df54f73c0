/**
 * Properties of the guidance core over whole sessions: a session fed a
 * sequence of detector results, one per frame, and what the instructions it
 * returns say about the poses it has seen.
 */
module Guidance {
  import opened Face

  // ---------------------------------------------------------------------------
  // The classifier
  // ---------------------------------------------------------------------------

  /** The boundary values fall on the side the source's guards put them. */
  lemma FacingBoundaries()
    ensures FacingOf(-20.0) == FacingRightTransition
    ensures FacingOf(20.0) == FacingLeftTransition
    ensures FacingOf(-45.0) == FacingRight
    ensures FacingOf(45.0) == FacingLeft
    ensures FacingOf(0.0) == Facing
  {
  }

  /** Turning further right never moves the classification to the left. */
  lemma FacingMonotone(yaw1: real, yaw2: real)
    requires yaw1 <= yaw2
    ensures FacingOf(yaw1).Code() >= FacingOf(yaw2).Code()
  {
  }

  /**
   * The open and closed ends of the ranges mirror each other exactly:
   * negating the yaw negates the direction's code.
   */
  lemma FacingMirror(yaw: real)
    ensures FacingOf(-yaw).Code() == -FacingOf(yaw).Code()
  {
  }

  // ---------------------------------------------------------------------------
  // One step
  // ---------------------------------------------------------------------------

  /**
   * From a valid step, a call ends at step 0 exactly when it answers one of
   * the four instructions other than "Turn to the right" and "Thank you".
   */
  lemma CommandShowsStep(state: int, faces: seq<FaceDetail>)
    requires 0 <= state <= 2
    ensures Step(state, faces).state == 0 <==>
            Step(state, faces).command in {LookAtCamera, FocusOnFace, MoveCloser, FaceCamera}
  {
  }

  /** Every call that does not see one large-enough face with geometry resets the session. */
  lemma ResetUnlessUsable(state: int, faces: seq<FaceDetail>)
    ensures !LargeEnough(faces) ==> Step(state, faces).state == 0
    ensures LargeEnough(faces) && state != 0 && state != 1 ==> Step(state, faces).state == state
  {
  }

  // ---------------------------------------------------------------------------
  // Whole sessions
  // ---------------------------------------------------------------------------

  /** Final step and instructions of a session fed a sequence of detector results. */
  datatype Trace = Trace(state: int, commands: seq<string>)

  /** Feeds `frames` in order to a session starting at `state`. */
  function Run(state: int, frames: seq<seq<FaceDetail>>): (t: Trace)
    ensures |t.commands| == |frames|
    decreases |frames|
  {
    if frames == [] then Trace(state, [])
    else
      var o := Step(state, frames[0]);
      var rest := Run(o.state, frames[1..]);
      Trace(rest.state, [o.command] + rest.commands)
  }

  /** Feeding one more frame continues the session from where the shorter run left it. */
  lemma {:induction false} RunSnoc(state: int, frames: seq<seq<FaceDetail>>, faces: seq<FaceDetail>)
    ensures var t := Run(state, frames);
            var o := Step(t.state, faces);
            Run(state, frames + [faces]) == Trace(o.state, t.commands + [o.command])
    decreases |frames|
  {
    if frames == [] {
      assert [] + [faces] == [faces];
    } else {
      var next := Step(state, frames[0]).state;
      assert (frames + [faces])[1..] == frames[1..] + [faces];
      RunSnoc(next, frames[1..], faces);
    }
  }

  /** A detector result that moves a session at step 0 to step 1. */
  predicate FrontalFrame(faces: seq<FaceDetail>)
  {
    FrontalPose(Observe(faces))
  }

  /** A detector result that moves a session at step 1 to step 2. */
  predicate TurnedRightFrame(faces: seq<FaceDetail>)
  {
    TurnedRight(Observe(faces))
  }

  /** A session stays within its three steps and gains at most one step per frame. */
  lemma {:induction false} RunStaysInSteps(state: int, frames: seq<seq<FaceDetail>>)
    requires 0 <= state <= 2
    ensures 0 <= Run(state, frames).state <= 2
    ensures Run(state, frames).state <= state + |frames|
    decreases |frames|
  {
    if frames != [] {
      RunStaysInSteps(Step(state, frames[0]).state, frames[1..]);
    }
  }

  /** From step 1, finishing needs some frame turned far right. */
  lemma {:induction false} DoneFromTurnNeedsRightTurn(frames: seq<seq<FaceDetail>>)
    requires Run(1, frames).state == 2
    ensures exists j :: 0 <= j < |frames| && TurnedRightFrame(frames[j])
    decreases |frames|, 0
  {
    var next := Step(1, frames[0]).state;
    if next == 2 {
      assert TurnedRightFrame(frames[0]);
    } else if next == 1 {
      DoneFromTurnNeedsRightTurn(frames[1..]);
      var j :| 0 <= j < |frames[1..]| && TurnedRightFrame(frames[1..][j]);
      assert TurnedRightFrame(frames[j + 1]);
    } else {
      DoneNeedsFrontalThenRightTurn(frames[1..]);
      var i, j :| 0 <= i < j < |frames[1..]| && FrontalFrame(frames[1..][i]) && TurnedRightFrame(frames[1..][j]);
      assert TurnedRightFrame(frames[j + 1]);
    }
  }

  /**
   * A session that starts afresh and ends done has seen a frontal frame and,
   * later, a frame turned far right: the two-pose ritual cannot be skipped.
   */
  lemma {:induction false} DoneNeedsFrontalThenRightTurn(frames: seq<seq<FaceDetail>>)
    requires Run(0, frames).state == 2
    ensures exists i, j :: 0 <= i < j < |frames| && FrontalFrame(frames[i]) && TurnedRightFrame(frames[j])
    decreases |frames|, 1
  {
    var next := Step(0, frames[0]).state;
    if next == 1 {
      assert FrontalFrame(frames[0]);
      DoneFromTurnNeedsRightTurn(frames[1..]);
      var j :| 0 <= j < |frames[1..]| && TurnedRightFrame(frames[1..][j]);
      assert FrontalFrame(frames[0]) && TurnedRightFrame(frames[j + 1]);
    } else {
      assert next == 0;
      DoneNeedsFrontalThenRightTurn(frames[1..]);
      var i, j :| 0 <= i < j < |frames[1..]| && FrontalFrame(frames[1..][i]) && TurnedRightFrame(frames[1..][j]);
      assert FrontalFrame(frames[i + 1]) && TurnedRightFrame(frames[j + 1]);
    }
  }

  /** Once done, a session answers "Thank you" to every large-enough lone face. */
  lemma {:induction false} DoneIsKept(frames: seq<seq<FaceDetail>>)
    requires forall k :: 0 <= k < |frames| ==> LargeEnough(frames[k])
    ensures Run(2, frames).state == 2
    ensures forall k :: 0 <= k < |frames| ==> Run(2, frames).commands[k] == ThankYou
  {
    if frames != [] {
      DoneIsKept(frames[1..]);
    }
  }

  /**
   * The guided ritual: no face, then a frontal face, then a face turned far
   * right twice, whatever the session's step was before.
   */
  lemma GuidedCapture(state: int, frontal: seq<FaceDetail>, right: seq<FaceDetail>)
    requires FrontalFrame(frontal) && TurnedRightFrame(right)
    ensures Run(state, [[], frontal, right, right]) ==
            Trace(2, [LookAtCamera, TurnRight, ThankYou, ThankYou])
  {
    assert Step(2, right) == Outcome(2, ThankYou);
    assert Run(2, [right]) == Trace(2, [ThankYou]) by {
      assert [right][1..] == [];
    }
    assert Run(1, [right, right]) == Trace(2, [ThankYou, ThankYou]) by {
      assert [right, right][1..] == [right];
    }
    assert Run(0, [frontal, right, right]) == Trace(2, [TurnRight, ThankYou, ThankYou]) by {
      assert [frontal, right, right][1..] == [right, right];
    }
    assert [[], frontal, right, right][1..] == [frontal, right, right];
  }

  // ---------------------------------------------------------------------------
  // The fixtures
  // ---------------------------------------------------------------------------

  /** The instructions one pass over the four fixtures yields. */
  function FixtureCommands(): seq<string>
  {
    [LookAtCamera, MoveCloser, TurnRight, ThankYou]
  }

  /**
   * What each fixture does to a session: the first two reset it from any
   * step; the frontal one advances step 0; the far-right one advances step 1
   * but is met with "Face the camera" at step 0.
   */
  lemma FixtureSteps(state: int)
    ensures Step(state, Fixtures()[0]) == Outcome(0, LookAtCamera)
    ensures Step(state, Fixtures()[1]) == Outcome(0, MoveCloser)
    ensures Step(0, Fixtures()[2]) == Outcome(1, TurnRight)
    ensures Step(1, Fixtures()[3]) == Outcome(2, ThankYou)
    ensures Step(0, Fixtures()[3]) == Outcome(0, FaceCamera)
  {
  }

  /**
   * One pass over the fixtures, from any step, ends done and yields
   * FixtureCommands: the first fixture has no face and resets the session.
   */
  lemma FixturePass(state: int)
    ensures Run(state, Fixtures()) == Trace(2, FixtureCommands())
  {
    var fs := Fixtures();
    assert fs[1..][1..][1..][1..] == [];
  }
}

/**
 * The per-connection loop of server.go, reduced to what it does with the
 * guidance core: one fresh session per connection, and for each frame the
 * detector's result handed to AnalyzeFaces and the instruction sent back.
 */
module Server {
  import opened Face
  import opened Guidance

  /**
   * A connection whose detector answers `results`, one per frame: the
   * instructions sent back are those of a session run from step 0.
   */
  method Serve(results: seq<seq<FaceDetail>>) returns (commands: seq<string>)
    ensures commands == Run(0, results).commands
  {
    var session := new FaceState();
    commands := [];
    var i := 0;
    while i < |results|
      invariant 0 <= i <= |results|
      invariant Run(0, results[..i]) == Trace(session.state, commands)
    {
      RunSnoc(0, results[..i], results[i]);
      assert results[..i + 1] == results[..i] + [results[i]];
      var cmd := session.AnalyzeFaces(results[i]);
      commands := commands + [cmd];
      i := i + 1;
    }
    assert results[..i] == results;
  }

  /**
   * The instruction for the k-th frame of a connection that finds the
   * fixture detector at index `start`: the fixture cycle from that index,
   * except that a connection whose first frame is the far-right fixture
   * meets it with a fresh session and is told "Face the camera".
   */
  function FixtureCommandAt(start: nat, k: nat): string
    requires start < 4
  {
    if k == 0 && start == 3 then FaceCamera else FixtureCommands()[(start + k) % 4]
  }

  /**
   * A connection served for `rounds` frames by the process-wide fixture
   * detector, which earlier connections may have left at any fixture.
   */
  method ServeFixtures(detector: FaceDetector, rounds: nat) returns (commands: seq<string>)
    requires detector.Valid()
    modifies detector
    ensures detector.Valid()
    ensures detector.fakeIndex == (old(detector.fakeIndex) + rounds) % 4
    ensures |commands| == rounds
    ensures forall k :: 0 <= k < rounds ==> commands[k] == FixtureCommandAt(old(detector.fakeIndex), k)
  {
    var start := detector.fakeIndex;
    var session := new FaceState();
    commands := [];
    var i := 0;
    while i < rounds
      invariant 0 <= i <= rounds
      invariant detector.Valid() && detector.fakeIndex == (start + i) % 4
      invariant detector.fakeIndex == 2 ==> session.state == 0
      invariant detector.fakeIndex == 3 ==> session.state == (if i == 0 then 0 else 1)
      invariant |commands| == i
      invariant forall k :: 0 <= k < i ==> commands[k] == FixtureCommandAt(start, k)
    {
      var index := detector.fakeIndex;
      FixtureSteps(session.state);
      var faces := detector.DetectFaces();
      assert faces == Fixtures()[index];
      var cmd := session.AnalyzeFaces(faces);
      assert cmd == FixtureCommandAt(start, i);
      commands := commands + [cmd];
      i := i + 1;
    }
  }
}

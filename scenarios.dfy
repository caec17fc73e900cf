/** The program's worked examples, computed with the batch semantics. */
module Scenarios {
  import opened Heading
  import opened Rover
  import opened Commands

  /** Grid 5 5, rover (1, 2, N): a batch containing M is refused whole, and
      LFLFLFLFF walks a loop and one more cell north to (1, 3, N). */
  lemma LoopAndNorth()
    ensures !ValidBatch("LMLMLMLMM")
    ensures ValidBatch("LFLFLFLFF")
    ensures Run(Pose(1, 2, N, false), "LFLFLFLFF", 5, 5) == Pose(1, 3, N, false)
  {
    assert !IsCommand('M');
    // The rover goes round the square (1, 2) -> (0, 2) -> (0, 1) -> (1, 1) -> (1, 2).
    calc {
      Run(Pose(1, 2, N, false), "LFLFLFLFF", 5, 5);
      Run(Pose(1, 2, W, false), "FLFLFLFF", 5, 5);
      Run(Pose(0, 2, W, false), "LFLFLFF", 5, 5);
      Run(Pose(0, 2, S, false), "FLFLFF", 5, 5);
      Run(Pose(0, 1, S, false), "LFLFF", 5, 5);
      Run(Pose(0, 1, E, false), "FLFF", 5, 5);
      Run(Pose(1, 1, E, false), "LFF", 5, 5);
      Run(Pose(1, 1, N, false), "FF", 5, 5);
      Run(Pose(1, 2, N, false), "F", 5, 5);
      Pose(1, 3, N, false);
    }
  }

  /** Grid 5 5, rover (3, 3, E): FF reaches the east edge without loss. */
  lemma ReachEastEdge()
    ensures ValidBatch("FF")
    ensures Run(Pose(3, 3, E, false), "FF", 5, 5) == Pose(5, 3, E, false)
  {
  }

  /** Grid 5 5, rover (5, 3, E): F is lost and reported at (5, 3, E). */
  lemma LostOverEastEdge()
    ensures ValidBatch("F")
    ensures Run(Pose(5, 3, E, false), "F", 5, 5) == Pose(5, 3, E, true)
  {
  }

  /** Grid 1 1, rover (1, 1, N): the first F is already lost, and the other
      three are skipped; the rover is reported at (1, 1, N). */
  lemma LostOnFirstOfFour()
    ensures ValidBatch("FFFF")
    ensures Run(Pose(1, 1, N, false), "FFFF", 1, 1) == Pose(1, 1, N, true)
  {
  }

  /** The same batches driven through `Robot` objects by `SubmitBatch`: on a
      5 × 5 grid the M batch is refused and LFLFLFLFF ends at (1, 3, N); on a
      1 × 1 grid FFFF is lost at (1, 1, N). */
  method DriveRobots() returns (refused: bool, looped: Pose, lostAt: Pose)
    ensures refused
    ensures looped == Pose(1, 3, N, false)
    ensures lostAt == Pose(1, 1, N, true)
  {
    var r := new Robot(1, 2, N);
    var ok := SubmitBatch(r, "LMLMLMLMM", 5, 5);
    refused := !ok;
    assert r.State() == Pose(1, 2, N, false);
    LoopAndNorth();
    ok := SubmitBatch(r, "LFLFLFLFF", 5, 5);
    looped := r.State();

    var lone := new Robot(1, 1, N);
    LostOnFirstOfFour();
    ok := SubmitBatch(lone, "FFFF", 1, 1);
    lostAt := lone.State();
  }
}

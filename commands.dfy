/** Command batches: the check that a batch holds only L, R and F, the
    application of a batch to a rover in order until it is lost, and the
    properties that make a lost rover frozen for the rest of the batch. */
module Commands {
  import opened Heading
  import opened Rover

  /** One of the three command letters L, R, F. */
  predicate IsCommand(c: char)
  {
    c == 'L' || c == 'R' || c == 'F'
  }

  /** The batch check applied to the upper-cased input line, letter by letter.
      The empty batch passes. */
  function ValidBatch(s: string): (b: bool)
    ensures b <==> forall i :: 0 <= i < |s| ==> IsCommand(s[i])
  {
    if s == [] then true
    else IsCommand(s[0]) && ValidBatch(s[1..])
  }

  /** One command: L and R turn, F moves forward on the grid. */
  function Apply(p: Pose, c: char, maxX: int, maxY: int): (r: Pose)
    requires IsCommand(c)
    ensures c != 'F' ==> r.x == p.x && r.y == p.y && r.lost == p.lost
    ensures c == 'L' ==> r.dir == Left(p.dir)
    ensures c == 'R' ==> r.dir == Right(p.dir)
    ensures c == 'F' ==> r == Forward(p, maxX, maxY)
    ensures p.lost ==> r.lost
    ensures InGrid(p.x, p.y, maxX, maxY) ==> InGrid(r.x, r.y, maxX, maxY)
  {
    match c
    case 'L' => p.(dir := Left(p.dir))
    case 'R' => p.(dir := Right(p.dir))
    case 'F' => Forward(p, maxX, maxY)
  }

  /** A validated batch applied in order, with the lost flag looked at before
      each command: once the rover is lost the rest of the batch is skipped.
      A lost rover is left exactly as it is, and a rover that starts on the
      grid ends on it. */
  function Run(p: Pose, cmds: string, maxX: int, maxY: int): (r: Pose)
    requires ValidBatch(cmds)
    ensures p.lost ==> r == p
    ensures InGrid(p.x, p.y, maxX, maxY) ==> InGrid(r.x, r.y, maxX, maxY)
    decreases |cmds|
  {
    if cmds == [] || p.lost then p
    else Run(Apply(p, cmds[0], maxX, maxY), cmds[1..], maxX, maxY)
  }

  /** A batch run after another is the same as running the two joined. */
  lemma {:induction false} RunAppend(p: Pose, a: string, b: string, maxX: int, maxY: int)
    requires ValidBatch(a) && ValidBatch(b)
    ensures ValidBatch(a + b)
    ensures Run(p, a + b, maxX, maxY) == Run(Run(p, a, maxX, maxY), b, maxX, maxY)
    decreases |a|
  {
    if a == [] {
      assert a + b == b;
    } else if !p.lost {
      assert (a + b)[0] == a[0];
      assert (a + b)[1..] == a[1..] + b;
      RunAppend(Apply(p, a[0], maxX, maxY), a[1..], b, maxX, maxY);
    }
  }

  /** Once the rover is lost after some prefix of a batch, no later command
      changes anything: every longer prefix, and the whole batch, leaves it
      where it was lost, still lost. */
  lemma LostFreezesRest(p: Pose, cmds: string, i: nat, j: nat, maxX: int, maxY: int)
    requires ValidBatch(cmds)
    requires i <= j <= |cmds|
    requires ValidBatch(cmds[..i]) && Run(p, cmds[..i], maxX, maxY).lost
    ensures ValidBatch(cmds[..j])
    ensures Run(p, cmds[..j], maxX, maxY) == Run(p, cmds[..i], maxX, maxY)
  {
    assert cmds[..j] == cmds[..i] + cmds[i..j];
    assert ValidBatch(cmds[i..j]);
    RunAppend(p, cmds[..i], cmds[i..j], maxX, maxY);
  }

  /** The lost flag is never reset: if some prefix of a batch leaves the
      rover lost, so does the whole batch. */
  lemma LostIsMonotone(p: Pose, cmds: string, i: nat, maxX: int, maxY: int)
    requires ValidBatch(cmds)
    requires i <= |cmds|
    requires ValidBatch(cmds[..i]) && Run(p, cmds[..i], maxX, maxY).lost
    ensures Run(p, cmds, maxX, maxY).lost
  {
    LostFreezesRest(p, cmds, i, |cmds|, maxX, maxY);
    assert cmds[..|cmds|] == cmds;
  }

  /** Moving forward, facing about and moving forward again returns the rover
      to its start cell, not lost, whichever way it turns about. */
  lemma AboutTurnReturns(p: Pose, maxX: int, maxY: int)
    requires InGrid(p.x, p.y, maxX, maxY) && !p.lost
    requires !Forward(p, maxX, maxY).lost
    ensures ValidBatch("FLLF") && ValidBatch("FRRF")
    ensures Run(p, "FLLF", maxX, maxY) == p.(dir := Left(Left(p.dir)))
    ensures Run(p, "FRRF", maxX, maxY) == p.(dir := Right(Right(p.dir)))
  {
    var q := Forward(p, maxX, maxY);
    var ql := q.(dir := Left(Left(p.dir)));
    var qr := q.(dir := Right(Right(p.dir)));
    AboutTurnEitherWay(p.dir);
    assert StepX(ql.dir) == -StepX(p.dir) && StepY(ql.dir) == -StepY(p.dir);
    assert Run(p, "FLLF", maxX, maxY) == Forward(ql, maxX, maxY) by {
      assert "FLLF"[1..] == "LLF" && "LLF"[1..] == "LF" && "LF"[1..] == "F";
      assert Run(ql, "F", maxX, maxY) == Run(Forward(ql, maxX, maxY), "", maxX, maxY);
    }
    assert Run(p, "FRRF", maxX, maxY) == Forward(qr, maxX, maxY) by {
      assert "FRRF"[1..] == "RRF" && "RRF"[1..] == "RF" && "RF"[1..] == "F";
      assert Run(qr, "F", maxX, maxY) == Run(Forward(qr, maxX, maxY), "", maxX, maxY);
    }
  }

  /** The batch step of the command loop: a batch with any letter other than
      L, R or F is refused before any of it runs and the rover is left as it
      was; an accepted batch drives the rover's own turn and move operations
      in order, stopping as soon as the rover is lost. */
  method SubmitBatch(robot: Robot, cmds: string, maxX: int, maxY: int) returns (accepted: bool)
    modifies robot
    ensures accepted == ValidBatch(cmds)
    ensures accepted ==> robot.State() == Run(old(robot.State()), cmds, maxX, maxY)
    ensures !accepted ==> robot.State() == old(robot.State())
  {
    accepted := ValidBatch(cmds);
    if !accepted {
      return;
    }
    for i := 0 to |cmds|
      invariant ValidBatch(cmds[i..])
      invariant Run(old(robot.State()), cmds, maxX, maxY) == Run(robot.State(), cmds[i..], maxX, maxY)
    {
      if robot.lost {
        break;
      }
      assert cmds[i..][1..] == cmds[i + 1..];
      match cmds[i]
      case 'L' => robot.RotateLeft();
      case 'R' => robot.RotateRight();
      case 'F' => robot.MoveForward(maxX, maxY);
    }
  }
}

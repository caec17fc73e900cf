/** The rover on a grid from (0, 0) to (maxX, maxY) inclusive: its pose as a
    value, the forward move with loss as a function on poses, and the `Robot`
    object whose fields the turn and move operations update in place.
    Coordinates and grid maxima are unbounded integers; a grid is just the
    pair (maxX, maxY) passed to each move, and may be negative. */
module Rover {
  import opened Heading

  /** Everything the program reports about a rover: position, heading, lost flag. */
  datatype Pose = Pose(x: int, y: int, dir: Direction, lost: bool)

  /** The cell (x, y) lies on the grid. */
  predicate InGrid(x: int, y: int, maxX: int, maxY: int)
  {
    0 <= x <= maxX && 0 <= y <= maxY
  }

  /** East-west component of one step in heading d (North increases y). */
  function StepX(d: Direction): int
  {
    match d
    case E => 1
    case W => -1
    case _ => 0
  }

  /** North-south component of one step in heading d. */
  function StepY(d: Direction): int
  {
    match d
    case N => 1
    case S => -1
    case _ => 0
  }

  /** The pose r is at the same cell as p. */
  predicate Stayed(p: Pose, r: Pose)
  {
    r.x == p.x && r.y == p.y
  }

  /** `move_forward`: step one cell in the heading, or, when the step crosses
      the edge the rover is heading towards, stay put and become lost. A pose
      that is already lost is not frozen here: it moves like any other. */
  function Forward(p: Pose, maxX: int, maxY: int): (r: Pose)
    ensures r.dir == p.dir
    ensures Stayed(p, r) || (r.x == p.x + StepX(p.dir) && r.y == p.y + StepY(p.dir))
    ensures r.lost <==> p.lost || Stayed(p, r)
    ensures InGrid(p.x + StepX(p.dir), p.y + StepY(p.dir), maxX, maxY) ==> !Stayed(p, r)
    ensures InGrid(p.x, p.y, maxX, maxY) ==>
              (Stayed(p, r) <==> !InGrid(p.x + StepX(p.dir), p.y + StepY(p.dir), maxX, maxY))
  {
    match p.dir
    case N => if p.y + 1 > maxY then p.(lost := true) else p.(y := p.y + 1)
    case E => if p.x + 1 > maxX then p.(lost := true) else p.(x := p.x + 1)
    case S => if p.y - 1 < 0 then p.(lost := true) else p.(y := p.y - 1)
    case W => if p.x - 1 < 0 then p.(lost := true) else p.(x := p.x - 1)
  }

  /** Each heading is checked against one edge only: a move north depends on
      maxY alone, east on maxX alone, and south or west on neither maximum
      (only on the zero edge). */
  lemma ForwardChecksOneEdge(p: Pose, maxX: int, maxY: int, otherX: int, otherY: int)
    ensures p.dir == N ==> Forward(p, maxX, maxY) == Forward(p, otherX, maxY)
    ensures p.dir == E ==> Forward(p, maxX, maxY) == Forward(p, maxX, otherY)
    ensures p.dir == S || p.dir == W ==> Forward(p, maxX, maxY) == Forward(p, otherX, otherY)
  {
  }

  /** Bounds invariant of one move: from a cell on the grid the rover stays
      on the grid, whether the move succeeds or the rover is lost. */
  lemma ForwardKeepsInGrid(p: Pose, maxX: int, maxY: int)
    requires InGrid(p.x, p.y, maxX, maxY)
    ensures InGrid(Forward(p, maxX, maxY).x, Forward(p, maxX, maxY).y, maxX, maxY)
  {
  }

  /** For every pose, on or off the grid: the move is refused (and the rover
      marked lost) exactly when the target crosses the edge the heading points
      at, max_x going east, max_y going north, zero going south or west. */
  lemma ForwardRefusedExactly(p: Pose, maxX: int, maxY: int)
    ensures Stayed(p, Forward(p, maxX, maxY)) <==>
              (StepX(p.dir) == 1 && p.x + 1 > maxX) || (StepY(p.dir) == 1 && p.y + 1 > maxY) ||
              (StepX(p.dir) == -1 && p.x - 1 < 0) || (StepY(p.dir) == -1 && p.y - 1 < 0)
  {
  }

  /** A rover launched more than one cell below a grid, heading north, is not
      caught by the one-sided check: it moves one cell north, still off the
      grid, and is not lost. */
  lemma OffGridLaunchIsNotLost(p: Pose, maxX: int, maxY: int)
    requires p.dir == N && p.y < -1 && 0 <= maxY
    ensures Forward(p, maxX, maxY) == p.(y := p.y + 1)
    ensures !InGrid(p.x, p.y + 1, maxX, maxY)
  {
  }

  /** The `Robot` of src/main.rs; its four fields are updated in place. */
  class Robot {
    var x: int
    var y: int
    var direction: Direction
    var lost: bool

    /** The rover's reportable state. */
    function State(): Pose
      reads this
    {
      Pose(x, y, direction, lost)
    }

    /** `Robot::new`: any start cell is accepted; a new rover is never lost. */
    constructor (x0: int, y0: int, d: Direction)
      ensures State() == Pose(x0, y0, d, false)
    {
      x, y, direction, lost := x0, y0, d, false;
    }

    /** `rotate_left`: one step counter-clockwise; nothing else changes. */
    method RotateLeft()
      modifies this
      ensures direction == Left(old(direction))
      ensures x == old(x) && y == old(y) && lost == old(lost)
    {
      direction := Left(direction);
    }

    /** `rotate_right`: one step clockwise; nothing else changes. */
    method RotateRight()
      modifies this
      ensures direction == Right(old(direction))
      ensures x == old(x) && y == old(y) && lost == old(lost)
    {
      direction := Right(direction);
    }

    /** `move_forward` on the grid (0, 0)..(maxX, maxY). */
    method MoveForward(maxX: int, maxY: int)
      modifies this
      ensures State() == Forward(old(State()), maxX, maxY)
    {
      match direction
      case N =>
        if y + 1 > maxY { lost := true; } else { y := y + 1; }
      case E =>
        if x + 1 > maxX { lost := true; } else { x := x + 1; }
      case S =>
        if y - 1 < 0 { lost := true; } else { y := y - 1; }
      case W =>
        if x - 1 < 0 { lost := true; } else { x := x - 1; }
    }
  }
}

# Mars rover state machine

A model of the rover core of the Mars Rover Command Center console. A rover sits on
a rectangular grid from (0, 0) to (max_x, max_y) inclusive. It has a position, a
heading (N, E, S or W) and a lost flag. It takes batches of the commands L (turn
left), R (turn right) and F (move forward). Each heading checks one bound only:
max_y going north, max_x going east, and zero going south or west. A forward
move whose target passes that bound is refused and marks the rover lost. Its
position stays at the last cell it reached. Once it is lost, the rest of the
batch is skipped.

- `heading.dfy` (module `Heading`): the `Direction` enumeration and the two rotation
  tables. Each table is checked against the clockwise cycle N → E → S → W. The
  module also holds the heading letter of the launch line and of the reports.
- `rover.dfy` (module `Rover`): the reportable state `Pose`, and the forward move as
  the function `Forward` on poses. The `Robot` class has the four fields of the
  source's struct. Its `RotateLeft`, `RotateRight` and `MoveForward` methods update
  those fields in place, and their contracts tie the new state to the functions.
- `commands.dfy` (module `Commands`): the batch check `ValidBatch`, and `Run`, the
  fold that applies a batch and stops once the rover is lost. `SubmitBatch` is the
  loop that drives a `Robot` through a batch, and it is proved equal to `Run`.
  Lemmas cover how batches compose and how loss freezes the rover.
- `scenarios.dfy` (module `Scenarios`): the program's worked examples.

Coordinates and grid maxima are unbounded integers. A grid is the pair
`(maxX, maxY)` passed to each move. It may be negative, and a launch cell off the
grid is accepted, as in the source. For that reason every bounds property starts
from a rover on the grid.

`Forward` keeps one behaviour of `move_forward` on purpose: it moves a rover that is
already lost. The freezing comes from the batch loop, which looks at the lost flag
before each command, and so it is stated about `Run` and `SubmitBatch`. Starting
from (1, 1, N) on a 1 × 1 grid, the code loses the rover on the first F
(1 + 1 > 1), so it never moves at all. The model follows the code.

## Model

| member | source | states |
|---|---|---|
| `Heading.Left` | src/main.rs:32-39 | the left table moves a heading one place counter-clockwise in the cycle N, E, S, W |
| `Heading.Right` | src/main.rs:41-48 | the right table moves a heading one place clockwise in the cycle N, E, S, W |
| `Heading.RightUndoesLeft` | src/main.rs:32-48 | a right turn after a left turn restores the heading |
| `Heading.LeftUndoesRight` | src/main.rs:32-48 | a left turn after a right turn restores the heading |
| `Heading.LeftFourCycle` | src/main.rs:32-39 | four left turns restore the heading, and one, two or three do not |
| `Heading.RightFourCycle` | src/main.rs:41-48 | four right turns restore the heading, and one, two or three do not |
| `Heading.AboutTurnEitherWay` | src/main.rs:32-48 | two left turns and two right turns give the same heading |
| `Heading.ParseHeading` | src/main.rs:166-175 | a token is accepted exactly when it is the letter of some heading, and then it yields that heading |
| `Heading.Letter` | src/main.rs:4-10 | the one-letter debug form in which a heading is reported (lines 217 and 221); each form is one character |
| `Heading.LetterInjective` | src/main.rs:4-10 | distinct headings are reported with distinct letters |
| `Heading.ParseLetterRoundTrip` | src/main.rs:166-175 | the letter a heading is reported with parses back to that heading |
| `Rover.Forward` | src/main.rs:50-81 | heading unchanged; either the position is unchanged or it has moved by exactly the heading's unit step; the rover is lost afterwards iff it was lost before or it did not move; a target cell on the grid is always reached; from a cell on the grid the move is refused iff the target is off the grid |
| `Rover.ForwardChecksOneEdge` | src/main.rs:50-81 | a move north depends only on max_y, east only on max_x, and south or west on neither maximum |
| `Rover.ForwardKeepsInGrid` | src/main.rs:50-81 | from a cell on the grid the rover is still on the grid after a move, lost or not |
| `Rover.ForwardRefusedExactly` | src/main.rs:50-81 | for every pose, on the grid or off it, the move is refused exactly when the target passes the heading's one checked bound (max_x east, max_y north, zero south or west); with `Forward`'s contract this fixes the result |
| `Rover.OffGridLaunchIsNotLost` | src/main.rs:51-58 | a rover more than one cell below a grid (max_y at least 0), heading north, moves one cell north, is still off the grid, and is not lost |
| `Rover.Robot.constructor` | src/main.rs:23-30 | a new rover has the given position and heading and is not lost |
| `Rover.Robot.RotateLeft` | src/main.rs:32-39 | the heading becomes its left turn; x, y and lost are unchanged |
| `Rover.Robot.RotateRight` | src/main.rs:41-48 | the heading becomes its right turn; x, y and lost are unchanged |
| `Rover.Robot.MoveForward` | src/main.rs:50-81 | the in-place move leaves the rover in the state `Forward` gives for its old state |
| `Commands.ValidBatch` | src/main.rs:196 | a batch passes iff every one of its letters is L, R or F (so the empty batch passes) |
| `Commands.Apply` | src/main.rs:208-213 | L and R change only the heading, to its `Left` or `Right` turn, leaving position and lost flag alone; F is `Forward`; no command resets the lost flag, and from a cell on the grid every command ends on the grid |
| `Commands.Run` | src/main.rs:204-214 | a rover that is lost is left exactly as it is; a rover on the grid ends the batch on the grid |
| `Commands.RunAppend` | src/main.rs:204-214 | running two batches one after the other equals running them joined |
| `Commands.LostFreezesRest` | src/main.rs:204-207 | once a prefix of a batch has left the rover lost, every longer prefix leaves it in that same state |
| `Commands.LostIsMonotone` | src/main.rs:204-214 | if a prefix of a batch leaves the rover lost, the whole batch does |
| `Commands.AboutTurnReturns` | src/main.rs:50-81 | after a successful move from a cell on the grid, FLLF and FRRF bring the rover back to its start cell, not lost, facing the other way |
| `Commands.SubmitBatch` | src/main.rs:196-214 | a batch is accepted iff it passes the check; an accepted batch leaves the robot in the state `Run` gives; a refused one leaves it unchanged |
| `Scenarios.LoopAndNorth` | src/main.rs:196-214 | on a 5 × 5 grid, LMLMLMLMM is refused, and LFLFLFLFF takes (1, 2, N) to (1, 3, N), not lost |
| `Scenarios.ReachEastEdge` | src/main.rs:204-214 | on a 5 × 5 grid, FF takes (3, 3, E) to (5, 3, E), not lost |
| `Scenarios.LostOverEastEdge` | src/main.rs:204-214 | on a 5 × 5 grid, F from (5, 3, E) is lost at (5, 3, E) |
| `Scenarios.LostOnFirstOfFour` | src/main.rs:204-214 | on a 1 × 1 grid, FFFF from (1, 1, N) is lost at (1, 1, N) |
| `Scenarios.DriveRobots` | src/main.rs:177-214 | the same batches driven on `Robot` objects through `SubmitBatch`: the M batch is refused, LFLFLFLFF ends at (1, 3, N) not lost, and FFFF on a 1 × 1 grid is lost at (1, 1, N) |

## Left out

- Console I/O is not modelled: the banner, the instructions text, prompts, reading lines from standard input, and process exit (src/main.rs:86-103, 144, 192, 233-245).
- The session loop is not modelled: the I, NEW and EXIT keywords, the re-prompts, and launching a new rover after a loss (src/main.rs:98-135, 184-193, 216-227). It is session driving, not rover state.
- Line parsing relies on library calls (splitting on whitespace, i32 parsing, trimming brackets, trimming surrounding whitespace, Unicode upper-casing; src/main.rs:112-164, 185). It is not modelled. `ParseHeading` takes a token that is already upper-cased, and `SubmitBatch` takes the command line already trimmed and upper-cased.
- Rover.Forward: coordinates are unbounded integers, so the i32 overflow of `y + 1`, `x + 1` and `- 1` at the i32 extremes (src/main.rs:53, 60, 67, 74) is not modelled.
- The final report (src/main.rs:216-223) is not modelled beyond `Heading.Letter`, the heading's one-letter debug form.

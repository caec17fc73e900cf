/** The rover's heading: the four compass directions, the two fixed rotation
    tables, and the one-letter form in which a heading is typed in and reported. */
module Heading {

  datatype Option<T> = None | Some(value: T)

  /** The four headings of src/main.rs, a closed set. */
  datatype Direction = N | E | S | W

  /** Position of a heading in the clockwise cycle N -> E -> S -> W -> N.
      This is the reference the rotation tables are checked against. */
  function Index(d: Direction): (i: nat)
    ensures i < 4
  {
    match d
    case N => 0
    case E => 1
    case S => 2
    case W => 3
  }

  /** The counter-clockwise table used by `rotate_left`. */
  function Left(d: Direction): (r: Direction)
    ensures Index(r) == (Index(d) + 3) % 4
  {
    match d
    case N => W
    case W => S
    case S => E
    case E => N
  }

  /** The clockwise table used by `rotate_right`. */
  function Right(d: Direction): (r: Direction)
    ensures Index(r) == (Index(d) + 1) % 4
  {
    match d
    case N => E
    case E => S
    case S => W
    case W => N
  }

  /** Two headings at the same place of the cycle are the same heading. */
  lemma IndexInjective(a: Direction, b: Direction)
    requires Index(a) == Index(b)
    ensures a == b
  {
  }

  lemma RightUndoesLeft(d: Direction)
    ensures Right(Left(d)) == d
  {
    IndexInjective(Right(Left(d)), d);
  }

  lemma LeftUndoesRight(d: Direction)
    ensures Left(Right(d)) == d
  {
    IndexInjective(Left(Right(d)), d);
  }

  /** Four left turns bring the rover back to its heading. */
  lemma LeftFourCycle(d: Direction)
    ensures Left(Left(Left(Left(d)))) == d
    ensures Left(d) != d && Left(Left(d)) != d && Left(Left(Left(d))) != d
  {
    IndexInjective(Left(Left(Left(Left(d)))), d);
  }

  /** Four right turns bring the rover back to its heading. */
  lemma RightFourCycle(d: Direction)
    ensures Right(Right(Right(Right(d)))) == d
    ensures Right(d) != d && Right(Right(d)) != d && Right(Right(Right(d))) != d
  {
    IndexInjective(Right(Right(Right(Right(d)))), d);
  }

  /** Two left turns and two right turns both face the rover about. */
  lemma AboutTurnEitherWay(d: Direction)
    ensures Left(Left(d)) == Right(Right(d))
  {
    IndexInjective(Left(Left(d)), Right(Right(d)));
  }

  /** The letter a heading is reported with (the derived debug form). */
  function Letter(d: Direction): (r: string)
    ensures |r| == 1
  {
    match d
    case N => "N"
    case E => "E"
    case S => "S"
    case W => "W"
  }

  /** The heading named by an (already upper-cased) token of the launch line;
      any other token is refused. */
  function ParseHeading(token: string): (r: Option<Direction>)
    ensures r.Some? ==> Letter(r.value) == token
    ensures r.None? ==> forall d: Direction :: Letter(d) != token
  {
    if token == "N" then Some(N)
    else if token == "E" then Some(E)
    else if token == "S" then Some(S)
    else if token == "W" then Some(W)
    else None
  }

  /** Distinct headings are reported with distinct letters. */
  lemma LetterInjective(a: Direction, b: Direction)
    requires Letter(a) == Letter(b)
    ensures a == b
  {
  }

  /** A reported heading reads back as the same heading. */
  lemma ParseLetterRoundTrip(d: Direction)
    ensures ParseHeading(Letter(d)) == Some(d)
  {
  }
}

/**
 * The two enumerations of helper.py: the robot's status codes reported to the
 * client and the heading codes stored in the robot's location.
 */
module Helper {
  import opened Wrappers

  /** `RobotStatus`: a plain enumeration with codes 1..6. */
  datatype RobotStatus = Ready | Navigating | DetectingImage | Unresponsive | CalculatingPath | Finish

  function StatusCode(s: RobotStatus): (c: int)
    ensures 1 <= c <= 6
    ensures StatusOfCode(c) == Some(s)
  {
    match s
    case Ready => 1
    case Navigating => 2
    case DetectingImage => 3
    case Unresponsive => 4
    case CalculatingPath => 5
    case Finish => 6
  }

  /** `RobotStatus(c)`: lookup by value, None where Python raises `ValueError`. */
  function StatusOfCode(c: int): (r: Option<RobotStatus>)
    ensures r.Some? <==> 1 <= c <= 6
  {
    if c == 1 then Some(Ready)
    else if c == 2 then Some(Navigating)
    else if c == 3 then Some(DetectingImage)
    else if c == 4 then Some(Unresponsive)
    else if c == 5 then Some(CalculatingPath)
    else if c == 6 then Some(Finish)
    else None
  }

  /** Six statuses, six pairwise distinct codes; FINISH is the last one. */
  lemma StatusCodesDistinct(a: RobotStatus, b: RobotStatus)
    ensures StatusCode(a) == StatusCode(b) <==> a == b
    ensures StatusCode(Finish) == 6
  {
  }

  /** `Direction`: an int-valued enumeration; SKIP is a planning-only sentinel. */
  datatype Direction = North | East | South | West | Skip

  /** `int(d)`, that is `d.value`. */
  function DirectionCode(d: Direction): (c: int)
    ensures 0 <= c <= 8 && c % 2 == 0
    ensures DirectionOfCode(c) == Some(d)
  {
    match d
    case North => 0
    case East => 2
    case South => 4
    case West => 6
    case Skip => 8
  }

  /** `Direction(c)`: lookup by value. */
  function DirectionOfCode(c: int): (r: Option<Direction>)
    ensures r.Some? <==> c in {0, 2, 4, 6, 8}
  {
    if c == 0 then Some(North)
    else if c == 2 then Some(East)
    else if c == 4 then Some(South)
    else if c == 6 then Some(West)
    else if c == 8 then Some(Skip)
    else None
  }

  /** The four headings a location can hold. */
  predicate IsCardinal(code: int)
  {
    code == DirectionCode(North) || code == DirectionCode(East)
    || code == DirectionCode(South) || code == DirectionCode(West)
  }

  /** SKIP's code is none of the cardinal codes, so no heading-keyed table entry applies to it. */
  lemma SkipIsNotCardinal()
    ensures !IsCardinal(DirectionCode(Skip))
    ensures IsCardinal(0) && IsCardinal(2) && IsCardinal(4) && IsCardinal(6)
  {
  }
}

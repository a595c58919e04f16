/**
 * Dead reckoning: how the controller predicts the robot's location from a
 * motion command, by a fixed table keyed on the command's two-letter prefix
 * and the current heading code.
 */
module DeadReckoning {
  import opened Wrappers
  import opened PyStr
  import opened Helper

  /** The robot's location: grid coordinates and a heading code. */
  datatype Loc = Loc(x: int, y: int, d: int)

  /** The motion a command prefix denotes. */
  datatype Move = Forward | Backward | BackRight | BackLeft | ForwardLeft | ForwardRight

  predicate IsTurn(m: Move)
  {
    m != Forward && m != Backward
  }

  /** The prefix tests, in the order the source tries them. */
  function MoveOf(command: string): (r: Option<Move>)
    ensures r == Some(Forward) <==> StartsWith(command, "FW") || StartsWith(command, "FS")
  {
    if StartsWith(command, "FW") || StartsWith(command, "FS") then Some(Forward)
    else if StartsWith(command, "BW") || StartsWith(command, "BS") then Some(Backward)
    else if StartsWith(command, "BR") then Some(BackRight)
    else if StartsWith(command, "BL") then Some(BackLeft)
    else if StartsWith(command, "FL") then Some(ForwardLeft)
    else if StartsWith(command, "FR") then Some(ForwardRight)
    else None
  }

  /** `k` grid steps along the heading: North is +y, East +x, South -y, West -x. */
  function Advance(loc: Loc, k: int): Loc
  {
    if loc.d == DirectionCode(North) then loc.(y := loc.y + k)
    else if loc.d == DirectionCode(East) then loc.(x := loc.x + k)
    else if loc.d == DirectionCode(South) then loc.(y := loc.y - k)
    else if loc.d == DirectionCode(West) then loc.(x := loc.x - k)
    else loc
  }

  /** The turn table: (dx, dy, new heading) for a turn at a cardinal heading. */
  function TurnEntry(m: Move, d: int): (int, int, int)
    requires IsTurn(m) && IsCardinal(d)
  {
    var N, E, S, W := DirectionCode(North), DirectionCode(East), DirectionCode(South), DirectionCode(West);
    match m
    case BackRight =>
      if d == N then (1, -3, W) else if d == E then (-3, -1, N) else if d == S then (-1, 3, E) else (3, 1, S)
    case BackLeft =>
      if d == N then (-1, -3, E) else if d == E then (-3, 1, S) else if d == S then (1, 3, W) else (3, -1, N)
    case ForwardLeft =>
      if d == N then (-1, 3, W) else if d == E then (-3, -1, S) else if d == S then (1, -3, E) else (-3, -1, S)
    case ForwardRight =>
      if d == N then (1, 3, E) else if d == E then (-3, 1, N) else if d == S then (-1, -3, W) else (-3, 1, N)
  }

  /**
   * `translate_robot`: the location after `command`. Commands shorter than
   * four characters, unknown prefixes and non-cardinal headings leave the
   * location as it is. None is the `ValueError` of `int(command[2:])`, which
   * is evaluated only for a straight move at a cardinal heading.
   */
  function Translate(loc: Loc, command: string): Option<Loc>
  {
    if |command| < 4 then Some(loc)
    else
      match MoveOf(command)
      case None => Some(loc)
      case Some(m) =>
        if !IsCardinal(loc.d) then Some(loc)
        else if m == Forward || m == Backward then
          match ParseInt(command[2..])
          case None => None
          case Some(n) => Some(Advance(loc, if m == Forward then n / 10 else -(n / 10)))
        else
          var (dx, dy, nd) := TurnEntry(m, loc.d);
          Some(Loc(loc.x + dx, loc.y + dy, nd))
  }

  /** The three cases in which the location is left exactly as it was. */
  lemma TranslateUnchanged(loc: Loc, command: string)
    requires |command| < 4 || MoveOf(command).None? || !IsCardinal(loc.d)
    ensures Translate(loc, command) == Some(loc)
  {
  }

  /**
   * A straight move `FWn`/`FSn` goes n div 10 steps along the heading's axis,
   * `BWn`/`BSn` as many steps back; neither changes the heading. It fails
   * exactly when the numeric part is not an integer.
   */
  lemma TranslateStraight(loc: Loc, command: string)
    requires |command| >= 4 && IsCardinal(loc.d)
    requires MoveOf(command) == Some(Forward) || MoveOf(command) == Some(Backward)
    ensures Translate(loc, command).None? <==> ParseInt(command[2..]).None?
    ensures ParseInt(command[2..]).Some? ==>
      var k := if MoveOf(command) == Some(Forward) then ParseInt(command[2..]).value / 10
               else -(ParseInt(command[2..]).value / 10);
      var r := Translate(loc, command).value;
      && r.d == loc.d
      && (loc.d == 0 ==> r.x == loc.x && r.y == loc.y + k)
      && (loc.d == 2 ==> r.x == loc.x + k && r.y == loc.y)
      && (loc.d == 4 ==> r.x == loc.x && r.y == loc.y - k)
      && (loc.d == 6 ==> r.x == loc.x - k && r.y == loc.y)
  {
  }

  lemma PrefixedSuffix(p: string, s: string)
    requires |p| == 2
    ensures StartsWith(p + s, p) && (p + s)[2..] == s
  {
    assert (p + s)[..|p|] == p;
  }

  /**
   * A backward move undoes the forward move with the same numeric part at the
   * same heading: `FWn` (or `FSn`) then `BWn` (or `BSn`) restores the location.
   */
  lemma ForwardThenBackward(loc: Loc, fwd: string, bwd: string, s: string)
    requires fwd in {"FW", "FS"} && bwd in {"BW", "BS"}
    requires |s| >= 2 && ParseInt(s).Some?
    ensures Translate(loc, fwd + s).Some?
    ensures Translate(Translate(loc, fwd + s).value, bwd + s) == Some(loc)
  {
    PrefixedSuffix(fwd, s);
    PrefixedSuffix(bwd, s);
    assert MoveOf(fwd + s) == Some(Forward);
    assert MoveOf(bwd + s) == Some(Backward);
  }

  /**
   * Every turn at a cardinal heading succeeds, moves three cells along one
   * axis and one along the other, and ends at a cardinal heading.
   */
  lemma TurnShape(loc: Loc, command: string)
    requires |command| >= 4 && IsCardinal(loc.d)
    requires MoveOf(command).Some? && IsTurn(MoveOf(command).value)
    ensures Translate(loc, command).Some?
    ensures var r := Translate(loc, command).value;
      && IsCardinal(r.d)
      && ((r.x - loc.x in {3, -3} && r.y - loc.y in {1, -1}) || (r.x - loc.x in {1, -1} && r.y - loc.y in {3, -3}))
  {
  }

  /** Three table entries: `FR` at North, and `FL` at East and at West. */
  lemma TurnExamples(x: int, y: int)
    ensures Translate(Loc(x, y, 0), "FR00") == Some(Loc(x + 1, y + 3, 2))
    ensures Translate(Loc(x, y, 2), "FL00") == Some(Loc(x - 3, y - 1, 4))
    ensures Translate(Loc(x, y, 6), "FL00") == Some(Loc(x - 3, y - 1, 4))
  {
    assert "FR00"[..2] == "FR";
    assert "FL00"[..2] == "FL";
  }

  /** Commands whose translation cannot raise, whatever the heading. */
  predicate Translatable(command: string)
  {
    |command| < 4 || MoveOf(command).None? || IsTurn(MoveOf(command).value) || ParseInt(command[2..]).Some?
  }

  lemma TranslatableSucceeds(loc: Loc, command: string)
    requires Translatable(command)
    ensures Translate(loc, command).Some?
  {
  }

  // ----- The turn table at East -----

  /** The heading a quarter turn clockwise: North, East, South, West, North. */
  function Clockwise(d: int): int
  {
    (d + 2) % 8
  }

  /** A turn's entry seen with the grid turned a quarter clockwise: +y becomes +x and +x becomes -y. */
  function RotateEntry(e: (int, int, int)): (int, int, int)
  {
    (e.1, -e.0, Clockwise(e.2))
  }

  /**
   * As written, the East entries of FL and FR repeat the West entries: a
   * robot facing East that turns forward-left is predicted to face South,
   * though turning the North entry a quarter round gives North.
   */
  lemma EastTurnsCopyWest(x: int, y: int)
    ensures TurnEntry(ForwardLeft, 2) == TurnEntry(ForwardLeft, 6)
    ensures TurnEntry(ForwardRight, 2) == TurnEntry(ForwardRight, 6)
    ensures TurnEntry(ForwardLeft, 2) != RotateEntry(TurnEntry(ForwardLeft, 0))
    ensures TurnEntry(ForwardRight, 2) != RotateEntry(TurnEntry(ForwardRight, 0))
    ensures Translate(Loc(x, y, 2), "FL00") == Some(Loc(x - 3, y - 1, 4))
    ensures Translate(Loc(x, y, 2), "FR00") == Some(Loc(x - 3, y + 1, 0))
  {
    assert "FL00"[..2] == "FL";
    assert "FR00"[..2] == "FR";
  }

  /** The turn table with the East entries of FL and FR taken from the other three headings. */
  function TurnEntryIntended(m: Move, d: int): (int, int, int)
    requires IsTurn(m) && IsCardinal(d)
  {
    if m == ForwardLeft && d == DirectionCode(East) then (3, 1, DirectionCode(North))
    else if m == ForwardRight && d == DirectionCode(East) then (3, -1, DirectionCode(South))
    else TurnEntry(m, d)
  }

  /**
   * Corrected, every turn is the same manoeuvre whatever the heading: the
   * entry at the next heading clockwise is this entry turned a quarter
   * round. Forward-right and back-left turn the heading clockwise, the
   * other two counter-clockwise. Only the two East entries change.
   */
  lemma TurnTableRotates(m: Move, d: int)
    requires IsTurn(m) && IsCardinal(d)
    ensures IsCardinal(Clockwise(d))
    ensures TurnEntryIntended(m, Clockwise(d)) == RotateEntry(TurnEntryIntended(m, d))
    ensures TurnEntryIntended(m, d).2
         == if m == ForwardRight || m == BackLeft then Clockwise(d) else Clockwise(Clockwise(Clockwise(d)))
    ensures (d != DirectionCode(East) || m == BackRight || m == BackLeft) ==> TurnEntryIntended(m, d) == TurnEntry(m, d)
  {
  }
}

/**
 * week9_singlethread.py: "start" queues the token SNAPCHECK_11 and a drive.
 * One worker takes commands off the queue in turn. A token containing SNAP
 * takes an image and rewrites itself into the moves round an obstacle,
 * followed by the next token. A BASE token rewrites itself into the way
 * back, ending in FIN.
 */
module Week9Single {
  import opened Wrappers
  import opened PyStr
  import opened Helper
  import opened AndroidMessages
  import opened RpiState

  const ProcessedStartText: string := "Processed Start Command"
  const QueueFinishedText: string := "Commands queue finished."

  // ----- The router -----

  /** The "start" branch once the planning server has answered. */
  function Start(s: State): (r: State)
    ensures r.commandQueue == ["SNAPCHECK_11", "DT10"] && r.pathQueue == []
    ensures r.androidMsgs == [InfoText(ProcessedStartText)]
    ensures r == s.(commandQueue := r.commandQueue, pathQueue := [], androidMsgs := r.androidMsgs)
  {
    s.(commandQueue := ["SNAPCHECK_11", "DT10"], pathQueue := [], androidMsgs := [InfoText(ProcessedStartText)])
  }

  /**
   * One iteration of `handle_android_messages`. `startMovementHeader` is the
   * value of `BluetoothHeader.START_MOVEMENT`; `None` stands for an enum
   * without that member, where evaluating it raises.
   */
  function Route(s: State, msg: Option<Inbound>, startMovementHeader: Option<string>, serverUp: bool): Step
  {
    if msg.None? then Step(s, Continue)
    else if startMovementHeader.None? then Step(s, Crashed("AttributeError"))
    else if msg.value.category != startMovementHeader.value || !serverUp then Step(s, Continue)
    else Step(Start(s), Continue)
  }

  /**
   * One iteration of `handle_android_messages` from the read on: the
   * decoding hook's KeyError and a `msg` never assigned end the router, and
   * a caught failure routes the previous message again.
   */
  function Receive(s: State, held: HeldMsg, r: Receipt, startMovementHeader: Option<string>, serverUp: bool)
    : (Step, HeldMsg)
  {
    var (m, h) := ReadMessage(held, r);
    match m
    case Failure(e) => (Step(s, Crashed(e)), h)
    case Success(msg) => (Route(s, msg, startMovementHeader, serverUp), h)
  }

  // ----- Reading the tokens -----

  /**
   * `int(command[i + k : i + k + 1])` where `i = command.index('_')`: the
   * one-character field `k` places after the first underscore; `None` is the
   * `ValueError` of a missing underscore or a character that is not a digit.
   */
  function DigitField(command: string, k: nat): Option<int>
  {
    var i := Find(command, '_');
    if i == -1 then None else ParseInt(Slice(command, i + k, i + k + 1))
  }

  /** The `type` and `is_near` fields of a SNAP token. */
  function SnapFields(command: string): Option<(int, int)>
  {
    match DigitField(command, 1)
    case None => None
    case Some(kind) =>
      match DigitField(command, 2)
      case None => None
      case Some(near) => Some((kind, near))
  }

  /** The queue additions of a SNAP token, by type, nearness and the label of the image taken. */
  function SnapExpansion(kind: int, near: int, imageLabel: string): seq<string>
  {
    if kind == 1 then
      if imageLabel == "Left" then ["FL00", "FR00", "FW10", "SNAPCHECK_21"]
      else if imageLabel == "Right" then ["FR00", "FL00", "FW10", "SNAPCHECK_21"]
      else if near == 1 then ["SNAPCHECK_12"]
      else ["FR00", "FL00", "FW10", "SNAPCHECK_21"]
    else if kind == 2 then SecondDrive(near) + SecondTurn(near, imageLabel)
    else []
  }

  /** A near second obstacle is first approached by DT10, queued before the image is taken. */
  function SecondDrive(near: int): seq<string>
  {
    if near == 1 then ["DT10"] else []
  }

  /** Round the second obstacle to the BASE token on its side, or look again from closer. */
  function SecondTurn(near: int, imageLabel: string): seq<string>
  {
    if imageLabel == "Left" then ["FL00", "FW30", "FR00", "FW10", "BASE_1"]
    else if imageLabel == "Right" then ["FR00", "FW30", "FL00", "FW10", "BASE_2"]
    else if near == 1 then ["SNAPCHECK_22"]
    else ["FR00", "FW30", "FL00", "FW10", "BASE_2"]
  }

  /** The queue additions of a BASE token: the way back into the car park, mirrored for type 1. */
  function BaseExpansion(kind: int): (r: seq<string>)
    ensures |r| == 8 && r[7] == "FIN"
  {
    if kind == 1 then ["FR00", "FW60", "FR00", "DT10", "FR00", "FL00", "DT10", "FIN"]
    else ["FL00", "FW60", "FL00", "DT10", "FL00", "FR00", "DT10", "FIN"]
  }

  // ----- The command worker -----

  /**
   * The SNAP branch once its type and nearness are read, on the state with
   * the token already taken off the queue. Types 1 and 2 take an image
   * (`None` makes the subscript on the reply raise, after the DT10 of a near
   * type 2 has been queued); type 2 records the label as `second_direction`;
   * other types queue nothing.
   */
  function SnapByFields(t: State, secondDirection: Option<string>, kind: int, near: int, prediction: Option<Prediction>)
    : (Step, Option<string>)
  {
    if kind != 1 && kind != 2 then (Step(t, Continue), secondDirection)
    else if prediction.None? then
      var drive := if kind == 2 && near == 1 then ["DT10"] else [];
      (Step(t.(commandQueue := t.commandQueue + drive), Crashed("TypeError")), secondDirection)
    else
      var imageLabel := prediction.value.imageLabel;
      (Step(t.(commandQueue := t.commandQueue + SnapExpansion(kind, near, imageLabel)), Continue),
       if kind == 2 then Some(imageLabel) else secondDirection)
  }

  /** The SNAP branch: a token whose fields cannot be read raises `ValueError`. */
  function SnapStep(t: State, secondDirection: Option<string>, command: string, prediction: Option<Prediction>)
    : (Step, Option<string>)
  {
    match SnapFields(command)
    case None => (Step(t, Crashed("ValueError")), secondDirection)
    case Some((kind, near)) => SnapByFields(t, secondDirection, kind, near, prediction)
  }

  /** The BASE branch, on the state with the token already taken off the queue. */
  function BaseStep(t: State, command: string): Step
  {
    match DigitField(command, 1)
    case None => Step(t, Crashed("ValueError"))
    case Some(kind) => Step(t.(commandQueue := t.commandQueue + BaseExpansion(kind)), Continue)
  }

  /**
   * One iteration of `stm_handle_command_list`, reached only once
   * `start_movement` is set. The tests run in the source's order: a
   * configured prefix, then "SNAP" anywhere in the command, then "BASE"
   * anywhere, then exactly "FIN"; anything else is only logged.
   */
  function Handle(s: State, secondDirection: Option<string>, prefixes: seq<string>, prediction: Option<Prediction>)
    : (Step, Option<string>)
  {
    if !s.startMovement || |s.commandQueue| == 0 then (Step(s, Blocked), secondDirection)
    else
      var command := s.commandQueue[0];
      var t := s.(commandQueue := s.commandQueue[1..]);
      if StartsWithAny(command, prefixes) then (Step(t.(stmSent := t.stmSent + [command]), Continue), secondDirection)
      else if Contains(command, "SNAP") then SnapStep(t, secondDirection, command, prediction)
      else if Contains(command, "BASE") then (BaseStep(t, command), secondDirection)
      else if command == "FIN" then
        (Step(t.(androidMsgs := t.androidMsgs + [InfoText(QueueFinishedText), Info(Status(Finish))]), Continue),
         secondDirection)
      else (Step(t, Continue), secondDirection)
  }

  class RpiModule {
    const st: SharedState
    /** `stm_command_prefixes` from the configuration; the shipped value is the empty tuple. */
    const stmCommandPrefixes: seq<string>
    var secondDirection: Option<string>
    /** The router's `msg`, which survives from one iteration to the next. */
    var held: HeldMsg

    constructor (stmCommandPrefixes: seq<string>)
      ensures fresh(st) && st.Snapshot() == InitialState()
      ensures this.stmCommandPrefixes == stmCommandPrefixes && secondDirection == None && held == Unbound
    {
      st := new SharedState();
      this.stmCommandPrefixes := stmCommandPrefixes;
      secondDirection := None;
      held := Unbound;
    }

    /** One iteration of the router, given what this read of the client link yielded. */
    method HandleAndroidMessage(r: Receipt, startMovementHeader: Option<string>, serverUp: bool)
      returns (outcome: StepOutcome)
      modifies this, st
      ensures (Step(st.Snapshot(), outcome), held) == Receive(old(st.Snapshot()), old(held), r, startMovementHeader, serverUp)
      ensures secondDirection == old(secondDirection)
    {
      if r.HookRaised? {
        return Crashed("KeyError");
      }
      if r.Decoded? {
        held := Bound(r.msg);
      }
      if held.Unbound? {
        return Crashed("UnboundLocalError");
      }
      outcome := RouteMessage(held.msg, startMovementHeader, serverUp);
    }

    /** The router once `msg` is known: only the start header is acted on. */
    method RouteMessage(msg: Option<Inbound>, startMovementHeader: Option<string>, serverUp: bool)
      returns (outcome: StepOutcome)
      modifies st
      ensures Step(st.Snapshot(), outcome) == Route(old(st.Snapshot()), msg, startMovementHeader, serverUp)
    {
      if msg.None? {
        return Continue;
      }
      if startMovementHeader.None? {
        return Crashed("AttributeError");
      }
      if msg.value.category != startMovementHeader.value || !serverUp {
        return Continue;
      }
      st.ClearQueues();
      st.PutCommand("SNAPCHECK_11");
      st.PutCommand("DT10");
      st.Put(InfoText(ProcessedStartText));
      outcome := Continue;
    }

    method HandleCommand(prediction: Option<Prediction>) returns (outcome: StepOutcome)
      modifies this, st
      ensures (Step(st.Snapshot(), outcome), secondDirection)
           == Handle(old(st.Snapshot()), old(secondDirection), stmCommandPrefixes, prediction)
    {
      if !st.startMovement || |st.commandQueue| == 0 {
        return Blocked;
      }
      var command := st.GetCommand();
      if StartsWithAny(command, stmCommandPrefixes) {
        st.SendToStm(command);
        outcome := Continue;
      } else if Contains(command, "SNAP") {
        outcome := ExpandSnap(command, prediction);
      } else if Contains(command, "BASE") {
        outcome := ExpandBase(command);
      } else if command == "FIN" {
        ghost var msgs := st.androidMsgs;
        st.Put(InfoText(QueueFinishedText));
        st.Put(Info(Status(Finish)));
        assert st.androidMsgs == msgs + [InfoText(QueueFinishedText), Info(Status(Finish))];
        outcome := Continue;
      } else {
        outcome := Continue;
      }
    }

    /** The SNAP branch of `stm_handle_command_list`. */
    method ExpandSnap(command: string, prediction: Option<Prediction>) returns (outcome: StepOutcome)
      modifies this, st
      ensures (Step(st.Snapshot(), outcome), secondDirection)
           == SnapStep(old(st.Snapshot()), old(secondDirection), command, prediction)
    {
      var index := Find(command, '_');
      if index == -1 {
        return Crashed("ValueError");
      }
      var kind := ParseInt(Slice(command, index + 1, index + 2));
      if kind.None? {
        return Crashed("ValueError");
      }
      var near := ParseInt(Slice(command, index + 2, index + 3));
      if near.None? {
        return Crashed("ValueError");
      }
      if kind.value == 1 {
        outcome := SnapFirst(near.value, prediction);
      } else if kind.value == 2 {
        outcome := SnapSecond(near.value, prediction);
      } else {
        outcome := Continue;
      }
    }

    /** A type-1 SNAP token: the first obstacle. */
    method SnapFirst(near: int, prediction: Option<Prediction>) returns (outcome: StepOutcome)
      modifies st
      ensures (Step(st.Snapshot(), outcome), secondDirection)
           == SnapByFields(old(st.Snapshot()), secondDirection, 1, near, prediction)
    {
      if prediction.None? {
        assert st.commandQueue + [] == st.commandQueue;
        return Crashed("TypeError");
      }
      var imageLabel := prediction.value.imageLabel;
      if imageLabel == "Left" {
        st.PutCommands(["FL00", "FR00", "FW10", "SNAPCHECK_21"]);
      } else if imageLabel == "Right" {
        st.PutCommands(["FR00", "FL00", "FW10", "SNAPCHECK_21"]);
      } else if near == 1 {
        st.PutCommands(["SNAPCHECK_12"]);
      } else {
        st.PutCommands(["FR00", "FL00", "FW10", "SNAPCHECK_21"]);
      }
      outcome := Continue;
    }

    /** A type-2 SNAP token: the second obstacle, whose label is recorded as `second_direction`. */
    method SnapSecond(near: int, prediction: Option<Prediction>) returns (outcome: StepOutcome)
      modifies this, st
      ensures (Step(st.Snapshot(), outcome), secondDirection)
           == SnapByFields(old(st.Snapshot()), old(secondDirection), 2, near, prediction)
    {
      ghost var t := st.Snapshot();
      var drive := SecondDrive(near);
      st.PutCommands(drive);
      if prediction.None? {
        return Crashed("TypeError");
      }
      var imageLabel := prediction.value.imageLabel;
      var turn := SecondTurn(near, imageLabel);
      st.PutCommands(turn);
      assert t.commandQueue + drive + turn == t.commandQueue + SnapExpansion(2, near, imageLabel);
      secondDirection := Some(imageLabel);
      outcome := Continue;
    }

    /** The BASE branch of `stm_handle_command_list`. */
    method ExpandBase(command: string) returns (outcome: StepOutcome)
      modifies st
      ensures Step(st.Snapshot(), outcome) == BaseStep(old(st.Snapshot()), command)
    {
      var index := Find(command, '_');
      if index == -1 {
        return Crashed("ValueError");
      }
      var kind := ParseInt(Slice(command, index + 1, index + 2));
      if kind.None? {
        return Crashed("ValueError");
      }
      if kind.value == 1 {
        st.PutCommands(["FR00", "FW60", "FR00", "DT10", "FR00", "FL00", "DT10", "FIN"]);
      } else {
        st.PutCommands(["FL00", "FW60", "FL00", "DT10", "FL00", "FR00", "DT10", "FIN"]);
      }
      outcome := Continue;
    }
  }

  // ----- Reading the tokens, proved -----

  /** `command.index(c)` finds the first occurrence. */
  lemma {:induction false} FindFirst(before: string, c: char, after: string)
    requires c !in before
    ensures Find(before + [c] + after, c) == |before|
    decreases |before|
  {
    if |before| > 0 {
      assert (before + [c] + after)[1..] == before[1..] + [c] + after;
      FindFirst(before[1..], c, after);
    }
  }

  lemma ParseDigit(c: char)
    requires IsDigit(c)
    ensures ParseInt([c]) == Some(c as int - '0' as int)
  {
    assert AllDigits([c]);
    assert [c][..0] == [];
    assert DigitsValue([c]) == DigitsValue([]) * 10 + (c as int - '0' as int);
  }

  /** In a SNAP token the type is the digit right after the first '_' and the nearness the digit after it. */
  lemma SnapFieldsRead(before: string, kind: char, near: char, after: string)
    requires '_' !in before && IsDigit(kind) && IsDigit(near)
    ensures SnapFields(before + "_" + [kind, near] + after)
         == Some((kind as int - '0' as int, near as int - '0' as int))
  {
    var s := before + "_" + [kind, near] + after;
    assert s == before + ['_'] + ([kind, near] + after);
    FindFirst(before, '_', [kind, near] + after);
    var i := |before|;
    assert Slice(s, i + 1, i + 2) == [kind];
    assert Slice(s, i + 2, i + 3) == [near];
    ParseDigit(kind);
    ParseDigit(near);
  }

  /** In a BASE token the type is the digit right after the first '_'. */
  lemma BaseFieldRead(before: string, kind: char, after: string)
    requires '_' !in before && IsDigit(kind)
    ensures DigitField(before + "_" + [kind] + after, 1) == Some(kind as int - '0' as int)
  {
    var s := before + "_" + [kind] + after;
    assert s == before + ['_'] + ([kind] + after);
    FindFirst(before, '_', [kind] + after);
    assert Slice(s, |before| + 1, |before| + 2) == [kind];
    ParseDigit(kind);
  }

  /** A string lacking one of the characters of `sub` does not contain `sub`. */
  lemma {:induction false} MissingCharNotContained(s: string, sub: string, c: char)
    requires c in sub && c !in s
    ensures !Contains(s, sub)
    decreases |s|
  {
    if |s| > 0 {
      assert forall x :: x in s[1..] ==> x in s;
      MissingCharNotContained(s[1..], sub, c);
    }
  }

  // ----- The rewriting chain terminates -----

  /** The SNAP and BASE tokens the script queues, by their fields. */
  datatype Token = SnapCheck(kind: int, near: int) | BaseToken(kind: int)

  predicate ScriptToken(t: Token)
  {
    match t
    case SnapCheck(kind, near) => (kind == 1 || kind == 2) && (near == 1 || near == 2)
    case BaseToken(kind) => kind == 1 || kind == 2
  }

  /** The command text of a token: "SNAPCHECK_<type><near>" or "BASE_<type>". */
  function TokenText(t: Token): string
    requires ScriptToken(t)
  {
    match t
    case SnapCheck(kind, near) => "SNAPCHECK_" + [DigitChar(kind), DigitChar(near)]
    case BaseToken(kind) => "BASE_" + [DigitChar(kind)]
  }

  /** What a token appends to the queue when the image reads `imageLabel`. */
  function Expand(t: Token, imageLabel: string): seq<string>
  {
    match t
    case SnapCheck(kind, near) => SnapExpansion(kind, near, imageLabel)
    case BaseToken(kind) => BaseExpansion(kind)
  }

  /** What taking `command` off the queue appends to it when the image reads `imageLabel`. */
  function Rewrite(command: string, imageLabel: string): seq<string>
  {
    if Contains(command, "SNAP") then
      match SnapFields(command)
      case None => []
      case Some((kind, near)) => SnapExpansion(kind, near, imageLabel)
    else if Contains(command, "BASE") then
      match DigitField(command, 1)
      case None => []
      case Some(kind) => BaseExpansion(kind)
    else []
  }

  /** The text of a token is read back as its fields, and a BASE token is not taken for a SNAP one. */
  lemma TokenRead(t: Token)
    requires ScriptToken(t)
    ensures t.SnapCheck? ==> Contains(TokenText(t), "SNAP") && SnapFields(TokenText(t)) == Some((t.kind, t.near))
    ensures t.BaseToken? ==>
      && !Contains(TokenText(t), "SNAP") && Contains(TokenText(t), "BASE")
      && DigitField(TokenText(t), 1) == Some(t.kind)
  {
    match t
    case SnapCheck(kind, near) =>
      SnapTokenRead(DigitChar(kind), DigitChar(near));
    case BaseToken(kind) =>
      BaseTokenRead(DigitChar(kind));
  }

  /** Taking a token's text off the queue appends exactly its expansion. */
  lemma RewriteReadsToken(t: Token, imageLabel: string)
    requires ScriptToken(t)
    ensures Rewrite(TokenText(t), imageLabel) == Expand(t, imageLabel)
  {
    TokenRead(t);
  }

  /** The worker appends exactly a token's expansion when no prefix claims its text. */
  lemma HandleAppendsRewrite(s: State, secondDirection: Option<string>, prefixes: seq<string>, t: Token, p: Prediction)
    requires ScriptToken(t) && s.startMovement && |s.commandQueue| > 0 && s.commandQueue[0] == TokenText(t)
    requires !StartsWithAny(TokenText(t), prefixes)
    ensures Handle(s, secondDirection, prefixes, Some(p)).0
         == Step(s.(commandQueue := s.commandQueue[1..] + Expand(t, p.imageLabel)), Continue)
  {
    TokenRead(t);
  }

  /** A SNAP token is read as its two digits. */
  lemma SnapTokenRead(kind: char, near: char)
    requires IsDigit(kind) && IsDigit(near)
    ensures var token := "SNAPCHECK_" + [kind, near];
      && Contains(token, "SNAP")
      && SnapFields(token) == Some((kind as int - '0' as int, near as int - '0' as int))
  {
    var token := "SNAPCHECK_" + [kind, near];
    assert StartsWith(token, "SNAP");
    assert token == "SNAPCHECK" + "_" + [kind, near] + "";
    SnapFieldsRead("SNAPCHECK", kind, near, "");
  }

  /** A BASE token is read as its digit, and is not taken for a SNAP token. */
  lemma BaseTokenRead(kind: char)
    requires IsDigit(kind)
    ensures var token := "BASE_" + [kind];
      && !Contains(token, "SNAP") && Contains(token, "BASE")
      && DigitField(token, 1) == Some(kind as int - '0' as int)
  {
    var token := "BASE_" + [kind];
    MissingCharNotContained(token, "SNAP", 'N');
    assert StartsWith(token, "BASE");
    assert token == "BASE" + "_" + [kind] + "";
    BaseFieldRead("BASE", kind, "");
  }

  /**
   * The termination measure: the number of rewrites, this one included,
   * left before FIN. A near token never re-queues a token of its own type.
   */
  function Rank(t: Token): nat
    requires ScriptToken(t)
  {
    match t
    case SnapCheck(kind, near) => if kind == 1 then 6 - near else 4 - near
    case BaseToken(_) => 1
  }

  /** The token a SNAP expansion of type 1 or 2 ends in. */
  function NextToken(kind: int, near: int, imageLabel: string): Token
  {
    if kind == 1 then
      if imageLabel == "Left" || imageLabel == "Right" || near != 1 then SnapCheck(2, 1) else SnapCheck(1, 2)
    else if imageLabel == "Left" then BaseToken(1)
    else if imageLabel == "Right" || near != 1 then BaseToken(2)
    else SnapCheck(2, 2)
  }

  /** Every SNAP token hands over to a script token of lower rank. */
  lemma NextTokenDescends(kind: int, near: int, imageLabel: string)
    requires ScriptToken(SnapCheck(kind, near))
    ensures ScriptToken(NextToken(kind, near, imageLabel))
    ensures Rank(NextToken(kind, near, imageLabel)) < Rank(SnapCheck(kind, near))
  {
  }

  /** The plain moves the script queues between its tokens. */
  predicate Move(command: string)
  {
    command == "FL00" || command == "FR00" || command == "FW10" || command == "FW30"
    || command == "FW60" || command == "DT10"
  }

  /** A move neither rewrites nor finishes. */
  lemma MoveIsOrdinary(command: string)
    requires Move(command)
    ensures !Contains(command, "SNAP") && !Contains(command, "BASE") && command != "FIN"
  {
    MissingCharNotContained(command, "SNAP", 'S');
    MissingCharNotContained(command, "BASE", 'B');
  }

  /** A SNAP expansion of type 1 or 2 is moves followed by the text of the next token. */
  lemma SnapExpansionShape(kind: int, near: int, imageLabel: string)
    requires ScriptToken(SnapCheck(kind, near))
    ensures var e := SnapExpansion(kind, near, imageLabel);
      && |e| > 0
      && (forall i :: 0 <= i < |e| - 1 ==> Move(e[i]))
      && e[|e| - 1] == TokenText(NextToken(kind, near, imageLabel))
  {
    assert TokenText(SnapCheck(2, 1)) == "SNAPCHECK_21";
    assert TokenText(SnapCheck(1, 2)) == "SNAPCHECK_12";
    assert TokenText(SnapCheck(2, 2)) == "SNAPCHECK_22";
    assert TokenText(BaseToken(1)) == "BASE_1";
    assert TokenText(BaseToken(2)) == "BASE_2";
  }

  /** A BASE expansion is seven moves followed by FIN. */
  lemma BaseExpansionShape(kind: int)
    ensures forall i :: 0 <= i < 7 ==> Move(BaseExpansion(kind)[i])
  {
  }

  /**
   * One rewrite: whatever the image shows, a SNAP token appends moves
   * followed by the text of the next token, and a BASE token appends moves
   * followed by FIN.
   */
  lemma RewriteDescends(t: Token, imageLabel: string)
    requires ScriptToken(t)
    ensures var e := Expand(t, imageLabel);
      && |e| > 0
      && (forall i :: 0 <= i < |e| - 1 ==> Move(e[i]))
      && (t.BaseToken? ==> e[|e| - 1] == "FIN")
      && (t.SnapCheck? ==> e[|e| - 1] == TokenText(NextToken(t.kind, t.near, imageLabel)))
  {
    match t
    case SnapCheck(kind, near) => SnapExpansionShape(kind, near, imageLabel);
    case BaseToken(kind) => BaseExpansionShape(kind);
  }

  /** The label of the `i`-th image; a missing one reads as no arrow. */
  function LabelAt(labels: seq<string>, i: nat): string
  {
    if i < |labels| then labels[i] else ""
  }

  /** The script tokens taken off the queue from `t` on, when the images read `labels` in turn. */
  function Follow(t: Token, labels: seq<string>): (chain: seq<Token>)
    requires ScriptToken(t)
    ensures |chain| > 0 && chain[0] == t
    decreases Rank(t)
  {
    if t.BaseToken? then [t]
    else
      NextTokenDescends(t.kind, t.near, LabelAt(labels, 0));
      [t] + Follow(NextToken(t.kind, t.near, LabelAt(labels, 0)), if |labels| > 0 then labels[1..] else [])
  }

  /**
   * From any script token the chain is at most its rank long; each token
   * but the last is a SNAP token followed by the one its image selects; the
   * last is a BASE token.
   */
  lemma {:induction false} FollowReachesFin(t: Token, labels: seq<string>)
    requires ScriptToken(t)
    ensures var chain := Follow(t, labels);
      && 1 <= |chain| <= Rank(t)
      && chain[0] == t
      && (forall i :: 0 <= i < |chain| ==> ScriptToken(chain[i]))
      && (forall i :: 0 <= i < |chain| - 1 ==>
            chain[i].SnapCheck? && chain[i + 1] == NextToken(chain[i].kind, chain[i].near, LabelAt(labels, i)))
      && chain[|chain| - 1].BaseToken?
    decreases Rank(t)
  {
    if t.SnapCheck? {
      var rest := if |labels| > 0 then labels[1..] else [];
      var next := NextToken(t.kind, t.near, LabelAt(labels, 0));
      NextTokenDescends(t.kind, t.near, LabelAt(labels, 0));
      FollowReachesFin(next, rest);
      var tail := Follow(next, rest);
      var chain := Follow(t, labels);
      assert chain == [t] + tail;
      forall i | 0 <= i < |chain| - 1
        ensures chain[i].SnapCheck? && chain[i + 1] == NextToken(chain[i].kind, chain[i].near, LabelAt(labels, i))
      {
        if i > 0 {
          assert chain[i] == tail[i - 1] && chain[i + 1] == tail[i];
          assert LabelAt(rest, i - 1) == LabelAt(labels, i);
        }
      }
    }
  }

  /**
   * From the token "start" queues, FIN is queued after at most four SNAP
   * rewrites and one BASE rewrite, whatever the images read.
   */
  lemma StartReachesFin(labels: seq<string>)
    ensures TokenText(SnapCheck(1, 1)) == "SNAPCHECK_11"
    ensures var chain := Follow(SnapCheck(1, 1), labels);
      var last := chain[|chain| - 1];
      && |chain| <= 5
      && (forall i :: 0 <= i < |chain| - 1 ==> chain[i].SnapCheck?)
      && last.BaseToken? && ScriptToken(last)
      && (forall imageLabel :: Rewrite(TokenText(last), imageLabel) == BaseExpansion(last.kind))
  {
    FollowReachesFin(SnapCheck(1, 1), labels);
    var chain := Follow(SnapCheck(1, 1), labels);
    var last := chain[|chain| - 1];
    forall imageLabel: string
      ensures Rewrite(TokenText(last), imageLabel) == BaseExpansion(last.kind)
    {
      RewriteReadsToken(last, imageLabel);
    }
  }

  // ----- Other promises of the worker -----

  /** Start queues SNAPCHECK_11 then DT10 and one info message. */
  lemma StartQueuesToken(s: State, msg: Inbound, header: string)
    requires msg.category == header
    ensures Route(s, Some(msg), Some(header), true) == Step(Start(s), Continue)
    ensures Route(s, Some(msg), Some(header), false) == Step(s, Continue)
    ensures Route(s, Some(msg), None, true).outcome == Crashed("AttributeError")
  {
  }

  /** SNAP tokens of a type other than 1 or 2 queue nothing and take no image. */
  lemma OtherSnapTypesQueueNothing(t: State, secondDirection: Option<string>, command: string,
                                   prediction: Option<Prediction>)
    requires SnapFields(command).Some? && SnapFields(command).value.0 != 1 && SnapFields(command).value.0 != 2
    ensures SnapStep(t, secondDirection, command, prediction) == (Step(t, Continue), secondDirection)
  {
  }

  /**
   * "start" as main.py writes it: the same queue, with `start_movement` set
   * as well so that the worker takes the queued commands.
   */
  function StartMoving(s: State): (r: State)
    ensures r.startMovement && r.commandQueue == ["SNAPCHECK_11", "DT10"]
    ensures r.androidMsgs == [InfoText(ProcessedStartText)] && r.stmSent == s.stmSent
  {
    Start(s).(startMovement := true)
  }

  /**
   * The router as it would have to be for "start" to reach the worker: the
   * header enum has a start member, whose value is `header`, and the branch
   * sets `start_movement`. It is the written router plus that `set()`.
   */
  function RouteMoving(s: State, msg: Option<Inbound>, header: string, serverUp: bool): (r: Step)
    ensures var w := Route(s, msg, Some(header), serverUp);
      && r.outcome == w.outcome == Continue
      && r.state == w.state.(startMovement := r.state.startMovement)
      && (r.state.startMovement <==> s.startMovement || (msg.Some? && msg.value.category == header && serverUp))
  {
    if msg.None? || msg.value.category != header || !serverUp then Step(s, Continue)
    else Step(StartMoving(s), Continue)
  }

  /**
   * With the header present and `start_movement` set by "start", the
   * router queues the opening tokens and the worker's first step takes
   * SNAPCHECK_11 and queues its expansion after DT10, which is where the
   * chain of `StartReachesFin` begins.
   */
  lemma StartMovingRunsScript(s: State, msg: Inbound, header: string, secondDirection: Option<string>,
                              prefixes: seq<string>, p: Prediction)
    requires msg.category == header && !StartsWithAny("SNAPCHECK_11", prefixes)
    ensures RouteMoving(s, Some(msg), header, true) == Step(StartMoving(s), Continue)
    ensures Handle(StartMoving(s), secondDirection, prefixes, Some(p)).0
         == Step(StartMoving(s).(commandQueue := ["DT10"] + Expand(SnapCheck(1, 1), p.imageLabel)), Continue)
  {
    var t := SnapCheck(1, 1);
    assert TokenText(t) == "SNAPCHECK_11";
    HandleAppendsRewrite(StartMoving(s), secondDirection, prefixes, t, p);
  }

  /** Nothing in this version sets `start_movement`, so the worker never takes a command. */
  lemma StartMovementStaysClear(s: State, msg: Option<Inbound>, header: Option<string>, serverUp: bool,
                                secondDirection: Option<string>, prefixes: seq<string>, prediction: Option<Prediction>)
    requires !s.startMovement
    ensures !Route(s, msg, header, serverUp).state.startMovement
    ensures Handle(s, secondDirection, prefixes, prediction) == (Step(s, Blocked), secondDirection)
  {
  }
}

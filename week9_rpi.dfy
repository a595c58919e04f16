/**
 * week9.py: a scripted run. "start" queues a reset, a drive to the first
 * obstacle and, if the first image was read, the turn around it. After that
 * the acknowledgement handler counts acknowledgements and, at the second,
 * sixth and tenth, issues the next part of the script, choosing left or
 * right from a fresh image or from the direction recorded earlier.
 */
module Week9Rpi {
  import opened Wrappers
  import opened PyStr
  import opened Helper
  import opened AndroidMessages
  import opened DeadReckoning
  import opened RpiState

  const ProcessedStartText: string := "Processed Start Command"
  const QueueFinishedText: string := "Commands queue finished."

  /** The commands "start" queues, given the label read from the first image. */
  function StartCommands(imageLabel: string): (r: seq<string>)
    ensures |r| == if imageLabel == "Left" || imageLabel == "Right" then 5 else 2
    ensures r[..2] == ["RS00", "FW00"]
  {
    ["RS00", "FW00"] + FirstTurn(imageLabel)
  }

  /** The turn round the first obstacle when its arrow was read from afar. */
  function FirstTurn(imageLabel: string): seq<string>
  {
    if imageLabel == "Left" then ["FL00", "FR00", "FW10"]
    else if imageLabel == "Right" then ["FR00", "FL00", "FW10"]
    else []
  }

  /**
   * The "start" branch of `handle_android_messages`. `serverUp` is what
   * `check_server` answers and `prediction` what the vision service returns
   * for the first image (`None` makes the subscript on it raise).
   */
  function Start(s: State, serverUp: bool, prediction: Option<Prediction>): Step
  {
    if !serverUp then Step(s, Continue)
    else
      var cleared := s.(pathQueue := [], androidMsgs := []);
      match prediction
      case None => Step(cleared.(commandQueue := ["RS00", "FW00"]), Crashed("TypeError"))
      case Some(p) =>
        var imageLabel := p.imageLabel;
        Step(cleared.(commandQueue := StartCommands(imageLabel),
                      nearFlag := s.nearFlag || (imageLabel != "Left" && imageLabel != "Right"),
                      androidMsgs := [InfoText(ProcessedStartText)]), Continue)
  }

  /** One iteration of `handle_android_messages`: only "start" is acted on. */
  function Route(s: State, msg: Option<Inbound>, serverUp: bool, prediction: Option<Prediction>): Step
  {
    if msg.Some? && msg.value.category == "start" then Start(s, serverUp, prediction) else Step(s, Continue)
  }

  /**
   * One iteration of `handle_android_messages` from the read on: the
   * decoding hook's KeyError and a `msg` never assigned end the router, and
   * a caught failure routes the previous message again.
   */
  function Receive(s: State, held: HeldMsg, r: Receipt, serverUp: bool, prediction: Option<Prediction>)
    : (Step, HeldMsg)
  {
    var (m, h) := ReadMessage(held, r);
    match m
    case Failure(e) => (Step(s, Crashed(e)), h)
    case Success(msg) => (Route(s, msg, serverUp, prediction), h)
  }

  /** `issue_command` over several commands in turn; a distance that does not parse raises. */
  function IssueAll(s: State, commands: seq<string>): (r: Step)
    ensures r.outcome == Continue || r.outcome == Crashed("ValueError")
    decreases |commands|
  {
    if |commands| == 0 then Step(s, Continue)
    else
      var queued := s.(commandQueue := s.commandQueue + [commands[0]]);
      match Translate(s.location, commands[0])
      case None => Step(queued, Crashed("ValueError"))
      case Some(loc) => IssueAll(queued.(location := loc, androidMsgs := queued.androidMsgs + [LocMessage(loc)]), commands[1..])
  }

  /** The counter and the recorded direction, both local to the acknowledgement handler. */
  datatype Progress = Counters(ackCount: int, secondDirection: Option<string>)

  /** What an acknowledgement makes the script do: the commands to issue and the new flags. */
  datatype Plan = Plan(commands: seq<string>, nearFlag: bool, secondDirection: Option<string>)

  /** The acknowledgement with this count takes an image. */
  predicate TakesImage(count: int, nearFlag: bool)
  {
    count == 2 || (count == 6 && nearFlag)
  }

  /** The last leg, issued at the tenth acknowledgement: turn away from the recorded side, drive back, finish. */
  function FinishScript(secondDirection: Option<string>): (r: seq<string>)
    ensures |r| == 8 && r[7] == "FIN"
    ensures r[0] == if secondDirection == Some("Left") then "FR00" else "FL00"
  {
    if secondDirection == Some("Left") then ["FR00", "FW60", "FR00", "FW00", "FR00", "FL00", "FW00", "FIN"]
    else ["FL00", "FW60", "FL00", "FW00", "FL00", "FR00", "FW00", "FIN"]
  }

  /** Second acknowledgement, near flag set: the turn round the obstacle the re-taken image points to. */
  function NearTurn(imageLabel: string): seq<string>
  {
    if imageLabel == "Left" then ["FL00", "FR00", "FW10"] else ["FR00", "FL00", "FW10"]
  }

  /** Second acknowledgement, near flag clear: after "FW00", the turn round a read arrow; nothing for no arrow. */
  function FarTurn(imageLabel: string): seq<string>
  {
    if imageLabel == "Left" then ["FL00", "FR00", "FW10", "FW10"]
    else if imageLabel == "Right" then ["FR00", "FL00", "FW10", "FW10"]
    else []
  }

  /** Sixth acknowledgement, near flag set: the turn round the second obstacle. */
  function SixthTurn(imageLabel: string): seq<string>
  {
    if imageLabel == "Left" then ["FL00", "FW30", "FR00", "FW10"] else ["FR00", "FW30", "FL00", "FW10"]
  }

  predicate IsArrow(imageLabel: string)
  {
    imageLabel == "Left" || imageLabel == "Right"
  }

  /** The script, by acknowledgement count (after the increment), near flag, recorded direction and image label. */
  function AckPlan(count: int, nearFlag: bool, secondDirection: Option<string>, imageLabel: string): Plan
  {
    if count == 2 then
      if nearFlag then Plan(NearTurn(imageLabel), false, secondDirection)
      else if IsArrow(imageLabel) then Plan(["FW00"] + FarTurn(imageLabel), false, Some(imageLabel))
      else Plan(["FW00"], true, secondDirection)
    else if count == 6 && nearFlag then Plan(SixthTurn(imageLabel), false, Some(imageLabel))
    else if count == 10 then Plan(FinishScript(secondDirection), nearFlag, secondDirection)
    else Plan([], nearFlag, secondDirection)
  }

  /**
   * The script after the acknowledgement numbered `count`, on a state whose
   * lock is already released; returns the step and the recorded direction.
   * Without an image where the script needs one, the subscript raises after
   * whatever was issued before it.
   */
  function Play(t: State, count: int, secondDirection: Option<string>, prediction: Option<Prediction>)
    : (Step, Option<string>)
  {
    if TakesImage(count, t.nearFlag) && prediction.None? then
      var before := if count == 2 && !t.nearFlag then ["FW00"] else [];
      (Step(IssueAll(t, before).state, Crashed("TypeError")), secondDirection)
    else
      var imageLabel := if prediction.Some? then prediction.value.imageLabel else "";
      var plan := AckPlan(count, t.nearFlag, secondDirection, imageLabel);
      var issued := IssueAll(t, plan.commands);
      if issued.outcome.Crashed? then (issued, secondDirection)
      else (Step(issued.state.(nearFlag := plan.nearFlag), Continue), plan.secondDirection)
  }

  /**
   * One iteration of `handle_stm_messages`: an acknowledgement bumps the
   * counter, releases the lock (a free lock only logs a warning) and plays
   * the script.
   */
  function Ack(s: State, p: Progress, line: Option<string>, prediction: Option<Prediction>): (Step, Progress)
  {
    if !IsAck(line) then (Step(s, Continue), p)
    else
      var count := p.ackCount + 1;
      var (r, secondDirection) := Play(s.(movementLock := false), count, p.secondDirection, prediction);
      (r, Counters(count, secondDirection))
  }

  /** The dispatcher may take a command: one is queued, movement is enabled and the lock is free. */
  predicate CanDispatch(s: State)
  {
    |s.commandQueue| > 0 && s.startMovement && !s.movementLock
  }

  /**
   * The branches of `handle_commands`, entered holding the lock, each
   * releasing it once (there is no SNAP branch in this version).
   */
  function Execute(t: State, prefixes: seq<string>, command: string): Step
  {
    if StartsWithAny(command, prefixes) then
      Step(t.(stmSent := t.stmSent + [command], movementLock := false), Continue)
    else if command == "FIN" then
      Step(t.(startMovement := false, movementLock := false,
              androidMsgs := t.androidMsgs + [InfoText(QueueFinishedText), Info(Status(Finish))]), Continue)
    else Step(t.(movementLock := false), Continue)
  }

  /** One iteration of `handle_commands`: take the next command under the lock and run it. */
  function Dispatch(s: State, prefixes: seq<string>): Step
  {
    if !CanDispatch(s) then Step(s, Blocked)
    else Execute(s.(commandQueue := s.commandQueue[1..], movementLock := true), prefixes, s.commandQueue[0])
  }

  /** The dispatcher is about to take "FIN" down its own branch. */
  predicate PicksFin(s: State, prefixes: seq<string>)
  {
    CanDispatch(s) && s.commandQueue[0] == "FIN" && !StartsWithAny("FIN", prefixes)
  }

  class RpiModule {
    const st: SharedState
    /** `stm_command_prefixes` from the configuration; the shipped value is the empty tuple. */
    const stmCommandPrefixes: seq<string>
    var ackCount: int
    var secondDirection: Option<string>
    /** The router's `msg`, which survives from one iteration to the next. */
    var held: HeldMsg

    function Progress(): Progress
      reads this
    {
      Counters(ackCount, secondDirection)
    }

    constructor (stmCommandPrefixes: seq<string>)
      ensures fresh(st) && st.Snapshot() == InitialState()
      ensures this.stmCommandPrefixes == stmCommandPrefixes
      ensures Progress() == Counters(0, None) && held == Unbound
    {
      st := new SharedState();
      this.stmCommandPrefixes := stmCommandPrefixes;
      ackCount := 0;
      secondDirection := None;
      held := Unbound;
    }

    /** One iteration of the router, given what this read of the client link yielded. */
    method HandleAndroidMessage(r: Receipt, serverUp: bool, prediction: Option<Prediction>)
      returns (outcome: StepOutcome)
      modifies this, st
      ensures (Step(st.Snapshot(), outcome), held) == Receive(old(st.Snapshot()), old(held), r, serverUp, prediction)
      ensures Progress() == old(Progress())
    {
      if r.HookRaised? {
        return Crashed("KeyError");
      }
      if r.Decoded? {
        held := Bound(r.msg);
      }
      if held.Unbound? {
        return Crashed("UnboundLocalError");
      }
      outcome := RouteMessage(held.msg, serverUp, prediction);
    }

    /** The router once `msg` is known: only "start" is acted on. */
    method RouteMessage(msg: Option<Inbound>, serverUp: bool, prediction: Option<Prediction>)
      returns (outcome: StepOutcome)
      modifies st
      ensures Step(st.Snapshot(), outcome) == Route(old(st.Snapshot()), msg, serverUp, prediction)
    {
      outcome := Continue;
      if msg.None? || msg.value.category != "start" {
        return;
      }
      if !serverUp {
        return;
      }
      outcome := ProcessStart(prediction);
    }

    /** The "start" branch once the planning server has answered. */
    method ProcessStart(prediction: Option<Prediction>) returns (outcome: StepOutcome)
      modifies st
      ensures Step(st.Snapshot(), outcome) == Start(old(st.Snapshot()), true, prediction)
    {
      ghost var s := st.Snapshot();
      ResetAndDrive();
      ghost var cleared := s.(pathQueue := [], androidMsgs := []);
      if prediction.None? {
        return Crashed("TypeError");
      }
      var imageLabel := prediction.value.imageLabel;
      QueueFirstTurn(imageLabel);
      ghost var turned := cleared.(commandQueue := StartCommands(imageLabel),
                                   nearFlag := s.nearFlag || !IsArrow(imageLabel));
      assert st.Snapshot() == turned;
      st.Put(InfoText(ProcessedStartText));
      outcome := Continue;
    }

    /** Empty the queues, then queue the gyroscope reset and the drive to the first obstacle. */
    method ResetAndDrive()
      modifies st
      ensures st.Snapshot() == old(st.Snapshot()).(commandQueue := ["RS00", "FW00"], pathQueue := [], androidMsgs := [])
    {
      st.ClearQueues();
      st.PutCommand("RS00");
      st.PutCommand("FW00");
    }

    /** Queue the turn the first image asks for, or set the near flag to read it closer. */
    method QueueFirstTurn(imageLabel: string)
      modifies st
      ensures st.Snapshot() == old(st.Snapshot()).(commandQueue := old(st.commandQueue) + FirstTurn(imageLabel),
                                                   nearFlag := old(st.nearFlag) || !IsArrow(imageLabel))
    {
      if imageLabel == "Left" {
        st.PutCommands(["FL00", "FR00", "FW10"]);
      } else if imageLabel == "Right" {
        st.PutCommands(["FR00", "FL00", "FW10"]);
      } else {
        st.SetNearFlag(true);
        assert st.commandQueue == old(st.commandQueue) + [];
      }
    }

    /** `issue_command`: queue the command, move the predicted location, report it. */
    method IssueCommand(command: string) returns (ok: bool)
      modifies st
      ensures var r := IssueAll(old(st.Snapshot()), [command]);
        st.Snapshot() == r.state && ok == (r.outcome == Continue)
    {
      ghost var s := st.Snapshot();
      IssueOne(s, command);
      st.PutCommand(command);
      ok := st.TranslateRobot(command);
      if !ok {
        return;
      }
      assert st.Snapshot() == s.(commandQueue := s.commandQueue + [command], location := st.Location());
      st.Put(LocMessage(st.Location()));
    }

    /** The consecutive `issue_command` calls of one branch of the script. */
    method IssueCommands(commands: seq<string>) returns (outcome: StepOutcome)
      modifies st
      ensures Step(st.Snapshot(), outcome) == IssueAll(old(st.Snapshot()), commands)
    {
      for i := 0 to |commands|
        invariant IssueAll(old(st.Snapshot()), commands) == IssueAll(st.Snapshot(), commands[i..])
      {
        ghost var before := st.Snapshot();
        var ok := IssueCommand(commands[i]);
        assert commands[i..][1..] == commands[i + 1..];
        if !ok {
          return Crashed("ValueError");
        }
      }
      return Continue;
    }

    method HandleStmMessage(line: Option<string>, prediction: Option<Prediction>) returns (outcome: StepOutcome)
      modifies this, st
      ensures (Step(st.Snapshot(), outcome), Progress()) == Ack(old(st.Snapshot()), old(Progress()), line, prediction)
    {
      if line.None? || !Contains(line.value, "ACK") || |line.value| <= 0 {
        return Continue;
      }
      ackCount := ackCount + 1;
      var _ := st.ReleaseLock();
      ghost var t := st.Snapshot();
      assert Ack(old(st.Snapshot()), old(Progress()), line, prediction)
          == (Play(t, ackCount, old(secondDirection), prediction).0,
              Counters(ackCount, Play(t, ackCount, old(secondDirection), prediction).1));
      if ackCount == 2 {
        if st.nearFlag {
          outcome := SecondAckNear(prediction);
        } else {
          outcome := SecondAckFar(prediction);
        }
      } else if ackCount == 6 {
        outcome := SixthAck(prediction);
      } else if ackCount == 10 {
        outcome := TenthAck(prediction);
      } else {
        outcome := Continue;
      }
    }

    /** Second acknowledgement with the near flag set: re-take the image and turn round the obstacle. */
    method SecondAckNear(prediction: Option<Prediction>) returns (outcome: StepOutcome)
      requires ackCount == 2 && st.nearFlag
      modifies this, st
      ensures ackCount == old(ackCount)
      ensures (Step(st.Snapshot(), outcome), secondDirection)
           == Play(old(st.Snapshot()), ackCount, old(secondDirection), prediction)
    {
      if prediction.None? {
        return Crashed("TypeError");
      }
      ghost var s := st.Snapshot();
      outcome := IssueCommands(NearTurn(prediction.value.imageLabel));
      IssueAllFrame(s, NearTurn(prediction.value.imageLabel));
      if outcome.Crashed? {
        return;
      }
      st.SetNearFlag(false);
    }

    /**
     * Second acknowledgement without the near flag: drive on, then turn round
     * a read arrow and record its side, or set the near flag to read it closer.
     */
    method SecondAckFar(prediction: Option<Prediction>) returns (outcome: StepOutcome)
      requires ackCount == 2 && !st.nearFlag
      modifies this, st
      ensures ackCount == old(ackCount)
      ensures (Step(st.Snapshot(), outcome), secondDirection)
           == Play(old(st.Snapshot()), ackCount, old(secondDirection), prediction)
    {
      ghost var s := st.Snapshot();
      PlaySecondFar(s, secondDirection, prediction);
      outcome := IssueCommands(["FW00"]);
      if prediction.None? {
        return Crashed("TypeError");
      }
      var imageLabel := prediction.value.imageLabel;
      if IsArrow(imageLabel) {
        outcome := IssueCommands(FarTurn(imageLabel));
        if outcome.Crashed? {
          return;
        }
        secondDirection := Some(imageLabel);
      } else {
        st.SetNearFlag(true);
      }
    }

    /** Sixth acknowledgement: only if the near flag is set, read the image and turn round the obstacle. */
    method SixthAck(prediction: Option<Prediction>) returns (outcome: StepOutcome)
      requires ackCount == 6
      modifies this, st
      ensures ackCount == old(ackCount)
      ensures (Step(st.Snapshot(), outcome), secondDirection)
           == Play(old(st.Snapshot()), ackCount, old(secondDirection), prediction)
    {
      if !st.nearFlag {
        return Continue;
      }
      if prediction.None? {
        return Crashed("TypeError");
      }
      var imageLabel := prediction.value.imageLabel;
      ghost var s := st.Snapshot();
      outcome := IssueCommands(SixthTurn(imageLabel));
      IssueAllFrame(s, SixthTurn(imageLabel));
      if outcome.Crashed? {
        return;
      }
      secondDirection := Some(imageLabel);
      st.SetNearFlag(false);
    }

    /** Tenth acknowledgement: the way back, chosen by the recorded direction. */
    method TenthAck(prediction: Option<Prediction>) returns (outcome: StepOutcome)
      requires ackCount == 10
      modifies st
      ensures (Step(st.Snapshot(), outcome), secondDirection)
           == Play(old(st.Snapshot()), ackCount, secondDirection, prediction)
    {
      ghost var s := st.Snapshot();
      outcome := IssueCommands(FinishScript(secondDirection));
      IssueAllFrame(s, FinishScript(secondDirection));
    }

    /**
     * `handle_commands` as written. It matches `Dispatch` except on FIN:
     * that branch releases the lock itself, and the release after the
     * branch then raises on the free lock and ends the worker.
     */
    method HandleCommand() returns (outcome: StepOutcome)
      modifies st
      ensures var expected := Dispatch(old(st.Snapshot()), stmCommandPrefixes);
        st.Snapshot() == expected.state
        && outcome == if PicksFin(old(st.Snapshot()), stmCommandPrefixes) then Crashed("RuntimeError")
                      else expected.outcome
    {
      if |st.commandQueue| == 0 || !st.startMovement || st.movementLock {
        return Blocked;
      }
      var command := st.GetCommand();
      st.AcquireLock();
      outcome := RunCommand(command);
    }

    /** The branches of `handle_commands` as written, entered holding the lock. */
    method RunCommand(command: string) returns (outcome: StepOutcome)
      requires st.movementLock
      modifies st
      ensures var expected := Execute(old(st.Snapshot()), stmCommandPrefixes, command);
        st.Snapshot() == expected.state
        && outcome == if command == "FIN" && !StartsWithAny(command, stmCommandPrefixes) then Crashed("RuntimeError")
                      else expected.outcome
    {
      if StartsWithAny(command, stmCommandPrefixes) {
        st.SendToStm(command);
      } else if command == "FIN" {
        st.SetStartMovement(false);
        var _ := st.ReleaseLock();
        st.Put(InfoText(QueueFinishedText));
        st.Put(Info(Status(Finish)));
      }
      var released := st.ReleaseLock();
      outcome := if released then Continue else Crashed("RuntimeError");
    }
  }

  // ----- What the script promises -----

  /** `issue_command` on its own. */
  lemma IssueOne(s: State, command: string)
    ensures IssueAll(s, [command])
         == match Translate(s.location, command)
            case None => Step(s.(commandQueue := s.commandQueue + [command]), Crashed("ValueError"))
            case Some(loc) =>
              Step(s.(commandQueue := s.commandQueue + [command], location := loc,
                      androidMsgs := s.androidMsgs + [LocMessage(loc)]), Continue)
  {
    assert [command][1..] == [];
  }

  /**
   * Issuing commands changes only the command queue, the messages and the
   * location, and only appends to the queue and the messages.
   */
  lemma {:induction false} IssueAllFrame(s: State, commands: seq<string>)
    ensures var r := IssueAll(s, commands).state;
      && r == s.(commandQueue := r.commandQueue, androidMsgs := r.androidMsgs, location := r.location)
      && s.commandQueue <= r.commandQueue && s.androidMsgs <= r.androidMsgs
    decreases |commands|
  {
    if |commands| > 0 {
      var queued := s.(commandQueue := s.commandQueue + [commands[0]]);
      match Translate(s.location, commands[0])
      case None =>
      case Some(loc) =>
        IssueAllFrame(queued.(location := loc, androidMsgs := queued.androidMsgs + [LocMessage(loc)]), commands[1..]);
    }
  }

  /** Issuing two lists in turn is issuing their concatenation, up to the first command that raises. */
  lemma {:induction false} IssueAllAppend(s: State, first: seq<string>, second: seq<string>)
    ensures var r := IssueAll(s, first);
      IssueAll(s, first + second) == if r.outcome.Crashed? then r else IssueAll(r.state, second)
    decreases |first|
  {
    if |first| == 0 {
      assert first + second == second;
    } else {
      assert (first + second)[0] == first[0];
      assert (first + second)[1..] == first[1..] + second;
      var queued := s.(commandQueue := s.commandQueue + [first[0]]);
      match Translate(s.location, first[0])
      case None =>
      case Some(loc) =>
        IssueAllAppend(queued.(location := loc, androidMsgs := queued.androidMsgs + [LocMessage(loc)]), first[1..], second);
    }
  }

  predicate AllTranslatable(commands: seq<string>)
  {
    forall i :: 0 <= i < |commands| ==> Translatable(commands[i])
  }

  /**
   * Issuing commands that all translate never raises: every command is
   * queued in order and each adds one location report.
   */
  lemma {:induction false} IssueAllTranslatable(s: State, commands: seq<string>)
    requires AllTranslatable(commands)
    ensures var r := IssueAll(s, commands);
      && r.outcome == Continue
      && r.state.commandQueue == s.commandQueue + commands
      && |r.state.androidMsgs| == |s.androidMsgs| + |commands|
    decreases |commands|
  {
    if |commands| > 0 {
      TranslatableSucceeds(s.location, commands[0]);
      var loc := Translate(s.location, commands[0]).value;
      var next := s.(commandQueue := s.commandQueue + [commands[0]], location := loc,
                     androidMsgs := s.androidMsgs + [LocMessage(loc)]);
      assert AllTranslatable(commands[1..]) by {
        forall i | 0 <= i < |commands| - 1
          ensures Translatable(commands[1..][i])
        {
          assert commands[1..][i] == commands[i + 1];
        }
      }
      IssueAllTranslatable(next, commands[1..]);
      assert s.commandQueue + [commands[0]] + commands[1..] == s.commandQueue + commands;
    }
  }

  /** The commands the script is written with. */
  predicate ScriptCommand(command: string)
  {
    command == "FL00" || command == "FR00" || command == "FW00" || command == "FW10"
    || command == "FW30" || command == "FW60" || command == "FIN"
  }

  lemma ScriptCommandTranslatable(command: string)
    requires ScriptCommand(command)
    ensures Translatable(command)
  {
    if command == "FW00" {
      assert command[2..] == "00";
      assert ParseInt("00").Some?;
    } else if command == "FW10" {
      assert command[2..] == "10";
      assert ParseInt("10").Some?;
    } else if command == "FW30" {
      assert command[2..] == "30";
      assert ParseInt("30").Some?;
    } else if command == "FW60" {
      assert command[2..] == "60";
      assert ParseInt("60").Some?;
    }
  }

  /** Every command the script issues has a parsable distance. */
  lemma AckPlanTranslatable(count: int, nearFlag: bool, secondDirection: Option<string>, imageLabel: string)
    ensures AllTranslatable(AckPlan(count, nearFlag, secondDirection, imageLabel).commands)
  {
    var commands := AckPlan(count, nearFlag, secondDirection, imageLabel).commands;
    forall i | 0 <= i < |commands|
      ensures Translatable(commands[i])
    {
      assert ScriptCommand(commands[i]);
      ScriptCommandTranslatable(commands[i]);
    }
  }

  /** Start queues a reset and a drive, then the turn the first image asks for, or sets the near flag instead. */
  lemma StartQueuesScript(s: State, p: Prediction)
    ensures var r := Start(s, true, Some(p));
      && r.outcome == Continue
      && r.state.pathQueue == []
      && r.state.androidMsgs == [InfoText(ProcessedStartText)]
      && (p.imageLabel == "Left" ==> r.state.commandQueue == ["RS00", "FW00", "FL00", "FR00", "FW10"])
      && (p.imageLabel == "Right" ==> r.state.commandQueue == ["RS00", "FW00", "FR00", "FL00", "FW10"])
      && (p.imageLabel != "Left" && p.imageLabel != "Right" ==>
            r.state.commandQueue == ["RS00", "FW00"] && r.state.nearFlag)
  {
  }

  /** Only acknowledgements count, each by exactly one. */
  lemma AcksAreCounted(s: State, p: Progress, line: Option<string>, prediction: Option<Prediction>)
    ensures var (r, q) := Ack(s, p, line, prediction);
      && (IsAck(line) ==> q.ackCount == p.ackCount + 1)
      && (!IsAck(line) ==> r == Step(s, Continue) && q == p)
  {
  }

  /** Away from the second, sixth and tenth acknowledgement the script issues nothing and keeps its flags. */
  lemma QuietCounts(s: State, p: Progress, line: Option<string>, prediction: Option<Prediction>)
    requires IsAck(line)
    requires p.ackCount + 1 != 2 && p.ackCount + 1 != 6 && p.ackCount + 1 != 10
    ensures var (r, q) := Ack(s, p, line, prediction);
      r == Step(s.(movementLock := false), Continue) && q == Counters(p.ackCount + 1, p.secondDirection)
  {
  }

  /** The tenth acknowledgement issues the way back, ending in FIN, and needs no image. */
  lemma TenthAckFinishes(s: State, p: Progress, line: Option<string>, prediction: Option<Prediction>)
    requires IsAck(line) && p.ackCount == 9
    ensures var (r, q) := Ack(s, p, line, prediction);
      && r.outcome == Continue
      && r.state.commandQueue == s.commandQueue + FinishScript(p.secondDirection)
      && r.state.nearFlag == s.nearFlag
      && q == Counters(10, p.secondDirection)
  {
    var t := s.(movementLock := false);
    var commands := FinishScript(p.secondDirection);
    AckPlanTranslatable(10, s.nearFlag, p.secondDirection, "");
    IssueAllTranslatable(t, commands);
    IssueAllFrame(t, commands);
    var r := IssueAll(t, commands);
    assert Play(t, 10, p.secondDirection, prediction) == (Step(r.state, Continue), p.secondDirection);
  }

  /**
   * At the second acknowledgement with the near flag set, the re-taken image
   * chooses the turn, and the near flag is cleared.
   */
  lemma NearImageChoosesTurn(s: State, p: Progress, line: Option<string>, pred: Prediction)
    requires IsAck(line) && p.ackCount == 1 && s.nearFlag
    ensures var (r, q) := Ack(s, p, line, Some(pred));
      && r.outcome == Continue && !r.state.nearFlag
      && r.state.commandQueue == s.commandQueue
           + (if pred.imageLabel == "Left" then ["FL00", "FR00", "FW10"] else ["FR00", "FL00", "FW10"])
      && q.secondDirection == p.secondDirection
  {
    var plan := AckPlan(2, true, p.secondDirection, pred.imageLabel);
    AckPlanTranslatable(2, true, p.secondDirection, pred.imageLabel);
    IssueAllTranslatable(s.(movementLock := false), plan.commands);
  }

  /** The second acknowledgement without the near flag, step by step as the handler runs it. */
  lemma PlaySecondFar(t: State, secondDirection: Option<string>, prediction: Option<Prediction>)
    requires !t.nearFlag
    ensures var first := IssueAll(t, ["FW00"]);
      && first.outcome == Continue && !first.state.nearFlag
      && Play(t, 2, secondDirection, prediction)
         == if prediction.None? then (Step(first.state, Crashed("TypeError")), secondDirection)
            else if IsArrow(prediction.value.imageLabel) then
              var rest := IssueAll(first.state, FarTurn(prediction.value.imageLabel));
              if rest.outcome.Crashed? then (rest, secondDirection)
              else (rest, Some(prediction.value.imageLabel))
            else (Step(first.state.(nearFlag := true), Continue), secondDirection)
  {
    ScriptCommandTranslatable("FW00");
    IssueAllTranslatable(t, ["FW00"]);
    IssueAllFrame(t, ["FW00"]);
    if prediction.Some? && IsArrow(prediction.value.imageLabel) {
      var imageLabel := prediction.value.imageLabel;
      IssueAllAppend(t, ["FW00"], FarTurn(imageLabel));
      IssueAllFrame(IssueAll(t, ["FW00"]).state, FarTurn(imageLabel));
    }
  }

  /** The script never touches `start_movement`. */
  lemma PlayKeepsStartMovement(t: State, count: int, secondDirection: Option<string>, prediction: Option<Prediction>)
    ensures Play(t, count, secondDirection, prediction).0.state.startMovement == t.startMovement
  {
    var imageLabel := if prediction.Some? then prediction.value.imageLabel else "";
    IssueAllFrame(t, AckPlan(count, t.nearFlag, secondDirection, imageLabel).commands);
    IssueAllFrame(t, ["FW00"]);
    IssueAllFrame(t, []);
  }

  /**
   * Nothing in this version sets `start_movement`: every step of the router
   * and of the acknowledgement handler keeps it clear, and the dispatcher
   * never gets past its wait.
   */
  lemma StartMovementStaysClear(s: State, p: Progress, msg: Option<Inbound>, serverUp: bool,
                                prediction: Option<Prediction>, line: Option<string>, prefixes: seq<string>)
    requires !s.startMovement
    ensures !Route(s, msg, serverUp, prediction).state.startMovement
    ensures !Ack(s, p, line, prediction).0.state.startMovement
    ensures Dispatch(s, prefixes) == Step(s, Blocked)
  {
    PlayKeepsStartMovement(s.(movementLock := false), p.ackCount + 1, p.secondDirection, prediction);
  }

  /**
   * "start" as main.py writes it: the same queue, with `start_movement` set
   * once the commands are queued so that the dispatcher takes them.
   */
  function StartMoving(s: State, serverUp: bool, prediction: Option<Prediction>): (r: Step)
    ensures r.state.startMovement <==> s.startMovement || (serverUp && prediction.Some?)
    ensures r.outcome == Start(s, serverUp, prediction).outcome
    ensures r.state.commandQueue == Start(s, serverUp, prediction).state.commandQueue
  {
    var r := Start(s, serverUp, prediction);
    if r.outcome == Continue && serverUp then Step(r.state.(startMovement := true), Continue) else r
  }

  /**
   * With `start_movement` set by "start", the dispatcher's first step sends
   * RS00 to the STM and leaves the rest of the opening commands queued.
   */
  lemma StartMovingDispatchesReset(s: State, p: Prediction, prefixes: seq<string>)
    requires !s.movementLock && StartsWithAny("RS00", prefixes)
    ensures var d := Dispatch(StartMoving(s, true, Some(p)).state, prefixes);
      && d.outcome == Continue
      && d.state.stmSent == s.stmSent + ["RS00"]
      && d.state.commandQueue == StartCommands(p.imageLabel)[1..]
      && d.state.startMovement && !d.state.movementLock
  {
  }

  // ----- A failed read of the client link -----

  /**
   * As written, a read that fails after "start" routes "start" again: the
   * queues are cleared and the opening commands queued a second time, so a
   * robot already past RS00 starts over. A closed link fails every read, so
   * this repeats for as long as the link stays down.
   */
  lemma FailedReadReplaysStart(s: State, m: Inbound, r: Receipt, p: Prediction)
    requires m.category == "start" && Caught(r) && s.commandQueue == ["FW00"]
    ensures HeldMessage(HeldAfter(Bound(Some(m)), r)) == Success(Some(m))
    ensures Receive(s, Bound(Some(m)), r, true, Some(p)) == (Route(s, Some(m), true, Some(p)), Bound(Some(m)))
    ensures var again := Route(s, Some(m), true, Some(p)).state;
      && again.commandQueue[..2] == ["RS00", "FW00"]
      && again.commandQueue != s.commandQueue
  {
    FailedReadKeepsMessage(Bound(Some(m)), r);
  }

  /** With `msg` reset before every read, as week8.py does, a failed read routes nothing. */
  lemma FreshFailedReadRoutesNothing(s: State, r: Receipt, serverUp: bool, prediction: Option<Prediction>)
    requires Caught(r)
    ensures Route(s, FreshMessage(r), serverUp, prediction) == Step(s, Continue)
  {
    FreshMessageIsThisRead(r);
  }
}

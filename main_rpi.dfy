/**
 * main.py: the first version of the controller. Each worker loop is a
 * method running one iteration: the client-message router, the motion
 * controller's acknowledgement handler and the command dispatcher. They
 * serialise through one movement lock and the `start_movement` event.
 * Every iteration is specified by a function from the shared state before it
 * to the shared state after it; the lemmas below state what those steps promise.
 */
module MainRpi {
  import opened Wrappers
  import opened PyStr
  import opened Helper
  import opened AndroidMessages
  import opened DeadReckoning
  import opened RpiState

  const StatusCodeErrorText: string := "There was an error when requesting to server. Status Code: "
  const PlannerErrorText: string := "Error when calculating shortest path: "
  const PathRetrievedText: string := "Retrieved shortest path from server. Robot is ready to move"
  const NoObstaclesText: string := "No obstacles set"
  const QueueFinishedText: string := "Commands queue finished."

  /** The planner's reply: HTTP status, the `error` field ("" when falsy) and the path data. */
  datatype PlannerReply = PlannerReply(statusCode: int, error: string, path: seq<Loc>, commands: seq<string>)

  /** The outbound message for a prediction of the vision service. */
  function ImageResultMessage(p: Prediction): Outbound
  {
    Send(AndroidMessage(Str("image"), Dict([("label", Str(p.imageLabel)), ("id", Int(p.imageId))])))
  }

  /** `find_shortest_path` given the planner's reply. */
  function Plan(s: State, reply: PlannerReply): State
  {
    var said := s.androidMsgs + [Info(Status(CalculatingPath))];
    if reply.statusCode != 200 then
      s.(androidMsgs := said + [InfoText(StatusCodeErrorText + IntToString(reply.statusCode))])
    else if reply.error != "" then
      s.(androidMsgs := said + [InfoText(PlannerErrorText + reply.error)])
    else
      s.(pathQueue := s.pathQueue + Waypoints(reply.path), commandQueue := s.commandQueue + reply.commands,
         androidMsgs := said + [InfoText(PathRetrievedText)])
  }

  /**
   * The `ROBOT_CONTROL` branch: the lock is taken (a stale hold having been
   * released), movement enabled, every queue emptied, and the command queued
   * with the location it leads to. A command whose distance does not parse
   * ends the router with the lock still held.
   */
  function ManualControl(s: State, command: string): Step
  {
    var cleared := s.(movementLock := true, startMovement := true,
                      commandQueue := [command], pathQueue := [], androidMsgs := []);
    match Translate(s.location, command)
    case None => Step(cleared, Crashed("ValueError"))
    case Some(loc) => Step(cleared.(location := loc, pathQueue := [loc], movementLock := false), Continue)
  }

  /** One iteration of `handle_android_messages`; `reply` is what the planner answers if asked. */
  function Route(s: State, msg: Option<Inbound>, reply: PlannerReply): Step
  {
    if msg.None? then Step(s, Continue)
    else
      var m := msg.value;
      if m.category == HeaderValue(ItemLocation) then
        if m.payload.ObstacleList? then Step(Plan(s.(obstacles := m.payload.items), reply), Continue)
        else Step(s.(obstacles := []), Crashed("TypeError"))
      else if m.category == "start" then
        if |s.commandQueue| == 0 then Step(s.(androidMsgs := s.androidMsgs + [InfoText(NoObstaclesText)]), Continue)
        else Step(s.(stmSent := s.stmSent + ["RS00"], startMovement := true,
                     androidMsgs := s.androidMsgs + [Info(Status(Ready))]), Continue)
      else if m.category == HeaderValue(RobotControl) then
        if m.payload.Text? then ManualControl(s, m.payload.text)
        else Step(s, Crashed("TypeError"))
      else Step(s, Continue)
  }

  /**
   * One iteration of `handle_android_messages` from the read on, with the
   * router's `msg` as the previous iteration left it: a `KeyError` from the
   * decoding hook ends the router; a caught failure leaves `msg` as it was,
   * and a `msg` never assigned raises; otherwise `msg` is routed.
   */
  function Receive(s: State, held: HeldMsg, r: Receipt, reply: PlannerReply): (Step, HeldMsg)
  {
    var (m, h) := ReadMessage(held, r);
    match m
    case Failure(e) => (Step(s, Crashed(e)), h)
    case Success(msg) => (Route(s, msg, reply), h)
  }

  /** One iteration of `handle_stm_messages`. */
  function Ack(s: State, line: Option<string>): State
  {
    if !IsAck(line) || |s.pathQueue| == 0 then s
    else
      var next := s.pathQueue[0];
      s.(pathQueue := s.pathQueue[1..], location := next, androidMsgs := s.androidMsgs + [LocMessage(next)])
  }

  /** The dispatcher may take a command: one is queued, movement is enabled and the lock is free. */
  predicate CanDispatch(s: State)
  {
    |s.commandQueue| > 0 && s.startMovement && !s.movementLock
  }

  /**
   * The body of `handle_commands` once it holds `command` and the lock (`t`
   * is the state at that point), in the version in which every branch
   * releases the lock exactly once. `prediction` is the vision service's
   * answer to a SNAP capture; `None` makes the subscript on it raise.
   */
  function Execute(t: State, prefixes: seq<string>, command: string, prediction: Option<Prediction>): Step
  {
    if StartsWithAny(command, prefixes) then Step(t.(stmSent := t.stmSent + [command], movementLock := false), Continue)
    else if StartsWith(command, "SNAP") then
      var shown := t.androidMsgs + [Info(Status(DetectingImage))];
      if prediction.None? then Step(t.(androidMsgs := shown), Crashed("TypeError"))
      else Step(t.(androidMsgs := shown + [ImageResultMessage(prediction.value)], movementLock := false), Continue)
    else if command == "FIN" then
      Step(t.(startMovement := false, movementLock := false,
              androidMsgs := t.androidMsgs + [InfoText(QueueFinishedText), Info(Status(Finish))]), Continue)
    else Step(t.(movementLock := false), Continue)
  }

  /**
   * One iteration of `handle_commands`: wait for a command, for
   * `start_movement` and for the lock, then run the command.
   */
  function Dispatch(s: State, prefixes: seq<string>, prediction: Option<Prediction>): Step
  {
    if !CanDispatch(s) then Step(s, Blocked)
    else Execute(s.(commandQueue := s.commandQueue[1..], movementLock := true), prefixes, s.commandQueue[0], prediction)
  }

  /** The dispatcher is about to take "FIN" down its own branch. */
  predicate PicksFin(s: State, prefixes: seq<string>)
  {
    CanDispatch(s) && s.commandQueue[0] == "FIN" && !StartsWithAny("FIN", prefixes)
  }

  class RpiModule {
    const st: SharedState
    /** `stm_command_prefixes` from the configuration; the shipped value is the empty tuple. */
    const stmCommandPrefixes: seq<string>
    /** The router's local `msg`, which persists from one iteration to the next. */
    var held: HeldMsg

    constructor (stmCommandPrefixes: seq<string>)
      ensures fresh(st) && st.Snapshot() == InitialState()
      ensures this.stmCommandPrefixes == stmCommandPrefixes && held == Unbound
    {
      st := new SharedState();
      this.stmCommandPrefixes := stmCommandPrefixes;
      held := Unbound;
    }

    method FindShortestPath(reply: PlannerReply)
      modifies st
      ensures st.Snapshot() == Plan(old(st.Snapshot()), reply)
    {
      st.Put(Info(Status(CalculatingPath)));
      if reply.statusCode != 200 {
        st.Put(InfoText(StatusCodeErrorText + IntToString(reply.statusCode)));
        return;
      }
      if reply.error != "" {
        st.Put(InfoText(PlannerErrorText + reply.error));
        return;
      }
      st.PutPath(Waypoints(reply.path));
      st.PutCommands(reply.commands);
      st.Put(InfoText(PathRetrievedText));
    }

    /** One iteration of the router, given what this read of the client link yielded. */
    method HandleAndroidMessage(r: Receipt, reply: PlannerReply) returns (outcome: StepOutcome)
      modifies this, st
      ensures (Step(st.Snapshot(), outcome), held) == Receive(old(st.Snapshot()), old(held), r, reply)
    {
      if r.HookRaised? {
        return Crashed("KeyError");
      }
      if r.Decoded? {
        held := Bound(r.msg);
      }
      if held.Unbound? {
        return Crashed("UnboundLocalError");
      }
      outcome := RouteMessage(held.msg, reply);
    }

    /** The router once `msg` is known: the branches on its category. */
    method RouteMessage(msg: Option<Inbound>, reply: PlannerReply) returns (outcome: StepOutcome)
      modifies st
      ensures Step(st.Snapshot(), outcome) == Route(old(st.Snapshot()), msg, reply)
    {
      outcome := Continue;
      if msg.None? {
        return;
      }
      var m := msg.value;
      if m.category == HeaderValue(ItemLocation) {
        if !m.payload.ObstacleList? {
          st.ReplaceObstacles([]);
          return Crashed("TypeError");
        }
        st.ReplaceObstacles(m.payload.items);
        FindShortestPath(reply);
      } else if m.category == "start" {
        if |st.commandQueue| == 0 {
          st.Put(InfoText(NoObstaclesText));
          return;
        }
        st.SendToStm("RS00");
        st.SetStartMovement(true);
        st.Put(Info(Status(Ready)));
      } else if m.category == HeaderValue(RobotControl) {
        if !m.payload.Text? {
          return Crashed("TypeError");
        }
        outcome := TakeManualControl(m.payload.text);
      }
    }

    /** The `ROBOT_CONTROL` branch of the router. */
    method TakeManualControl(command: string) returns (outcome: StepOutcome)
      modifies st
      ensures Step(st.Snapshot(), outcome) == ManualControl(old(st.Snapshot()), command)
    {
      ResetForCommand(command);
      ghost var cleared := st.Snapshot();
      var ok := st.TranslateRobot(command);
      ghost var moved := Translate(old(st.Location()), command);
      if !ok {
        assert st.Snapshot() == cleared;
        return Crashed("ValueError");
      }
      assert st.Snapshot() == cleared.(location := moved.value);
      st.PutLocation(st.Location());
      var _ := st.ReleaseLock();
      outcome := Continue;
    }

    /** Takes the lock from whoever holds it, enables movement and leaves `command` alone in the queues. */
    method ResetForCommand(command: string)
      modifies st
      ensures st.Snapshot() == old(st.Snapshot()).(movementLock := true, startMovement := true,
                                                   commandQueue := [command], pathQueue := [], androidMsgs := [])
    {
      // releasing a free lock only logs a warning here
      var _ := st.ReleaseLock();
      st.AcquireLock();
      st.SetStartMovement(true);
      st.ClearQueues();
      st.PutCommand(command);
    }

    method HandleStmMessage(line: Option<string>)
      modifies st
      ensures st.Snapshot() == Ack(old(st.Snapshot()), line)
    {
      if line.None? {
        return;
      }
      if !Contains(line.value, "ACK") || |line.value| <= 0 {
        return;
      }
      if |st.pathQueue| == 0 {
        return;
      }
      var next := st.GetLocation();
      st.SetLocation(next);
      st.Put(LocMessage(st.Location()));
    }

    /**
     * `handle_commands` as written. It matches `Dispatch` except on FIN:
     * that branch releases the lock itself, and the release after the
     * branch then raises on the free lock and ends the worker.
     */
    method HandleCommand(prediction: Option<Prediction>) returns (outcome: StepOutcome)
      modifies st
      ensures var expected := Dispatch(old(st.Snapshot()), stmCommandPrefixes, prediction);
        st.Snapshot() == expected.state
        && outcome == if PicksFin(old(st.Snapshot()), stmCommandPrefixes) then Crashed("RuntimeError")
                      else expected.outcome
    {
      if |st.commandQueue| == 0 || !st.startMovement || st.movementLock {
        return Blocked;
      }
      var command := st.GetCommand();
      st.AcquireLock();
      outcome := RunCommand(command, prediction);
    }

    /** The branches of `handle_commands` as written, entered holding the lock. */
    method RunCommand(command: string, prediction: Option<Prediction>) returns (outcome: StepOutcome)
      requires st.movementLock
      modifies st
      ensures var expected := Execute(old(st.Snapshot()), stmCommandPrefixes, command, prediction);
        st.Snapshot() == expected.state
        && outcome == if command == "FIN" && !StartsWithAny(command, stmCommandPrefixes) then Crashed("RuntimeError")
                      else expected.outcome
    {
      if StartsWithAny(command, stmCommandPrefixes) {
        st.SendToStm(command);
      } else if StartsWith(command, "SNAP") {
        st.Put(Info(Status(DetectingImage)));
        if prediction.None? {
          return Crashed("TypeError");
        }
        st.Put(ImageResultMessage(prediction.value));
      } else if command == "FIN" {
        st.SetStartMovement(false);
        var _ := st.ReleaseLock();
        st.Put(InfoText(QueueFinishedText));
        st.Put(Info(Status(Finish)));
      }
      var released := st.ReleaseLock();
      outcome := if released then Continue else Crashed("RuntimeError");
    }

    /** `handle_commands` with the FIN branch's own release removed. */
    method HandleCommandReleasingOnce(prediction: Option<Prediction>) returns (outcome: StepOutcome)
      modifies st
      ensures Step(st.Snapshot(), outcome) == Dispatch(old(st.Snapshot()), stmCommandPrefixes, prediction)
    {
      if |st.commandQueue| == 0 || !st.startMovement || st.movementLock {
        return Blocked;
      }
      var command := st.GetCommand();
      st.AcquireLock();
      outcome := RunCommandReleasingOnce(command, prediction);
    }

    /** The branches of `handle_commands`, each releasing the lock once. */
    method RunCommandReleasingOnce(command: string, prediction: Option<Prediction>) returns (outcome: StepOutcome)
      requires st.movementLock
      modifies st
      ensures Step(st.Snapshot(), outcome) == Execute(old(st.Snapshot()), stmCommandPrefixes, command, prediction)
    {
      if StartsWithAny(command, stmCommandPrefixes) {
        st.SendToStm(command);
      } else if StartsWith(command, "SNAP") {
        st.Put(Info(Status(DetectingImage)));
        if prediction.None? {
          return Crashed("TypeError");
        }
        st.Put(ImageResultMessage(prediction.value));
      } else if command == "FIN" {
        st.SetStartMovement(false);
        st.Put(InfoText(QueueFinishedText));
        st.Put(Info(Status(Finish)));
      }
      var released := st.ReleaseLock();
      assert released;
      outcome := Continue;
    }
  }

  /**
   * A run the dispatcher as written does not survive: the client drives the
   * robot by hand with the command "FIN" and the dispatcher's worker dies.
   */
  method ManualFinStopsDispatcher() returns (outcome: StepOutcome)
    ensures outcome == Crashed("RuntimeError")
  {
    var rpi := new RpiModule([]);
    var routed := rpi.HandleAndroidMessage(LoadWithHook("ROBOT_CONTROL", TextData("FIN")), PlannerReply(200, "", [], []));
    assert rpi.st.Snapshot().commandQueue == ["FIN"];
    outcome := rpi.HandleCommand(None);
  }

  // ----- What the steps promise -----

  /** A location message for each location, in order. */
  function LocMessages(locs: seq<Loc>): (r: seq<Outbound>)
    ensures |r| == |locs|
    ensures forall i :: 0 <= i < |locs| ==> r[i] == LocMessage(locs[i])
  {
    if |locs| == 0 then [] else [LocMessage(locs[0])] + LocMessages(locs[1..])
  }

  lemma AppendAssoc<T>(a: seq<T>, b: seq<T>, c: seq<T>)
    ensures a + b + c == a + (b + c)
  {
  }

  /** The acknowledgement handler run over several lines, oldest first. */
  function AckAll(s: State, lines: seq<Option<string>>): State
    decreases |lines|
  {
    if |lines| == 0 then s else AckAll(Ack(s, lines[0]), lines[1..])
  }

  /**
   * Each acknowledgement commits the next queued location: after n of them
   * (with at least n queued) the robot stands at the n-th queued location,
   * those locations have left the queue and each was reported, in order.
   */
  lemma {:induction false} AcksFollowPath(s: State, lines: seq<Option<string>>)
    requires forall i :: 0 <= i < |lines| ==> IsAck(lines[i])
    requires |lines| <= |s.pathQueue|
    ensures var t := AckAll(s, lines);
      && t.pathQueue == s.pathQueue[|lines|..]
      && t.androidMsgs == s.androidMsgs + LocMessages(s.pathQueue[..|lines|])
      && t.location == (if |lines| == 0 then s.location else s.pathQueue[|lines| - 1])
      && t.commandQueue == s.commandQueue && t.movementLock == s.movementLock
    decreases |lines|
  {
    if |lines| > 0 {
      var q, n := s.pathQueue, |lines|;
      var s1 := Ack(s, lines[0]);
      assert s1 == s.(pathQueue := q[1..], location := q[0], androidMsgs := s.androidMsgs + [LocMessage(q[0])]);
      assert forall i :: 0 <= i < n - 1 ==> lines[1..][i] == lines[i + 1];
      AcksFollowPath(s1, lines[1..]);
      assert q[1..][n - 1..] == q[n..];
      assert q[..n][1..] == q[1..][..n - 1];
      assert LocMessages(q[..n]) == [LocMessage(q[0])] + LocMessages(q[1..][..n - 1]);
      AppendAssoc(s.androidMsgs, [LocMessage(q[0])], LocMessages(q[1..][..n - 1]));
      if n > 1 {
        assert q[1..][n - 2] == q[n - 1];
      }
    }
  }

  /**
   * A hand-driven command that translates: the one acknowledgement that
   * follows commits exactly the location the router predicted and empties
   * the path queue.
   */
  lemma ManualControlThenAck(s: State, command: string, reply: PlannerReply)
    requires Translate(s.location, command).Some?
    ensures var routed := Route(s, Some(Inbound("ROBOT_CONTROL", Text(command))), reply);
      var acked := Ack(routed.state, Some("ACK"));
      && routed.outcome == Continue
      && routed.state.commandQueue == [command] && routed.state.startMovement && !routed.state.movementLock
      && acked.location == Translate(s.location, command).value
      && acked.pathQueue == []
      && acked.androidMsgs == [LocMessage(acked.location)]
  {
    assert StartsWith("ACK", "ACK");
  }

  /**
   * The planner's path (less the starting point) and its commands reach the
   * queues after a 200 reply without an error; after any other reply only
   * the client hears of it.
   */
  lemma PlanQueuesOnlyOnSuccess(s: State, reply: PlannerReply)
    ensures var t := Plan(s, reply);
      && |t.androidMsgs| == |s.androidMsgs| + 2
      && t.androidMsgs[|s.androidMsgs|] == Info(Status(CalculatingPath))
      && (reply.statusCode == 200 && reply.error == "" ==>
          t.commandQueue == s.commandQueue + reply.commands && t.pathQueue == s.pathQueue + Waypoints(reply.path))
      && (reply.statusCode != 200 || reply.error != "" ==> t == s.(androidMsgs := t.androidMsgs))
  {
  }

  /** "start" enables movement exactly when commands are queued. */
  lemma StartNeedsCommands(s: State, reply: PlannerReply)
    requires !s.startMovement
    ensures Route(s, Some(Inbound("start", Text(""))), reply).state.startMovement <==> |s.commandQueue| > 0
  {
  }

  /**
   * With the shipped configuration (no command prefixes) the dispatcher
   * writes nothing to the motion controller.
   */
  lemma NoPrefixesSendsNothing(s: State, prediction: Option<Prediction>)
    ensures Dispatch(s, [], prediction).state.stmSent == s.stmSent
  {
  }

  /**
   * A dispatcher iteration that does not block consumes exactly the oldest
   * command, and unless it crashed it leaves the lock as free as it found it.
   */
  lemma DispatchConsumesOne(s: State, prefixes: seq<string>, prediction: Option<Prediction>)
    ensures var r := Dispatch(s, prefixes, prediction);
      && (r.outcome == Blocked <==> !CanDispatch(s))
      && (r.outcome != Blocked ==> r.state.commandQueue == s.commandQueue[1..])
      && (r.outcome == Continue ==> !r.state.movementLock)
  {
  }

  /** With one release per iteration, FIN stops movement, frees the lock and the worker goes on. */
  lemma FinReleasesLockOnce(s: State, prefixes: seq<string>, prediction: Option<Prediction>)
    requires PicksFin(s, prefixes)
    ensures var r := Dispatch(s, prefixes, prediction);
      && r.outcome == Continue && !r.state.movementLock && !r.state.startMovement
      && r.state.androidMsgs == s.androidMsgs + [InfoText(QueueFinishedText), Info(Status(Finish))]
  {
    assert !StartsWith("FIN", "SNAP");
  }

  /** An obstacle list replaces the stored obstacles with exactly the reported ones, in order, then asks the planner. */
  lemma ItemLocationReplacesObstacles(s: State, items: seq<Obstacle>, reply: PlannerReply)
    ensures var r := Route(s, Some(Inbound(HeaderValue(ItemLocation), ObstacleList(items))), reply);
      && r.outcome == Continue
      && r.state.obstacles == items
      && r.state.location == s.location && r.state.startMovement == s.startMovement
      && r.state.androidMsgs[|s.androidMsgs|] == Info(Status(CalculatingPath))
  {
    PlanQueuesOnlyOnSuccess(s.(obstacles := items), reply);
  }

  /**
   * As written, an obstacle message never reaches the planner: sent as an
   * object, the decoding hook raises on it; sent as text, indexing it with
   * 'obstacles' raises. Either way the router ends with nothing queued.
   */
  lemma ItemLocationNeverPlans(s: State, held: HeldMsg, data: ClientData, reply: PlannerReply)
    ensures var (step, _) := Receive(s, held, LoadWithHook(HeaderValue(ItemLocation), data), reply);
      && step.outcome.Crashed?
      && step.state.commandQueue == s.commandQueue && step.state.pathQueue == s.pathQueue
      && step.state.androidMsgs == s.androidMsgs && step.state.location == s.location
  {
  }

  /**
   * As written, a read that fails and is caught routes the previous message
   * again, and raises if no message has been decoded yet.
   */
  lemma FailedReadRoutesHeld(s: State, held: HeldMsg, r: Receipt, reply: PlannerReply)
    requires Caught(r)
    ensures Receive(s, held, r, reply).1 == held
    ensures Receive(s, held, r, reply).0
         == match HeldMessage(held)
            case Failure(e) => Step(s, Crashed(e))
            case Success(msg) => Route(s, msg, reply)
  {
    FailedReadKeepsMessage(held, r);
  }

  /**
   * A line without "ACK" changes nothing, nor does an acknowledgement with no
   * location queued; otherwise the robot moves to the oldest queued location
   * and exactly one report of it is sent.
   */
  lemma AckCommitsOldest(s: State, line: Option<string>)
    ensures !IsAck(line) || |s.pathQueue| == 0 ==> Ack(s, line) == s
    ensures IsAck(line) && |s.pathQueue| > 0 ==>
      var r := Ack(s, line);
      && r.location == s.pathQueue[0] && r.pathQueue == s.pathQueue[1..]
      && r.androidMsgs == s.androidMsgs + [LocMessage(s.pathQueue[0])]
      && r.commandQueue == s.commandQueue && r.movementLock == s.movementLock
  {
  }
}

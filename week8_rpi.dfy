/**
 * week8.py: the controller with a one-in-flight gate. The dispatcher may
 * send a motion command only while `full` is set; sending clears `full` and
 * sets `empty`, and the acknowledgement handler, which runs only while
 * `empty` is set, clears it again and sets `full`. A `manual_ctrl` latch
 * lets a hand-driven command run once. Headings read back from the path
 * queue are normalised into [0, 360).
 */
module Week8Rpi {
  import opened Wrappers
  import opened PyStr
  import opened Helper
  import opened AndroidMessages
  import opened DeadReckoning
  import opened RpiState

  const QueryErrorText: string := "There was an error when querying path"
  const PathRetrievedText: string := "Retrieved shortest path from server. Robot is ready to move"
  const NoObstaclesText: string := "No obstacles set"
  const CapturedText: string := "Captured image, sending to server"
  const ReceivedText: string := "Received image result"
  const QueueFinishedText: string := "Commands queue finished."

  /** What `query_path` returns when it succeeds. */
  datatype PathData = PathData(path: seq<Loc>, commands: seq<string>)

  /** `str({"target_id": ..., "obstacle_id": ...})` sent under IMAGE_RESULT. */
  function ImageResultMessage(p: Prediction): Outbound
  {
    Send(AndroidMessage(Str(HeaderValue(ImageResult)),
                        Str(RenderIntDict([("target_id", p.imageId), ("obstacle_id", p.obstacleId)]))))
  }

  /** `find_shortest_path`: `None` stands for a failed query. */
  function Plan(s: State, reply: Option<PathData>): State
  {
    var said := s.androidMsgs + [StatusMessage(CalculatingPath)];
    match reply
    case None => s.(androidMsgs := said + [InfoText(QueryErrorText)])
    case Some(data) =>
      s.(pathQueue := s.pathQueue + Waypoints(data.path), commandQueue := s.commandQueue + data.commands,
         androidMsgs := said + [InfoText(PathRetrievedText)])
  }

  /**
   * The `ROBOT_CONTROL` branch: the lock is taken (a stale hold having been
   * released), the queues are emptied, the command is queued with the
   * location it leads to, movement and the one-shot latch are enabled, the
   * gate is opened and the lock released.
   */
  function ManualControl(s: State, command: string, translateCommand: (string, int) -> (int, int, int)): State
  {
    var loc := TranslateWith(s.location, command, translateCommand);
    s.(commandQueue := [command], pathQueue := [loc], androidMsgs := [], location := loc,
       startMovement := true, manualCtrl := true, full := true, movementLock := false)
  }

  /**
   * The library parsers the router applies to a text payload: for an
   * obstacle list, `ast.literal_eval` and then the reads of each
   * obstacle's fields (week8.py:134-144); for a robot location, `json.loads`
   * and then the reads of x, y and d (week8.py:149-154). A `Failure` names
   * the exception raised on text they reject.
   */
  datatype Readers = Readers(obstacles: string -> Result<seq<Obstacle>, string>,
                             location: string -> Result<Loc, string>)

  /**
   * One iteration of `handle_android_messages`. `startMovementHeader` is the
   * value of `BluetoothHeader.START_MOVEMENT`, which the enum this script
   * imports defines; `None` stands for an enum without that member, where
   * evaluating it raises. A payload that is not text makes
   * `ast.literal_eval` raise ValueError and `json.loads` raise TypeError.
   */
  function Route(s: State, msg: Option<Inbound>, reply: Option<PathData>, startMovementHeader: Option<string>,
                 translateCommand: (string, int) -> (int, int, int), readers: Readers): Step
  {
    if msg.None? then Step(s, Continue)
    else
      var m := msg.value;
      if m.category == HeaderValue(ItemLocation) then
        if !m.payload.Text? then Step(s.(obstacles := []), Crashed("ValueError"))
        else
          match readers.obstacles(m.payload.text)
          case Failure(e) => Step(s.(obstacles := []), Crashed(e))
          case Success(items) => Step(Plan(s.(obstacles := items), reply), Continue)
      else if m.category == HeaderValue(RobotLocation) then
        if !m.payload.Text? then Step(s, Crashed("TypeError"))
        else
          match readers.location(m.payload.text)
          case Failure(e) => Step(s, Crashed(e))
          case Success(loc) => Step(s.(location := loc), Continue)
      else if startMovementHeader.None? then Step(s, Crashed("AttributeError"))
      else if m.category == startMovementHeader.value then
        if |s.commandQueue| == 0 then Step(s.(androidMsgs := s.androidMsgs + [InfoText(NoObstaclesText)]), Continue)
        else Step(s.(startMovement := true, full := true, androidMsgs := s.androidMsgs + [StatusMessage(Ready)]), Continue)
      else if m.category == HeaderValue(RobotControl) then
        if m.payload.Text? then Step(ManualControl(s, m.payload.text, translateCommand), Continue)
        else Step(s, Crashed("TypeError"))
      else Step(s, Continue)
  }

  /**
   * One iteration of `handle_android_messages` from the read on: `msg` is
   * reset before the read, so a caught failure routes nothing, while the
   * decoding hook's KeyError is not caught and ends the router.
   */
  function Receive(s: State, r: Receipt, reply: Option<PathData>, startMovementHeader: Option<string>,
                   translateCommand: (string, int) -> (int, int, int), readers: Readers): Step
  {
    if r.HookRaised? then Step(s, Crashed("KeyError"))
    else Route(s, FreshMessage(r), reply, startMovementHeader, translateCommand, readers)
  }

  /**
   * One iteration of `handle_stm_messages`: an acknowledgement waits for
   * `empty` and the lock, commits the oldest queued location (heading
   * normalised) if there is one, then closes `empty`, opens `full` and
   * releases the lock.
   */
  function Ack(s: State, line: Option<string>): Step
  {
    if !IsAck(line) then Step(s, Continue)
    else if !s.empty || s.movementLock then Step(s, Blocked)
    else
      var moved :=
        if |s.pathQueue| == 0 then s
        else
          var next := s.pathQueue[0];
          var loc := Loc(next.x, next.y, next.d % 360);
          s.(pathQueue := s.pathQueue[1..], location := loc, androidMsgs := s.androidMsgs + [LocMessage(loc)]);
      Step(moved.(empty := false, full := true, movementLock := false), Continue)
  }

  /** The dispatcher may take a command: one is queued, movement is enabled, the gate is open and the lock free. */
  predicate CanDispatch(s: State)
  {
    |s.commandQueue| > 0 && s.startMovement && s.full && !s.movementLock
  }

  /**
   * The branches of `handle_commands`, entered holding `command` and the
   * lock. A motion command closes the gate and releases the lock; SNAP
   * reports, sets `empty` and releases the lock; FIN and unknown commands
   * keep the lock.
   */
  function Execute(t: State, prefixes: seq<string>, command: string, prediction: Option<Prediction>): State
  {
    if StartsWithAny(command, prefixes) then
      t.(stmSent := t.stmSent + [command], full := false, empty := true, movementLock := false)
    else if StartsWith(command, "SNAP") then
      var said := t.androidMsgs + [StatusMessage(DetectingImage), InfoText(CapturedText), InfoText(ReceivedText)];
      var reported := if prediction.Some? then said + [ImageResultMessage(prediction.value)] else said;
      t.(androidMsgs := reported, empty := true, movementLock := false)
    else if command == "FIN" then
      t.(startMovement := false, androidMsgs := t.androidMsgs + [InfoText(QueueFinishedText), StatusMessage(Finish)])
    else t
  }

  /** After any command, a set `manual_ctrl` is cleared together with `start_movement`. */
  function Unlatch(s: State): State
  {
    if s.manualCtrl then s.(manualCtrl := false, startMovement := false) else s
  }

  /** One iteration of `handle_commands`. */
  function Dispatch(s: State, prefixes: seq<string>, prediction: Option<Prediction>): Step
  {
    if !CanDispatch(s) then Step(s, Blocked)
    else
      var t := s.(commandQueue := s.commandQueue[1..], movementLock := true);
      Step(Unlatch(Execute(t, prefixes, s.commandQueue[0], prediction)), Continue)
  }

  class RpiModule {
    const st: SharedState
    /** `stm_command_prefixes` from the configuration; the shipped value is the empty tuple. */
    const stmCommandPrefixes: seq<string>
    /** The value of `BluetoothHeader.START_MOVEMENT`, if the enum has that member. */
    const startMovementHeader: Option<string>
    /** `TranslateCommand`, a table that is not part of this model. */
    const translateCommand: (string, int) -> (int, int, int)
    /** `ast.literal_eval` and `json.loads` with the field reads that follow them. */
    const readers: Readers

    constructor (stmCommandPrefixes: seq<string>, startMovementHeader: Option<string>,
                 translateCommand: (string, int) -> (int, int, int), readers: Readers)
      ensures fresh(st) && st.Snapshot() == InitialState()
      ensures this.stmCommandPrefixes == stmCommandPrefixes && this.startMovementHeader == startMovementHeader
      ensures this.translateCommand == translateCommand && this.readers == readers
    {
      st := new SharedState();
      this.stmCommandPrefixes := stmCommandPrefixes;
      this.startMovementHeader := startMovementHeader;
      this.translateCommand := translateCommand;
      this.readers := readers;
    }

    /**
     * The loop at the end of `handle_stm_messages`: a heading of 360 or more
     * is reduced modulo 360, a negative one raised by 360 until it is not.
     */
    method NormaliseHeading(d: int) returns (r: int)
      ensures 0 <= r < 360
      ensures (r - d) % 360 == 0
      ensures 0 <= d < 360 ==> r == d
      ensures r == d % 360
    {
      r := d;
      if r >= 360 {
        r := r % 360;
      }
      while r < 0
        invariant r < 360 && (r - d) % 360 == 0
        decreases -r
      {
        r := r + 360;
      }
    }

    method FindShortestPath(reply: Option<PathData>)
      modifies st
      ensures st.Snapshot() == Plan(old(st.Snapshot()), reply)
    {
      st.Put(StatusMessage(CalculatingPath));
      if reply.None? {
        st.Put(InfoText(QueryErrorText));
      } else {
        st.PutPath(Waypoints(reply.value.path));
        st.PutCommands(reply.value.commands);
        st.Put(InfoText(PathRetrievedText));
      }
    }

    /** One iteration of the router, given what this read of the client link yielded. */
    method HandleAndroidMessage(r: Receipt, reply: Option<PathData>) returns (outcome: StepOutcome)
      modifies st
      ensures Step(st.Snapshot(), outcome)
           == Receive(old(st.Snapshot()), r, reply, startMovementHeader, translateCommand, readers)
    {
      if r.HookRaised? {
        return Crashed("KeyError");
      }
      var msg := if r.Decoded? then r.msg else None;
      outcome := RouteMessage(msg, reply);
    }

    /** The router once `msg` is known: the branches on its category. */
    method RouteMessage(msg: Option<Inbound>, reply: Option<PathData>) returns (outcome: StepOutcome)
      modifies st
      ensures Step(st.Snapshot(), outcome)
           == Route(old(st.Snapshot()), msg, reply, startMovementHeader, translateCommand, readers)
    {
      outcome := Continue;
      if msg.None? {
        return;
      }
      var m := msg.value;
      if m.category == HeaderValue(ItemLocation) {
        st.ReplaceObstacles([]);
        if !m.payload.Text? {
          return Crashed("ValueError");
        }
        var obstacles := readers.obstacles(m.payload.text);
        if obstacles.Failure? {
          return Crashed(obstacles.error);
        }
        st.ReplaceObstacles(obstacles.value);
        FindShortestPath(reply);
      } else if m.category == HeaderValue(RobotLocation) {
        if !m.payload.Text? {
          return Crashed("TypeError");
        }
        var loc := readers.location(m.payload.text);
        if loc.Failure? {
          return Crashed(loc.error);
        }
        st.SetLocation(loc.value);
      } else if startMovementHeader.None? {
        return Crashed("AttributeError");
      } else if m.category == startMovementHeader.value {
        if |st.commandQueue| == 0 {
          st.Put(InfoText(NoObstaclesText));
          return;
        }
        st.SetStartMovement(true);
        st.SetFull(true);
        st.Put(StatusMessage(Ready));
      } else if m.category == HeaderValue(RobotControl) {
        if !m.payload.Text? {
          return Crashed("TypeError");
        }
        TakeManualControl(m.payload.text);
      }
    }

    /** The `ROBOT_CONTROL` branch of the router. */
    method TakeManualControl(command: string)
      modifies st
      ensures st.Snapshot() == ManualControl(old(st.Snapshot()), command, translateCommand)
    {
      ghost var s := st.Snapshot();
      ResetForCommand(command);
      st.TranslateRobotWith(command, translateCommand);
      ghost var loc := TranslateWith(s.location, command, translateCommand);
      assert st.Snapshot()
          == s.(commandQueue := [command], pathQueue := [], androidMsgs := [], movementLock := true, location := loc);
      st.PutLocation(st.Location());
      st.SetStartMovement(true);
      st.SetManualCtrl(true);
      st.SetFull(true);
      var _ := st.ReleaseLock();
    }

    /** Take the lock (releasing a stale hold first), empty the queues and queue the command. */
    method ResetForCommand(command: string)
      modifies st
      ensures st.Snapshot()
           == old(st.Snapshot()).(commandQueue := [command], pathQueue := [], androidMsgs := [], movementLock := true)
    {
      // releasing a free lock only logs a warning here
      var _ := st.ReleaseLock();
      st.AcquireLock();
      st.ClearQueues();
      st.PutCommand(command);
    }

    method HandleStmMessage(line: Option<string>) returns (outcome: StepOutcome)
      modifies st
      ensures Step(st.Snapshot(), outcome) == Ack(old(st.Snapshot()), line)
    {
      if line.None? || !Contains(line.value, "ACK") || |line.value| <= 0 {
        return Continue;
      }
      if !st.empty || st.movementLock {
        return Blocked;
      }
      st.AcquireLock();
      if |st.pathQueue| > 0 {
        var next := st.GetLocation();
        var heading := NormaliseHeading(next.d);
        st.SetLocation(Loc(next.x, next.y, heading));
        st.Put(LocMessage(st.Location()));
      }
      st.SetEmpty(false);
      st.SetFull(true);
      var _ := st.ReleaseLock();
      outcome := Continue;
    }

    method HandleCommand(prediction: Option<Prediction>) returns (outcome: StepOutcome)
      modifies st
      ensures Step(st.Snapshot(), outcome) == Dispatch(old(st.Snapshot()), stmCommandPrefixes, prediction)
    {
      if |st.commandQueue| == 0 || !st.startMovement || !st.full || st.movementLock {
        return Blocked;
      }
      var command := st.GetCommand();
      st.AcquireLock();
      RunCommand(command, prediction);
      if st.manualCtrl {
        st.SetManualCtrl(false);
        st.SetStartMovement(false);
      }
      outcome := Continue;
    }

    /** The branches of `handle_commands`, entered holding the lock. */
    method RunCommand(command: string, prediction: Option<Prediction>)
      requires st.movementLock
      modifies st
      ensures st.Snapshot() == Execute(old(st.Snapshot()), stmCommandPrefixes, command, prediction)
    {
      if StartsWithAny(command, stmCommandPrefixes) {
        st.SendToStm(command);
        st.SetFull(false);
        st.SetEmpty(true);
        var _ := st.ReleaseLock();
      } else if StartsWith(command, "SNAP") {
        ghost var t := st.Snapshot();
        st.Put(StatusMessage(DetectingImage));
        st.Put(InfoText(CapturedText));
        st.Put(InfoText(ReceivedText));
        ghost var said := t.androidMsgs + [StatusMessage(DetectingImage), InfoText(CapturedText), InfoText(ReceivedText)];
        assert st.Snapshot() == t.(androidMsgs := said);
        if prediction.Some? {
          st.Put(ImageResultMessage(prediction.value));
        }
        st.SetEmpty(true);
        var _ := st.ReleaseLock();
      } else if command == "FIN" {
        st.SetStartMovement(false);
        st.Put(InfoText(QueueFinishedText));
        st.Put(StatusMessage(Finish));
      }
    }
  }

  // ----- What the gate and the latches promise -----

  /**
   * Once a motion command has been sent the gate is closed: the
   * dispatcher's next step blocks, and an acknowledgement, which the gate
   * and the lock do not block, reopens it.
   */
  lemma SendClosesGateUntilAck(s: State, prefixes: seq<string>, prediction: Option<Prediction>,
                               next: Option<Prediction>, line: Option<string>)
    requires CanDispatch(s) && StartsWithAny(s.commandQueue[0], prefixes)
    requires IsAck(line)
    ensures var sent := Dispatch(s, prefixes, prediction).state;
      && sent.stmSent == s.stmSent + [s.commandQueue[0]]
      && Dispatch(sent, prefixes, next).outcome == Blocked
      && var acked := Ack(sent, line);
         acked.outcome == Continue && acked.state.full && !acked.state.empty && !acked.state.movementLock
  {
  }

  /**
   * The acknowledgement is not the only way to reopen the gate: "start"
   * sets `full` again (as does manual control), so the next queued motion
   * command is sent with no acknowledgement in between.
   */
  lemma StartReopensGateWithoutAck(s: State, prefixes: seq<string>, prediction: Option<Prediction>,
                                   next: Option<Prediction>, reply: Option<PathData>, header: string,
                                   translateCommand: (string, int) -> (int, int, int), readers: Readers)
    requires header != HeaderValue(ItemLocation) && header != HeaderValue(RobotLocation)
    requires CanDispatch(s) && |s.commandQueue| > 1
    requires StartsWithAny(s.commandQueue[0], prefixes) && StartsWithAny(s.commandQueue[1], prefixes)
    ensures var sent := Dispatch(s, prefixes, prediction).state;
      var restarted := Route(sent, Some(Inbound(header, Text(""))), reply, Some(header), translateCommand, readers);
      var again := Dispatch(restarted.state, prefixes, next);
      && !sent.full && sent.empty
      && restarted.outcome == Continue && restarted.state.full
      && again.outcome == Continue
      && again.state.stmSent == s.stmSent + [s.commandQueue[0], s.commandQueue[1]]
  {
  }

  /** The SNAP branch sets `empty` without clearing `full`, so both are set if `full` was. */
  lemma SnapLeavesBothSet(s: State, prefixes: seq<string>, prediction: Option<Prediction>)
    requires CanDispatch(s) && !StartsWithAny(s.commandQueue[0], prefixes) && StartsWith(s.commandQueue[0], "SNAP")
    ensures var r := Dispatch(s, prefixes, prediction).state;
      r.full && r.empty && !r.movementLock && r.stmSent == s.stmSent
  {
  }

  /**
   * FIN and unknown commands keep the lock: afterwards both the dispatcher
   * and the acknowledgement handler block.
   */
  lemma FinKeepsLock(s: State, prefixes: seq<string>, prediction: Option<Prediction>, next: Option<Prediction>,
                     line: Option<string>)
    requires CanDispatch(s)
    requires !StartsWithAny(s.commandQueue[0], prefixes) && !StartsWith(s.commandQueue[0], "SNAP")
    requires IsAck(line)
    ensures var r := Dispatch(s, prefixes, prediction).state;
      && r.movementLock
      && Dispatch(r, prefixes, next).outcome == Blocked
      && Ack(r, line).outcome == Blocked
      && (s.commandQueue[0] == "FIN" ==>
            !r.startMovement && r.androidMsgs == s.androidMsgs + [InfoText(QueueFinishedText), StatusMessage(Finish)])
  {
  }

  /**
   * An acknowledgement that gets past the gate always closes `empty`, opens
   * `full` and releases the lock; it moves the robot exactly when a location
   * was queued, and the heading it commits lies in [0, 360).
   */
  lemma AckReopensGate(s: State, line: Option<string>)
    requires IsAck(line) && s.empty && !s.movementLock
    ensures var r := Ack(s, line);
      && r.outcome == Continue && r.state.full && !r.state.empty && !r.state.movementLock
      && (|s.pathQueue| == 0 <==> r.state.location == s.location && r.state.androidMsgs == s.androidMsgs)
      && (|s.pathQueue| > 0 ==>
            r.state.pathQueue == s.pathQueue[1..] && 0 <= r.state.location.d < 360
            && r.state.location.x == s.pathQueue[0].x && r.state.location.y == s.pathQueue[0].y)
  {
    var r := Ack(s, line);
    if |s.pathQueue| > 0 {
      assert |r.state.androidMsgs| == |s.androidMsgs| + 1;
    }
  }

  /**
   * A hand-driven command runs once: manual control queues it alone with
   * the gate open and movement enabled, the dispatcher takes it, and after
   * that both latches are clear and the dispatcher blocks.
   */
  lemma ManualCommandRunsOnce(s: State, command: string, reply: Option<PathData>, header: string,
                              translateCommand: (string, int) -> (int, int, int), readers: Readers,
                              prefixes: seq<string>, prediction: Option<Prediction>, next: Option<Prediction>)
    requires header != HeaderValue(ItemLocation) && header != HeaderValue(RobotLocation)
    requires header != HeaderValue(RobotControl)
    ensures var routed := Route(s, Some(Inbound(HeaderValue(RobotControl), Text(command))), reply, Some(header), translateCommand, readers);
      var ran := Dispatch(routed.state, prefixes, prediction);
      && routed.outcome == Continue
      && routed.state.commandQueue == [command] && routed.state.manualCtrl && CanDispatch(routed.state)
      && ran.outcome == Continue && ran.state.commandQueue == []
      && !ran.state.manualCtrl && !ran.state.startMovement
      && Dispatch(ran.state, prefixes, next).outcome == Blocked
  {
  }

  /** Start needs queued commands; then it enables movement and opens the gate. */
  lemma StartNeedsCommands(s: State, reply: Option<PathData>, header: string,
                           translateCommand: (string, int) -> (int, int, int), readers: Readers)
    requires header != HeaderValue(ItemLocation) && header != HeaderValue(RobotLocation)
    ensures var r := Route(s, Some(Inbound(header, Text(""))), reply, Some(header), translateCommand, readers).state;
      && (|s.commandQueue| == 0 ==> r == s.(androidMsgs := s.androidMsgs + [InfoText(NoObstaclesText)]))
      && (|s.commandQueue| > 0 ==> r.startMovement && r.full && r.commandQueue == s.commandQueue)
  {
  }

  /**
   * With a header enum that has no `START_MOVEMENT` member, every message
   * other than an obstacle list or a location ends the router, manual
   * control included.
   */
  lemma MissingStartHeaderStopsRouter(s: State, msg: Inbound, reply: Option<PathData>,
                                      translateCommand: (string, int) -> (int, int, int), readers: Readers)
    requires msg.category != HeaderValue(ItemLocation) && msg.category != HeaderValue(RobotLocation)
    ensures Route(s, Some(msg), reply, None, translateCommand, readers) == Step(s, Crashed("AttributeError"))
  {
  }

  /**
   * The client sends the obstacle list as text. The router clears the
   * stored list and parses the text; it then plans on the obstacles read,
   * or, on text the parser rejects, leaves the list empty and ends.
   */
  lemma ObstacleTextPlans(s: State, text: string, reply: Option<PathData>, header: Option<string>,
                          translateCommand: (string, int) -> (int, int, int), readers: Readers)
    ensures var r := Receive(s, LoadWithHook(HeaderValue(ItemLocation), TextData(text)), reply, header,
                             translateCommand, readers);
      match readers.obstacles(text)
      case Success(items) =>
        && r == Step(Plan(s.(obstacles := items), reply), Continue)
        && r.state.obstacles == items && r.state.location == s.location
        && r.state.startMovement == s.startMovement
      case Failure(e) => r == Step(s.(obstacles := []), Crashed(e))
  {
  }

  /** A location sent as text moves the robot to what `json.loads` reads, or ends the router with its error. */
  lemma LocationTextMoves(s: State, text: string, reply: Option<PathData>, header: Option<string>,
                          translateCommand: (string, int) -> (int, int, int), readers: Readers)
    ensures var r := Receive(s, LoadWithHook(HeaderValue(RobotLocation), TextData(text)), reply, header,
                             translateCommand, readers);
      match readers.location(text)
      case Success(loc) => r == Step(s.(location := loc), Continue)
      case Failure(e) => r == Step(s, Crashed(e))
  {
  }

  /** A failed query adds one status and one info message; a reply queues the path less its start, and the commands. */
  lemma PlanQueues(s: State, reply: Option<PathData>)
    ensures var t := Plan(s, reply);
      && |t.androidMsgs| == |s.androidMsgs| + 2
      && (reply.None? ==> t == s.(androidMsgs := t.androidMsgs))
      && (reply.Some? ==>
            t.commandQueue == s.commandQueue + reply.value.commands
            && t.pathQueue == s.pathQueue + Waypoints(reply.value.path))
  {
  }
}

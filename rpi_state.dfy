/**
 * The state every version of the controller shares between its worker
 * processes through a multiprocessing manager: three FIFO queues, the events,
 * the movement lock, the obstacle list and the robot-location dictionary.
 * Each script creates only the events it uses; the others stay clear.
 */
module RpiState {
  import opened Wrappers
  import opened PyStr
  import opened Helper
  import opened AndroidMessages
  import opened DeadReckoning

  /** One obstacle as the client reports it. */
  datatype Obstacle = Obstacle(x: int, y: int, d: int, id: string)

  /** What the vision service returns for a captured image. */
  datatype Prediction = Prediction(imageLabel: string, imageId: int, obstacleId: int)

  /**
   * An entry of the outbound message queue: a message record, or a
   * `StatusMessage` (a message class that is not part of this model, known
   * only by the status it is built from).
   */
  datatype Outbound = Send(msg: AndroidMessage) | StatusMessage(status: RobotStatus)

  /**
   * How one iteration of a worker loop ends: it completed (also when the
   * input was ignored), it would block on an empty queue, an unset event or
   * a held lock (and changed nothing), or an uncaught exception ended the worker.
   */
  datatype StepOutcome = Continue | Blocked | Crashed(error: string)

  /** The shared state after one worker iteration, and how that iteration ended. */
  datatype Step = Step(state: State, outcome: StepOutcome)

  /** A client message, already decoded into its category and payload. */
  datatype Inbound = Inbound(category: string, payload: Payload)

  datatype Payload = Text(text: string) | ObstacleList(items: seq<Obstacle>) | Position(loc: Loc)

  /** The whole shared state as one value. */
  datatype State = State(
    commandQueue: seq<string>,
    pathQueue: seq<Loc>,
    androidMsgs: seq<Outbound>,
    startMovement: bool,
    full: bool,
    empty: bool,
    manualCtrl: bool,
    nearFlag: bool,
    movementLock: bool,
    obstacles: seq<Obstacle>,
    location: Loc,
    stmSent: seq<string>)

  function InitialState(): State
  {
    State([], [], [], false, false, false, false, false, false, [], Loc(1, 1, 0), [])
  }

  function Info(v: Value): Outbound
  {
    Send(InfoMessage(v))
  }

  function InfoText(s: string): Outbound
  {
    Info(Str(s))
  }

  /** `path[1:]`: every waypoint but the first, which is where the robot already is. */
  function Waypoints(path: seq<Loc>): seq<Loc>
  {
    if |path| == 0 then [] else path[1..]
  }

  /** A line the acknowledgement handler acts on: `"ACK" in msg` and `len(msg) > 0`. */
  predicate IsAck(line: Option<string>)
  {
    line.Some? && Contains(line.value, "ACK") && |line.value| > 0
  }

  /** The file name a SNAP command gives its capture (before the time stamp is prefixed). */
  function ImageName(command: string): string
  {
    var i := Find(command, '_');
    if i == -1 then Slice(command, 4, |command|)
    else Slice(command, 4, i) + "_" + Slice(command, i + 1, |command|)
  }

  /** Splitting at the first underscore and joining again gives back everything after "SNAP". */
  lemma ImageNameIsSuffix(command: string)
    requires StartsWith(command, "SNAP")
    ensures ImageName(command) == command[4..]
  {
    var i := Find(command, '_');
    if i != -1 {
      assert command[..4] == "SNAP";
      assert command[4..] == command[4..i] + [command[i]] + command[i + 1..];
    }
  }

  /** `RobotLocMessage(self.robot_location)`. */
  function LocMessage(loc: Loc): Outbound
  {
    Send(RobotLocMessage(LocEntries(loc.x, loc.y, loc.d)))
  }

  // ----- One read of the client link -----

  /**
   * What one read of the client link yields: a decoded message (`None` for
   * the JSON literal null), a dropped link (`OSError`), text that is not
   * JSON (`JSONDecodeError`; the empty read of a closed link is one), or a
   * `KeyError` raised by the decoding hook, which no version catches.
   */
  datatype Receipt = Decoded(msg: Option<Inbound>) | LinkDropped | NotJson | HookRaised

  /** The failures the router catches and logs (`OSError`, `JSONDecodeError`). */
  predicate Caught(r: Receipt)
  {
    r.LinkDropped? || r.NotJson?
  }

  /**
   * The `data` field of a client message as sent: a JSON string, or a JSON
   * object holding an obstacle list, `{"obstacles": [...]}`.
   */
  datatype ClientData = TextData(text: string) | ObstaclesData(items: seq<Obstacle>)

  /** One obstacle as the JSON object the client sends for it. */
  function ObstacleObject(o: Obstacle): map<string, Value>
  {
    map["x" := Int(o.x), "y" := Int(o.y), "d" := Int(o.d), "id" := Str(o.id)]
  }

  /** The hook `from_json` raises `KeyError('header')` on an obstacle object. */
  lemma HookRejectsObstacle(o: Obstacle)
    ensures FromJson(ObstacleObject(o)) == Failure("header")
  {
  }

  /**
   * `json.loads(msg_str, object_hook=AndroidMessage.from_json)` on a
   * well-formed client message. The hook runs on every JSON object,
   * innermost first, so an object inside `data` (an obstacle, or the
   * `{"obstacles": [...]}` wrapper itself) has no "header" key and makes it
   * raise before the message is built.
   */
  function LoadWithHook(category: string, data: ClientData): (r: Receipt)
    ensures r.HookRaised? <==> data.ObstaclesData?
    ensures data.TextData? ==> r == Decoded(Some(Inbound(category, Text(data.text))))
  {
    match data
    case TextData(text) => Decoded(Some(Inbound(category, Text(text))))
    case ObstaclesData(_) => HookRaised
  }

  /** The router's local `msg`: `Unbound` until it is first assigned. */
  datatype HeldMsg = Unbound | Bound(msg: Option<Inbound>)

  /**
   * `msg` after one read as main.py, week9.py and week9_singlethread.py
   * write it: nothing resets it, so a failed read keeps what the previous
   * iteration decoded.
   */
  function HeldAfter(prev: HeldMsg, r: Receipt): HeldMsg
  {
    match r
    case Decoded(msg) => Bound(msg)
    case _ => prev
  }

  /** `if msg is None` on a name never assigned raises `UnboundLocalError`. */
  function HeldMessage(held: HeldMsg): Result<Option<Inbound>, string>
  {
    match held
    case Unbound => Failure("UnboundLocalError")
    case Bound(msg) => Success(msg)
  }

  /**
   * One read of the client link as main.py, week9.py and
   * week9_singlethread.py write it: the message the router goes on to
   * route, or the exception that ends it, and `msg` afterwards.
   */
  function ReadMessage(held: HeldMsg, r: Receipt): (res: (Result<Option<Inbound>, string>, HeldMsg))
    ensures r.HookRaised? ==> res == (Failure("KeyError"), held)
    ensures Caught(r) ==> res == (HeldMessage(held), held)
    ensures Caught(r) && held.Unbound? ==> res.0 == Failure("UnboundLocalError")
    ensures r.Decoded? ==> res == (Success(r.msg), Bound(r.msg))
  {
    if r.HookRaised? then (Failure("KeyError"), held)
    else
      var h := HeldAfter(held, r);
      (HeldMessage(h), h)
  }

  /** `msg` after one read as week8.py writes it: reset to `None` before every read. */
  function FreshMessage(r: Receipt): Option<Inbound>
  {
    if r.Decoded? then r.msg else None
  }

  /** As written, a failed read routes the previous message again, and one before any message raises. */
  lemma FailedReadKeepsMessage(prev: HeldMsg, r: Receipt)
    requires Caught(r)
    ensures HeldMessage(HeldAfter(prev, r)) == HeldMessage(prev)
    ensures prev == Unbound ==> HeldMessage(HeldAfter(prev, r)).Failure?
  {
  }

  /** Reset before every read, only a message decoded by this read is routed. */
  lemma FreshMessageIsThisRead(r: Receipt)
    ensures FreshMessage(r).Some? <==> r.Decoded? && r.msg.Some?
    ensures FreshMessage(r).Some? ==> r == Decoded(FreshMessage(r))
  {
  }

  /** `translate_robot`: a command shorter than four characters leaves the location alone. */
  function TranslateWith(loc: Loc, command: string, translateCommand: (string, int) -> (int, int, int)): Loc
  {
    if |command| < 4 then loc
    else
      var (dx, dy, nd) := translateCommand(command, loc.d);
      Loc(loc.x + dx, loc.y + dy, nd)
  }

  class SharedState {
    var commandQueue: seq<string>
    var pathQueue: seq<Loc>
    var androidMsgs: seq<Outbound>
    var startMovement: bool
    var full: bool
    var empty: bool
    var manualCtrl: bool
    var nearFlag: bool
    /** True while some worker holds the movement lock. */
    var movementLock: bool
    var obstacles: seq<Obstacle>
    /** The robot-location dictionary, updated key by key. */
    var x: int
    var y: int
    var d: int
    /** Every line written to the motion controller's serial link, oldest first. */
    var stmSent: seq<string>

    function Location(): Loc
      reads this
    {
      Loc(x, y, d)
    }

    function Snapshot(): State
      reads this
    {
      State(commandQueue, pathQueue, androidMsgs, startMovement, full, empty, manualCtrl, nearFlag,
            movementLock, obstacles, Location(), stmSent)
    }

    /** The manager's objects as `__init__` creates them: the robot at (1, 1) facing North. */
    constructor ()
      ensures Snapshot() == InitialState()
    {
      commandQueue, pathQueue, androidMsgs := [], [], [];
      startMovement, full, empty, manualCtrl, nearFlag, movementLock := false, false, false, false, false, false;
      obstacles := [];
      x, y, d := 1, 1, 0;
      stmSent := [];
    }

    /** `clear_queues`: drains the three queues one entry at a time. */
    method ClearQueues()
      modifies this
      ensures Snapshot() == old(Snapshot()).(commandQueue := [], pathQueue := [], androidMsgs := [])
    {
      while |pathQueue| > 0
        invariant Snapshot() == old(Snapshot()).(pathQueue := pathQueue)
        decreases |pathQueue|
      {
        pathQueue := pathQueue[1..];
      }
      while |commandQueue| > 0
        invariant Snapshot() == old(Snapshot()).(pathQueue := [], commandQueue := commandQueue)
        decreases |commandQueue|
      {
        commandQueue := commandQueue[1..];
      }
      while |androidMsgs| > 0
        invariant Snapshot() == old(Snapshot()).(pathQueue := [], commandQueue := [], androidMsgs := androidMsgs)
        decreases |androidMsgs|
      {
        androidMsgs := androidMsgs[1..];
      }
    }

    /**
     * `translate_robot` of main.py and week9.py: updates the location
     * dictionary in place; `ok` is false when `int(...)` raised, and then
     * nothing was written.
     */
    method TranslateRobot(command: string) returns (ok: bool)
      modifies this`x, this`y, this`d
      ensures ok == Translate(old(Location()), command).Some?
      ensures Location() == if ok then Translate(old(Location()), command).value else old(Location())
    {
      ok := true;
      if |command| < 4 {
        return;
      }
      var m := MoveOf(command);
      if m.None? || !IsCardinal(d) {
        return;
      }
      if m.value == Forward || m.value == Backward {
        var n := ParseInt(command[2..]);
        if n.None? {
          ok := false;
          return;
        }
        var k := if m.value == Forward then n.value / 10 else -(n.value / 10);
        ghost var expected := Advance(Location(), k);
        if d == DirectionCode(North) {
          y := y + k;
        } else if d == DirectionCode(East) {
          x := x + k;
        } else if d == DirectionCode(South) {
          y := y - k;
        } else {
          x := x - k;
        }
        assert Location() == expected;
      } else {
        var (dx, dy, nd) := TurnEntry(m.value, d);
        y := y + dy;
        x := x + dx;
        d := nd;
      }
    }

    /**
     * `translate_robot` of week8.py: after the length guard it applies
     * `TranslateCommand`, a table that is not part of this model and is
     * given here as `translateCommand`.
     */
    method TranslateRobotWith(command: string, translateCommand: (string, int) -> (int, int, int))
      modifies this
      ensures Snapshot() == old(Snapshot()).(location := TranslateWith(old(Location()), command, translateCommand))
    {
      if |command| < 4 {
        return;
      }
      var (dx, dy, nd) := translateCommand(command, d);
      x := x + dx;
      y := y + dy;
      d := nd;
    }

    /** `obstacles[:] = []` followed by one `append` per reported obstacle. */
    method ReplaceObstacles(items: seq<Obstacle>)
      modifies this
      ensures Snapshot() == old(Snapshot()).(obstacles := items)
    {
      obstacles := [];
      for i := 0 to |items|
        invariant Snapshot() == old(Snapshot()).(obstacles := items[..i])
      {
        var ob := items[i];
        obstacles := obstacles + [Obstacle(ob.x, ob.y, ob.d, ob.id)];
        assert items[..i + 1] == items[..i] + [items[i]];
      }
      assert items[..|items|] == items;
    }

    /** `path_queue.put` for each location in turn. */
    method PutPath(locs: seq<Loc>)
      modifies this
      ensures Snapshot() == old(Snapshot()).(pathQueue := old(pathQueue) + locs)
    {
      for i := 0 to |locs|
        invariant Snapshot() == old(Snapshot()).(pathQueue := old(pathQueue) + locs[..i])
      {
        pathQueue := pathQueue + [locs[i]];
        assert locs[..i + 1] == locs[..i] + [locs[i]];
      }
      assert locs[..|locs|] == locs;
    }

    /** `command_queue.put` for each command in turn. */
    method PutCommands(commands: seq<string>)
      modifies this
      ensures Snapshot() == old(Snapshot()).(commandQueue := old(commandQueue) + commands)
    {
      for i := 0 to |commands|
        invariant Snapshot() == old(Snapshot()).(commandQueue := old(commandQueue) + commands[..i])
      {
        commandQueue := commandQueue + [commands[i]];
        assert commands[..i + 1] == commands[..i] + [commands[i]];
      }
      assert commands[..|commands|] == commands;
    }

    /** `command_queue.put(command)`. */
    method PutCommand(command: string)
      modifies this
      ensures Snapshot() == old(Snapshot()).(commandQueue := old(commandQueue) + [command])
    {
      commandQueue := commandQueue + [command];
    }

    /** `path_queue.put(loc)`. */
    method PutLocation(loc: Loc)
      modifies this
      ensures Snapshot() == old(Snapshot()).(pathQueue := old(pathQueue) + [loc])
    {
      pathQueue := pathQueue + [loc];
    }

    /** `android_msgs.put(message)`. */
    method Put(message: Outbound)
      modifies this
      ensures Snapshot() == old(Snapshot()).(androidMsgs := old(androidMsgs) + [message])
    {
      androidMsgs := androidMsgs + [message];
    }

    /** `command_queue.get()` once a command is queued. */
    method GetCommand() returns (command: string)
      requires |commandQueue| > 0
      modifies this
      ensures command == old(commandQueue[0])
      ensures Snapshot() == old(Snapshot()).(commandQueue := old(commandQueue[1..]))
    {
      command := commandQueue[0];
      commandQueue := commandQueue[1..];
    }

    /** `path_queue.get_nowait()` once a location is queued. */
    method GetLocation() returns (loc: Loc)
      requires |pathQueue| > 0
      modifies this
      ensures loc == old(pathQueue[0])
      ensures Snapshot() == old(Snapshot()).(pathQueue := old(pathQueue[1..]))
    {
      loc := pathQueue[0];
      pathQueue := pathQueue[1..];
    }

    /** Writes the three keys of the location dictionary. */
    method SetLocation(loc: Loc)
      modifies this
      ensures Snapshot() == old(Snapshot()).(location := loc)
    {
      x := loc.x;
      y := loc.y;
      d := loc.d;
    }

    /** `stm.send(command)`. */
    method SendToStm(command: string)
      modifies this
      ensures Snapshot() == old(Snapshot()).(stmSent := old(stmSent) + [command])
    {
      stmSent := stmSent + [command];
    }

    /** `start_movement.set()` or `.clear()`. */
    method SetStartMovement(on: bool)
      modifies this
      ensures Snapshot() == old(Snapshot()).(startMovement := on)
    {
      startMovement := on;
    }

    /** `full.set()` or `.clear()`. */
    method SetFull(on: bool)
      modifies this
      ensures Snapshot() == old(Snapshot()).(full := on)
    {
      full := on;
    }

    /** `empty.set()` or `.clear()`. */
    method SetEmpty(on: bool)
      modifies this
      ensures Snapshot() == old(Snapshot()).(empty := on)
    {
      empty := on;
    }

    /** `manual_ctrl.set()` or `.clear()`. */
    method SetManualCtrl(on: bool)
      modifies this
      ensures Snapshot() == old(Snapshot()).(manualCtrl := on)
    {
      manualCtrl := on;
    }

    /** `near_flag.set()` or `.clear()`. */
    method SetNearFlag(on: bool)
      modifies this
      ensures Snapshot() == old(Snapshot()).(nearFlag := on)
    {
      nearFlag := on;
    }

    /** `movement_lock.acquire()` once the lock is free. */
    method AcquireLock()
      requires !movementLock
      modifies this
      ensures Snapshot() == old(Snapshot()).(movementLock := true)
    {
      movementLock := true;
    }

    /** `movement_lock.release()`: `ok` is false for the `RuntimeError` of releasing a free lock. */
    method ReleaseLock() returns (ok: bool)
      modifies this
      ensures ok == old(movementLock)
      ensures Snapshot() == old(Snapshot()).(movementLock := false)
    {
      ok := movementLock;
      movementLock := false;
    }
  }
}

# RpiModule robot controller — a Dafny model

The RpiModule runs on the robot's Raspberry Pi. It connects three parties:

- the Android client, which sends obstacle lists, a start signal and hand-driven commands;
- the STM32 motion controller, which executes motion commands over serial and acknowledges each one with a line containing "ACK";
- an HTTP server, which plans a path and classifies camera images.

Worker processes share the controller's state through a multiprocessing manager:

- three FIFO queues (commands, predicted locations, outbound client messages);
- a few events (`start_movement`, and in some versions `full`, `empty`, `manual_ctrl`, `near_flag`);
- one movement lock;
- the obstacle list;
- the robot-location dictionary `{x, y, d}`.

Four versions of the controller script are modelled:

- `main.py`: path planning, the lock-gated dispatcher and dead reckoning (`MainRpi`);
- `week8.py`: the same with a `full`/`empty` gate and a manual-control latch (`Week8Rpi`);
- `week9.py`: a scripted run driven by counting acknowledgements (`Week9Rpi`);
- `week9_singlethread.py`: a single worker that rewrites SNAP/BASE tokens into moves (`Week9Single`).

Each of the four versions is modelled at two levels:

- **Transition functions on the shared state.** Functions on a `State` value (`RpiState.State`). Each says what one iteration of a worker loop does to the shared state and how the iteration ends: it continues, it blocks on an empty queue, an unset event or a held lock, or it crashes with an uncaught Python exception.
- **Imperative methods.** A class (`RpiModule`) whose methods update a `SharedState` object field by field, as the script does. Each method is proved equal to the transition function above.

The properties are lemmas about the transition functions, among them:

- what the lock gate, the latches and the counters promise;
- that acknowledgements commit the predicted path in order;
- that the SNAP/BASE rewriting of `week9_singlethread.py` reaches FIN from SNAPCHECK_11.

As written, neither week9 worker ever takes a command, because neither script sets `start_movement` (see Findings). The proofs that the scripts run assume a corrected "start" that sets it, as `main.py` does.

`week8.py` and `week9_singlethread.py` match the start message against `BluetoothHeader.START_MOVEMENT`. They were written against a version of `Modules/AndroidMessages.py` and `helper.py` that is not part of this model: they import `TranslateCommand`, `StatusMessage` and `current_milli_time`, which the modelled modules do not define. The enum version they import is not available either, so the start header's value is a parameter (`startMovementHeader`). `None` models an enum without that member; it is not a claim about how the scripts behave.

Supporting modules:

- `PyStr`: the Python string operations the scripts use (`startswith` with a tuple, `in`, `find`, slicing, `int()`, `str()`).
- `Helper`: the status and direction enums.
- `AndroidMessages`: the message records and their JSON form.
- `DeadReckoning`: the turn and drive table of `translate_robot`.
- `Wrappers`: `Option` and `Result`.

External effects are not executed; they become parameters:

- a planner reply (`PlannerReply` / `Option<PathData>`);
- an image prediction (`Option<Prediction>`, `None` when the server returned no data);
- whether the server is reachable (`serverUp`);
- the next line from the serial link;
- the already-decoded client message, or how its read ended (`RpiState.Receipt`).

Every line written to the motion controller is recorded in the `stmSent` state field.

## Model

| member | source | states |
|---|---|---|
| PyStr.StartsWithAnyIff | main.py:235 | `str.startswith` with a tuple holds exactly when one of the prefixes starts the string |
| PyStr.EmptyPrefixTupleMatchesNothing | config.py:12 | with the configured empty prefix tuple, no command is ever sent as a motion command |
| PyStr.ContainsIff | week9_singlethread.py:150 | the substring test `sub in s` holds exactly when `sub` occurs at some index |
| PyStr.Find | main.py:240-243 | `str.find` returns -1 exactly when the character is absent, otherwise the index of its first occurrence |
| PyStr.Slice | week9_singlethread.py:152-153 | Python slicing clamps both bounds to the string: the plain subsequence when in range, the suffix when the end is past the string, and empty when the bounds cross or start past the end |
| PyStr.ParseInt | main.py:354 | `int()` succeeds exactly on a non-empty run of digits, optionally after one sign; the value is the decimal value of the digits, negated after '-' |
| PyStr.DigitsValueLeadingZero | main.py:354 | a leading zero does not change the decimal value of a digit run |
| PyStr.LeadingZerosIgnored | main.py:354 | `int()` ignores a leading zero, so "00" reads as 0 |
| PyStr.NatToString | Modules/AndroidMessages.py:42-44 | `str()` of a natural number is a non-empty run of digits |
| PyStr.NatToStringValue | Modules/AndroidMessages.py:42-44 | the digits written by `str()` read back as the same number |
| PyStr.IntToStringRoundTrip | Modules/AndroidMessages.py:42-44 | `int(str(n)) == n` for every integer |
| Helper.StatusCode | helper.py:3-9 | each robot status has a value in 1..6 that maps back to it |
| Helper.StatusOfCode | helper.py:3-9 | a status value is recognised exactly when it lies in 1..6 |
| Helper.StatusCodesDistinct | helper.py:3-9 | status values are distinct, and FINISH is 6 |
| Helper.DirectionCode | helper.py:11-19 | each direction's `int` value is even, lies in 0..8 and maps back to the direction |
| Helper.DirectionOfCode | helper.py:11-16 | a direction value is recognised exactly when it is one of 0, 2, 4, 6, 8 |
| Helper.SkipIsNotCardinal | helper.py:11-16 | SKIP (8) is not one of the four headings the dead reckoning handles; 0, 2, 4 and 6 are |
| AndroidMessages.HeaderValue | Modules/AndroidMessages.py:4-10 | each Bluetooth header's value maps back to that header |
| AndroidMessages.HeaderValuesDistinct | Modules/AndroidMessages.py:4-10 | two headers have the same value exactly when they are the same header |
| AndroidMessages.Json | Modules/AndroidMessages.py:28-30 | the JSON form has exactly the keys "header" and "data", holding category and value |
| AndroidMessages.FromJson | Modules/AndroidMessages.py:32-36 | decoding succeeds exactly when both keys are present, and fails with a KeyError naming the first missing key |
| AndroidMessages.FromJsonOfJson | Modules/AndroidMessages.py:28-36 | decoding the JSON form of a message gives the message back |
| AndroidMessages.JsonOfFromJson | Modules/AndroidMessages.py:28-36 | encoding a decoded dictionary gives back its "header" and "data" entries (other keys are dropped) |
| AndroidMessages.InfoMessage | Modules/AndroidMessages.py:38-40 | an info message has category ROBOT_STATUS and carries the given value |
| AndroidMessages.RobotLocMessage | Modules/AndroidMessages.py:42-44 | a location message has category ROBOT_LOCATION and carries the rendered dictionary |
| AndroidMessages.ImageMessage | Modules/AndroidMessages.py:46-48 | an image message has category IMAGE_INFO and carries the given text |
| AndroidMessages.RenderEntriesInjective | Modules/AndroidMessages.py:42-44 | rendering an integer dictionary with fixed keys loses no information |
| AndroidMessages.RobotLocMessageInjective | Modules/AndroidMessages.py:42-44 | two locations with the same location message are the same location |
| DeadReckoning.MoveOf | main.py:352-442 | a command is a forward drive exactly when it starts with "FW" or "FS" |
| DeadReckoning.TranslateUnchanged | main.py:349-442 | a command shorter than four characters, an unknown command, or a heading outside the four cardinals leaves the location unchanged |
| DeadReckoning.TranslateStraight | main.py:352-370 | a drive raises exactly when its distance does not parse; otherwise it moves distance // 10 cells along the heading, and the heading is kept |
| DeadReckoning.ForwardThenBackward | main.py:352-370 | driving forward and then backward by the same distance returns to the starting location |
| DeadReckoning.TurnShape | main.py:372-442 | a turn at a cardinal heading always succeeds (its suffix is not parsed), moves three cells along one axis and one along the other, and ends at a cardinal heading |
| DeadReckoning.TurnExamples | main.py:408-442 | three table entries, at North, East and West, given as worked examples; the general property is `TurnShape` |
| DeadReckoning.TranslatableSucceeds | main.py:345-442 | a command whose distance parses always translates |
| DeadReckoning.EastTurnsCopyWest | main.py:408-442 | as written, the FL and FR entries at East equal those at West and break the quarter-turn symmetry of the rest of the table |
| DeadReckoning.TurnTableRotates | main.py:372-442 | the corrected table commutes with a quarter turn, turns the heading the right way, and agrees with the written table everywhere except FL and FR at East |
| RpiState.ImageNameIsSuffix | week8.py:277-280 | the image name is everything after "SNAP" |
| RpiState.LoadWithHook | main.py:124 | `json.loads` with the `from_json` hook decodes a text payload into a message, and raises exactly when the payload holds nested objects |
| RpiState.HookRejectsObstacle | Modules/AndroidMessages.py:32-36 | the hook, applied to a nested obstacle object, fails on its missing "header" key |
| RpiState.ReadMessage | main.py:121-129 | one read: the hook's KeyError is not caught; a caught failure keeps `msg` and routes it again, or raises UnboundLocalError when it was never assigned; a decoded message becomes `msg` |
| RpiState.FailedReadKeepsMessage | main.py:121-132 | as written, a failed read keeps the previously decoded message, and raises UnboundLocalError before the first one |
| RpiState.FreshMessageIsThisRead | week8.py:113-126 | with `msg` reset before each read, the router sees a message exactly when this read decoded one |
| RpiState.SharedState.constructor | main.py:28-59 | empty queues, all events clear, lock free, no obstacles, robot at (1, 1) facing North |
| RpiState.SharedState.ClearQueues | main.py:444-455 | drains the path, command and outbound queues and changes nothing else |
| RpiState.SharedState.TranslateRobot | main.py:345-442 | updates the location to the dead-reckoning result; when `int()` raises, nothing is written |
| RpiState.SharedState.TranslateRobotWith | week8.py:384-394 | adds the given command table's offsets to the location unless the command is shorter than four characters |
| RpiState.SharedState.ReplaceObstacles | main.py:136-144 | the obstacle list becomes exactly the reported obstacles, in order |
| RpiState.SharedState.PutPath | main.py:337-338 | appends the locations to the path queue, in order |
| RpiState.SharedState.PutCommands | main.py:340-341 | appends the commands to the command queue, in order |
| RpiState.SharedState.PutCommand | main.py:173 | appends one command to the command queue |
| RpiState.SharedState.PutLocation | main.py:175 | appends one location to the path queue |
| RpiState.SharedState.Put | main.py:212 | appends one outbound message |
| RpiState.SharedState.GetCommand | main.py:224 | takes the oldest command off the queue |
| RpiState.SharedState.GetLocation | main.py:207 | takes the oldest location off the path queue |
| RpiState.SharedState.SetLocation | main.py:208-210 | overwrites the robot location |
| RpiState.SharedState.SendToStm | main.py:237 | records one line written to the motion controller |
| RpiState.SharedState.SetStartMovement | main.py:157 | sets or clears the `start_movement` event only |
| RpiState.SharedState.SetFull | week8.py:168 | sets or clears the `full` event only |
| RpiState.SharedState.SetEmpty | week8.py:273 | sets or clears the `empty` event only |
| RpiState.SharedState.SetManualCtrl | week8.py:188 | sets or clears the `manual_ctrl` event only |
| RpiState.SharedState.SetNearFlag | week9.py:133 | sets or clears the `near_flag` event only |
| RpiState.SharedState.AcquireLock | main.py:233 | takes the free movement lock |
| RpiState.SharedState.ReleaseLock | main.py:268 | frees the lock; reports whether it was held (releasing a free lock raises RuntimeError) |
| MainRpi.RpiModule.constructor | main.py:28-59 | starts from the initial shared state with the configured prefixes |
| MainRpi.RpiModule.FindShortestPath | main.py:307-343 | the state after the planner call is `Plan` of the state before |
| MainRpi.RpiModule.HandleAndroidMessage | main.py:119-178 | one router iteration is `Receive` of the state and held message before: the hook's KeyError ends the router, a failed read routes the held message again (UnboundLocalError before the first), and a decoded message is routed by `Route` |
| MainRpi.RpiModule.RouteMessage | main.py:131-178 | routing one decoded message is `Route` of the state before |
| MainRpi.RpiModule.TakeManualControl | main.py:162-177 | the manual-control branch is `ManualControl` of the state before |
| MainRpi.RpiModule.ResetForCommand | main.py:163-173 | the lock is taken (a stale hold released first), movement is enabled, the queues are cleared and the command is queued alone; nothing else changes |
| MainRpi.RpiModule.HandleStmMessage | main.py:195-219 | one acknowledgement iteration is `Ack` of the state before |
| MainRpi.RpiModule.HandleCommand | main.py:221-268 | as written: one dispatcher iteration is `Dispatch`, except that FIN ends the worker with RuntimeError |
| MainRpi.RpiModule.RunCommand | main.py:235-268 | as written: the command under the lock is `Execute`, except that FIN releases twice and raises |
| MainRpi.RpiModule.HandleCommandReleasingOnce | main.py:221-268 | with one release per iteration, a dispatcher iteration is exactly `Dispatch` |
| MainRpi.RpiModule.RunCommandReleasingOnce | main.py:235-268 | with one release per iteration, the command under the lock is exactly `Execute` |
| MainRpi.ManualFinStopsDispatcher | main.py:258-268 | a queued FIN ends the dispatcher with RuntimeError |
| MainRpi.AcksFollowPath | main.py:202-212 | n acknowledgements commit the first n queued locations, in order, reporting each one, and leave the rest queued |
| MainRpi.AckCommitsOldest | main.py:195-219 | a line without "ACK", or an empty path queue, changes nothing; otherwise the robot moves to the oldest location and one report is sent |
| MainRpi.ManualControlThenAck | main.py:162-177 | a hand-driven command is queued alone with movement enabled; the next acknowledgement commits exactly the predicted location |
| MainRpi.PlanQueuesOnlyOnSuccess | main.py:311-343 | path and commands are queued only after a 200 reply without an error; otherwise only the client is told |
| MainRpi.ItemLocationReplacesObstacles | main.py:134-146 | corrected: once the obstacle list reaches the branch (parsed from a text payload, as week8.py:133-134 does), it replaces the stored obstacles and asks the planner, leaving location and movement alone |
| MainRpi.ItemLocationNeverPlans | main.py:124-146 | as written, an obstacle message ends the router with KeyError before the branch is reached: no obstacles are stored and nothing is planned or queued |
| MainRpi.FailedReadRoutesHeld | main.py:121-132 | a failed read keeps the held message and routes it again, or raises UnboundLocalError when there is none |
| MainRpi.StartNeedsCommands | main.py:148-159 | "start" enables movement exactly when commands are queued |
| MainRpi.NoPrefixesSendsNothing | main.py:235-237 | with the shipped empty prefix tuple the dispatcher writes nothing to the motion controller |
| MainRpi.DispatchConsumesOne | main.py:221-268 | the dispatcher blocks exactly when it cannot proceed; otherwise it consumes the oldest command and leaves the lock free |
| MainRpi.FinReleasesLockOnce | main.py:258-262 | with one release, FIN stops movement, frees the lock and reports the finish |
| Week8Rpi.RpiModule.constructor | week8.py:29-64 | starts from the initial shared state with the configured prefixes, start header, command table and payload parsers |
| Week8Rpi.RpiModule.NormaliseHeading | week8.py:229-233 | the heading is brought into [0, 360) by whole turns, and one already in range is kept |
| Week8Rpi.RpiModule.FindShortestPath | week8.py:355-382 | the state after the planner call is `Plan` of the state before |
| Week8Rpi.RpiModule.HandleAndroidMessage | week8.py:112-190 | one router iteration is `Receive` of the state before: the hook's KeyError ends the router, a caught failure routes nothing because `msg` is reset first, and a decoded message is routed by `Route` |
| Week8Rpi.RpiModule.RouteMessage | week8.py:125-190 | routing one decoded message is `Route` of the state before: text obstacle and location payloads go through `ast.literal_eval` / `json.loads` (the `Readers` parameter), and a payload that is not text raises ValueError / TypeError |
| Week8Rpi.ObstacleTextPlans | week8.py:129-146 | an obstacle list sent as text clears the stored list, then either plans on the obstacles parsed, leaving location and movement alone, or ends the router with the parser's error and an empty list |
| Week8Rpi.LocationTextMoves | week8.py:148-156 | a location sent as text moves the robot to what `json.loads` reads, or ends the router with its error and the location unchanged |
| Week8Rpi.RpiModule.TakeManualControl | week8.py:173-190 | the manual-control branch is `ManualControl` of the state before |
| Week8Rpi.RpiModule.ResetForCommand | week8.py:174-183 | the lock is taken (a stale hold released first), the queues are cleared and the command is queued alone; nothing else changes |
| Week8Rpi.RpiModule.HandleStmMessage | week8.py:206-245 | one acknowledgement iteration is `Ack` of the state before |
| Week8Rpi.RpiModule.HandleCommand | week8.py:250-316 | one dispatcher iteration is `Dispatch` of the state before |
| Week8Rpi.RpiModule.RunCommand | week8.py:270-316 | the command under the lock is `Execute` of the state before |
| Week8Rpi.SendClosesGateUntilAck | week8.py:262-274 | after a motion command is sent the dispatcher's very next step blocks, and an acknowledgement, not blocked by the gate or the lock, reopens it |
| Week8Rpi.StartReopensGateWithoutAck | week8.py:158-170 | "start" sets `full` again, so the next queued motion command is sent with no acknowledgement after the first |
| Week8Rpi.SnapLeavesBothSet | week8.py:276-301 | the SNAP branch sets `empty` without clearing `full` and frees the lock |
| Week8Rpi.FinKeepsLock | week8.py:303-313 | FIN and unknown commands keep the lock, so the dispatcher and the acknowledgement handler both block afterwards |
| Week8Rpi.AckReopensGate | week8.py:206-245 | an acknowledgement past the gate frees the lock and flips the gate; it moves the robot exactly when a location was queued, with the heading in [0, 360) |
| Week8Rpi.ManualCommandRunsOnce | week8.py:173-190 | a hand-driven command is queued alone, dispatched once, and then the dispatcher blocks |
| Week8Rpi.StartNeedsCommands | week8.py:158-170 | start with no commands only tells the client; with commands it enables movement and opens the gate |
| Week8Rpi.MissingStartHeaderStopsRouter | week8.py:158 | under an enum without a START_MOVEMENT member, every message other than an obstacle list or a location ends the router with AttributeError |
| Week8Rpi.PlanQueues | week8.py:355-382 | a failed query only tells the client; a reply queues the path (less its start) and the commands |
| Week9Rpi.StartCommands | week9.py:113-131 | start queues RS00 and FW00, then three more commands only for an arrow image |
| Week9Rpi.IssueAll | week9.py:393-396 | issuing commands either completes or raises ValueError |
| Week9Rpi.FinishScript | week9.py:219-242 | the way back has eight commands ending in FIN, and its first turn undoes the second image's direction |
| Week9Rpi.RpiModule.constructor | week9.py:26-63 | initial shared state, acknowledgement count 0, no second direction |
| Week9Rpi.RpiModule.HandleAndroidMessage | week9.py:87-135 | one router iteration is `Receive` of the state and held `msg` before: the hook's KeyError ends the router, a failed read routes the held message again (UnboundLocalError before the first), and a decoded message is routed by `Route`; the counters are unchanged |
| Week9Rpi.RpiModule.RouteMessage | week9.py:98-135 | routing one decoded message is `Route` of the state before |
| Week9Rpi.RpiModule.ProcessStart | week9.py:103-135 | the start branch with the server up is `Start` of the state before |
| Week9Rpi.RpiModule.ResetAndDrive | week9.py:110-122 | queues cleared, then RS00 and FW00 queued |
| Week9Rpi.RpiModule.QueueFirstTurn | week9.py:124-133 | appends the turn the first image chooses, or sets the near flag |
| Week9Rpi.RpiModule.IssueCommand | week9.py:393-396 | `issue_command` is `IssueAll` of one command |
| Week9Rpi.RpiModule.IssueCommands | week9.py:155-242 | issuing commands one after another is `IssueAll` of the list |
| Week9Rpi.RpiModule.HandleStmMessage | week9.py:137-242 | one acknowledgement iteration is `Ack` of the state and the counters before |
| Week9Rpi.RpiModule.SecondAckNear | week9.py:156-171 | the second acknowledgement with the near flag is the scripted `Play` |
| Week9Rpi.RpiModule.SecondAckFar | week9.py:173-195 | the second acknowledgement without the near flag is the scripted `Play` |
| Week9Rpi.RpiModule.SixthAck | week9.py:197-217 | the sixth acknowledgement is the scripted `Play` |
| Week9Rpi.RpiModule.TenthAck | week9.py:219-242 | the tenth acknowledgement is the scripted `Play` |
| Week9Rpi.RpiModule.HandleCommand | week9.py:244-274 | as written: a dispatcher iteration is `Dispatch`, except that FIN ends the worker with RuntimeError |
| Week9Rpi.RpiModule.RunCommand | week9.py:258-274 | as written: the command under the lock is `Execute`, except that FIN releases twice and raises |
| Week9Rpi.IssueOne | week9.py:393-396 | one command is queued, and the location moves and is reported unless `int()` raises |
| Week9Rpi.IssueAllFrame | week9.py:393-396 | issuing touches only the command queue, the messages and the location, and only appends |
| Week9Rpi.IssueAllAppend | week9.py:393-396 | issuing two lists in turn is issuing their concatenation, up to the first raise |
| Week9Rpi.IssueAllTranslatable | week9.py:393-396 | commands that all translate never raise; they are queued in order, one report each |
| Week9Rpi.ScriptCommandTranslatable | week9.py:398-496 | every command the script is written with translates |
| Week9Rpi.AckPlanTranslatable | week9.py:155-242 | every command an acknowledgement issues translates |
| Week9Rpi.StartQueuesScript | week9.py:103-135 | start queues RS00, FW00 and the turn for a Left or Right image, or sets the near flag |
| Week9Rpi.AcksAreCounted | week9.py:139-147 | only acknowledgements count, each by exactly one |
| Week9Rpi.QuietCounts | week9.py:150-155 | away from counts 2, 6 and 10 an acknowledgement only frees the lock |
| Week9Rpi.TenthAckFinishes | week9.py:219-242 | the tenth acknowledgement queues the way back ending in FIN and needs no image |
| Week9Rpi.NearImageChoosesTurn | week9.py:155-171 | with the near flag, the re-taken image chooses the turn and the flag is cleared |
| Week9Rpi.PlaySecondFar | week9.py:173-195 | without the near flag: drive, then turn on an arrow, set the near flag otherwise, and TypeError when no image data arrives |
| Week9Rpi.PlayKeepsStartMovement | week9.py:155-242 | the acknowledgement script never touches `start_movement` |
| Week9Rpi.StartMovementStaysClear | week9.py:244-258 | as written, nothing in this version sets `start_movement`, so the dispatcher never gets past its wait |
| Week9Rpi.StartMoving | week9.py:103-135 | corrected "start": the same queue and outcome, with `start_movement` set exactly when the commands were queued |
| Week9Rpi.StartMovingDispatchesReset | week9.py:244-258 | after the corrected "start", the dispatcher sends RS00 and leaves the rest of the opening commands queued with the lock free |
| Week9Rpi.FailedReadReplaysStart | week9.py:87-122 | as written, a failed read after "start" makes the router iteration route "start" again and re-queue RS00 and FW00 |
| Week9Rpi.FreshFailedReadRoutesNothing | week8.py:113-126 | with `msg` reset before every read, a failed read routes nothing |
| Week9Single.Start | week9_singlethread.py:102-115 | start clears the queues, queues SNAPCHECK_11 then DT10, and sends one info message |
| Week9Single.BaseExpansion | week9_singlethread.py:207-231 | a BASE token expands to eight commands ending in FIN |
| Week9Single.RpiModule.constructor | week9_singlethread.py:28-64 | initial shared state and no second direction |
| Week9Single.RpiModule.HandleAndroidMessage | week9_singlethread.py:86-115 | one router iteration is `Receive` of the state and held `msg` before: the hook's KeyError ends the router, a failed read routes the held message again (UnboundLocalError before the first), and a decoded message is routed by `Route`; `second_direction` is unchanged |
| Week9Single.RpiModule.RouteMessage | week9_singlethread.py:98-115 | routing one decoded message is `Route` of the state before |
| Week9Single.RpiModule.HandleCommand | week9_singlethread.py:137-238 | one worker iteration is `Handle` of the state and second direction before |
| Week9Single.RpiModule.ExpandSnap | week9_singlethread.py:150-206 | a SNAP command is `SnapStep` of the state before |
| Week9Single.RpiModule.SnapFirst | week9_singlethread.py:154-175 | a type-1 SNAP token takes an image and appends its table expansion |
| Week9Single.RpiModule.SnapSecond | week9_singlethread.py:176-206 | a type-2 SNAP token drives, takes an image, records the direction and appends the turn |
| Week9Single.RpiModule.ExpandBase | week9_singlethread.py:207-231 | a BASE command is `BaseStep` of the state before |
| Week9Single.SnapFieldsRead | week9_singlethread.py:151-153 | the two digits after the first underscore are read as type and near flag |
| Week9Single.BaseFieldRead | week9_singlethread.py:208-210 | the digit after the first underscore is read as the BASE type |
| Week9Single.TokenRead | week9_singlethread.py:150-210 | a token's text is read back as its own fields, and a BASE token is never taken for a SNAP one |
| Week9Single.RewriteReadsToken | week9_singlethread.py:150-231 | taking a token's text off the queue appends exactly that token's expansion |
| Week9Single.HandleAppendsRewrite | week9_singlethread.py:137-238 | the worker consumes the token and appends its expansion when no prefix claims it |
| Week9Single.NextTokenDescends | week9_singlethread.py:154-206 | each SNAP token hands over to a script token of lower rank |
| Week9Single.MoveIsOrdinary | week9_singlethread.py:147-238 | the plain moves the script queues neither rewrite nor finish |
| Week9Single.SnapExpansionShape | week9_singlethread.py:154-206 | a SNAP expansion is moves followed by the next token's text |
| Week9Single.BaseExpansionShape | week9_singlethread.py:207-231 | a BASE expansion is seven moves before FIN |
| Week9Single.RewriteDescends | week9_singlethread.py:150-231 | any rewrite appends moves followed by the next token or by FIN |
| Week9Single.FollowReachesFin | week9_singlethread.py:150-231 | from any token the rewriting chain is at most its rank long, follows the images, and ends in a BASE token |
| Week9Single.StartReachesFin | week9_singlethread.py:112-231 | from SNAPCHECK_11, whatever the images show, at most four SNAP rewrites and one BASE rewrite queue FIN |
| Week9Single.StartQueuesToken | week9_singlethread.py:102-115 | start routes to `Start` with the server up, does nothing without it, and raises AttributeError under an enum without a START_MOVEMENT member |
| Week9Single.OtherSnapTypesQueueNothing | week9_singlethread.py:154-206 | a SNAP token of a type other than 1 or 2 queues nothing |
| Week9Single.StartMovementStaysClear | week9_singlethread.py:129-135 | as written, nothing sets `start_movement`, so the worker never takes a command |
| Week9Single.StartMoving | week9_singlethread.py:102-115 | corrected "start": SNAPCHECK_11 then DT10 queued, one info message, and `start_movement` set |
| Week9Single.RouteMoving | week9_singlethread.py:98-115 | corrected router: given a start header value, it is the written router plus `start_movement` set exactly when "start" is processed |
| Week9Single.StartMovingRunsScript | week9_singlethread.py:102-238 | with a header value and the corrected "start", the router queues the opening tokens, and the worker then takes SNAPCHECK_11 and queues its expansion after DT10 |

## Left out

- Sockets, Bluetooth, serial ports, the camera and HTTP are not modelled. They appear only as parameters: the decoded client message, the next serial line, the image prediction, the planner reply and `check_server`'s answer (`serverUp`).
- JSON text is not parsed. The router receives an already-decoded message, or a `Receipt` saying that the read failed or that the hook raised. `AndroidMessages.FromJson` models only the `object_hook` applied to a decoded dictionary. Every router models the hook's KeyError on nested objects (`Receipt.HookRaised`). Only `main.py`'s obstacle message is shown to trigger it, because the week8 and week9 clients send text payloads.
- The `StatusMessage` class, week8's `TranslateCommand` table and the `BluetoothHeader` version with a `START_MOVEMENT` member are not part of this model. They appear as the `StatusMessage(status)` outbound entry, a `translateCommand` parameter and a `startMovementHeader` parameter.
- `ast.literal_eval` and `json.loads` in week8's router (week8.py:134, week8.py:149) are not modelled. They appear as the `Week8Rpi.Readers` parameter, which gives either the obstacles and location read from the text, or the exception raised. Some failures happen part-way: a bad field in the third obstacle (week8.py:138-144), or a missing "d" after x and y were written (week8.py:152-154). The source keeps the writes made before such a failure, but the model does not: the obstacle list stays empty and the location unchanged.
- Timing is not modelled: `wait_for_ack`'s timeout, `time.sleep`, and the timestamps in image file names. An image name is modelled without its timestamp.
- `stitch_images`, `utils.py` and logging are not modelled.
- Process lifecycle is not modelled: `initialize`, `EventLoop`, `terminate`, process spawning and restart, `android_dropped_event` and `handle_android_drop_event`. A dropped link is modelled only as a failed read.
- `send_android_messages` is reduced to the outbound queue it drains. What the client receives is not modelled.
- Concurrency is modelled as whole worker iterations applied one at a time. Interleavings inside an iteration are not modelled, such as the window between `get()` and `start_movement.wait()`. Neither is aliasing through manager proxies.
- A blocking `get()`, `wait()` or `acquire()` is modelled as a `Blocked` outcome that changes nothing.
- PyStr.ParseInt: accepts an optional sign and ASCII digits only. Python's `int()` also accepts surrounding whitespace, underscores and non-ASCII digits.
- DeadReckoning.Translate: keeps the FL and FR entries at East exactly as written (see Findings). `TurnEntryIntended` holds the corrected table, and no worker uses it.
- The model follows the code in three places a reader might not expect: a successful planner reply does not itself enable movement; the SKIP direction gets no entry in the turn table; and week8's FIN keeps the movement lock.

## Findings

| source | as written | input that shows it | evidently intended | confidence | as-written member | corrected member |
|---|---|---|---|---|---|---|
| main.py:258-268 | the FIN branch releases the movement lock and then the common tail releases it again (the same in week9.py:264-274) | a queued "FIN" reached by the dispatcher | release once, stop movement, report the finish and keep the worker running | not executed | MainRpi.ManualFinStopsDispatcher | MainRpi.FinReleasesLockOnce |
| main.py:124 | the `from_json` hook runs on every nested object first, so an obstacle message's nested obstacle dictionaries raise KeyError('header'), which the router does not catch | `{"header": "ITEM_LOCATION", "data": {"obstacles": [{"x": 1, "y": 2, "d": 0, "id": "1"}]}}` | send the list as text and parse it in the branch, as week8.py:133-134 does, so the obstacles replace the stored ones and the planner is asked | not executed | MainRpi.ItemLocationNeverPlans | MainRpi.ItemLocationReplacesObstacles |
| week9.py:103-135 | the "start" branch queues the opening commands but never sets `start_movement`, and nothing else does, so the dispatcher waits forever (the same in week9_singlethread.py:102-115) | any "start" with the server up | set `start_movement` once the commands are queued, as main.py:157 does | not executed | Week9Rpi.StartMovementStaysClear | Week9Rpi.StartMovingDispatchesReset |
| week9_singlethread.py:102-115 | the same missing `start_movement.set()` in the single-worker version, so `stm_handle_command_list` is never reached | a "start" with the server up | set `start_movement` in the "start" branch | not executed | Week9Single.StartMovementStaysClear | Week9Single.StartMovingRunsScript |
| week9.py:88-99 | `msg` is never reset, so a failed read (dropped link or invalid JSON) routes the previous message again, and raises UnboundLocalError before the first one (the same in main.py:121-132 and week9_singlethread.py:88-99) | "start" followed by an empty read from a closed link | reset `msg` before each read, as week8.py:114 does, so a failed read routes nothing | not executed | Week9Rpi.FailedReadReplaysStart | Week9Rpi.FreshFailedReadRoutesNothing |
| main.py:413-416 | FL at East copies the West entry (-3, -1, South), and FR at East (main.py:431-434) copies West's (-3, +1, North) (the same in week9.py) | "FL00" with the robot facing East | FL at East gives (+3, +1, North) and FR at East gives (+3, -1, South), a quarter turn of the North entries | not executed | DeadReckoning.EastTurnsCopyWest | DeadReckoning.TurnTableRotates |

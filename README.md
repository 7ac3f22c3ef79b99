# SmartFactory simulation engine, modelled in Dafny

This project models the factory simulation engine of the SmartFactory
system (`app.py`). The engine keeps one mutable state record for the
production line: target and current rotor speed, temperature and its
manual offset, mechanical health, efficiency, yield count, run mode, the
lock flag, the active work orders, the report log and the notification
stream. Once a second a background loop advances that record:

- a locked line is frozen;
- the prediction advisor suggests a restock every 50 units of yield;
- a stopped line decays toward rest;
- a running line moves its speed toward the target, recomputes temperature
  and efficiency, grows the yield and wears down health;
- the fault controller repairs the line when health drops below 80;
- the scheduler advances the progress of in-progress orders.

Beside the loop sit the operator command interpreter and the order
operations (pause, resume, delete, workflow moves).

Files:

- `util.dfy` (module `Util`): `Option`, the min/max/abs helpers, Python's `int()` truncation and the first-match search behind every `next(...)` lookup.
- `text.dfy` (module `Text`): case folding, the substring test used by the command interpreter, and integer rendering.
- `physics.dfy` (module `Physics`): the per-tick process model as pure functions, one per quantity, and the lemmas about a stopped line coming to rest.
- `orders.dfy` (module `Orders`): the work order, the scheduler's progress step, and lookup by id.
- `priority.dfy` (module `Priority`): the deadline priority bands.
- `factory.dfy` (module `Factory`): the class `Factory` that holds the state record. Its methods are the tick, the command interpreter and the list operations. Each method's contract ties the new state to the pure functions.

The engine's random draws are parameters of `Tick`, bounded as the source
bounds them:

- the speed step, `randint(20, 50)`;
- the speed jitter, `randint(-5, 5)`;
- the yield gain, `randint(1, 3)`;
- the temperature noise, the `uniform(-0.5, 0.5)` draw plus the rounding to one decimal, so within ±0.55;
- the index of the restock material.

Clock readings are a `Clock` parameter. Events the engine publishes are
returned as `TickEvents`: the prediction notice, the auto-repair flag and the
order-update flag. All quantities are exact `real`s, except the target speed,
yield and progress, which are integers in the source too.

Some of what the code does may not be what a reader expects. The model follows the code:

- The target speed can go negative, because "decrease speed" is not clamped.
- The running temperature can go negative once the offset has been lowered repeatedly. So neither is part of the invariant `Factory.Valid`.
- At low speed a running line cools by 0.5 only while above 20. A line cooling from above 20 therefore stops somewhere in (19.5, 20], not exactly at 20.
- The order-update flag is raised for every eligible order below 100, whether or not its progress changed.
- The auto-repair writes a MAINTENANCE report and a maintenance alert. It adds no entry to the notification stream.
- Yield never falls within a tick. A workflow move to "Completed" adds the order's quantity, which the source does not require to be positive.

## Model

| member | source | states |
|---|---|---|
| Physics.StoppedRpm | app.py:113-116 | a stopped tick never raises the speed and keeps it ≥ 0; a spinning rotor either stops (0) or loses at least 10 and at least 15% and stays ≥ 1 |
| Physics.StoppedTemp | app.py:118-120 | a stopped tick never raises the temperature, keeps it ≥ 0 from ≥ 0, and lowers it by exactly 2 from 2 or more |
| Physics.StoppedRpmReachesZero | app.py:111-121 | a line stopped at speed s is at rest after any n ticks with 10·n ≥ s |
| Physics.StoppedTempReachesZero | app.py:118-121 | a line stopped at temperature t is at 0 after any n ticks with 2·n ≥ t |
| Physics.StoppedTicksNonIncreasing | app.py:111-121 | over consecutive stopped ticks speed and temperature never rise |
| Physics.StoppedLineSettles | app.py:111-121 | from speed ≤ 2000 and temperature ≤ 400, 200 stopped ticks bring both to 0 |
| Physics.ApproachRpm | app.py:123-127 | running speed stays ≥ 0, moves by at most 55, rises by at least 15 when below target, falls by at least 15 (or stops) when above |
| Physics.RunningTemp | app.py:129-134 | above 100 rpm the temperature is 60 + deviation/30 + offset within ±0.55; otherwise it only cools, by 0.5 while above 20 |
| Physics.EfficiencyLoss | app.py:136-138 | the loss lies in [0, 15] and is at least 5 exactly when speed is off nominal by more than 100 or temperature exceeds 80 |
| Physics.Efficiency | app.py:139 | efficiency is at least 50, at most 100 when health ≤ 100, exactly 100 for a healthy line at nominal speed and normal temperature, and above 80 only for positive health |
| Physics.Stress | app.py:144-147 | the stress of one tick lies in [0, 0.55] and is at least 0.05 while the rotor turns |
| Physics.StressedHealth | app.py:148-149 | stressed health is ≥ 0, never above the previous health, at most 0.55 below it, and strictly below it while the rotor turns |
| Physics.RepairedHealth | app.py:151-152 | after the fault check health is at least 80 and at most 100; a reading below 80 becomes 100, any other is kept |
| Orders.ProgressSpeed | app.py:166-167 | the progress step is speed/150 at normal temperature, speed/300 above 90 degrees, and never negative for a non-negative speed |
| Orders.AdvanceOrder | app.py:165-171 | only progress changes and only for eligible orders below 100; such an order's progress becomes min(100, progress + ⌊step⌋), so it never falls, never passes 100 and grows by at most the step |
| Orders.NominalTickAddsEight | app.py:166-170 | at 1200 rpm and 60 degrees an advancing order gains exactly 8 points, capped at 100 |
| Util.FirstIndex | app.py:357 | the result is the position of the first element that matches, or None exactly when none matches |
| Util.FindFirst | app.py:357 | the left-to-right scan returns the first matching position, or None when there is none |
| Orders.IndexOf | app.py:357 | the result is the position of the first order with the id, or None exactly when no order has it |
| Orders.FindOrder | app.py:357 | the scan returns the first position holding the id, or None when there is none |
| Text.NatToString | app.py:398 | the rendering is non-empty decimal digits with no leading zero, and the digits denote the number |
| Text.IntToString | app.py:398 | a negative number alone gets a leading '-', followed by the digits of its magnitude, which denote it |
| Util.Trunc | app.py:170 | int() truncates toward zero: the result is the integer between the value and 0 that is less than 1 away from the value |
| Priority.Classify | app.py:310-318 | ≤ 2 days is CRITICAL, 3–5 HIGH, 6–10 MEDIUM, later LOW, and an unparsable deadline alone is NORMAL (each an if-and-only-if) |
| Priority.CalculateAiPriority | app.py:301-318 | each band comes with its label and colour |
| Priority.ClassifyMonotone | app.py:310-316 | a later deadline never gets a more urgent band |
| Text.Lower | app.py:478 | case folding keeps the length, leaves no upper-case letter and changes only upper-case letters, each to its lower-case letter |
| Text.Contains | app.py:489-500 | the substring test holds exactly when the pattern occurs at some position |
| Factory.SuggestedMaterialRoundTrip | app.py:99-105 | the material a prediction message names is recovered from the message |
| Factory.PushReport | app.py:55-56 | logging puts the entry first and keeps the newest older entries; the log grows by one below 50 and keeps its length from 50 on |
| Factory.CommandMode | app.py:492-493 | "stop" stops the line even when "start" also appears; the mode changes only for one of the two words |
| Factory.CommandTarget | app.py:497-498 | "increase speed" adds exactly 100 and "decrease speed" removes exactly 100 to the target speed; both or neither leave it |
| Factory.CommandOffset | app.py:494-500 | starting from the offset, or from 0 after a repair, "increase temp" alone adds exactly 5, "decrease temp" alone removes exactly 5, and both or neither leave it |
| Factory.LockExemptCommandsSpareControls | app.py:489-500 | a command the lock lets through can change neither mode nor target speed, and changes the offset only by clearing it in a repair |
| Factory.ItemIndex | app.py:392 | the result is the position of the first inventory item with the name, or None exactly when there is none |
| Factory.FindItem | app.py:392 | the scan returns the first position holding the name, or None when there is none |
| Factory.CompleteSale | app.py:385-396 | completing q units adds 50·q to revenue (from 0 if the record is missing), keeps cost, and sets only the first Steel Sheets stock to max(0, stock − q // 2) |
| Factory.Factory.constructor | app.py:24-38 | the start-up state: 1200 rpm, 65 degrees, health 100, efficiency 95, yield 1450, running, unlocked, watermark 0 |
| Factory.Factory.Snapshot | app.py:178-194 | telemetry truncates speed, health and efficiency to the integer at most 1 below each, and health and efficiency stay in [0, 100] |
| Factory.Factory.AddReport | app.py:48-56 | the new log is the old one with the entry logged and capped at 50 |
| Factory.Factory.SetLocked | app.py:255-259 | the lock flag takes the requested value |
| Factory.Factory.Predict | app.py:93-109 | when running and 50 units past the watermark, the watermark moves to the yield and one notice naming the drawn material is appended; otherwise neither changes |
| Factory.Factory.StoppedDecay | app.py:111-121 | a stopped tick zeroes target and efficiency and decays speed and temperature as `StoppedRpm`/`StoppedTemp` |
| Factory.Factory.RunningPhysics | app.py:123-149 | a running tick sets speed, temperature, efficiency, yield and stressed health by the physics functions, in the source's order, and keeps `Valid` |
| Factory.Factory.AutoRepair | app.py:151-160 | below 80 health becomes 100, offset 0, target 1200 and a MAINTENANCE report is logged; otherwise nothing changes |
| Factory.Factory.AdvanceOrders | app.py:162-171 | every order becomes its `AdvanceOrder` image in place; the update flag is raised exactly when some order is eligible and below 100 |
| Factory.Factory.Tick | app.py:84-176 | a locked tick changes nothing; otherwise the prediction, stopped or running step, repair and order steps as above; health ends in [80, 100] and efficiency in [50, 100] after a running tick; yield grows by 0 to 3 |
| Factory.Factory.ApplyCommand | app.py:492-500 | an accepted command sets mode, health, offset and target by `CommandMode`, `CommandOffset`, `CommandTarget` and the repair rule |
| Factory.Factory.HandleAi | app.py:476-502 | manager alerts only append a notice; under the lock a speed/temp/start/stop command is refused with no change, and a repair still applies; otherwise the command is applied and echoed |
| Factory.Factory.OrderControl | app.py:352-372 | an unknown id changes nothing; delete removes the first order with the id, pause/resume set its flag (a paused order is no longer eligible), each with its report |
| Factory.Factory.BookCompletion | app.py:385-398 | completing q units adds q to the yield, books the sale as `CompleteSale` and logs the completion report |
| Factory.Factory.MoveWorkflow | app.py:374-406 | an unknown id changes nothing; otherwise the first order with the id takes the new status, and "Completed" books the sale, adds the quantity to the yield and logs the report |
| Factory.MidpointRun | app.py:123-154 | ten running ticks at midpoint draws from the start-up state take health from 100 down by exactly 0.05 per tick to 99.5 and yield from 1450 up by exactly 2 per tick to 1470, each strictly |

## Left out

- Flask routes, sessions, login, registration, password hashing and page rendering: web plumbing and foreign libraries.
- The routes that create orders or reset the system, and the read-only routes that only return state (`create_order`, `shop_order` with its unreachable duplicate tail, `reset_system`, the report and analytics routes): outside the engine.
- Reading and writing the JSON document. Only the inventory and financials that a workflow move changes are kept, as the `store` field. The copies of the order and report lists that the operations save are not modelled. Neither is the failure when the document has no production section.
- Publishing over Socket.IO. A tick's prediction notice, repair flag and order-update flag are returned instead. The telemetry payload is the `Snapshot` function, without the inventory and financials it reads from the document and without the `client_orders` list. The command acknowledgement is returned without its `cmd` echo.
- The background thread's start-up, the one-second sleep and any interleaving with request handlers: the model assumes the operations run one at a time.
- Random draws and wall-clock time: these are parameters with the source's bounds.
- IEEE floating point: quantities are exact reals. `round(…, 1)` of the running temperature is folded into the noise parameter.
- Factory.Factory.Snapshot: does not round the temperature to one decimal as the telemetry payload does, because rounding binary floats is not modelled.
- Text.Lower: folds ASCII letters only, while Python's lower() folds all of Unicode.
- Priority.Classify: takes the day difference, or None for a deadline that does not parse. Parsing the `%Y-%m-%d` date and subtracting the fixed system date are not modelled.
- Orders.Order: keeps only the id, product, quantity, status, paused flag and progress. The source reads progress and paused with defaults 0 and False. The model assumes both are present.
- Factory.Factory.MoveWorkflow: the new status is a string. A request without one, where the source stores None, is not modelled.

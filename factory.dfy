/**
 * The factory simulation engine: the single mutable state record, the
 * one-second tick of the background engine, the operator command interpreter
 * and the in-memory list operations on reports and work orders.
 *
 * Random draws, clock readings and the persistent document are inputs; the
 * events the engine publishes are returned to the caller.
 */
module Factory {
  import opened Util
  import opened Text
  import opened Physics
  import opened Orders

  /** A reading of the wall clock, already formatted: `date` as %Y-%m-%d and
      `time` as %H:%M:%S. */
  datatype Clock = Clock(date: string, time: string) {
    /** The stamp notifications carry. */
    function Short(): string {
      time
    }

    /** The stamp report entries carry. */
    function Long(): string {
      date + " " + time
    }
  }

  /** An entry of the notification stream. The manager's free-text alerts
      carry no `type`. */
  datatype Notification = Notification(sender: string, kind: Option<string>, message: string, timestamp: string)

  /** An entry of the report log. */
  datatype Report = Report(timestamp: string, kind: string, content: string, author: string)

  /** The parts of the persistent document that the workflow operation changes. */
  datatype Item = Item(name: string, stock: int)
  datatype Financials = Financials(revenue: int, cost: int)
  datatype Store = Store(financials: Option<Financials>, inventory: seq<Item>)

  /** What one tick publishes besides the telemetry snapshot: the prediction
      notice, whether the auto-repair ran (report, maintenance alert), and
      whether the order list is re-broadcast. */
  datatype TickEvents = TickEvents(prediction: Option<Notification>, repaired: bool, ordersUpdated: bool)

  /** The telemetry snapshot published every tick. */
  datatype Telemetry = Telemetry(
    rpm: int,
    temp: real,
    health: int,
    efficiency: int,
    yieldCount: int,
    mode: Mode,
    locked: bool)

  /** The report log keeps the 50 newest entries. */
  const ReportCap: nat := 50

  /** Restock catalogue the prediction advisor chooses from. */
  const Materials: seq<string> := ["Steel Sheets", "Copper Wire", "Lubricant", "Microchips"]

  /** Yield produced since the last prediction that triggers the next one. */
  const PredictionInterval: int := 50

  const PredictionPrefix: string := "DEMAND SURGE PREDICTED. Suggested: Restock "
  const PredictionSuffix: string := ". Action: Order Now."
  const RepairMessage: string := "CRITICAL HEALTH DETECTED. AI Auto-Repair Executed."
  const LockedAck: string := "LOCKED: Controls Disabled."
  const SystemAuthor: string := "System AI"

  // ---- Notifications and reports -------------------------------------------

  function PredictionNotice(material: string, clock: Clock): Notification {
    Notification("CORTEX_AI", Some("PREDICTION"), PredictionPrefix + material + PredictionSuffix, clock.Short())
  }

  /** The restock material a prediction message names, if it is one. */
  function SuggestedMaterial(message: string): Option<string> {
    if |message| >= |PredictionPrefix| + |PredictionSuffix|
       && message[..|PredictionPrefix|] == PredictionPrefix
       && message[|message| - |PredictionSuffix|..] == PredictionSuffix
    then Some(message[|PredictionPrefix|..|message| - |PredictionSuffix|])
    else None
  }

  /** A prediction notice names its material recoverably. */
  lemma SuggestedMaterialRoundTrip(material: string, clock: Clock)
    ensures SuggestedMaterial(PredictionNotice(material, clock).message) == Some(material)
  {
  }

  /** The advisor's trigger: running, and at least 50 units since the watermark. */
  predicate PredictionDue(mode: Mode, yieldCount: int, watermark: int) {
    mode == Running && yieldCount - watermark >= PredictionInterval
  }

  function ManagerNotice(message: Option<string>, clock: Clock): Notification {
    Notification("MANAGER", None, if message.Some? then message.value else "Alert from Manager", clock.Short())
  }

  function RepairReport(clock: Clock): Report {
    Report(clock.Long(), "MAINTENANCE", RepairMessage, SystemAuthor)
  }

  /** The report log after logging `entry`: newest first, the oldest entry
      dropped once the log would exceed 50. */
  function PushReport(log: seq<Report>, entry: Report): (r: seq<Report>)
    ensures |r| == if |log| < ReportCap then |log| + 1 else |log|
    ensures r[0] == entry
    ensures r[1..] == log[..|r| - 1]
    ensures |log| <= ReportCap ==> |r| <= ReportCap
  {
    var grown := [entry] + log;
    if |grown| > ReportCap then grown[..|grown| - 1] else grown
  }

  // ---- Commands --------------------------------------------------------------

  /** A (lower-cased) command that speaks of speed, temperature or run state;
      these are the ones the lock rejects. */
  predicate TouchesControls(cmd: string) {
    Contains(cmd, "speed") || Contains(cmd, "temp") || Contains(cmd, "start") || Contains(cmd, "stop")
  }

  predicate IsRepair(cmd: string) {
    Contains(cmd, "repair") || Contains(cmd, "stabilize")
  }

  /** Run state after an accepted command: "stop" wins over "start". */
  function CommandMode(mode: Mode, cmd: string): (r: Mode)
    ensures Contains(cmd, "stop") ==> r == Stopped
    ensures !Contains(cmd, "stop") && Contains(cmd, "start") ==> r == Running
    ensures r != mode ==> Contains(cmd, "stop") || Contains(cmd, "start")
  {
    var m := if Contains(cmd, "start") then Running else mode;
    if Contains(cmd, "stop") then Stopped else m
  }

  /** Target speed after an accepted command: +100 and/or -100. */
  function CommandTarget(target: int, cmd: string): (r: int)
    ensures Contains(cmd, "increase speed") && !Contains(cmd, "decrease speed") ==> r == target + 100
    ensures !Contains(cmd, "increase speed") && Contains(cmd, "decrease speed") ==> r == target - 100
    ensures Contains(cmd, "increase speed") == Contains(cmd, "decrease speed") ==> r == target
  {
    var t := if Contains(cmd, "increase speed") then target + 100 else target;
    if Contains(cmd, "decrease speed") then t - 100 else t
  }

  /** Temperature offset after an accepted command: a repair first clears it,
      then +5 and/or -5. */
  function CommandOffset(offset: real, cmd: string): (r: real)
    ensures !Contains(cmd, "increase temp") && !Contains(cmd, "decrease temp") ==> r == (if IsRepair(cmd) then 0.0 else offset)
    ensures Contains(cmd, "increase temp") && !Contains(cmd, "decrease temp") ==> r == (if IsRepair(cmd) then 0.0 else offset) + 5.0
    ensures !Contains(cmd, "increase temp") && Contains(cmd, "decrease temp") ==> r == (if IsRepair(cmd) then 0.0 else offset) - 5.0
    ensures Contains(cmd, "increase temp") && Contains(cmd, "decrease temp") ==> r == (if IsRepair(cmd) then 0.0 else offset)
  {
    var base := if IsRepair(cmd) then 0.0 else offset;
    var up := if Contains(cmd, "increase temp") then base + 5.0 else base;
    if Contains(cmd, "decrease temp") then up - 5.0 else up
  }

  /** A command the lock lets through changes neither run state nor target
      speed, and can only clear the temperature offset (by a repair). */
  lemma {:induction false} LockExemptCommandsSpareControls(mode: Mode, target: int, offset: real, cmd: string)
    requires !TouchesControls(cmd)
    ensures CommandMode(mode, cmd) == mode
    ensures CommandTarget(target, cmd) == target
    ensures CommandOffset(offset, cmd) == (if IsRepair(cmd) then 0.0 else offset)
  {
    if Contains(cmd, "increase speed") {
      assert OccursAt("increase speed", "speed", 9);
      ContainsPart(cmd, "increase speed", "speed", 9);
    }
    if Contains(cmd, "decrease speed") {
      assert OccursAt("decrease speed", "speed", 9);
      ContainsPart(cmd, "decrease speed", "speed", 9);
    }
    if Contains(cmd, "increase temp") {
      assert OccursAt("increase temp", "temp", 9);
      ContainsPart(cmd, "increase temp", "temp", 9);
    }
    if Contains(cmd, "decrease temp") {
      assert OccursAt("decrease temp", "temp", 9);
      ContainsPart(cmd, "decrease temp", "temp", 9);
    }
  }

  // ---- Order bookkeeping of the persistent document ----------------------------

  /** Position of the first inventory item with the given name, if any. */
  function ItemIndex(inventory: seq<Item>, name: string): (r: Option<nat>)
    ensures r.None? <==> forall k :: 0 <= k < |inventory| ==> inventory[k].name != name
    ensures r.Some? ==> r.value < |inventory| && inventory[r.value].name == name
    ensures r.Some? ==> forall k :: 0 <= k < r.value ==> inventory[k].name != name
  {
    FirstIndex(inventory, (i: Item) => i.name == name)
  }

  /** The raw-material lookup: the first item with this name, scanning left to right. */
  method FindItem(inventory: seq<Item>, name: string) returns (found: Option<nat>)
    ensures found == ItemIndex(inventory, name)
  {
    found := FindFirst(inventory, (i: Item) => i.name == name);
  }

  /** The document after an order of `qty` units is completed: revenue grows
      by 50 per unit (the financials record is created if missing), cost is
      kept, and the first "Steel Sheets" item loses qty // 2 units of stock,
      floored at 0; every other item is kept. Dafny's `/` on `int` rounds
      toward negative infinity for a positive divisor, so `qty / 2` is
      Python's `qty // 2` for every sign of `qty`. */
  function CompleteSale(s: Store, qty: int): (r: Store)
    ensures r.financials.Some?
    ensures r.financials.value.revenue == (if s.financials.Some? then s.financials.value.revenue else 0) + qty * 50
    ensures r.financials.value.cost == (if s.financials.Some? then s.financials.value.cost else 0)
    ensures |r.inventory| == |s.inventory|
    ensures forall k :: 0 <= k < |s.inventory| ==> r.inventory[k].name == s.inventory[k].name
    ensures forall k :: 0 <= k < |s.inventory| && Some(k) != ItemIndex(s.inventory, "Steel Sheets") ==>
      r.inventory[k] == s.inventory[k]
    // A corollary of the exact stock below: never negative, never raised by a sale.
    ensures forall k :: 0 <= k < |s.inventory| && Some(k) == ItemIndex(s.inventory, "Steel Sheets") ==>
      r.inventory[k].stock >= 0 && (qty >= 0 && s.inventory[k].stock >= 0 ==> r.inventory[k].stock <= s.inventory[k].stock)
    ensures forall k :: 0 <= k < |s.inventory| && Some(k) == ItemIndex(s.inventory, "Steel Sheets") ==>
      r.inventory[k].stock == MaxInt(0, s.inventory[k].stock - qty / 2)
  {
    var fin := if s.financials.Some? then s.financials.value else Financials(0, 0);
    var inventory :=
      match ItemIndex(s.inventory, "Steel Sheets")
      case None => s.inventory
      case Some(k) => s.inventory[k := s.inventory[k].(stock := MaxInt(0, s.inventory[k].stock - qty / 2))];
    Store(Some(fin.(revenue := fin.revenue + qty * 50)), inventory)
  }

  function CompletionReport(id: string, qty: int, clock: Clock): Report {
    Report(clock.Long(), "SUCCESS", "OPERATOR: Completed " + id + ". Revenue generated: $" + IntToString(qty * 50), SystemAuthor)
  }

  // ---- The engine's state ------------------------------------------------------

  class Factory {
    var targetRpm: int
    var currentRpm: real
    var temp: real
    var tempOffset: real
    var health: real
    var efficiency: real
    var yieldCount: int
    var mode: Mode
    var locked: bool
    var orders: seq<Order>
    var reports: seq<Report>
    var notifications: seq<Notification>
    /** Yield at the last prediction; a local of the engine loop, 0 at start. */
    var lastPredictionYield: int
    /** Inventory and financials of the persistent document. */
    var store: Store

    /** What every operation keeps: health within [0, 100], a non-negative
        rotor speed, efficiency within [0, 100]. */
    ghost predicate Valid()
      reads this
    {
      0.0 <= health <= 100.0 && 0.0 <= currentRpm && 0.0 <= efficiency <= 100.0
    }

    /** The start-up state, with the orders and reports found in the document. */
    constructor (savedOrders: seq<Order>, savedReports: seq<Report>, savedStore: Store)
      ensures Valid()
      ensures targetRpm == 1200 && currentRpm == 1200.0 && temp == 65.0 && tempOffset == 0.0
      ensures health == 100.0 && efficiency == 95.0 && yieldCount == 1450
      ensures mode == Running && !locked && lastPredictionYield == 0
      ensures orders == savedOrders && reports == savedReports && notifications == [] && store == savedStore
    {
      targetRpm := 1200;
      currentRpm := 1200.0;
      temp := 65.0;
      tempOffset := 0.0;
      health := 100.0;
      efficiency := 95.0;
      yieldCount := 1450;
      mode := Running;
      locked := false;
      orders := savedOrders;
      reports := savedReports;
      notifications := [];
      lastPredictionYield := 0;
      store := savedStore;
    }

    /** The telemetry snapshot: speed, health and efficiency truncated to
        integers as int() does. */
    function Snapshot(): (t: Telemetry)
      reads this
      ensures currentRpm >= 0.0 ==> 0 <= t.rpm && t.rpm as real <= currentRpm < t.rpm as real + 1.0
      ensures Valid() ==> 0 <= t.health <= 100 && 0 <= t.efficiency <= 100
      ensures Valid() ==> t.health as real <= health < t.health as real + 1.0
      ensures Valid() ==> t.efficiency as real <= efficiency < t.efficiency as real + 1.0
      ensures t.temp == temp && t.yieldCount == yieldCount && t.mode == mode && t.locked == locked
    {
      Telemetry(Trunc(currentRpm), temp, Trunc(health), Trunc(efficiency), yieldCount, mode, locked)
    }

    /** Log an entry in the report log, newest first, capped at 50. */
    method AddReport(content: string, kind: string, author: string, clock: Clock) returns (entry: Report)
      modifies this`reports
      ensures entry == Report(clock.Long(), kind, content, author)
      ensures reports == PushReport(old(reports), entry)
    {
      entry := Report(clock.Long(), kind, content, author);
      reports := [entry] + reports;
      if |reports| > ReportCap {
        reports := reports[..|reports| - 1];
      }
    }

    /** Freeze or unfreeze the line. */
    method SetLocked(frozen: bool)
      modifies this`locked
      ensures locked == frozen
    {
      locked := frozen;
    }

    // ---- One tick ----

    /** The prediction advisor: on a due prediction, move the watermark to the
        current yield and append one notice naming the drawn material. */
    method Predict(materialIndex: nat, clock: Clock) returns (notice: Option<Notification>)
      requires materialIndex < |Materials|
      modifies this`notifications, this`lastPredictionYield
      ensures PredictionDue(mode, yieldCount, old(lastPredictionYield)) ==>
        && notice == Some(PredictionNotice(Materials[materialIndex], clock))
        && lastPredictionYield == yieldCount
        && notifications == old(notifications) + [notice.value]
      ensures !PredictionDue(mode, yieldCount, old(lastPredictionYield)) ==>
        && notice == None
        && lastPredictionYield == old(lastPredictionYield)
        && notifications == old(notifications)
    {
      notice := None;
      if mode == Running {
        var currentYield := yieldCount;
        if currentYield - lastPredictionYield >= PredictionInterval {
          lastPredictionYield := currentYield;
          var suggested := Materials[materialIndex];
          var payload := PredictionNotice(suggested, clock);
          notifications := notifications + [payload];
          notice := Some(payload);
        }
      }
    }

    /** The stopped branch: no target, no efficiency, speed and temperature
        decaying toward 0. */
    method StoppedDecay()
      requires Valid()
      modifies this`targetRpm, this`currentRpm, this`temp, this`efficiency
      ensures Valid()
      ensures targetRpm == 0 && efficiency == 0.0
      ensures currentRpm == StoppedRpm(old(currentRpm)) && temp == StoppedTemp(old(temp))
    {
      targetRpm := 0;
      if currentRpm > 0.0 {
        var decay := MaxReal(10.0, currentRpm * 0.15);
        currentRpm := currentRpm - decay;
        if currentRpm < 1.0 {
          currentRpm := 0.0;
        }
      }
      if temp > 0.0 {
        temp := temp - 2.0;
        if temp < 0.0 {
          temp := 0.0;
        }
      }
      efficiency := 0.0;
    }

    /** The running branch before the fault check: speed, temperature,
        efficiency and yield, then stress on health. */
    method RunningPhysics(step: int, jitter: int, gain: int, noise: real)
      requires Valid()
      requires 20 <= step <= 50 && -5 <= jitter <= 5 && 1 <= gain <= 3 && -0.55 <= noise <= 0.55
      modifies this`currentRpm, this`temp, this`efficiency, this`yieldCount, this`health
      ensures Valid()
      ensures currentRpm == ApproachRpm(old(currentRpm), targetRpm as real, step, jitter)
      ensures temp == RunningTemp(currentRpm, old(temp), tempOffset, noise)
      ensures efficiency == Efficiency(currentRpm, temp, old(health))
      ensures yieldCount == old(yieldCount) + (if efficiency > 80.0 then gain else 0)
      ensures health == StressedHealth(old(health), currentRpm, temp)
    {
      var target := targetRpm as real;
      var current := currentRpm;
      if current < target {
        currentRpm := currentRpm + step as real;
      } else if current > target {
        currentRpm := currentRpm - step as real;
      }
      currentRpm := MaxReal(0.0, currentRpm + jitter as real);

      if currentRpm > 100.0 {
        var deviation := Abs(currentRpm - NominalRpm);
        var baseTemp := 60.0 + deviation / 30.0 + tempOffset;
        temp := baseTemp + noise;
      } else {
        if temp > 20.0 {
          temp := temp - 0.5;
        }
      }

      var loss := 0.0;
      if Abs(currentRpm - NominalRpm) > 100.0 {
        loss := loss + 5.0;
      }
      if temp > 80.0 {
        loss := loss + 10.0;
      }
      efficiency := MaxReal(50.0, 100.0 - loss - (100.0 - health) * 0.2);

      if efficiency > 80.0 {
        yieldCount := yieldCount + gain;
      }

      var stress := 0.0;
      if currentRpm > 1800.0 {
        stress := stress + 0.2;
      }
      if temp > 85.0 {
        stress := stress + 0.3;
      }
      if currentRpm > 0.0 {
        stress := stress + 0.05;
      }
      health := health - stress;
      if health < 0.0 {
        health := 0.0;
      }
    }

    /** The fault controller: below 80, restore health, clear the offset,
        reset the target speed and log a maintenance report. */
    method AutoRepair(clock: Clock) returns (repaired: bool)
      requires Valid()
      modifies this`health, this`tempOffset, this`targetRpm, this`reports
      ensures Valid()
      ensures repaired == NeedsRepair(old(health))
      ensures health == RepairedHealth(old(health))
      ensures repaired ==> tempOffset == 0.0 && targetRpm == 1200 && reports == PushReport(old(reports), RepairReport(clock))
      ensures !repaired ==> tempOffset == old(tempOffset) && targetRpm == old(targetRpm) && reports == old(reports)
    {
      repaired := health < RepairThreshold;
      if repaired {
        health := 100.0;
        tempOffset := 0.0;
        targetRpm := 1200;
        var _ := AddReport(RepairMessage, "MAINTENANCE", SystemAuthor, clock);
      }
    }

    /** The order scheduler: advance every eligible order below 100 in place;
        report whether any was touched. */
    method AdvanceOrders() returns (updated: bool)
      requires currentRpm >= 0.0
      modifies this`orders
      ensures |orders| == |old(orders)|
      ensures forall k :: 0 <= k < |orders| ==> orders[k] == AdvanceOrder(old(orders)[k], ProgressSpeed(currentRpm, temp))
      ensures updated <==> exists k :: 0 <= k < |old(orders)| && Advances(old(orders)[k])
    {
      ghost var speed := ProgressSpeed(currentRpm, temp);
      updated := false;
      var i := 0;
      while i < |orders|
        invariant 0 <= i <= |orders| == |old(orders)|
        invariant forall k :: 0 <= k < i ==> orders[k] == AdvanceOrder(old(orders)[k], speed)
        invariant forall k :: i <= k < |orders| ==> orders[k] == old(orders)[k]
        invariant updated <==> exists k :: 0 <= k < i && Advances(old(orders)[k])
      {
        var order := orders[i];
        if order.status == "In Progress" && !order.paused {
          var progressSpeed := (currentRpm / 1200.0) * 8.0;
          if temp > 90.0 {
            progressSpeed := progressSpeed * 0.5;
          }
          var currentProg := order.progress;
          if currentProg < 100 {
            orders := orders[i := order.(progress := MinInt(100, Trunc(currentProg as real + progressSpeed)))];
            updated := true;
          }
        }
        i := i + 1;
      }
    }

    /**
     * One tick of the engine. The random draws are parameters: `step` is the
     * speed step in [20, 50], `jitter` the speed jitter in [-5, 5], `gain` the
     * yield gain in [1, 3], `noise` the temperature noise after rounding, and
     * `materialIndex` the restock material drawn.
     */
    method Tick(step: int, jitter: int, gain: int, noise: real, materialIndex: nat, clock: Clock)
      returns (events: TickEvents)
      requires Valid()
      requires 20 <= step <= 50 && -5 <= jitter <= 5 && 1 <= gain <= 3
      requires -0.55 <= noise <= 0.55 && materialIndex < |Materials|
      modifies this`targetRpm, this`currentRpm, this`temp, this`tempOffset, this`health,
        this`efficiency, this`yieldCount, this`orders, this`reports,
        this`notifications, this`lastPredictionYield
      ensures Valid()
      ensures mode == old(mode) && locked == old(locked) && store == old(store)
      // a locked line is frozen
      ensures old(locked) ==> unchanged(this) && events == TickEvents(None, false, false)
      // the prediction advisor
      ensures !old(locked) && PredictionDue(old(mode), old(yieldCount), old(lastPredictionYield)) ==>
        && lastPredictionYield == old(yieldCount)
        && events.prediction == Some(PredictionNotice(Materials[materialIndex], clock))
        && notifications == old(notifications) + [events.prediction.value]
      ensures !(!old(locked) && PredictionDue(old(mode), old(yieldCount), old(lastPredictionYield))) ==>
        && lastPredictionYield == old(lastPredictionYield)
        && events.prediction == None
        && notifications == old(notifications)
      // the stopped line
      ensures !old(locked) && old(mode) == Stopped ==>
        && targetRpm == 0 && efficiency == 0.0
        && currentRpm == StoppedRpm(old(currentRpm)) && currentRpm <= old(currentRpm)
        && temp == StoppedTemp(old(temp)) && temp <= old(temp)
        && health == old(health) && tempOffset == old(tempOffset) && yieldCount == old(yieldCount)
        && orders == old(orders) && reports == old(reports)
        && !events.repaired && !events.ordersUpdated
      // the running line
      ensures !old(locked) && old(mode) == Running ==>
        && currentRpm == ApproachRpm(old(currentRpm), old(targetRpm) as real, step, jitter)
        && temp == RunningTemp(currentRpm, old(temp), old(tempOffset), noise)
        && efficiency == Efficiency(currentRpm, temp, old(health))
        && 50.0 <= efficiency <= 100.0
        && yieldCount == old(yieldCount) + (if efficiency > 80.0 then gain else 0)
        && events.repaired == NeedsRepair(StressedHealth(old(health), currentRpm, temp))
        && health == RepairedHealth(StressedHealth(old(health), currentRpm, temp))
        && 80.0 <= health <= 100.0
      ensures !old(locked) && old(mode) == Running && events.repaired ==>
        tempOffset == 0.0 && targetRpm == 1200 && reports == PushReport(old(reports), RepairReport(clock))
      ensures !old(locked) && old(mode) == Running && !events.repaired ==>
        tempOffset == old(tempOffset) && targetRpm == old(targetRpm) && reports == old(reports)
      ensures !old(locked) && old(mode) == Running ==>
        && |orders| == |old(orders)|
        && (forall k :: 0 <= k < |orders| ==> orders[k] == AdvanceOrder(old(orders)[k], ProgressSpeed(currentRpm, temp)))
        && (events.ordersUpdated <==> exists k :: 0 <= k < |old(orders)| && Advances(old(orders)[k]))
      // yield never falls
      ensures old(yieldCount) <= yieldCount <= old(yieldCount) + 3
    {
      if locked {
        return TickEvents(None, false, false);
      }

      var notice := Predict(materialIndex, clock);

      var repaired := false;
      if mode == Stopped {
        StoppedDecay();
      } else {
        RunningPhysics(step, jitter, gain, noise);
        repaired := AutoRepair(clock);
      }

      var updated := false;
      if mode == Running {
        updated := AdvanceOrders();
      }
      events := TickEvents(notice, repaired, updated);
    }

    // ---- Commands ----

    /** An accepted command, already lower-cased: start/stop (stop last, so
        it wins), repair/stabilize, then the speed and temperature steps. */
    method ApplyCommand(cmd: string)
      requires Valid()
      modifies this`mode, this`health, this`tempOffset, this`targetRpm
      ensures Valid()
      ensures mode == CommandMode(old(mode), cmd)
      ensures health == (if IsRepair(cmd) then 100.0 else old(health))
      ensures tempOffset == CommandOffset(old(tempOffset), cmd)
      ensures targetRpm == CommandTarget(old(targetRpm), cmd)
    {
      var start, stop := Contains(cmd, "start"), Contains(cmd, "stop");
      var repair := Contains(cmd, "repair") || Contains(cmd, "stabilize");
      var faster, slower := Contains(cmd, "increase speed"), Contains(cmd, "decrease speed");
      var hotter, cooler := Contains(cmd, "increase temp"), Contains(cmd, "decrease temp");
      if start {
        mode := Running;
      }
      if stop {
        mode := Stopped;
      }
      if repair {
        health := 100.0;
        tempOffset := 0.0;
      }
      if faster {
        targetRpm := targetRpm + 100;
      }
      if slower {
        targetRpm := targetRpm - 100;
      }
      if hotter {
        tempOffset := tempOffset + 5.0;
      }
      if cooler {
        tempOffset := tempOffset - 5.0;
      }
    }

    /**
     * The command interpreter. A manager alert is appended to the
     * notifications and nothing else happens. Otherwise the command is
     * lower-cased; under the lock a command about speed, temperature or run
     * state is refused; any other command is applied.
     */
    method HandleAi(rawCmd: string, toOperator: bool, message: Option<string>, clock: Clock)
      returns (ack: Option<string>)
      requires Valid()
      modifies this`mode, this`health, this`tempOffset, this`targetRpm, this`notifications
      ensures Valid()
      ensures toOperator ==>
        && ack == None
        && notifications == old(notifications) + [ManagerNotice(message, clock)]
        && mode == old(mode) && health == old(health) && tempOffset == old(tempOffset) && targetRpm == old(targetRpm)
      ensures !toOperator ==> notifications == old(notifications)
      ensures !toOperator && locked && TouchesControls(Lower(rawCmd)) ==>
        && ack == Some(LockedAck)
        && mode == old(mode) && health == old(health) && tempOffset == old(tempOffset) && targetRpm == old(targetRpm)
      ensures !toOperator && !(locked && TouchesControls(Lower(rawCmd))) ==>
        && ack == Some("Executed: " + Lower(rawCmd))
        && mode == CommandMode(old(mode), Lower(rawCmd))
        && health == (if IsRepair(Lower(rawCmd)) then 100.0 else old(health))
        && tempOffset == CommandOffset(old(tempOffset), Lower(rawCmd))
        && targetRpm == CommandTarget(old(targetRpm), Lower(rawCmd))
      // under the lock only a repair gets through
      ensures locked ==> mode == old(mode) && targetRpm == old(targetRpm)
      ensures locked ==> tempOffset == old(tempOffset) || (tempOffset == 0.0 && health == 100.0)
    {
      var cmd := Lower(rawCmd);
      if toOperator {
        var notif := ManagerNotice(message, clock);
        notifications := notifications + [notif];
        return None;
      }
      if locked && (Contains(cmd, "speed") || Contains(cmd, "temp") || Contains(cmd, "start") || Contains(cmd, "stop")) {
        return Some(LockedAck);
      }
      if locked {
        LockExemptCommandsSpareControls(mode, targetRpm, tempOffset, cmd);
      }
      ApplyCommand(cmd);
      ack := Some("Executed: " + cmd);
    }

    // ---- Order operations ----

    /**
     * Order control: find the order by id; "delete" removes it, "pause" and
     * "resume" set its paused flag, each with a report entry; any other action
     * changes nothing. An unknown id is an error and changes nothing.
     */
    method OrderControl(id: string, action: string, clock: Clock) returns (ok: bool)
      modifies this`orders, this`reports
      ensures ok <==> IndexOf(old(orders), id).Some?
      ensures !ok ==> orders == old(orders) && reports == old(reports)
      ensures ok && action == "delete" ==>
        var k := IndexOf(old(orders), id).value;
        && orders == old(orders)[..k] + old(orders)[k + 1..]
        && reports == PushReport(old(reports), Report(clock.Long(), "WARN", "Order " + id + " removed.", SystemAuthor))
      ensures ok && action == "pause" ==>
        var k := IndexOf(old(orders), id).value;
        && orders == old(orders)[k := old(orders)[k].(paused := true)]
        && !Eligible(orders[k])
        && reports == PushReport(old(reports), Report(clock.Long(), "QA", "DEFECT FLAG: " + id + " Paused.", SystemAuthor))
      ensures ok && action == "resume" ==>
        var k := IndexOf(old(orders), id).value;
        && orders == old(orders)[k := old(orders)[k].(paused := false)]
        && reports == PushReport(old(reports), Report(clock.Long(), "INFO", "RESUMED: " + id + ".", SystemAuthor))
      ensures action != "delete" && action != "pause" && action != "resume" ==>
        orders == old(orders) && reports == old(reports)
    {
      var found := FindOrder(orders, id);
      if found.None? {
        return false;
      }
      var k := found.value;
      var target := orders[k];
      if action == "delete" {
        orders := orders[..k] + orders[k + 1..];
        var _ := AddReport("Order " + id + " removed.", "WARN", SystemAuthor, clock);
      } else if action == "pause" {
        orders := orders[k := target.(paused := true)];
        var _ := AddReport("DEFECT FLAG: " + id + " Paused.", "QA", SystemAuthor, clock);
      } else if action == "resume" {
        orders := orders[k := target.(paused := false)];
        var _ := AddReport("RESUMED: " + id + ".", "INFO", SystemAuthor, clock);
      }
      ok := true;
    }

    /**
     * The bookkeeping of a completed order of `qty` units: the sale goes into
     * the document, the quantity into the yield, and a report into the log.
     */
    method BookCompletion(id: string, qty: int, clock: Clock)
      modifies this`yieldCount, this`store, this`reports
      ensures yieldCount == old(yieldCount) + qty
      ensures store == CompleteSale(old(store), qty)
      ensures reports == PushReport(old(reports), CompletionReport(id, qty, clock))
    {
      var revenueGain := qty * 50;
      var fin := if store.financials.Some? then store.financials.value else Financials(0, 0);
      fin := fin.(revenue := fin.revenue + revenueGain);
      var inventory := store.inventory;
      var steel := FindItem(inventory, "Steel Sheets");
      if steel.Some? {
        var i := steel.value;
        inventory := inventory[i := inventory[i].(stock := MaxInt(0, inventory[i].stock - qty / 2))];
      }
      yieldCount := yieldCount + qty;
      store := Store(Some(fin), inventory);
      var _ := AddReport("OPERATOR: Completed " + id + ". Revenue generated: $" + IntToString(revenueGain), "SUCCESS", SystemAuthor, clock);
    }

    /**
     * Workflow move: find the order by id and set its status. Moving it to
     * "Completed" books the sale in the document, adds its quantity to the
     * yield and logs a report. An unknown id is an error and changes nothing.
     */
    method MoveWorkflow(id: string, newStatus: string, clock: Clock) returns (ok: bool)
      modifies this`orders, this`yieldCount, this`store, this`reports
      ensures ok <==> IndexOf(old(orders), id).Some?
      ensures !ok ==> orders == old(orders) && yieldCount == old(yieldCount) && store == old(store) && reports == old(reports)
      ensures ok ==>
        var k := IndexOf(old(orders), id).value;
        orders == old(orders)[k := old(orders)[k].(status := newStatus)]
      ensures ok && newStatus == "Completed" ==>
        var qty := old(orders)[IndexOf(old(orders), id).value].quantity;
        && yieldCount == old(yieldCount) + qty
        && store == CompleteSale(old(store), qty)
        && reports == PushReport(old(reports), CompletionReport(id, qty, clock))
      ensures newStatus != "Completed" ==>
        yieldCount == old(yieldCount) && store == old(store) && reports == old(reports)
    {
      var found := FindOrder(orders, id);
      if found.None? {
        return false;
      }
      var k := found.value;
      var target := orders[k];
      orders := orders[k := target.(status := newStatus)];

      if newStatus == "Completed" {
        BookCompletion(id, target.quantity, clock);
      }
      ok := true;
    }
  }

  /**
   * The nominal run: from the start-up state, ten ticks with every draw at its
   * midpoint (no jitter, no temperature noise, a yield gain of 2). Health falls
   * by 0.05 and yield rises by 2 on every tick; no repair is needed.
   */
  method MidpointRun() returns (healths: seq<real>, counts: seq<int>)
    ensures |healths| == |counts| == 11
    ensures forall t :: 0 <= t < 10 ==> healths[t + 1] < healths[t] && counts[t] < counts[t + 1]
    ensures forall t :: 0 <= t <= 10 ==> healths[t] == 100.0 - 0.05 * (t as real) && counts[t] == 1450 + 2 * t
    ensures healths[10] == 99.5 && counts[10] == 1470
  {
    var f := new Factory([], [], Store(None, []));
    healths, counts := [f.health], [f.yieldCount];
    var t := 0;
    while t < 10
      invariant 0 <= t <= 10
      invariant f.Valid() && !f.locked && f.mode == Running
      invariant f.targetRpm == 1200 && f.currentRpm == 1200.0 && f.tempOffset == 0.0
      invariant f.health == 100.0 - 0.05 * (t as real) && f.yieldCount == 1450 + 2 * t
      invariant |healths| == |counts| == t + 1
      invariant forall s :: 0 <= s <= t ==> healths[s] == 100.0 - 0.05 * (s as real) && counts[s] == 1450 + 2 * s
    {
      var _ := f.Tick(35, 0, 2, 0.0, 0, Clock("2026-01-17", "08:00:00"));
      healths, counts := healths + [f.health], counts + [f.yieldCount];
      t := t + 1;
    }
  }
}

/**
 * The per-tick process model of the simulated line, one pure function per
 * quantity: the stopped decay, the running approach to the target speed, the
 * temperature, the efficiency, the mechanical stress on health and the fault
 * threshold. Random draws of the engine are parameters here, bounded as the
 * engine bounds them.
 */
module Physics {
  import opened Util

  /** Operating mode of the line: the `status` field, "RUNNING" or "STOPPED". */
  datatype Mode = Running | Stopped

  /** The speed the temperature and efficiency terms are measured against. */
  const NominalRpm: real := 1200.0

  /** Health below this triggers the automatic repair. */
  const RepairThreshold: real := 80.0

  // ---- Stopped mode -------------------------------------------------------

  /** Rotor speed after one stopped tick: it sheds the larger of 10 and 15%,
      and anything left below 1 snaps to 0. */
  function StoppedRpm(rpm: real): (r: real)
    ensures r <= rpm
    ensures rpm >= 0.0 ==> r >= 0.0
    ensures rpm <= 0.0 ==> r == rpm
    ensures rpm > 0.0 ==> r == 0.0 || (1.0 <= r && r <= rpm - 10.0 && r <= rpm * 0.85)
  {
    if rpm > 0.0 then
      var decayed := rpm - MaxReal(10.0, rpm * 0.15);
      if decayed < 1.0 then 0.0 else decayed
    else rpm
  }

  /** Temperature after one stopped tick: 2 degrees lower, floored at 0. */
  function StoppedTemp(temp: real): (r: real)
    ensures r <= temp
    ensures temp >= 0.0 ==> r >= 0.0
    ensures temp <= 0.0 ==> r == temp
    ensures temp > 0.0 ==> r == 0.0 || r == temp - 2.0
    ensures temp >= 2.0 ==> r == temp - 2.0
  {
    if temp > 0.0 then
      if temp - 2.0 < 0.0 then 0.0 else temp - 2.0
    else temp
  }

  /** Rotor speed after n consecutive stopped ticks. */
  function RpmAfterStoppedTicks(rpm: real, n: nat): real
    decreases n
  {
    if n == 0 then rpm else RpmAfterStoppedTicks(StoppedRpm(rpm), n - 1)
  }

  /** Temperature after n consecutive stopped ticks. */
  function TempAfterStoppedTicks(temp: real, n: nat): real
    decreases n
  {
    if n == 0 then temp else TempAfterStoppedTicks(StoppedTemp(temp), n - 1)
  }

  /** A stopped line comes to rest: n ticks suffice once 10 * n reaches the speed. */
  lemma {:induction false} StoppedRpmReachesZero(rpm: real, n: nat)
    requires 0.0 <= rpm <= 10.0 * (n as real)
    ensures RpmAfterStoppedTicks(rpm, n) == 0.0
    decreases n
  {
    if n > 0 {
      StoppedRpmReachesZero(StoppedRpm(rpm), n - 1);
    }
  }

  /** A stopped line cools to 0: n ticks suffice once 2 * n reaches the temperature. */
  lemma {:induction false} StoppedTempReachesZero(temp: real, n: nat)
    requires 0.0 <= temp <= 2.0 * (n as real)
    ensures TempAfterStoppedTicks(temp, n) == 0.0
    decreases n
  {
    if n > 0 {
      StoppedTempReachesZero(StoppedTemp(temp), n - 1);
    }
  }

  /** Speed and temperature never rise while the line stays stopped. */
  lemma {:induction false} StoppedTicksNonIncreasing(rpm: real, temp: real, n: nat)
    ensures RpmAfterStoppedTicks(rpm, n + 1) <= RpmAfterStoppedTicks(rpm, n)
    ensures TempAfterStoppedTicks(temp, n + 1) <= TempAfterStoppedTicks(temp, n)
    decreases n
  {
    if n > 0 {
      StoppedTicksNonIncreasing(StoppedRpm(rpm), StoppedTemp(temp), n - 1);
    }
  }

  /** From any speed up to 2000 and temperature up to 400 the line is at rest
      and cold after 200 stopped ticks. */
  lemma StoppedLineSettles(rpm: real, temp: real)
    requires 0.0 <= rpm <= 2000.0 && 0.0 <= temp <= 400.0
    ensures RpmAfterStoppedTicks(rpm, 200) == 0.0
    ensures TempAfterStoppedTicks(temp, 200) == 0.0
  {
    StoppedRpmReachesZero(rpm, 200);
    StoppedTempReachesZero(temp, 200);
  }

  // ---- Running mode -------------------------------------------------------

  /** Rotor speed after one running tick: a step of `step` toward the target,
      then a jitter, clamped at 0. */
  function ApproachRpm(current: real, target: real, step: int, jitter: int): (r: real)
    requires 20 <= step <= 50 && -5 <= jitter <= 5
    ensures r >= 0.0
    ensures current >= 0.0 ==> Abs(r - current) <= 55.0
    ensures 0.0 <= current < target ==> r >= current + 15.0
    ensures current > target ==> r == 0.0 || r <= current - 15.0
    ensures current == target ==> Abs(r - current) <= 5.0 || r == 0.0
  {
    var moved :=
      if current < target then current + step as real
      else if current > target then current - step as real
      else current;
    MaxReal(0.0, moved + jitter as real)
  }

  /** Temperature after one running tick. Above 100 rpm it is recomputed from
      the deviation from nominal speed, the manual offset and a noise term
      (the draw in [-0.5, 0.5] plus the rounding to one decimal); at or below
      100 rpm it cools by 0.5 while above 20. */
  function RunningTemp(rpm: real, temp: real, offset: real, noise: real): (r: real)
    requires -0.55 <= noise <= 0.55
    ensures rpm > 100.0 ==>
      60.0 + Abs(rpm - NominalRpm) / 30.0 + offset - 0.55 <= r <= 60.0 + Abs(rpm - NominalRpm) / 30.0 + offset + 0.55
    ensures rpm <= 100.0 ==> r <= temp
    ensures rpm <= 100.0 && temp > 20.0 ==> r > 19.5 && r == temp - 0.5
    ensures rpm <= 100.0 && temp <= 20.0 ==> r == temp
  {
    if rpm > 100.0 then 60.0 + Abs(rpm - NominalRpm) / 30.0 + offset + noise
    else if temp > 20.0 then temp - 0.5
    else temp
  }

  /** Efficiency loss from running off nominal speed and running hot. */
  function EfficiencyLoss(rpm: real, temp: real): (r: real)
    ensures 0.0 <= r <= 15.0
    ensures (r >= 5.0) <==> Abs(rpm - NominalRpm) > 100.0 || temp > 80.0
  {
    (if Abs(rpm - NominalRpm) > 100.0 then 5.0 else 0.0) + (if temp > 80.0 then 10.0 else 0.0)
  }

  /** Efficiency of a running tick, from the new speed and temperature and the
      health before this tick's stress; never below 50. */
  function Efficiency(rpm: real, temp: real, health: real): (r: real)
    ensures r >= 50.0
    ensures health <= 100.0 ==> r <= 100.0
    ensures r > 80.0 ==> health > 0.0 && r == 100.0 - EfficiencyLoss(rpm, temp) - (100.0 - health) * 0.2
    ensures health == 100.0 && Abs(rpm - NominalRpm) <= 100.0 && temp <= 80.0 ==> r == 100.0
  {
    MaxReal(50.0, 100.0 - EfficiencyLoss(rpm, temp) - (100.0 - health) * 0.2)
  }

  /** Mechanical stress of one running tick. */
  function Stress(rpm: real, temp: real): (r: real)
    ensures 0.0 <= r <= 0.55
    ensures rpm > 0.0 ==> r >= 0.05
    ensures rpm <= 0.0 && temp <= 85.0 ==> r == 0.0
  {
    (if rpm > 1800.0 then 0.2 else 0.0) + (if temp > 85.0 then 0.3 else 0.0) + (if rpm > 0.0 then 0.05 else 0.0)
  }

  /** Health after this tick's stress, floored at 0. */
  function StressedHealth(health: real, rpm: real, temp: real): (r: real)
    ensures r >= 0.0
    ensures health >= 0.0 ==> r <= health
    ensures health >= 0.55 ==> r >= health - 0.55
    ensures health > 0.0 && rpm > 0.0 ==> r < health
    ensures rpm <= 0.0 && temp <= 85.0 && health >= 0.0 ==> r == health
  {
    var h := health - Stress(rpm, temp);
    if h < 0.0 then 0.0 else h
  }

  /** The fault controller's test. */
  predicate NeedsRepair(health: real) {
    health < RepairThreshold
  }

  /** Health after the fault controller: a reading below the threshold is
      reset to 100, anything else is kept. */
  function RepairedHealth(health: real): (r: real)
    ensures r >= RepairThreshold
    ensures health <= 100.0 ==> r <= 100.0
    ensures NeedsRepair(health) ==> r == 100.0
    ensures !NeedsRepair(health) ==> r == health
  {
    if NeedsRepair(health) then 100.0 else health
  }
}

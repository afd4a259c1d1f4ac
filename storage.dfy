/**
  What the battery rules imply: the initial volume term vanishes, so a
  battery cannot reload in hour 1; the volume is the running sum of
  efficiency-weighted load plus reload; and the net power has the sign of
  whichever of load and reload is active.
 */
module Storage {
  import opened Units
  import opened Sums
  import opened Schedule
  import opened Constraints

  /** Hour 1: the battery starts empty, so it can only load. */
  lemma FirstHourNoReload(u: Unit, prevVolume: real, v: BatteryVars)
    requires BatteryDomains(u, v) && VolumeState(u, 1, prevVolume, v)
    requires BatteryLimits(u, v) && OneDirection(v)
    ensures u.power * BATTERY_START * BATTERY_LOAD_TIME == 0.0
    ensures v.reload == 0.0 && v.volume == BATTERY_EFF * v.load
  {
  }

  /** Net power is the active one of load and reload, so it is bounded by the rating. */
  lemma NetPowerOneSided(u: Unit, v: BatteryVars)
    requires BatteryDomains(u, v) && OneDirection(v) && BatterySum(v)
    ensures v.bPower > 0.0 <==> v.load > 0.0
    ensures v.bPower < 0.0 <==> v.reload < 0.0
    ensures -u.power <= v.bPower <= u.power
  {
  }

  /** Energy entering the store in hour h: load at the round-trip efficiency, plus the non-positive reload. */
  function NetCharge(s: Schedule, k: string): int -> real {
    h => NetChargeAt(s, k, h)
  }

  function NetChargeAt(s: Schedule, k: string, h: int): real {
    BatteryAt(s, k, h).load * BATTERY_EFF + BatteryAt(s, k, h).reload
  }

  function LoadSeries(s: Schedule, k: string): int -> real {
    h => BatteryAt(s, k, h).load
  }

  function ReloadSeries(s: Schedule, k: string): int -> real {
    h => BatteryAt(s, k, h).reload
  }

  /** The volume rule of one hour, read off the battery's rules. */
  lemma VolumeStep(u: Unit, s: Schedule, k: string, h: int)
    requires BatteryHourFeasible(u, s, k, h)
    ensures h > 1 ==> BatteryAt(s, k, h).volume == NetChargeAt(s, k, h) + BatteryAt(s, k, h - 1).volume
    ensures h <= 1 ==> BatteryAt(s, k, h).volume == NetChargeAt(s, k, h)
  {
  }

  /** The volume of hour h is the net charge accumulated over hours 1..h. */
  lemma {:induction false} VolumeIsAccumulatedCharge(u: Unit, s: Schedule, k: string, h: int)
    requires BatteryFeasible(u, s, k)
    requires IsHour(h)
    ensures BatteryAt(s, k, h).volume == SumHours(h, NetCharge(s, k))
  {
    VolumeStep(u, s, k, h);
    if h > 1 {
      VolumeIsAccumulatedCharge(u, s, k, h - 1);
    }
  }

  lemma {:induction false} NetChargeSplits(s: Schedule, k: string, n: nat)
    ensures SumHours(n, NetCharge(s, k)) == BATTERY_EFF * SumHours(n, LoadSeries(s, k)) + SumHours(n, ReloadSeries(s, k))
  {
    if n > 0 {
      NetChargeSplits(s, k, n - 1);
    }
  }

  /**
    Up to any hour, a battery has given back at most BATTERY_EFF of what it
    has taken in, and never holds more than power * BATTERY_LOAD_TIME.
   */
  lemma DischargeBoundedByCharge(u: Unit, s: Schedule, k: string, h: int)
    requires BatteryFeasible(u, s, k)
    requires IsHour(h)
    ensures -SumHours(h, ReloadSeries(s, k)) <= BATTERY_EFF * SumHours(h, LoadSeries(s, k))
    ensures SumHours(h, NetCharge(s, k)) <= u.power * BATTERY_LOAD_TIME
  {
    assert BatteryHourFeasible(u, s, k, h);
    VolumeIsAccumulatedCharge(u, s, k, h);
    NetChargeSplits(s, k, h);
  }
}

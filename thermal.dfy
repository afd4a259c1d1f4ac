/**
  What the plant rules imply: the commitment decides whether a plant
  produces, an off hour pins both deviations, ramps are bounded, and the
  start-up indicator telescopes to the commitment.
 */
module Thermal {
  import opened Units
  import opened Sums
  import opened Classify
  import opened Schedule
  import opened Constraints

  /** Off: no power, negative deviation at the bottom of its range, no positive deviation. */
  lemma OffHour(u: Unit, v: PlantVars)
    requires PlantDomains(u, v) && PowerLimits(u, v)
    requires v.on == 0
    ensures v.power == 0.0
    ensures v.powerN == -OPT_POWER * u.power && v.powerP == 0.0
  {
  }

  /** On: power between minimum power and the rating. */
  lemma OnHour(u: Unit, v: PlantVars)
    requires PlantDomains(u, v) && PowerLimits(u, v)
    requires v.on == 1
    ensures MIN_POWER * u.power <= v.power <= u.power
  {
  }

  /** For a plant with positive rating, it is on exactly when it produces. */
  lemma CommittedIffProducing(u: Unit, v: PlantVars)
    requires PlantDomains(u, v) && PowerLimits(u, v)
    requires u.power > 0.0
    ensures v.on == 1 <==> v.power > 0.0
  {
  }

  /** After hour 1, a feasible plant's power moves by at most its ramp limit from one hour to the next. */
  lemma RampBound(u: Unit, s: Schedule, k: string, h: int)
    requires PlantFeasible(u, s, k)
    requires 1 < h <= HOURS
    ensures -u.ramp <= PowerAt(s, h, k) - PowerAt(s, h - 1, k) <= u.ramp
  {
    assert PlantHourFeasible(u, s, k, h);
  }

  /**
    Hour 1 has no ramp rule: any hour-1 variables that keep the domains,
    the power limits and the start-up rule are feasible, however far the
    power lies from zero.
   */
  lemma FirstHourRampFree(u: Unit, s: Schedule, k: string)
    requires PlantDomains(u, PlantAt(s, k, 1)) && PowerLimits(u, PlantAt(s, k, 1))
    requires StartUpLogic(1, 0, PlantAt(s, k, 1))
    ensures PlantHourFeasible(u, s, k, 1)
  {
  }

  /**
    With binary commitments the start indicator is -1, 0 or 1, and its
    non-negative part is at least the indicator and at least 0.
   */
  lemma StartIndicatorRange(h: int, prevOn: int, v: PlantVars)
    requires StartUpLogic(h, prevOn, v)
    requires 0 <= v.on <= 1 && 0 <= prevOn <= 1
    requires v.startP >= 0 && v.startN <= 0
    ensures -1 <= v.start <= 1
    ensures v.startP >= v.start && v.startP >= 0
    ensures h == 1 ==> v.start == v.on
    ensures h > 1 ==> (v.start == 1 <==> prevOn == 0 && v.on == 1)
  {
  }

  function StartSeries(s: Schedule, k: string): int -> real {
    h => StartAt(s, k, h)
  }

  function StartAt(s: Schedule, k: string, h: int): real {
    PlantAt(s, k, h).start as real
  }

  function StartPSeries(s: Schedule, k: string): int -> real {
    h => StartPAt(s, k, h)
  }

  function StartPAt(s: Schedule, k: string, h: int): real {
    PlantAt(s, k, h).startP as real
  }

  /** The start-up rule of one hour, read off the plant's rules. */
  lemma StartStep(u: Unit, s: Schedule, k: string, h: int)
    requires PlantHourFeasible(u, s, k, h)
    ensures h > 1 ==> StartAt(s, k, h) == PlantAt(s, k, h).on as real - PlantAt(s, k, h - 1).on as real
    ensures h <= 1 ==> StartAt(s, k, h) == PlantAt(s, k, h).on as real
    ensures StartAt(s, k, h) <= StartPAt(s, k, h)
  {
  }

  /** The commitment of hour h as a real, with the implicit off state before hour 1. */
  function OnAt(s: Schedule, k: string, h: int): real {
    if h < 1 then 0.0 else PlantAt(s, k, h).on as real
  }

  /** Differences of a sequence add up to its last term. */
  lemma {:induction false} Telescope(s: Schedule, k: string, h: nat)
    requires forall t :: 1 <= t <= h ==> StartAt(s, k, t) == OnAt(s, k, t) - OnAt(s, k, t - 1)
    ensures SumHours(h, StartSeries(s, k)) == OnAt(s, k, h)
  {
    if h > 0 {
      Telescope(s, k, h - 1);
    }
  }

  /** In a feasible schedule the start indicators of hours 1..h add up to the commitment of hour h. */
  lemma StartTelescopes(u: Unit, s: Schedule, k: string, h: int)
    requires PlantFeasible(u, s, k)
    requires IsHour(h)
    ensures SumHours(h, StartSeries(s, k)) == PlantAt(s, k, h).on as real
  {
    forall t | 1 <= t <= h
      ensures StartAt(s, k, t) == OnAt(s, k, t) - OnAt(s, k, t - 1)
    {
      StartStep(u, s, k, t);
    }
    Telescope(s, k, h);
  }

  /**
    A plant that is on in some hour has paid for at least one start-up by
    then: the non-negative start parts of hours 1..h add up to at least 1.
   */
  lemma OnImpliesStartUpPaid(u: Unit, s: Schedule, k: string, h: int)
    requires PlantFeasible(u, s, k)
    requires IsHour(h)
    requires PlantAt(s, k, h).on == 1
    ensures SumHours(h, StartPSeries(s, k)) >= 1.0
  {
    forall t | 1 <= t <= h
      ensures StartSeries(s, k)(t) <= StartPSeries(s, k)(t)
    {
      StartStep(u, s, k, t);
    }
    SumHoursMono(h, StartSeries(s, k), StartPSeries(s, k));
    StartTelescopes(u, s, k, h);
  }
}

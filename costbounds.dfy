/**
  Bounds on the objective of a schedule that keeps every plant and battery
  rule.  The variable cost is paid for every plant-hour, on or off, and
  never falls below the base cost; start-up and charging costs are never
  negative.  Hence no schedule of the program costs less than the plants'
  base cost over the whole horizon.
 */
module CostBounds {
  import opened Units
  import opened Sums
  import opened Classify
  import opened Schedule
  import opened Cost
  import opened Constraints

  /** Rated powers are positive and costs non-negative: what the cost bounds need of the data. */
  predicate CostsSound(units: map<string, Unit>) {
    forall k :: k in units ==> units[k].power > 0.0 && units[k].vc >= 0.0
  }

  predicate CostsNonNegative(units: map<string, Unit>) {
    forall k :: k in units ==> units[k].vc >= 0.0
  }

  /** In each hour the plants' variable cost is at least their base cost, and their start-up cost is non-negative. */
  lemma PlantHourCost(plants: map<string, Unit>, s: Schedule, h: int)
    requires IsHour(h)
    requires CostsSound(plants)
    requires forall k :: k in plants ==> PlantFeasible(plants[k], s, k)
    ensures Sum(plants.Keys, VcTerm(plants, s, h)) >= Sum(plants.Keys, BaseCost(plants))
    ensures Sum(plants.Keys, StartUpTerm(plants, s, h)) >= 0.0
  {
    forall k | k in plants.Keys
      ensures BaseCost(plants)(k) <= VcTerm(plants, s, h)(k)
      ensures 0.0 <= StartUpTerm(plants, s, h)(k)
    {
      assert PlantHourFeasible(plants[k], s, k, h);
      var u := plants[k];
      var v := PlantAt(s, k, h);
      assert (v.startP as real) * u.power >= 0.0;
    }
    SumMono(plants.Keys, BaseCost(plants), VcTerm(plants, s, h));
    SumNonNegative(plants.Keys, StartUpTerm(plants, s, h));
  }

  /** In each hour the batteries' charging cost is non-negative. */
  lemma BatteryHourCost(batteries: map<string, Unit>, s: Schedule, h: int)
    requires IsHour(h)
    requires CostsNonNegative(batteries)
    requires forall k :: k in batteries ==> BatteryFeasible(batteries[k], s, k)
    ensures Sum(batteries.Keys, ChargeTerm(batteries, s, h)) >= 0.0
  {
    forall k | k in batteries.Keys
      ensures 0.0 <= ChargeTerm(batteries, s, h)(k)
    {
      assert BatteryHourFeasible(batteries[k], s, k, h);
    }
    SumNonNegative(batteries.Keys, ChargeTerm(batteries, s, h));
  }

  /** The sum over the horizon of a per-hour cost that never falls below c. */
  lemma HorizonAtLeast(n: nat, f: int -> real, c: real)
    requires forall h :: 1 <= h <= n ==> f(h) >= c
    ensures SumHours(n, f) >= n as real * c
  {
    forall h | 1 <= h <= n
      ensures Constant(c)(h) <= f(h)
    {
    }
    SumHoursMono(n, Constant(c), f);
    SumHoursConst(n, Constant(c), c);
  }

  function Constant(c: real): int -> real {
    h => c
  }

  /**
    Every schedule that keeps the plant and battery rules costs at least
    HOURS times the plants' summed base cost.
   */
  lemma ObjectiveLowerBound(roles: Roles, prof: Profiles, s: Schedule)
    requires CostsSound(roles.plants) && CostsNonNegative(roles.batteries)
    requires Feasible(roles, prof, s)
    ensures Objective(roles, s) >= HOURS as real * Sum(roles.plants.Keys, BaseCost(roles.plants))
  {
    UnitRulesBoundObjective(roles, s);
  }

  lemma UnitRulesBoundObjective(roles: Roles, s: Schedule)
    requires CostsSound(roles.plants) && CostsNonNegative(roles.batteries)
    requires forall k :: k in roles.plants ==> PlantFeasible(roles.plants[k], s, k)
    requires forall k :: k in roles.batteries ==> BatteryFeasible(roles.batteries[k], s, k)
    ensures Objective(roles, s) >= HOURS as real * Sum(roles.plants.Keys, BaseCost(roles.plants))
  {
    PlantCostOverHorizon(roles, s);
    ChargeCostOverHorizon(roles, s);
  }

  lemma PlantCostOverHorizon(roles: Roles, s: Schedule)
    requires CostsSound(roles.plants)
    requires forall k :: k in roles.plants ==> PlantFeasible(roles.plants[k], s, k)
    ensures SumHours(HOURS, VcHour(roles, s)) >= HOURS as real * Sum(roles.plants.Keys, BaseCost(roles.plants))
    ensures SumHours(HOURS, StartUpHour(roles, s)) >= 0.0
  {
    VcOverHorizon(roles, s);
    StartUpOverHorizon(roles, s);
  }

  lemma VcOverHorizon(roles: Roles, s: Schedule)
    requires CostsSound(roles.plants)
    requires forall k :: k in roles.plants ==> PlantFeasible(roles.plants[k], s, k)
    ensures SumHours(HOURS, VcHour(roles, s)) >= HOURS as real * Sum(roles.plants.Keys, BaseCost(roles.plants))
  {
    var base := Sum(roles.plants.Keys, BaseCost(roles.plants));
    forall h | 1 <= h <= HOURS
      ensures VcHour(roles, s)(h) >= base
    {
      PlantHourBounds(roles, s, h);
    }
    HorizonAtLeast(HOURS, VcHour(roles, s), base);
  }

  lemma StartUpOverHorizon(roles: Roles, s: Schedule)
    requires CostsSound(roles.plants)
    requires forall k :: k in roles.plants ==> PlantFeasible(roles.plants[k], s, k)
    ensures SumHours(HOURS, StartUpHour(roles, s)) >= 0.0
  {
    forall h | 1 <= h <= HOURS
      ensures StartUpHour(roles, s)(h) >= 0.0
    {
      PlantHourBounds(roles, s, h);
    }
    HorizonAtLeast(HOURS, StartUpHour(roles, s), 0.0);
  }

  lemma PlantHourBounds(roles: Roles, s: Schedule, h: int)
    requires IsHour(h)
    requires CostsSound(roles.plants)
    requires forall k :: k in roles.plants ==> PlantFeasible(roles.plants[k], s, k)
    ensures VcHour(roles, s)(h) >= Sum(roles.plants.Keys, BaseCost(roles.plants))
    ensures StartUpHour(roles, s)(h) >= 0.0
  {
    PlantHourCost(roles.plants, s, h);
  }

  lemma ChargeCostOverHorizon(roles: Roles, s: Schedule)
    requires CostsNonNegative(roles.batteries)
    requires forall k :: k in roles.batteries ==> BatteryFeasible(roles.batteries[k], s, k)
    ensures SumHours(HOURS, ChargeHour(roles, s)) >= 0.0
  {
    forall h | 1 <= h <= HOURS
      ensures ChargeHour(roles, s)(h) >= 0.0
    {
      BatteryHourCost(roles.batteries, s, h);
    }
    HorizonAtLeast(HOURS, ChargeHour(roles, s), 0.0);
  }
}

/**
  What the exact demand balance implies.  There is no slack or curtailment
  term, so in every hour of a feasible schedule the net demand (demand less
  wind and pv output) must lie between minus the batteries' charging
  capacity and the plants' plus the batteries' rated power.
 */
module Balance {
  import opened Units
  import opened Sums
  import opened Classify
  import opened Schedule
  import opened Constraints

  ghost function PlantCapacity(roles: Roles): real {
    Sum(roles.plants.Keys, RatedPower(roles.plants))
  }

  ghost function BatteryCapacity(roles: Roles): real {
    Sum(roles.batteries.Keys, RatedPower(roles.batteries))
  }

  /** Plants produce between nothing and their rated power, in sum as for each. */
  lemma PlantOutputBounded(plants: map<string, Unit>, s: Schedule, h: int)
    requires IsHour(h)
    requires forall k :: k in plants ==> PlantFeasible(plants[k], s, k)
    ensures 0.0 <= Sum(plants.Keys, PlantPower(s, h)) <= Sum(plants.Keys, RatedPower(plants))
  {
    forall k | k in plants.Keys
      ensures 0.0 <= PlantPower(s, h)(k) <= RatedPower(plants)(k)
    {
      assert PlantHourFeasible(plants[k], s, k, h);
    }
    SumMono(plants.Keys, PlantPower(s, h), RatedPower(plants));
    SumNonNegative(plants.Keys, PlantPower(s, h));
  }

  /** Discharge and load of the batteries each lie between nothing and their rated power. */
  lemma BatteryFlowsBounded(batteries: map<string, Unit>, s: Schedule, h: int)
    requires IsHour(h)
    requires forall k :: k in batteries ==> BatteryFeasible(batteries[k], s, k)
    ensures 0.0 <= Sum(batteries.Keys, Discharge(s, h)) <= Sum(batteries.Keys, RatedPower(batteries))
    ensures 0.0 <= Sum(batteries.Keys, Load(s, h)) <= Sum(batteries.Keys, RatedPower(batteries))
  {
    forall k | k in batteries.Keys
      ensures 0.0 <= Discharge(s, h)(k) <= RatedPower(batteries)(k)
      ensures 0.0 <= Load(s, h)(k) <= RatedPower(batteries)(k)
    {
      assert BatteryHourFeasible(batteries[k], s, k, h);
    }
    SumMono(batteries.Keys, Discharge(s, h), RatedPower(batteries));
    SumNonNegative(batteries.Keys, Discharge(s, h));
    SumMono(batteries.Keys, Load(s, h), RatedPower(batteries));
    SumNonNegative(batteries.Keys, Load(s, h));
  }

  lemma BalanceBounds(roles: Roles, prof: Profiles, s: Schedule, h: int)
    requires Feasible(roles, prof, s)
    requires IsHour(h)
    ensures -BatteryCapacity(roles) <= NetDemand(roles, prof, h)
    ensures NetDemand(roles, prof, h) <= PlantCapacity(roles) + BatteryCapacity(roles)
  {
    PlantOutputBounded(roles.plants, s, h);
    BatteryFlowsBounded(roles.batteries, s, h);
    assert DemandBalance(roles, prof, s, h);
    BalanceArithmetic(Sum(roles.plants.Keys, PlantPower(s, h)), Sum(roles.batteries.Keys, Discharge(s, h)),
      Sum(roles.batteries.Keys, Load(s, h)), NetDemand(roles, prof, h), PlantCapacity(roles), BatteryCapacity(roles));
  }

  lemma BalanceArithmetic(output: real, discharge: real, load: real, net: real, plantCap: real, batteryCap: real)
    requires 0.0 <= output <= plantCap
    requires 0.0 <= discharge <= batteryCap && 0.0 <= load <= batteryCap
    requires output + discharge == net + load
    ensures -batteryCap <= net <= plantCap + batteryCap
  {
  }

  /** A net demand above the fleet's rated power in some hour leaves no feasible schedule. */
  lemma ExcessDemandIsInfeasible(roles: Roles, prof: Profiles, s: Schedule, h: int)
    requires IsHour(h)
    requires NetDemand(roles, prof, h) > PlantCapacity(roles) + BatteryCapacity(roles)
    ensures !Feasible(roles, prof, s)
  {
    if Feasible(roles, prof, s) {
      BalanceBounds(roles, prof, s, h);
    }
  }

  /** Wind and pv output that exceeds demand by more than the batteries can absorb leaves no feasible schedule. */
  lemma ExcessRenewablesIsInfeasible(roles: Roles, prof: Profiles, s: Schedule, h: int)
    requires IsHour(h)
    requires NetDemand(roles, prof, h) < -BatteryCapacity(roles)
    ensures !Feasible(roles, prof, s)
  {
    if Feasible(roles, prof, s) {
      BalanceBounds(roles, prof, s, h);
    }
  }
}

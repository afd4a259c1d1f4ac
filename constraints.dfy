/**
  The constraint set of the unit-commitment program, one predicate per
  rule, and Feasible: a schedule that satisfies every rule for every unit
  and hour.  The disjunction "load is zero or reload is zero" is stated by
  its meaning; how the program's library rewrites it for the solver is
  not part of this model.
 */
module Constraints {
  import opened Units
  import opened Sums
  import opened Classify
  import opened Schedule

  /** Upper and lower power limit under the commitment, and the operating-point identity. */
  predicate PowerLimits(u: Unit, v: PlantVars) {
    && v.power <= u.power * (v.on as real)
    && v.power >= MIN_POWER * u.power * (v.on as real)
    && v.power == v.powerN + v.powerP + OPT_POWER * u.power
  }

  /** Ramp up and ramp down; the program skips these in hour 1. */
  predicate RampLimits(u: Unit, prevPower: real, power: real) {
    power <= prevPower + u.ramp && power >= prevPower - u.ramp
  }

  /** Hour 1 starts from an implicit off state; the start indicator is split in two signed parts. */
  predicate StartUpLogic(h: int, prevOn: int, v: PlantVars) {
    && (if h > 1 then v.start == v.on - prevOn else v.start == v.on)
    && v.start == v.startP + v.startN
  }

  /** Volume recursion; hour 1 starts from the initial volume term power * BATTERY_START * BATTERY_LOAD_TIME. */
  predicate VolumeState(u: Unit, h: int, prevVolume: real, v: BatteryVars) {
    if h > 1 then v.volume == v.load * BATTERY_EFF + v.reload + prevVolume
    else v.volume == v.load * BATTERY_EFF + v.reload + u.power * BATTERY_START * BATTERY_LOAD_TIME
  }

  /** Volume within [0, power * BATTERY_LOAD_TIME], and the load and reload limits restated as constraints. */
  predicate BatteryLimits(u: Unit, v: BatteryVars) {
    && v.volume <= u.power * BATTERY_LOAD_TIME
    && v.volume >= 0.0
    && v.load <= u.power
    && v.reload >= -u.power
  }

  /** A battery does not load and reload in the same hour. */
  predicate OneDirection(v: BatteryVars) {
    v.load == 0.0 || v.reload == 0.0
  }

  predicate BatterySum(v: BatteryVars) {
    v.bPower == v.load + v.reload
  }

  /** Every rule that concerns plant k in hour h. */
  predicate PlantHourFeasible(u: Unit, s: Schedule, k: string, h: int) {
    var v := PlantAt(s, k, h);
    var prev := PlantAt(s, k, h - 1);
    && PlantDomains(u, v)
    && PowerLimits(u, v)
    && (h > 1 ==> RampLimits(u, prev.power, v.power))
    && StartUpLogic(h, prev.on, v)
  }

  /** Every rule that concerns battery k in hour h. */
  predicate BatteryHourFeasible(u: Unit, s: Schedule, k: string, h: int) {
    var v := BatteryAt(s, k, h);
    && BatteryDomains(u, v)
    && VolumeState(u, h, BatteryAt(s, k, h - 1).volume, v)
    && BatteryLimits(u, v)
    && OneDirection(v)
    && BatterySum(v)
  }

  /*
    Each summand over unit names is the per-unit term of one sum in the
    program, as a function of the unit's name.
   */
  function PlantPower(s: Schedule, h: int): string -> real {
    k => PowerAt(s, h, k)
  }

  function PowerAt(s: Schedule, h: int, k: string): real {
    PlantAt(s, k, h).power
  }

  /** What a battery gives to the grid: the negated reload. */
  function Discharge(s: Schedule, h: int): string -> real {
    k => DischargeAt(s, h, k)
  }

  function DischargeAt(s: Schedule, h: int, k: string): real {
    -BatteryAt(s, k, h).reload
  }

  function Load(s: Schedule, h: int): string -> real {
    k => LoadAt(s, h, k)
  }

  function LoadAt(s: Schedule, h: int, k: string): real {
    BatteryAt(s, k, h).load
  }

  /** Rated power times the hour's profile multiplier. */
  function Nominal(units: map<string, Unit>, profile: map<int, real>, h: int): string -> real {
    k => NominalAt(units, profile, h, k)
  }

  function NominalAt(units: map<string, Unit>, profile: map<int, real>, h: int, k: string): real {
    UnitOf(units, k).power * ProfileAt(profile, h)
  }

  /** Demand minus wind and pv output in hour h. */
  ghost function NetDemand(roles: Roles, prof: Profiles, h: int): real {
    Sum(roles.demand.Keys, Nominal(roles.demand, prof.demand, h))
    - Sum(roles.wind.Keys, Nominal(roles.wind, prof.wind, h))
    - Sum(roles.pv.Keys, Nominal(roles.pv, prof.pv, h))
  }

  /** Exact balance in hour h, with no slack term. */
  ghost predicate DemandBalance(roles: Roles, prof: Profiles, s: Schedule, h: int) {
    Sum(roles.plants.Keys, PlantPower(s, h)) + Sum(roles.batteries.Keys, Discharge(s, h))
    == NetDemand(roles, prof, h) + Sum(roles.batteries.Keys, Load(s, h))
  }

  /** Every plant rule over the whole horizon. */
  predicate PlantFeasible(u: Unit, s: Schedule, k: string) {
    forall h :: 1 <= h <= HOURS ==> PlantHourFeasible(u, s, k, h)
  }

  /** Every battery rule over the whole horizon. */
  predicate BatteryFeasible(u: Unit, s: Schedule, k: string) {
    forall h :: 1 <= h <= HOURS ==> BatteryHourFeasible(u, s, k, h)
  }

  ghost predicate Feasible(roles: Roles, prof: Profiles, s: Schedule) {
    && Shaped(roles, s)
    && (forall k :: k in roles.plants ==> PlantFeasible(roles.plants[k], s, k))
    && (forall k :: k in roles.batteries ==> BatteryFeasible(roles.batteries[k], s, k))
    && (forall h :: IsHour(h) ==> DemandBalance(roles, prof, s, h))
  }
}

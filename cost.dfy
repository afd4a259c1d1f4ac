/**
  The cost model: the two-piece affine variable cost of a plant-hour around
  the operating point, and the objective the program minimises.
 */
module Cost {
  import opened Units
  import opened Sums
  import opened Classify
  import opened Schedule

  /** Slope of the piece below the operating point (negative when the base cost is positive). */
  function SlopeN(u: Unit): real
    requires u.power != 0.0
  {
    u.vc * (DEVIATION_COST - 1.0) / (u.power * (MIN_POWER - OPT_POWER))
  }

  /** Slope of the piece above the operating point. */
  function SlopeP(u: Unit): real
    requires u.power != 0.0
  {
    u.vc * (DEVIATION_COST - 1.0) / (u.power * (1.0 - OPT_POWER))
  }

  /**
    The variable cost of a plant in an hour, given its two deviation
    variables.  Both pieces are added; a zero rated power divides by zero.
   */
  function Vc(u: Unit, powerN: real, powerP: real): (r: real)
    requires u.power != 0.0
    // the intercepts cancel the operating-point offset: the cost is linear in the deviations
    ensures r == u.vc + SlopeN(u) * powerN + SlopeP(u) * powerP
    // within the variables' sign domains both pieces are non-negative
    ensures u.power > 0.0 && u.vc >= 0.0 && powerN <= 0.0 <= powerP ==> r >= u.vc
  {
    var pOpt := u.power * OPT_POWER;
    var aN := SlopeN(u);
    var bN := -aN * OPT_POWER * u.power;
    var costN := aN * (pOpt + powerN) + bN;
    var aP := SlopeP(u);
    var bP := -aP * OPT_POWER * u.power;
    var costP := aP * (pOpt + powerP) + bP;
    u.vc + costN + costP
  }

  lemma SlopeValues(u: Unit)
    requires u.power != 0.0
    ensures SlopeN(u) == -2.5 * u.vc / u.power
    ensures SlopeP(u) == 0.5 * u.vc / u.power
  {
  }

  /** At the operating point the cost is the base cost. */
  lemma VcAtOperatingPoint(u: Unit)
    requires u.power != 0.0
    ensures Vc(u, 0.0, 0.0) == u.vc
  {
  }

  /** At minimum power (a negative deviation of a tenth of the rating) the cost is 1.25 times the base. */
  lemma VcAtMinPower(u: Unit)
    requires u.power != 0.0
    ensures Vc(u, (MIN_POWER - OPT_POWER) * u.power, 0.0) == DEVIATION_COST * u.vc
  {
  }

  /** At full power the cost is 1.25 times the base. */
  lemma VcAtFullPower(u: Unit)
    requires u.power != 0.0
    ensures Vc(u, 0.0, (1.0 - OPT_POWER) * u.power) == DEVIATION_COST * u.vc
  {
  }

  /** At the far end of the negative range, where an off hour sits, the cost is 2.25 times the base. */
  lemma VcAtZeroPower(u: Unit)
    requires u.power != 0.0
    ensures Vc(u, -OPT_POWER * u.power, 0.0) == 2.25 * u.vc
  {
  }

  /**
    Of all splits of one deviation d into a non-positive and a non-negative
    part, the one with a single active piece is the cheapest, so summing the
    pieces unconditionally does not overstate the optimum.
   */
  lemma VcSingleActivePieceIsCheapest(u: Unit, powerN: real, powerP: real)
    requires u.power > 0.0 && u.vc >= 0.0
    requires powerN <= 0.0 <= powerP
    ensures var d := powerN + powerP;
      Vc(u, powerN, powerP) >= Vc(u, if d < 0.0 then d else 0.0, if d < 0.0 then 0.0 else d)
  {
  }

  /** Variable cost of every plant in hour h. */
  function VcTerm(plants: map<string, Unit>, s: Schedule, h: int): string -> real {
    k => VcAt(plants, s, h, k)
  }

  function VcAt(plants: map<string, Unit>, s: Schedule, h: int, k: string): real {
    var u := UnitOf(plants, k);
    var v := PlantAt(s, k, h);
    if u.power != 0.0 then Vc(u, v.powerN, v.powerP) else 0.0
  }

  /** Start-up cost of every plant in hour h, charged on the non-negative start part only. */
  function StartUpTerm(plants: map<string, Unit>, s: Schedule, h: int): string -> real {
    k => StartUpAt(plants, s, h, k)
  }

  function StartUpAt(plants: map<string, Unit>, s: Schedule, h: int, k: string): real {
    var u := UnitOf(plants, k);
    START_UP_COST * (PlantAt(s, k, h).startP as real) * u.power * u.vc
  }

  /** Charging cost of every battery in hour h. */
  function ChargeTerm(batteries: map<string, Unit>, s: Schedule, h: int): string -> real {
    k => ChargeAt(batteries, s, h, k)
  }

  function ChargeAt(batteries: map<string, Unit>, s: Schedule, h: int, k: string): real {
    BatteryAt(s, k, h).load * UnitOf(batteries, k).vc
  }

  ghost function VcHour(roles: Roles, s: Schedule): int -> real {
    h => VcCost(roles, s, h)
  }

  ghost function VcCost(roles: Roles, s: Schedule, h: int): real {
    Sum(roles.plants.Keys, VcTerm(roles.plants, s, h))
  }

  ghost function StartUpHour(roles: Roles, s: Schedule): int -> real {
    h => StartUpCost(roles, s, h)
  }

  ghost function StartUpCost(roles: Roles, s: Schedule, h: int): real {
    Sum(roles.plants.Keys, StartUpTerm(roles.plants, s, h))
  }

  ghost function ChargeHour(roles: Roles, s: Schedule): int -> real {
    h => ChargeCost(roles, s, h)
  }

  ghost function ChargeCost(roles: Roles, s: Schedule, h: int): real {
    Sum(roles.batteries.Keys, ChargeTerm(roles.batteries, s, h))
  }

  /**
    The system cost: variable cost over every plant-hour, whether the plant
    is on or off, plus start-up cost, plus the charging cost of batteries.
   */
  ghost function Objective(roles: Roles, s: Schedule): real {
    SumHours(HOURS, VcHour(roles, s)) + SumHours(HOURS, StartUpHour(roles, s)) + SumHours(HOURS, ChargeHour(roles, s))
  }
}

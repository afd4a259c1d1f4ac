/**
  The decision space of the unit-commitment program: the variables declared
  for every (plant, hour) and (battery, hour) pair, with their domains and
  the static bound functions.  A Schedule is one candidate assignment of
  all of them; the solver's answer is one.
 */
module Schedule {
  import opened Units
  import opened Classify

  /** power, its positive and negative deviation from the operating point, commitment and start-up split. */
  datatype PlantVars = PlantVars(power: real, powerP: real, powerN: real, on: int, start: int, startP: int, startN: int)

  /** stored volume, load (charging), reload (discharging, non-positive) and net power. */
  datatype BatteryVars = BatteryVars(volume: real, load: real, reload: real, bPower: real)

  /** Element h - 1 of each sequence holds the variables of hour h. */
  datatype Schedule = Schedule(plant: map<string, seq<PlantVars>>, battery: map<string, seq<BatteryVars>>)

  const NO_PLANT_VARS: PlantVars := PlantVars(0.0, 0.0, 0.0, 0, 0, 0, 0)
  const NO_BATTERY_VARS: BatteryVars := BatteryVars(0.0, 0.0, 0.0, 0.0)

  /** The variables of plant k in hour h; the value outside the schedule is never constrained. */
  function PlantAt(s: Schedule, k: string, h: int): PlantVars {
    if k in s.plant && 1 <= h <= |s.plant[k]| then s.plant[k][h - 1] else NO_PLANT_VARS
  }

  function BatteryAt(s: Schedule, k: string, h: int): BatteryVars {
    if k in s.battery && 1 <= h <= |s.battery[k]| then s.battery[k][h - 1] else NO_BATTERY_VARS
  }

  /** A variable for every plant and battery of the build and every hour, and no other. */
  predicate Shaped(roles: Roles, s: Schedule) {
    && s.plant.Keys == roles.plants.Keys
    && s.battery.Keys == roles.batteries.Keys
    && (forall k :: k in s.plant ==> |s.plant[k]| == HOURS)
    && (forall k :: k in s.battery ==> |s.battery[k]| == HOURS)
  }

  datatype Bounds = Bounds(lower: real, upper: real)

  predicate Within(x: real, b: Bounds) {
    b.lower <= x <= b.upper
  }

  function PowerBounds(u: Unit): Bounds {
    Bounds(0.0, u.power)
  }

  function PowerPBounds(u: Unit): Bounds {
    Bounds(0.0, u.power * OPT_POWER)
  }

  /** The negative deviation may reach half the rated power, which is what an off hour needs. */
  function PowerNBounds(u: Unit): Bounds {
    Bounds(-u.power * OPT_POWER, 0.0)
  }

  function LoadBounds(u: Unit): Bounds {
    Bounds(0.0, u.power)
  }

  function ReloadBounds(u: Unit): Bounds {
    Bounds(-u.power, 0.0)
  }

  /**
    The declared domains of a plant's variables: the non-negative or
    non-positive reals within their bounds, a binary commitment, and
    integer start-up parts of fixed sign.
   */
  predicate PlantDomains(u: Unit, v: PlantVars) {
    && Within(v.power, PowerBounds(u))
    && Within(v.powerP, PowerPBounds(u))
    && Within(v.powerN, PowerNBounds(u))
    && 0 <= v.on <= 1
    && v.startP >= 0
    && v.startN <= 0
  }

  /** Volume and net power range over all reals; load and reload are bounded. */
  predicate BatteryDomains(u: Unit, v: BatteryVars) {
    Within(v.load, LoadBounds(u)) && Within(v.reload, ReloadBounds(u))
  }
}

/**
  The unit record kept in the dashboard's unit store and handed to the
  unit-commitment model: a type tag, a map position, rated power, base
  variable cost and ramp limit.  The horizon and the model's constants
  live here too, since every other module uses them.
 */
module Units {

  /** One entry of the units dictionary, keyed elsewhere by the unit's name. */
  datatype Unit = Unit(kind: string, lat: real, lon: real, power: real, vc: real, ramp: real)

  /** The value a lookup yields for a name that is absent; it only keeps functions total. */
  const NO_UNIT: Unit := Unit("", 0.0, 0.0, 0.0, 0.0, 0.0)

  /** The hours of the horizon are 1..HOURS. */
  const HOURS: nat := 24
  const MIN_POWER: real := 0.4
  const OPT_POWER: real := 0.5
  const DEVIATION_COST: real := 1.25
  const BATTERY_EFF: real := 0.6
  const BATTERY_START: real := 0.0
  const BATTERY_LOAD_TIME: real := 5.0
  const START_UP_COST: real := 10.0

  predicate IsHour(h: int) {
    1 <= h <= HOURS
  }

  /** Total lookup into a units map. */
  function UnitOf(units: map<string, Unit>, name: string): Unit {
    if name in units then units[name] else NO_UNIT
  }

  /** The rated power of each unit, as a summand for sums over unit names. */
  function RatedPower(units: map<string, Unit>): string -> real {
    k => PowerOf(units, k)
  }

  function PowerOf(units: map<string, Unit>, k: string): real {
    UnitOf(units, k).power
  }

  /** The base variable cost of each unit, as a summand. */
  function BaseCost(units: map<string, Unit>): string -> real {
    k => VcOf(units, k)
  }

  function VcOf(units: map<string, Unit>, k: string): real {
    UnitOf(units, k).vc
  }
}

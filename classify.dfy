/**
  The first step of the unit-commitment build: the units dictionary is
  split by type tag into five role maps, and the raw hourly profile lists
  become maps from hour (1-based) to multiplier.
 */
module Classify {
  import opened Units

  /** The type tags the model schedules as thermal plants. */
  predicate IsThermal(kind: string) {
    kind in ["coal", "gas", "nuclear"]
  }

  /** A type tag the model recognises at all; any other tag is not scheduled. */
  predicate IsKnownKind(kind: string) {
    IsThermal(kind) || kind in ["demand", "wind", "pv", "battery"]
  }

  /** The role map a type tag sends a unit to, if any. */
  datatype Role = Plant | DemandSource | WindFarm | PvFarm | Storage | Unscheduled

  function RoleOf(kind: string): (r: Role)
    ensures r == Plant <==> IsThermal(kind)
    ensures r == DemandSource <==> kind == "demand"
    ensures r == WindFarm <==> kind == "wind"
    ensures r == PvFarm <==> kind == "pv"
    ensures r == Storage <==> kind == "battery"
    ensures r == Unscheduled <==> !IsKnownKind(kind)
  {
    if kind in ["coal", "gas", "nuclear"] then Plant
    else if kind == "demand" then DemandSource
    else if kind == "wind" then WindFarm
    else if kind == "pv" then PvFarm
    else if kind == "battery" then Storage
    else Unscheduled
  }

  /** The units of one role, records unchanged. */
  function RoleMap(units: map<string, Unit>, role: Role): (m: map<string, Unit>)
    ensures forall k :: k in m <==> k in units && RoleOf(units[k].kind) == role
    ensures SubMap(m, units)
  {
    map k | k in units && RoleOf(units[k].kind) == role :: units[k]
  }

  datatype Roles = Roles(
    plants: map<string, Unit>,
    demand: map<string, Unit>,
    wind: map<string, Unit>,
    pv: map<string, Unit>,
    batteries: map<string, Unit>)

  /** The five role maps, comprehension by comprehension. */
  function Partition(units: map<string, Unit>): (r: Roles)
    ensures forall k :: k in r.plants <==> k in units && IsThermal(units[k].kind)
    ensures forall k :: k in r.demand <==> k in units && units[k].kind == "demand"
    ensures forall k :: k in r.wind <==> k in units && units[k].kind == "wind"
    ensures forall k :: k in r.pv <==> k in units && units[k].kind == "pv"
    ensures forall k :: k in r.batteries <==> k in units && units[k].kind == "battery"
    ensures SubMap(r.plants, units) && SubMap(r.demand, units) && SubMap(r.wind, units)
    ensures SubMap(r.pv, units) && SubMap(r.batteries, units)
  {
    Roles(
      RoleMap(units, Plant),
      RoleMap(units, DemandSource),
      RoleMap(units, WindFarm),
      RoleMap(units, PvFarm),
      RoleMap(units, Storage))
  }

  /** Every entry of m is an entry of units, with the record unchanged. */
  predicate SubMap(m: map<string, Unit>, units: map<string, Unit>) {
    forall k :: k in m ==> k in units && m[k] == units[k]
  }

  /** No name is in two role maps. */
  predicate Disjoint(r: Roles) {
    && r.plants.Keys !! r.demand.Keys && r.plants.Keys !! r.wind.Keys
    && r.plants.Keys !! r.pv.Keys && r.plants.Keys !! r.batteries.Keys
    && r.demand.Keys !! r.wind.Keys && r.demand.Keys !! r.pv.Keys
    && r.demand.Keys !! r.batteries.Keys && r.wind.Keys !! r.pv.Keys
    && r.wind.Keys !! r.batteries.Keys && r.pv.Keys !! r.batteries.Keys
  }

  function AllKeys(r: Roles): set<string> {
    r.plants.Keys + r.demand.Keys + r.wind.Keys + r.pv.Keys + r.batteries.Keys
  }

  /**
    The role maps are pairwise disjoint, and together they hold exactly the
    units whose tag is recognised: a unit with any other tag is in none.
   */
  lemma PartitionIsDisjoint(units: map<string, Unit>)
    ensures Disjoint(Partition(units))
  {
  }

  /** Together the role maps hold exactly the units whose tag is recognised. */
  lemma PartitionCovers(units: map<string, Unit>)
    ensures forall k :: k in AllKeys(Partition(units)) <==> k in units && IsKnownKind(units[k].kind)
  {
  }

  /** The raw per-hour lists of the three profiles. */
  datatype RawProfiles = RawProfiles(demand: seq<real>, wind: seq<real>, pv: seq<real>)

  datatype Profiles = Profiles(demand: map<int, real>, wind: map<int, real>, pv: map<int, real>)

  /** The list's element i is the value of hour i + 1. */
  function ProfileMap(values: seq<real>): (m: map<int, real>)
    ensures forall h :: h in m <==> 1 <= h <= |values|
    ensures forall i :: 0 <= i < |values| ==> m[i + 1] == values[i]
  {
    map h | 1 <= h <= |values| :: HourValue(values, h)
  }

  function HourValue(values: seq<real>, h: int): real
    requires 1 <= h <= |values|
  {
    values[h - 1]
  }

  function MakeProfiles(raw: RawProfiles): Profiles {
    Profiles(ProfileMap(raw.demand), ProfileMap(raw.wind), ProfileMap(raw.pv))
  }

  /** Total lookup into a profile map; hours with no entry are guarded by HasHours. */
  function ProfileAt(m: map<int, real>, h: int): real {
    if h in m then m[h] else 0.0
  }

  /** The profile gives a value for every hour of the horizon. */
  predicate HasHours(m: map<int, real>) {
    forall h :: 1 <= h <= HOURS ==> h in m
  }

  /** A profile map covers the horizon exactly when its list is at least HOURS long. */
  lemma ProfileMapHasHours(values: seq<real>)
    ensures HasHours(ProfileMap(values)) <==> |values| >= HOURS
  {
    var m := ProfileMap(values);
    if HasHours(m) {
      assert HOURS in m;
    }
  }
}

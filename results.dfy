/**
  The results summary built after a successful solve: a table from unit
  name to a row from hour to power.  Plants show their rounded output,
  batteries the negation of their rounded net power (so charging shows as
  negative), and wind and pv farms their nominal output, which does not
  depend on the solve and is not rounded.  Demand units get no row.
 */
module Results {
  import opened Units
  import opened Classify
  import opened Schedule
  import opened Constraints

  type Row = map<int, real>
  type ResultTable = map<string, Row>

  /** Which rule fills a row: the role loop the unit is visited in. */
  datatype Source = PlantOutput | BatteryOutput | Renewable(units: map<string, Unit>, profile: map<int, real>)

  /** The value shown for unit k in hour h; rnd stands for rounding to two decimals. */
  function CellValue(src: Source, s: Schedule, rnd: real -> real, k: string, h: int): real {
    match src
    case PlantOutput => rnd(PlantAt(s, k, h).power)
    case BatteryOutput => -rnd(BatteryAt(s, k, h).bPower)
    case Renewable(units, profile) => NominalAt(units, profile, h, k)
  }

  /** The row of unit k filled for the hours 1..n. */
  function PartialRow(src: Source, s: Schedule, rnd: real -> real, k: string, n: int): (row: Row)
    ensures forall h :: h in row <==> 1 <= h <= n
  {
    map h | 1 <= h <= n :: CellValue(src, s, rnd, k, h)
  }

  function FullRow(src: Source, s: Schedule, rnd: real -> real, k: string): Row {
    PartialRow(src, s, rnd, k, HOURS)
  }

  /** One row per name in keys. */
  function Rows(keys: set<string>, src: Source, s: Schedule, rnd: real -> real): ResultTable {
    map k | k in keys :: FullRow(src, s, rnd, k)
  }

  /** The table the four role loops leave behind, later loops writing over earlier ones. */
  function Summary(roles: Roles, prof: Profiles, s: Schedule, rnd: real -> real): ResultTable {
    Rows(roles.plants.Keys, PlantOutput, s, rnd)
    + Rows(roles.batteries.Keys, BatteryOutput, s, rnd)
    + Rows(roles.pv.Keys, Renewable(roles.pv, prof.pv), s, rnd)
    + Rows(roles.wind.Keys, Renewable(roles.wind, prof.wind), s, rnd)
  }

  /** The inner loop: fills the row of unit k hour by hour. */
  method FillRow(src: Source, s: Schedule, rnd: real -> real, k: string) returns (row: Row)
    ensures row == FullRow(src, s, rnd, k)
  {
    row := map[];
    var hour := 1;
    while hour <= HOURS
      invariant 1 <= hour <= HOURS + 1
      invariant row == PartialRow(src, s, rnd, k, hour - 1)
    {
      row := row[hour := CellValue(src, s, rnd, k, hour)];
      hour := hour + 1;
    }
  }

  /** The outer loop of one role: a fresh row for every unit of the role. */
  method AddRows(table: ResultTable, keys: set<string>, src: Source, s: Schedule, rnd: real -> real)
    returns (r: ResultTable)
    ensures r == table + Rows(keys, src, s, rnd)
  {
    r := table;
    var todo := keys;
    NoRows(table, src, s, rnd);
    assert keys - todo == {};
    while todo != {}
      invariant todo <= keys
      invariant r == table + Rows(keys - todo, src, s, rnd)
      decreases |todo|
    {
      var k :| k in todo;
      var row := FillRow(src, s, rnd, k);
      RowAdded(table, keys - todo, k, src, s, rnd);
      assert keys - (todo - {k}) == (keys - todo) + {k};
      r := r[k := row];
      todo := todo - {k};
    }
    assert keys - todo == keys;
  }

  lemma NoRows(table: ResultTable, src: Source, s: Schedule, rnd: real -> real)
    ensures table + Rows({}, src, s, rnd) == table
  {
  }

  lemma RowsAdd(keys: set<string>, k: string, src: Source, s: Schedule, rnd: real -> real)
    ensures Rows(keys + {k}, src, s, rnd) == Rows(keys, src, s, rnd)[k := FullRow(src, s, rnd, k)]
  {
  }

  lemma RowAdded(table: ResultTable, done: set<string>, k: string, src: Source, s: Schedule, rnd: real -> real)
    ensures table + Rows(done + {k}, src, s, rnd) == (table + Rows(done, src, s, rnd))[k := FullRow(src, s, rnd, k)]
  {
    RowsAdd(done, k, src, s, rnd);
    UnionUpdate(table, Rows(done, src, s, rnd), k, FullRow(src, s, rnd, k));
  }

  /** Adding a key to the right operand of a map union adds it to the union. */
  lemma UnionUpdate<K, V>(a: map<K, V>, b: map<K, V>, k: K, v: V)
    ensures a + b[k := v] == (a + b)[k := v]
  {
  }

  /** The summary after a successful solve: plants, then batteries, then pv, then wind farms. */
  method SummarizeResults(roles: Roles, prof: Profiles, s: Schedule, rnd: real -> real) returns (r: ResultTable)
    ensures r == Summary(roles, prof, s, rnd)
  {
    r := map[];
    r := AddRows(r, roles.plants.Keys, PlantOutput, s, rnd);
    assert r == Rows(roles.plants.Keys, PlantOutput, s, rnd);
    r := AddRows(r, roles.batteries.Keys, BatteryOutput, s, rnd);
    r := AddRows(r, roles.pv.Keys, Renewable(roles.pv, prof.pv), s, rnd);
    r := AddRows(r, roles.wind.Keys, Renewable(roles.wind, prof.wind), s, rnd);
  }

  /** The loop that writes a name last decides its row. */
  function SourceOf(roles: Roles, prof: Profiles, k: string): Source {
    if k in roles.wind then Renewable(roles.wind, prof.wind)
    else if k in roles.pv then Renewable(roles.pv, prof.pv)
    else if k in roles.batteries then BatteryOutput
    else PlantOutput
  }

  lemma SummaryRow(roles: Roles, prof: Profiles, s: Schedule, rnd: real -> real, k: string)
    requires k in Summary(roles, prof, s, rnd)
    ensures Summary(roles, prof, s, rnd)[k] == FullRow(SourceOf(roles, prof, k), s, rnd, k)
  {
    var a := Rows(roles.plants.Keys, PlantOutput, s, rnd);
    var b := Rows(roles.batteries.Keys, BatteryOutput, s, rnd);
    var c := Rows(roles.pv.Keys, Renewable(roles.pv, prof.pv), s, rnd);
    var d := Rows(roles.wind.Keys, Renewable(roles.wind, prof.wind), s, rnd);
    assert Summary(roles, prof, s, rnd) == a + b + c + d;
    if k in roles.wind {
      assert (a + b + c + d)[k] == d[k];
    } else if k in roles.pv {
      assert (a + b + c + d)[k] == c[k];
    } else if k in roles.batteries {
      assert (a + b + c + d)[k] == b[k];
    } else {
      assert (a + b + c + d)[k] == a[k];
    }
  }

  /** The table has a row for every plant, battery, pv and wind farm and for nothing else. */
  lemma SummaryKeys(roles: Roles, prof: Profiles, s: Schedule, rnd: real -> real)
    ensures Summary(roles, prof, s, rnd).Keys
         == roles.plants.Keys + roles.batteries.Keys + roles.pv.Keys + roles.wind.Keys
  {
  }

  /** When the roles come from the partition, no demand unit has a row. */
  lemma SummaryOmitsDemand(units: map<string, Unit>, prof: Profiles, s: Schedule, rnd: real -> real, k: string)
    requires k in Partition(units).demand
    ensures k !in Summary(Partition(units), prof, s, rnd)
  {
    SummaryKeys(Partition(units), prof, s, rnd);
  }

  /** Every row covers exactly the hours 1..HOURS. */
  lemma SummaryRowsCoverHorizon(roles: Roles, prof: Profiles, s: Schedule, rnd: real -> real, k: string)
    requires k in Summary(roles, prof, s, rnd)
    ensures forall h :: h in Summary(roles, prof, s, rnd)[k] <==> IsHour(h)
  {
    SummaryRow(roles, prof, s, rnd, k);
  }

  /** The cell of hour h in the row of k is the value its source gives. */
  lemma SummaryCell(roles: Roles, prof: Profiles, s: Schedule, rnd: real -> real, k: string, h: int)
    requires k in Summary(roles, prof, s, rnd)
    requires IsHour(h)
    ensures h in Summary(roles, prof, s, rnd)[k]
    ensures Summary(roles, prof, s, rnd)[k][h] == CellValue(SourceOf(roles, prof, k), s, rnd, k, h)
  {
    SummaryRow(roles, prof, s, rnd, k);
  }

  /**
    The value of every cell, role by role; the roles must not share names,
    as those of the partition do not, or a later loop would overwrite an
    earlier row.
   */
  lemma SummaryValues(roles: Roles, prof: Profiles, s: Schedule, rnd: real -> real, k: string, h: int)
    requires Disjoint(roles)
    requires IsHour(h)
    ensures k in roles.plants ==> Summary(roles, prof, s, rnd)[k][h] == rnd(PlantAt(s, k, h).power)
    ensures k in roles.batteries ==> Summary(roles, prof, s, rnd)[k][h] == -rnd(BatteryAt(s, k, h).bPower)
    ensures k in roles.pv ==> Summary(roles, prof, s, rnd)[k][h] == NominalAt(roles.pv, prof.pv, h, k)
    ensures k in roles.wind ==> Summary(roles, prof, s, rnd)[k][h] == NominalAt(roles.wind, prof.wind, h, k)
  {
    SummaryKeys(roles, prof, s, rnd);
    if k in roles.plants || k in roles.batteries || k in roles.pv || k in roles.wind {
      SummaryCell(roles, prof, s, rnd, k, h);
      var src := SourceOf(roles, prof, k);
      if k in roles.plants {
        assert src == PlantOutput;
      } else if k in roles.batteries {
        assert src == BatteryOutput;
      } else if k in roles.pv {
        assert src == Renewable(roles.pv, prof.pv);
      } else {
        assert src == Renewable(roles.wind, prof.wind);
      }
    }
  }

  /** Wind and pv rows do not depend on the solver's answer. */
  lemma RenewableRowsIgnoreSchedule(roles: Roles, prof: Profiles, s1: Schedule, s2: Schedule, rnd: real -> real, k: string)
    requires k in roles.pv || k in roles.wind
    ensures Summary(roles, prof, s1, rnd)[k] == Summary(roles, prof, s2, rnd)[k]
  {
    SummaryKeys(roles, prof, s1, rnd);
    SummaryKeys(roles, prof, s2, rnd);
    SummaryRow(roles, prof, s1, rnd, k);
    SummaryRow(roles, prof, s2, rnd, k);
    var src := SourceOf(roles, prof, k);
    assert src.Renewable?;
    RenewableRowFixed(src, s1, s2, rnd, k);
  }

  lemma RenewableRowFixed(src: Source, s1: Schedule, s2: Schedule, rnd: real -> real, k: string)
    requires src.Renewable?
    ensures FullRow(src, s1, rnd, k) == FullRow(src, s2, rnd, k)
  {
  }

  /**
    A battery that charges in a feasible hour shows a non-positive value,
    provided rounding keeps non-negative numbers non-negative.
   */
  lemma ChargingShowsNonPositive(roles: Roles, prof: Profiles, s: Schedule, rnd: real -> real, k: string, h: int)
    requires Disjoint(roles)
    requires forall x :: x >= 0.0 ==> rnd(x) >= 0.0
    requires k in roles.batteries && BatteryFeasible(roles.batteries[k], s, k)
    requires IsHour(h) && BatteryAt(s, k, h).load > 0.0
    ensures Summary(roles, prof, s, rnd)[k][h] <= 0.0
  {
    assert BatteryHourFeasible(roles.batteries[k], s, k, h);
    SummaryValues(roles, prof, s, rnd, k, h);
  }
}

/**
  One small store worked through the whole model: a 100-unit coal plant
  with base cost 1 serving a 50-unit demand with a flat profile.  The plant
  starts in hour 1 and runs at its operating point all day; that schedule
  keeps every rule, costs 24 (variable) plus 1000 (one start-up), and a
  solved run shows the rounded output 50 in every hour.
 */
module Scenario {
  import opened Wrappers
  import opened Units
  import opened Sums
  import opened Classify
  import opened Schedule
  import opened Cost
  import opened Constraints
  import opened Results
  import opened Solve

  const COAL: Unit := Unit("coal", 30.0, -100.0, 100.0, 1.0, 100.0)
  const CITY: Unit := Unit("demand", 31.0, -95.0, 50.0, 0.0, 0.0)

  function Store(): map<string, Unit> {
    map["coal1" := COAL, "city" := CITY]
  }

  function StoreRoles(): Roles {
    Roles(map["coal1" := COAL], map["city" := CITY], map[], map[], map[])
  }

  lemma StorePartition()
    ensures Partition(Store()) == StoreRoles()
  {
    var r := Partition(Store());
    assert RoleOf(COAL.kind) == Plant && RoleOf(CITY.kind) == DemandSource;
    assert r.plants.Keys == {"coal1"};
    assert r.demand.Keys == {"city"};
    assert r.wind.Keys == {} && r.pv.Keys == {} && r.batteries.Keys == {};
  }

  function Flat(): seq<real> {
    seq(HOURS, i => 1.0)
  }

  function Raw(): RawProfiles {
    RawProfiles(Flat(), [], [])
  }

  const STARTING: PlantVars := PlantVars(50.0, 0.0, 0.0, 1, 1, 1, 0)
  const RUNNING: PlantVars := PlantVars(50.0, 0.0, 0.0, 1, 0, 0, 0)

  function Day(): Schedule {
    Schedule(map["coal1" := seq(HOURS, i => if i == 0 then STARTING else RUNNING)], map[])
  }

  lemma DayHour(h: int)
    requires IsHour(h)
    ensures PlantAt(Day(), "coal1", h) == if h == 1 then STARTING else RUNNING
  {
  }

  lemma DayPlantFeasible()
    ensures PlantFeasible(COAL, Day(), "coal1")
  {
    forall h | 1 <= h <= HOURS
      ensures PlantHourFeasible(COAL, Day(), "coal1", h)
    {
      DayHour(h);
      if h > 1 {
        DayHour(h - 1);
      }
    }
  }

  lemma DayBalance(h: int)
    requires IsHour(h)
    ensures DemandBalance(StoreRoles(), MakeProfiles(Raw()), Day(), h)
  {
    var roles := StoreRoles();
    var prof := MakeProfiles(Raw());
    DayHour(h);
    SumSingleton("coal1", PlantPower(Day(), h));
    SumSingleton("city", Nominal(roles.demand, prof.demand, h));
    assert roles.plants.Keys == {"coal1"} && roles.demand.Keys == {"city"};
    assert roles.wind.Keys == {} && roles.pv.Keys == {} && roles.batteries.Keys == {};
    assert PlantPower(Day(), h)("coal1") == 50.0;
    assert ProfileAt(prof.demand, h) == 1.0;
    assert Nominal(roles.demand, prof.demand, h)("city") == 50.0 * 1.0;
    assert NetDemand(roles, prof, h) == 50.0;
  }

  /** The day schedule keeps every rule of the program. */
  lemma DayFeasible()
    ensures Feasible(StoreRoles(), MakeProfiles(Raw()), Day())
  {
    DayPlantFeasible();
    forall h | IsHour(h)
      ensures DemandBalance(StoreRoles(), MakeProfiles(Raw()), Day(), h)
    {
      DayBalance(h);
    }
  }

  function FirstHourOnly(c: real): int -> real {
    h => if h == 1 then c else 0.0
  }

  lemma {:induction false} SumFirstHourOnly(n: nat, f: int -> real, c: real)
    requires n >= 1
    requires forall h :: 1 <= h <= n ==> f(h) == FirstHourOnly(c)(h)
    ensures SumHours(n, f) == c
  {
    if n > 1 {
      SumFirstHourOnly(n - 1, f, c);
    }
  }

  lemma DayHourCosts(h: int)
    requires IsHour(h)
    ensures VcHour(StoreRoles(), Day())(h) == 1.0
    ensures StartUpHour(StoreRoles(), Day())(h) == FirstHourOnly(1000.0)(h)
    ensures ChargeHour(StoreRoles(), Day())(h) == 0.0
  {
    var roles := StoreRoles();
    DayHour(h);
    assert roles.plants.Keys == {"coal1"} && roles.batteries.Keys == {};
    SumSingleton("coal1", VcTerm(roles.plants, Day(), h));
    SumSingleton("coal1", StartUpTerm(roles.plants, Day(), h));
    VcAtOperatingPoint(COAL);
    assert VcTerm(roles.plants, Day(), h)("coal1") == 1.0;
    assert StartUpTerm(roles.plants, Day(), h)("coal1") == START_UP_COST * (PlantAt(Day(), "coal1", h).startP as real) * 100.0 * 1.0;
  }

  /** The day schedule costs 24 in variable cost and 1000 for its single start-up. */
  lemma DayObjective()
    ensures Objective(StoreRoles(), Day()) == 1024.0
  {
    var roles := StoreRoles();
    forall h | 1 <= h <= HOURS
      ensures VcHour(roles, Day())(h) == 1.0
      ensures StartUpHour(roles, Day())(h) == FirstHourOnly(1000.0)(h)
      ensures ChargeHour(roles, Day())(h) == 0.0
    {
      DayHourCosts(h);
    }
    SumHoursConst(HOURS, VcHour(roles, Day()), 1.0);
    SumFirstHourOnly(HOURS, StartUpHour(roles, Day()), 1000.0);
    SumHoursConst(HOURS, ChargeHour(roles, Day()), 0.0);
  }

  /** The build of this store raises nothing. */
  lemma StoreBuilds()
    ensures BuildError(Partition(Store()), MakeProfiles(Raw())) == None
  {
    StorePartition();
    var roles := StoreRoles();
    var prof := MakeProfiles(Raw());
    ProfileMapHasHours(Raw().demand);
    assert !HasZeroPowerPlant(roles);
    assert "coal1" in roles.plants.Keys;
    assert forall h :: 1 <= h <= HOURS ==> !MissingHour(roles, prof, h);
  }

  /** A solved run on this store returns the summary of the day schedule. */
  lemma DayRun(mode: Option<string>, rnd: real -> real)
    requires mode == Some("LOCAL") || mode == Some("PRODUCTION")
    ensures UcOutcome(Store(), Raw(), mode, SolverAnswer(Ok, Optimal, Day()), rnd)
         == Computed(Summary(StoreRoles(), MakeProfiles(Raw()), Day(), rnd), Day())
  {
    StoreBuilds();
    StorePartition();
    var answer := SolverAnswer(Ok, Optimal, Day());
    assert SelectSolver(mode).Success?;
    assert ClassifyOutcome(answer.status, answer.condition) == Solved;
  }

  /** That summary has a row for the coal plant only, at the rounded 50 in every hour. */
  lemma DaySummary(rnd: real -> real, h: int)
    requires IsHour(h)
    ensures Summary(StoreRoles(), MakeProfiles(Raw()), Day(), rnd).Keys == {"coal1"}
    ensures Summary(StoreRoles(), MakeProfiles(Raw()), Day(), rnd)["coal1"][h] == rnd(50.0)
  {
    var roles := StoreRoles();
    var prof := MakeProfiles(Raw());
    SummaryKeys(roles, prof, Day(), rnd);
    SummaryValues(roles, prof, Day(), rnd, "coal1", h);
    SummaryCell(roles, prof, Day(), rnd, "coal1", h);
    DayHour(h);
  }
}

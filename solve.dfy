/**
  One run of the unit-commitment program from the unit store to its
  answer: the build (which may raise before any solve), the choice of
  solver from the MODE setting, the reading of the solver's status and
  termination condition, and the results summary.  The solver itself is an
  input: its status, its termination condition and the values it assigns.
 */
module Solve {
  import opened Wrappers
  import opened Units
  import opened Classify
  import opened Schedule
  import opened Results
  import opened Exceptions

  const MODE_MESSAGE: string := "MODE in env vars was not supplied."

  /** A solver by name, with the executable path given for the local one. */
  datatype Solver = Solver(name: string, executable: Option<string>)

  /** The MODE environment setting chooses the solver; any other value, or none, raises. */
  function SelectSolver(mode: Option<string>): (r: Result<Solver, PyError>)
    ensures r.Success? <==> mode == Some("LOCAL") || mode == Some("PRODUCTION")
    ensures r.Success? ==> (r.value.name == "cbc" <==> mode == Some("LOCAL"))
    ensures r.Success? ==> (r.value.executable.Some? <==> r.value.name == "cbc")
    ensures r.Failure? ==> r.error == ModeError(MODE_MESSAGE)
    ensures mode == Some("LOCAL") ==> r == Success(Solver("cbc", Some("cbc.exe")))
    ensures mode == Some("PRODUCTION") ==> r == Success(Solver("glpk", None))
  {
    if mode == Some("LOCAL") then Success(Solver("cbc", Some("cbc.exe")))
    else if mode == Some("PRODUCTION") then Success(Solver("glpk", None))
    else Failure(ModeError(MODE_MESSAGE))
  }

  datatype SolverStatus = Ok | Warning | Error | Aborted | UnknownStatus
  datatype TerminationCondition = Optimal | FeasibleEnd | Infeasible | Unbounded | MaxIterations | OtherCondition

  /** What the solver hands back: its status, its termination condition and the variables' values. */
  datatype SolverAnswer = SolverAnswer(status: SolverStatus, condition: TerminationCondition, values: Schedule)

  /** The three branches after the solve. */
  datatype Outcome = Solved | InfeasibleModel | Unhandled

  function ClassifyOutcome(status: SolverStatus, condition: TerminationCondition): (o: Outcome)
    ensures o == Solved <==> status == Ok && (condition == Optimal || condition == FeasibleEnd)
    ensures o == InfeasibleModel <==> o != Solved && condition == Infeasible
  {
    if status == Ok && condition in [Optimal, FeasibleEnd] then Solved
    else if condition == Infeasible then InfeasibleModel
    else Unhandled
  }

  /** A plant of zero rated power makes the variable-cost slopes divide by zero. */
  predicate HasZeroPowerPlant(roles: Roles) {
    exists k :: k in roles.plants && roles.plants[k].power == 0.0
  }

  /** A role that has units reads its profile at hour h. */
  predicate MissingHour(roles: Roles, prof: Profiles, h: int) {
    || (|roles.demand| > 0 && h !in prof.demand)
    || (|roles.wind| > 0 && h !in prof.wind)
    || (|roles.pv| > 0 && h !in prof.pv)
  }

  /**
    Without plants and batteries the left side of the demand balance is the
    constant 0, and the balance is a plain truth value, which the modelling
    library rejects.
   */
  predicate TrivialBalance(roles: Roles) {
    |roles.plants| == 0 && |roles.batteries| == 0
  }

  /**
    The first exception of the build.  The objective comes first and
    evaluates the cost slopes of every plant; the demand balance comes next,
    hour by hour, and fails at the first hour that a needed profile lacks or
    that yields a plain truth value.
   */
  function BuildError(roles: Roles, prof: Profiles): (e: Option<PyError>)
    ensures e == Some(ZeroDivisionError) <==> HasZeroPowerPlant(roles)
    ensures e.None? <==>
      (!HasZeroPowerPlant(roles) && !TrivialBalance(roles) && forall h :: 1 <= h <= HOURS ==> !MissingHour(roles, prof, h))
    ensures e.Some? ==> e.value in {ZeroDivisionError, KeyError, ValueError}
  {
    if |roles.plants| > 0 && HasZeroPowerPlant(roles) then Some(ZeroDivisionError)
    else if MissingHour(roles, prof, 1) then Some(KeyError)
    else if TrivialBalance(roles) then Some(ValueError)
    else if exists h :: 1 <= h <= HOURS && MissingHour(roles, prof, h) then Some(KeyError)
    else None
  }

  /** What a run gives back: an exception, a falsy value, or the solved model's results and values. */
  datatype ModelRun = Raised(error: PyError) | Falsy | Computed(results: ResultTable, values: Schedule)

  /** The run as a function of the unit store, the profiles, the MODE setting, the solver's answer and rounding. */
  function UcOutcome(units: map<string, Unit>, raw: RawProfiles, mode: Option<string>, answer: SolverAnswer,
                     rnd: real -> real): ModelRun
  {
    var roles := Partition(units);
    var prof := MakeProfiles(raw);
    var build := BuildError(roles, prof);
    if build.Some? then Raised(build.value)
    else if SelectSolver(mode).Failure? then Raised(SelectSolver(mode).error)
    else if ClassifyOutcome(answer.status, answer.condition) == Solved then
      Computed(Summary(roles, prof, answer.values, rnd), answer.values)
    else Falsy
  }

  method RunUcModel(units: map<string, Unit>, raw: RawProfiles, mode: Option<string>, answer: SolverAnswer,
                    rnd: real -> real) returns (r: ModelRun)
    ensures r == UcOutcome(units, raw, mode, answer, rnd)
    ensures BuildError(Partition(units), MakeProfiles(raw)).Some? ==>
      r == Raised(BuildError(Partition(units), MakeProfiles(raw)).value)
    ensures BuildError(Partition(units), MakeProfiles(raw)).None? && SelectSolver(mode).Failure? ==>
      r == Raised(ModeError(MODE_MESSAGE))
    ensures r.Falsy? <==>
      (BuildError(Partition(units), MakeProfiles(raw)).None? && SelectSolver(mode).Success?
       && ClassifyOutcome(answer.status, answer.condition) != Solved)
    ensures r.Computed? <==>
      (BuildError(Partition(units), MakeProfiles(raw)).None? && SelectSolver(mode).Success?
       && answer.status == Ok && (answer.condition == Optimal || answer.condition == FeasibleEnd))
    ensures r.Computed? ==>
      (r.results == Summary(Partition(units), MakeProfiles(raw), answer.values, rnd) && r.values == answer.values)
  {
    var roles := Partition(units);
    var prof := MakeProfiles(raw);
    var build := BuildError(roles, prof);
    if build.Some? {
      return Raised(build.value);
    }
    var solver := SelectSolver(mode);
    if solver.Failure? {
      return Raised(solver.error);
    }
    var outcome := ClassifyOutcome(answer.status, answer.condition);
    if outcome == Solved {
      var results := SummarizeResults(roles, prof, answer.values, rnd);
      r := Computed(results, answer.values);
    } else {
      r := Falsy;
    }
  }

  /** A build that fails raises the same exception whatever MODE says and whatever a solver would answer. */
  lemma BuildErrorComesFirst(units: map<string, Unit>, raw: RawProfiles, mode: Option<string>, answer: SolverAnswer,
                             rnd: real -> real)
    requires BuildError(Partition(units), MakeProfiles(raw)).Some?
    ensures UcOutcome(units, raw, mode, answer, rnd) == Raised(BuildError(Partition(units), MakeProfiles(raw)).value)
  {
  }

  /** With a sound build, a missing or unknown MODE raises before any solve, whatever the answer. */
  lemma ModeErrorBeforeSolve(units: map<string, Unit>, raw: RawProfiles, mode: Option<string>, answer: SolverAnswer,
                             rnd: real -> real)
    requires BuildError(Partition(units), MakeProfiles(raw)).None?
    requires mode != Some("LOCAL") && mode != Some("PRODUCTION")
    ensures UcOutcome(units, raw, mode, answer, rnd) == Raised(ModeError(MODE_MESSAGE))
  {
  }

  /**
    Every unsuccessful solve, infeasible or otherwise, gives the same falsy
    value; so an infeasible model cannot be told apart from a solver failure.
   */
  lemma FailuresCollapse(units: map<string, Unit>, raw: RawProfiles, mode: Option<string>, a1: SolverAnswer,
                         a2: SolverAnswer, rnd: real -> real)
    requires BuildError(Partition(units), MakeProfiles(raw)).None?
    requires SelectSolver(mode).Success?
    requires a1.condition == Infeasible
    requires ClassifyOutcome(a2.status, a2.condition) != Solved
    ensures UcOutcome(units, raw, mode, a1, rnd) == Falsy
    ensures UcOutcome(units, raw, mode, a2, rnd) == Falsy
  {
    assert ClassifyOutcome(a1.status, a1.condition) == InfeasibleModel;
    NotSolvedIsFalsy(units, raw, mode, a1, rnd);
    NotSolvedIsFalsy(units, raw, mode, a2, rnd);
  }

  lemma NotSolvedIsFalsy(units: map<string, Unit>, raw: RawProfiles, mode: Option<string>, answer: SolverAnswer,
                         rnd: real -> real)
    requires BuildError(Partition(units), MakeProfiles(raw)).None?
    requires SelectSolver(mode).Success?
    requires ClassifyOutcome(answer.status, answer.condition) != Solved
    ensures UcOutcome(units, raw, mode, answer, rnd) == Falsy
  {
  }

  /** A successful run returns the summary of the solver's values, and only a successful solve does. */
  lemma ComputedIffSolved(units: map<string, Unit>, raw: RawProfiles, mode: Option<string>, answer: SolverAnswer,
                          rnd: real -> real)
    requires BuildError(Partition(units), MakeProfiles(raw)).None?
    requires SelectSolver(mode).Success?
    ensures UcOutcome(units, raw, mode, answer, rnd).Computed?
        <==> answer.status == Ok && (answer.condition == Optimal || answer.condition == FeasibleEnd)
    ensures UcOutcome(units, raw, mode, answer, rnd).Computed? ==>
      UcOutcome(units, raw, mode, answer, rnd).results == Summary(Partition(units), MakeProfiles(raw), answer.values, rnd)
  {
    var roles := Partition(units);
    var prof := MakeProfiles(raw);
    assert UcOutcome(units, raw, mode, answer, rnd)
        == if ClassifyOutcome(answer.status, answer.condition) == Solved
           then Computed(Summary(roles, prof, answer.values, rnd), answer.values) else Falsy;
  }

  /** A plant of zero rated power always makes the build raise ZeroDivisionError. */
  lemma ZeroPowerPlantRaises(units: map<string, Unit>, raw: RawProfiles, mode: Option<string>, answer: SolverAnswer,
                             rnd: real -> real, k: string)
    requires k in units && IsThermal(units[k].kind) && units[k].power == 0.0
    ensures UcOutcome(units, raw, mode, answer, rnd) == Raised(ZeroDivisionError)
  {
    var roles := Partition(units);
    assert k in roles.plants;
    assert |roles.plants| > 0 by {
      assert k in roles.plants.Keys;
    }
  }

  /**
    Without a plant of zero power and with a non-trivial balance, the build
    raises KeyError exactly when a profile list shorter than the horizon
    belongs to a role that has units, and otherwise raises nothing.
   */
  lemma ShortProfileRaises(roles: Roles, raw: RawProfiles)
    requires !HasZeroPowerPlant(roles)
    requires !TrivialBalance(roles)
    ensures BuildError(roles, MakeProfiles(raw)) == Some(KeyError) <==>
      || (|roles.demand| > 0 && |raw.demand| < HOURS)
      || (|roles.wind| > 0 && |raw.wind| < HOURS)
      || (|roles.pv| > 0 && |raw.pv| < HOURS)
    ensures BuildError(roles, MakeProfiles(raw)) != Some(KeyError) ==> BuildError(roles, MakeProfiles(raw)) == None
  {
    var prof := MakeProfiles(raw);
    ProfileMapHasHours(raw.demand);
    ProfileMapHasHours(raw.wind);
    ProfileMapHasHours(raw.pv);
    if (|roles.demand| > 0 && |raw.demand| < HOURS) || (|roles.wind| > 0 && |raw.wind| < HOURS)
      || (|roles.pv| > 0 && |raw.pv| < HOURS) {
      assert MissingHour(roles, prof, HOURS);
    }
  }
}

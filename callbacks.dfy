/**
  The dashboard callbacks that edit the unit store and run the model: the
  name check that enables creation, the numeric field check, creating,
  updating and deleting a unit, the alert list, and the branch on the model
  run's result.  The store, the alert list and the shown results are the
  fields of one Dashboard object; each callback changes them in place.
 */
module Callbacks {
  import opened Wrappers
  import opened Units
  import opened Classify
  import opened Exceptions
  import opened Results
  import opened Cost
  import opened Solve

  /** A dismissable notice: message, open flag, colour and duration in milliseconds. */
  datatype Alert = Alert(message: string, isOpen: bool, color: string, duration: int)

  /** Seconds an alert stays open. */
  const ALERT_TIME: int := 10

  function NewAlert(msg: string, color: string): (a: Alert)
    ensures a.message == msg && a.color == color && a.isOpen
    ensures a.duration == 10000
  {
    Alert(msg, true, color, ALERT_TIME * 1000)
  }

  const SUCCESS_MESSAGE: string := "Model was computed successfully"
  const FAILURE_MESSAGE: string := "Error during model computation. Check input data."

  /**
    Creation stays disabled while the name field is empty, shorter than
    three characters, or an existing unit's name.
   */
  function CheckUnitName(text: Option<string>, data: map<string, Unit>): (disabled: bool)
    ensures !disabled <==> text.Some? && |text.value| >= 3 && text.value !in data
  {
    text.None? || |text.value| < 3 || text.value in data
  }

  /**
    A numeric input field: cleared (the component then sends None), or
    holding text that float() either parses or rejects with ValueError.
   */
  datatype FieldValue = Empty | Typed(parsed: Option<real>)

  function Abs(x: real): (r: real)
    ensures r >= 0.0 && (r == x || r == -x)
  {
    if x < 0.0 then -x else x
  }

  /**
    The numeric check as written: the absolute value of the parsed number,
    the fallback when float() raises ValueError, and an uncaught TypeError
    for a cleared field, since float(None) raises TypeError.
   */
  function CheckPosNumberAsWritten(field: FieldValue, fallback: real): (r: Result<real, PyError>)
    ensures r.Failure? <==> field.Empty?
    ensures r.Failure? ==> r.error == TypeError
    ensures field == Typed(None) ==> r == Success(fallback)
    ensures field.Typed? && field.parsed.Some? ==> r == Success(Abs(field.parsed.value))
  {
    match field
    case Empty => Failure(TypeError)
    case Typed(None) => Success(fallback)
    case Typed(Some(x)) => Success(Abs(x))
  }

  /** The numeric check as evidently intended: a cleared field falls back like unparsable text. */
  function CheckPosNumber(field: FieldValue, fallback: real): (r: real)
    ensures fallback >= 0.0 ==> r >= 0.0
    ensures field.Typed? && field.parsed.Some? ==> r == Abs(field.parsed.value) && r >= 0.0
    ensures !(field.Typed? && field.parsed.Some?) ==> r == fallback
  {
    match field
    case Typed(Some(x)) => Abs(x)
    case _ => fallback
  }

  /** Wherever float() succeeds or raises ValueError, the two checks agree. */
  lemma CheckPosNumberAgrees(field: FieldValue, fallback: real)
    requires field.Typed?
    ensures CheckPosNumberAsWritten(field, fallback) == Success(CheckPosNumber(field, fallback))
  {
  }

  /** The record create_unit writes: numeric fields checked against a default of 0. */
  function NewUnit(kind: string, lat: real, lon: real, power: FieldValue, vc: FieldValue, ramp: FieldValue): (u: Unit)
    ensures u.kind == kind && u.lat == lat && u.lon == lon
    ensures u.power >= 0.0 && u.vc >= 0.0 && u.ramp >= 0.0
  {
    Unit(kind, lat, lon, CheckPosNumber(power, 0.0), CheckPosNumber(vc, 0.0), CheckPosNumber(ramp, 0.0))
  }

  function Created(data: map<string, Unit>, name: string, kind: string, lat: real, lon: real,
                   power: FieldValue, vc: FieldValue, ramp: FieldValue): (d: map<string, Unit>)
    ensures d.Keys == data.Keys + {name}
    ensures d[name].kind == kind && d[name].lat == lat && d[name].lon == lon
    ensures forall k :: k in data && k != name ==> d[k] == data[k]
  {
    data[name := NewUnit(kind, lat, lon, power, vc, ramp)]
  }

  /** create_unit as written: a cleared numeric field raises before the store is touched. */
  function CreatedAsWritten(data: map<string, Unit>, name: string, kind: string, lat: real, lon: real,
                            power: FieldValue, vc: FieldValue, ramp: FieldValue): (r: Result<map<string, Unit>, PyError>)
    ensures r.Failure? <==> power.Empty? || vc.Empty? || ramp.Empty?
    ensures r.Success? ==> r.value == Created(data, name, kind, lat, lon, power, vc, ramp)
  {
    var p := CheckPosNumberAsWritten(power, 0.0);
    if p.Failure? then Failure(p.error) else
    var v := CheckPosNumberAsWritten(vc, 0.0);
    if v.Failure? then Failure(v.error) else
    var r := CheckPosNumberAsWritten(ramp, 0.0);
    if r.Failure? then Failure(r.error) else
    Success(data[name := Unit(kind, lat, lon, p.value, v.value, r.value)])
  }

  /** A cleared power field makes create_unit as written raise TypeError. */
  lemma ClearedFieldRaises(data: map<string, Unit>, name: string, kind: string, lat: real, lon: real,
                           vc: FieldValue, ramp: FieldValue)
    ensures CreatedAsWritten(data, name, kind, lat, lon, Empty, vc, ramp) == Failure(TypeError)
    ensures Created(data, name, kind, lat, lon, Empty, vc, ramp)[name].power == 0.0
  {
  }

  /** update_unit: numeric fields checked against their old values, position overwritten, tag kept. */
  function Updated(data: map<string, Unit>, name: string, power: FieldValue, vc: FieldValue,
                   lat: real, lon: real, ramp: FieldValue): (d: map<string, Unit>)
    requires name in data
    ensures d.Keys == data.Keys
    ensures d[name].kind == data[name].kind && d[name].lat == lat && d[name].lon == lon
    ensures d[name].power == (if power.Typed? && power.parsed.Some? then Abs(power.parsed.value) else data[name].power)
    ensures d[name].vc == (if vc.Typed? && vc.parsed.Some? then Abs(vc.parsed.value) else data[name].vc)
    ensures d[name].ramp == (if ramp.Typed? && ramp.parsed.Some? then Abs(ramp.parsed.value) else data[name].ramp)
    ensures forall k :: k in data && k != name ==> d[k] == data[k]
  {
    var u := data[name];
    data[name := u.(power := CheckPosNumber(power, u.power), vc := CheckPosNumber(vc, u.vc),
                    lat := lat, lon := lon, ramp := CheckPosNumber(ramp, u.ramp))]
  }

  /**
    update_unit as written: a missing name raises KeyError when its old power
    is read, and a cleared numeric field raises TypeError; either way the
    store is not written back.
   */
  function UpdatedAsWritten(data: map<string, Unit>, name: string, power: FieldValue, vc: FieldValue,
                            lat: real, lon: real, ramp: FieldValue): (r: Result<map<string, Unit>, PyError>)
    ensures name !in data ==> r == Failure(KeyError)
    ensures name in data ==> (r.Failure? <==> power.Empty? || vc.Empty? || ramp.Empty?)
    ensures name in data && r.Failure? ==> r.error == TypeError
    ensures r.Success? ==> name in data && r.value == Updated(data, name, power, vc, lat, lon, ramp)
  {
    if name !in data then Failure(KeyError) else
    var u := data[name];
    var p := CheckPosNumberAsWritten(power, u.power);
    if p.Failure? then Failure(p.error) else
    var v := CheckPosNumberAsWritten(vc, u.vc);
    if v.Failure? then Failure(v.error) else
    var r := CheckPosNumberAsWritten(ramp, u.ramp);
    if r.Failure? then Failure(r.error) else
    Success(data[name := u.(power := p.value, vc := v.value, lat := lat, lon := lon, ramp := r.value)])
  }

  /** A cleared vc field makes update_unit as written raise TypeError; as intended the old vc is kept. */
  lemma ClearedUpdateFieldRaises(data: map<string, Unit>, name: string, power: FieldValue,
                                 lat: real, lon: real, ramp: FieldValue)
    requires name in data && !power.Empty?
    ensures UpdatedAsWritten(data, name, power, Empty, lat, lon, ramp) == Failure(TypeError)
    ensures Updated(data, name, power, Empty, lat, lon, ramp)[name].vc == data[name].vc
  {
  }

  /** Every numeric field of every unit is non-negative. */
  predicate NonNegative(data: map<string, Unit>) {
    forall k :: k in data ==> data[k].power >= 0.0 && data[k].vc >= 0.0 && data[k].ramp >= 0.0
  }

  /** Creating keeps the store's numbers non-negative. */
  lemma CreatedNonNegative(data: map<string, Unit>, name: string, kind: string, lat: real, lon: real,
                           power: FieldValue, vc: FieldValue, ramp: FieldValue)
    requires NonNegative(data)
    ensures NonNegative(Created(data, name, kind, lat, lon, power, vc, ramp))
  {
    var d := Created(data, name, kind, lat, lon, power, vc, ramp);
    forall k | k in d
      ensures d[k].power >= 0.0 && d[k].vc >= 0.0 && d[k].ramp >= 0.0
    {
      if k != name {
        assert d[k] == data[k];
      }
    }
  }

  /** Updating keeps the store's numbers non-negative. */
  lemma UpdatedNonNegative(data: map<string, Unit>, name: string, power: FieldValue, vc: FieldValue,
                           lat: real, lon: real, ramp: FieldValue)
    requires name in data && NonNegative(data)
    ensures NonNegative(Updated(data, name, power, vc, lat, lon, ramp))
  {
    var d := Updated(data, name, power, vc, lat, lon, ramp);
    forall k | k in d
      ensures d[k].power >= 0.0 && d[k].vc >= 0.0 && d[k].ramp >= 0.0
    {
      if k != name {
        assert d[k] == data[k];
      }
    }
  }

  /** A name the check lets through is new, so creating it and then deleting it restores the store. */
  lemma CreateThenDeleteRestores(data: map<string, Unit>, text: Option<string>, kind: string, lat: real, lon: real,
                                 power: FieldValue, vc: FieldValue, ramp: FieldValue)
    requires !CheckUnitName(text, data)
    ensures Created(data, text.value, kind, lat, lon, power, vc, ramp) - {text.value} == data
  {
  }

  /** Creating a name the check lets through adds exactly one unit. */
  lemma CreateGrowsStore(data: map<string, Unit>, text: Option<string>, kind: string, lat: real, lon: real,
                         power: FieldValue, vc: FieldValue, ramp: FieldValue)
    requires !CheckUnitName(text, data)
    ensures |Created(data, text.value, kind, lat, lon, power, vc, ramp)| == |data| + 1
  {
    var d := Created(data, text.value, kind, lat, lon, power, vc, ramp);
    assert d.Keys == data.Keys + {text.value};
    assert text.value !in data.Keys;
  }

  /**
    A thermal unit created with a power field that is cleared or does not
    parse gets power 0, and then every model run raises ZeroDivisionError.
   */
  lemma ZeroPowerCreateBreaksRun(data: map<string, Unit>, name: string, kind: string, lat: real, lon: real,
                                 power: FieldValue, vc: FieldValue, ramp: FieldValue,
                                 raw: RawProfiles, mode: Option<string>, answer: SolverAnswer, rnd: real -> real)
    requires IsThermal(kind)
    requires !(power.Typed? && power.parsed.Some?)
    ensures UcOutcome(Created(data, name, kind, lat, lon, power, vc, ramp), raw, mode, answer, rnd)
         == Raised(ZeroDivisionError)
  {
    var d := Created(data, name, kind, lat, lon, power, vc, ramp);
    ZeroPowerPlantRaises(d, raw, mode, answer, rnd, name);
  }

  /** The dashboard's state: the unit store, the alert list, the stored results and the cost shown. */
  class Dashboard {
    var units: map<string, Unit>
    var alerts: seq<Alert>
    var results: Option<ResultTable>
    /** The rounded system cost on display; None stands for the no-solution text. */
    ghost var shownCost: Option<real>

    constructor(units0: map<string, Unit>)
      ensures units == units0 && alerts == [] && results == None && shownCost == None
    {
      units := units0;
      alerts := [];
      results := None;
      shownCost := None;
    }

    /** make_alerts: one open alert appended at the end. */
    method MakeAlerts(msg: string, color: string)
      modifies this
      ensures alerts == old(alerts) + [NewAlert(msg, color)]
      ensures |alerts| == |old(alerts)| + 1 && alerts[..|old(alerts)|] == old(alerts)
      ensures alerts[|alerts| - 1] == Alert(msg, true, color, 10000)
      ensures units == old(units) && results == old(results) && shownCost == old(shownCost)
    {
      alerts := alerts + [NewAlert(msg, color)];
    }

    /** create_unit, with the numeric check as intended; an existing name is overwritten. */
    method CreateUnit(name: string, kind: string, lat: real, lon: real, power: FieldValue, vc: FieldValue,
                      ramp: FieldValue)
      modifies this
      ensures units == Created(old(units), name, kind, lat, lon, power, vc, ramp)
      ensures alerts == old(alerts) && results == old(results) && shownCost == old(shownCost)
      ensures old(NonNegative(units)) ==> NonNegative(units)
    {
      if NonNegative(units) {
        CreatedNonNegative(units, name, kind, lat, lon, power, vc, ramp);
      }
      var newUnit := NewUnit(kind, lat, lon, power, vc, ramp);
      units := units[name := newUnit];
    }

    /** update_unit; a name not in the store raises KeyError and changes nothing. */
    method UpdateUnit(name: string, power: FieldValue, vc: FieldValue, lat: real, lon: real, ramp: FieldValue)
      returns (raised: Option<PyError>)
      modifies this
      ensures raised.Some? <==> name !in old(units)
      ensures raised.Some? ==> raised == Some(KeyError) && units == old(units)
      ensures raised.None? ==> units == Updated(old(units), name, power, vc, lat, lon, ramp)
      ensures old(NonNegative(units)) ==> NonNegative(units)
      ensures alerts == old(alerts) && results == old(results) && shownCost == old(shownCost)
    {
      if name !in units {
        return Some(KeyError);
      }
      if NonNegative(units) {
        UpdatedNonNegative(units, name, power, vc, lat, lon, ramp);
      }
      var u := units[name];
      u := u.(power := CheckPosNumber(power, u.power));
      u := u.(vc := CheckPosNumber(vc, u.vc));
      u := u.(lat := lat);
      u := u.(lon := lon);
      u := u.(ramp := CheckPosNumber(ramp, u.ramp));
      units := units[name := u];
      raised := None;
    }

    /** delete_unit: the name goes and an info alert follows; a missing name raises KeyError first. */
    method DeleteUnit(name: string) returns (raised: Option<PyError>)
      modifies this
      ensures raised.Some? <==> name !in old(units)
      ensures raised.Some? ==> raised == Some(KeyError) && units == old(units) && alerts == old(alerts)
      ensures raised.None? ==> units == old(units) - {name}
      ensures raised.None? ==> alerts == old(alerts) + [NewAlert("Deleted unit: " + name, "info")]
      ensures results == old(results) && shownCost == old(shownCost)
    {
      if name !in units {
        return Some(KeyError);
      }
      units := units - {name};
      MakeAlerts("Deleted unit: " + name, "info");
      raised := None;
    }

    /**
      run_model: an exception leaves everything as it was; a falsy run
      clears the results and warns; a computed run stores its results, shows
      the rounded system cost and reports success.
     */
    method RunModel(raw: RawProfiles, mode: Option<string>, answer: SolverAnswer, rnd: real -> real,
                    ghost rndCost: real -> real)
      returns (raised: Option<PyError>)
      modifies this
      ensures units == old(units)
      ensures var run := UcOutcome(old(units), raw, mode, answer, rnd);
        match run
        case Raised(e) =>
          raised == Some(e) && alerts == old(alerts) && results == old(results) && shownCost == old(shownCost)
        case Falsy =>
          raised.None? && results.None? && shownCost.None?
          && alerts == old(alerts) + [NewAlert(FAILURE_MESSAGE, "warning")]
        case Computed(table, values) =>
          raised.None? && results == Some(table)
          && shownCost == Some(rndCost(Objective(Partition(old(units)), values)))
          && alerts == old(alerts) + [NewAlert(SUCCESS_MESSAGE, "success")]
    {
      var run := RunUcModel(units, raw, mode, answer, rnd);
      match run
      case Raised(e) =>
        raised := Some(e);
      case Falsy =>
        results := None;
        shownCost := None;
        MakeAlerts(FAILURE_MESSAGE, "warning");
        raised := None;
      case Computed(table, values) =>
        results := Some(table);
        shownCost := Some(rndCost(Objective(Partition(units), values)));
        MakeAlerts(SUCCESS_MESSAGE, "success");
        raised := None;
    }
  }
}

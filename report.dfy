/**
 * The `main` of tojota.py: fetching the trips with one re-login, the
 * odometer and remote-control steps with their InfluxDB metrics, and the
 * loop over the recent trips that sums distance and fuel. The printed
 * report is outside the model; what is posted to InfluxDB is kept as a
 * list of metrics.
 */
module Report {
  import opened Wrappers
  import opened Errors
  import opened Json
  import opened JsonText
  import opened Paths
  import opened Cache
  import opened Tojota
  import Decimal

  // ------------------------------------------------------------ retry once

  /**
   * `get_trips`, and on a ValueError one `login` and one more `get_trips`.
   * Any other error, a failing login, or a second failure propagates, and
   * after a good login the trips are those of the second response.
   */
  method FetchTripsWithRetry(myt: Myt, first: Response, loginResp: Response, second: Response)
    returns (r: Result<(Value, bool), PyError>, relogged: bool)
    modifies myt`userData, myt`headers, myt`requests, myt.store`snapshots, myt.store`userFile
    ensures !relogged ==> myt.requests == old(myt.requests) || myt.requests == old(myt.requests) + [Fetch(Trips)]
    ensures relogged ==> myt.requests == old(myt.requests) + [Fetch(Trips), Authenticate] ||
                         myt.requests == old(myt.requests) + [Fetch(Trips), Authenticate, Fetch(Trips)]
    ensures !relogged ==> r.Ok? || !IsValueError(r.error)
    ensures relogged && LoginOutcome(loginResp).Err? ==> r == Err(LoginOutcome(loginResp).error)
    ensures !relogged ==> myt.userData == old(myt.userData) && myt.headers == old(myt.headers)
    ensures var (r1, log1) := TextFetch(old(myt.FirstError([Uuid, Vin])), old(myt.store.Log(Trips)), first);
            var (r2, log2) := TextFetch(myt.FirstError([Uuid, Vin]), log1, second);
            (relogged <==> r1.Err? && IsValueError(r1.error)) &&
            r == Retry(r1, LoginOutcome(loginResp), r2) &&
            myt.store.Log(Trips) == (if relogged && LoginOutcome(loginResp).Ok? then log2 else log1)
  {
    var before := myt.requests;
    ghost var firstLog := myt.store.Log(Trips);
    ghost var firstError := myt.FirstError([Uuid, Vin]);
    r := myt.GetTrips(first);
    ghost var firstFetch := TextFetch(firstError, firstLog, first);
    assert r == firstFetch.0 && myt.store.Log(Trips) == firstFetch.1;
    relogged := r.Err? && IsValueError(r.error);
    if relogged {
      assert myt.requests == before + [Fetch(Trips)];
      r := TripsAfterLogin(myt, loginResp, second);
      assert before + [Fetch(Trips)] + [Authenticate] == before + [Fetch(Trips), Authenticate];
      assert before + [Fetch(Trips)] + [Authenticate, Fetch(Trips)] == before + [Fetch(Trips), Authenticate, Fetch(Trips)];
    }
  }

  /** The `except ValueError:` branch: one `login`, then `get_trips` again if it succeeded. */
  method TripsAfterLogin(myt: Myt, loginResp: Response, second: Response)
    returns (r: Result<(Value, bool), PyError>)
    modifies myt`userData, myt`headers, myt`requests, myt.store`snapshots, myt.store`userFile
    ensures LoginOutcome(loginResp).Err? ==>
              r == Err(LoginOutcome(loginResp).error) && myt.requests == old(myt.requests) + [Authenticate] &&
              myt.store.Log(Trips) == old(myt.store.Log(Trips))
    ensures LoginOutcome(loginResp).Ok? ==>
              var (r2, log2) := TextFetch(myt.FirstError([Uuid, Vin]), old(myt.store.Log(Trips)), second);
              r == r2 && myt.store.Log(Trips) == log2 &&
              (myt.requests == old(myt.requests) + [Authenticate] ||
               myt.requests == old(myt.requests) + [Authenticate, Fetch(Trips)])
  {
    var error := myt.Login(loginResp);
    if error.Some? {
      return Err(error.value);
    }
    ghost var mid := myt.requests;
    r := myt.GetTrips(second);
    assert myt.requests == mid || myt.requests == mid + [Fetch(Trips)];
  }

  // ------------------------------------------------------------ the latest address

  const UnknownAddress := Str("Unknown address")

  /**
   * `trips['recentTrips'][0]['endAddress']`, where a KeyError or an
   * IndexError gives 'Unknown address'. A TypeError (a subscript on a value
   * that takes none, or a str subscript on a character) is not caught.
   */
  function LatestAddress(trips: Value): (r: Result<Value, PyError>)
    ensures r.Err? ==> r.error == TypeError
    ensures !trips.Obj? ==> r == Err(TypeError)
    ensures trips.Obj? && "recentTrips" !in trips.fields ==> r == Ok(UnknownAddress)
    ensures r.Ok? && r.value != UnknownAddress ==>
              Get(trips, "recentTrips").Ok? && Get(trips, "recentTrips").value.Arr? &&
              Get(trips, "recentTrips").value.items != [] &&
              Get(Get(trips, "recentTrips").value.items[0], "endAddress") == Ok(r.value)
    ensures Get(trips, "recentTrips").Ok? && Get(trips, "recentTrips").value.Arr? &&
            Get(trips, "recentTrips").value.items != [] &&
            Get(Get(trips, "recentTrips").value.items[0], "endAddress").Ok? ==>
              r == Get(Get(trips, "recentTrips").value.items[0], "endAddress")
  {
    match Get(trips, "recentTrips")
    case Err(e) => if e.KeyError? then Ok(UnknownAddress) else Err(e)
    case Ok(list) =>
      match list
      case Arr(items) =>
        if items == [] then Ok(UnknownAddress)
        else
          (match Get(items[0], "endAddress")
           case Err(e) => if e.KeyError? then Ok(UnknownAddress) else Err(e)
           case Ok(a) => Ok(a))
      case Obj(_) => Ok(UnknownAddress)  // `d[0]`: a decoded dict has only str keys, so KeyError
      case Str(t) => if t == "" then Ok(UnknownAddress) else Err(TypeError)
      case _ => Err(TypeError)
  }

  // ------------------------------------------------------------ metrics

  /** A metric's value: a decoded value, or liters per 100 km computed from two of them. */
  datatype Quantity = Raw(v: Value) | Per100(liters: int, km: int)

  /** One `insert_into_influxdb(measurement, value)` call. */
  datatype Metric = Metric(name: string, value: Quantity)

  /** `"{} value={}".format(measurement, value)`, given the text of the value. */
  function Payload(name: string, value: string): string
  {
    name + " value=" + value
  }

  function IndexOf(s: string, c: char): (i: nat)
    requires c in s
    ensures i < |s| && s[i] == c && c !in s[..i]
  {
    if s[0] == c then 0 else 1 + IndexOf(s[1..], c)
  }

  /** How InfluxDB's line protocol reads a payload: the measurement up to the first space, then `value=`. */
  function ReadPayload(p: string): Option<(string, string)>
  {
    if ' ' !in p then None
    else
      var i := IndexOf(p, ' ');
      if !(" value=" <= p[i..]) then None
      else Some((p[..i], p[i + 7..]))
  }

  /** A measurement name without spaces and its value's text are read back from the payload. */
  lemma {:induction false} PayloadRoundTrip(name: string, value: string)
    requires ' ' !in name
    ensures ReadPayload(Payload(name, value)) == Some((name, value))
  {
    var p := Payload(name, value);
    assert p[|name|] == ' ';
    assert p[..|name|] == name;
    var i := IndexOf(p, ' ');
    assert i == |name|;
    assert p[i..] == " value=" + value;
    assert p[i + 7..] == value;
  }

  /** The text of a metric's value, for the values whose `str` the model covers. */
  function MetricText(m: Metric): Option<string>
  {
    match m.value
    case Raw(v) => Render(v)
    case Per100(_, _) => None
  }

  /** `fresh and config_data['use_influxdb']`: the flag is only read for fresh data. */
  function Gate(isNew: bool, config: Value): (r: Result<bool, PyError>)
    ensures !isNew ==> r == Ok(false)
    ensures isNew ==> r.Ok? == Get(config, "use_influxdb").Ok?
    ensures r == Ok(true) ==> isNew && Truthy(Get(config, "use_influxdb").value)
    ensures isNew && Get(config, "use_influxdb").Ok? ==> r == Ok(Truthy(Get(config, "use_influxdb").value))
    ensures isNew && Get(config, "use_influxdb").Err? ==> r == Err(Get(config, "use_influxdb").error)
  {
    if !isNew then Ok(false)
    else match Get(config, "use_influxdb")
      case Err(e) => Err(e)
      case Ok(v) => Ok(Truthy(v))
  }

  /** The configuration turns InfluxDB off. */
  predicate InfluxOff(config: Value)
  {
    Get(config, "use_influxdb").Ok? && !Truthy(Get(config, "use_influxdb").value)
  }

  /** `odometer_to_db`. */
  function OdometerMetrics(config: Value, isNew: bool, fuel: Value, odometer: Value): (r: Result<seq<Metric>, PyError>)
    ensures r.Ok? && r.value != [] <==> Gate(isNew, config) == Ok(true)
    ensures r.Ok? && r.value != [] ==> r.value == [Metric("odometer", Raw(odometer)), Metric("fuel_level", Raw(fuel))]
    ensures r.Err? ==> isNew && Get(config, "use_influxdb").Err? && r.error == Get(config, "use_influxdb").error
  {
    match Gate(isNew, config)
    case Err(e) => Err(e)
    case Ok(on) =>
      if on then Ok([Metric("odometer", Raw(odometer)), Metric("fuel_level", Raw(fuel))]) else Ok([])
  }

  /** What a run of posts sent before it stopped, and the error that stopped it. */
  datatype Posted = Posted(sent: seq<Metric>, error: Option<PyError>)

  /**
   * Consecutive `insert_into_influxdb(name, info[key])` calls: each value is
   * read just before its post, so a missing key stops the run with the
   * earlier metrics already sent.
   */
  function PostEach(specs: seq<(string, Value, string)>): (p: Posted)
    ensures |p.sent| <= |specs|
    ensures forall i :: 0 <= i < |p.sent| ==>
              Get(specs[i].1, specs[i].2).Ok? && p.sent[i] == Metric(specs[i].0, Raw(Get(specs[i].1, specs[i].2).value))
    ensures p.error.None? <==> |p.sent| == |specs|
    ensures p.error.Some? ==> Get(specs[|p.sent|].1, specs[|p.sent|].2) == Err(p.error.value)
    decreases |specs|
  {
    if specs == [] then Posted([], None)
    else
      var (name, info, key) := specs[0];
      match Get(info, key)
      case Err(e) => Posted([], Some(e))
      case Ok(v) =>
        var rest := PostEach(specs[1..]);
        Posted([Metric(name, Raw(v))] + rest.sent, rest.error)
  }

  /** The twelve metrics of `remote_control_to_db`, in the order they are posted. */
  function RemoteControlSpecs(charge: Value, hvac: Value): seq<(string, Value, string)>
  {
    [("charge_level", charge, "ChargeRemainingAmount"),
     ("ev_range", charge, "EvDistanceWithAirCoInKm"),
     ("charge_type", charge, "ChargeType"),
     ("charge_week", charge, "ChargeWeek"),
     ("connector_status", charge, "ConnectorStatus"),
     ("subtraction_rate", charge, "EvTravelableDistanceSubtractionRate"),
     ("plugin_history", charge, "PlugInHistory"),
     ("plugin_status", charge, "PlugStatus"),
     ("hv_range", charge, "GasolineTravelableDistance"),
     ("temperature_inside", hvac, "InsideTemperature"),
     ("temperature_setting", hvac, "SettingTemperature"),
     ("temperature_level", hvac, "Temperaturelevel")]
  }

  /** `remote_control_to_db`. */
  function RemoteControlMetrics(config: Value, isNew: bool, charge: Value, hvac: Value): (p: Posted)
    ensures Gate(isNew, config) == Ok(false) ==> p == Posted([], None)
    ensures Gate(isNew, config).Err? ==> p == Posted([], Some(Gate(isNew, config).error))
    ensures Gate(isNew, config) == Ok(true) ==> p == PostEach(RemoteControlSpecs(charge, hvac))
    ensures InfluxOff(config) ==> p.sent == []
    ensures |p.sent| <= 12
  {
    match Gate(isNew, config)
    case Err(e) => Posted([], Some(e))
    case Ok(on) => if on then PostEach(RemoteControlSpecs(charge, hvac)) else Posted([], None)
  }

  /** With every key present, all twelve metrics are posted, in order, and nothing fails. */
  lemma {:induction false} RemoteControlAllSent(config: Value, charge: Value, hvac: Value)
    requires Gate(true, config) == Ok(true)
    requires forall s :: s in RemoteControlSpecs(charge, hvac) ==> Get(s.1, s.2).Ok?
    ensures var p := RemoteControlMetrics(config, true, charge, hvac);
            p.error.None? && |p.sent| == 12 &&
            forall i :: 0 <= i < 12 ==> p.sent[i].name == RemoteControlSpecs(charge, hvac)[i].0
  {
    var specs := RemoteControlSpecs(charge, hvac);
    var p := PostEach(specs);
  }

  // ------------------------------------------------------------ main's steps

  /**
   * The odometer step once `get_odometer_fuel` has returned: a ValueError is
   * reported and gives no reading; otherwise the reading is printed and the
   * odometer metrics are posted when it is fresh and InfluxDB is on.
   */
  function OdometerOutcome(config: Value, got: Result<(Reading, bool), PyError>): (r: (Result<Option<Reading>, PyError>, seq<Metric>))
    ensures r.0.Err? ==> !IsValueError(r.0.error) && r.1 == []
    ensures got.Err? ==> r.1 == [] && r.0 == (if IsValueError(got.error) then Ok(None) else Err(got.error))
    ensures got.Ok? && OdometerMetrics(config, got.value.1, got.value.0.fuel, got.value.0.odometer).Ok? ==>
              r == (Ok(Some(got.value.0)), OdometerMetrics(config, got.value.1, got.value.0.fuel, got.value.0.odometer).value)
    ensures got.Ok? && OdometerMetrics(config, got.value.1, got.value.0.fuel, got.value.0.odometer).Err? ==>
              r == (Err(OdometerMetrics(config, got.value.1, got.value.0.fuel, got.value.0.odometer).error), [])
    ensures r.1 != [] ==> got.Ok? && got.value.1 && |r.1| == 2
    ensures InfluxOff(config) ==> r.1 == []
  {
    match got
    case Err(e) => if IsValueError(e) then (Ok(None), []) else (Err(e), [])
    case Ok((reading, isNew)) =>
      match OdometerMetrics(config, isNew, reading.fuel, reading.odometer)
      case Err(e) => (Err(e), [])
      case Ok(metrics) => (Ok(Some(reading)), metrics)
  }

  /**
   * The odometer step of `main`: a ValueError from `get_odometer_fuel` is
   * reported and skipped; otherwise the odometer metrics are posted when
   * the reading is fresh and InfluxDB is on.
   */
  method OdometerReport(myt: Myt, resp: Response) returns (r: Result<Option<Reading>, PyError>, sent: seq<Metric>)
    modifies myt`requests, myt.store`snapshots
    ensures myt.requests == old(myt.requests) || myt.requests == old(myt.requests) + [Fetch(Odometer)]
    ensures r.Err? ==> !IsValueError(r.error)
    ensures r == Ok(None) ==> sent == []
    ensures r.Ok? && r.value.Some? ==> myt.requests == old(myt.requests) + [Fetch(Odometer)]
    ensures sent != [] ==> r.Ok? && r.value.Some? && |myt.store.Log(Odometer)| == |old(myt.store.Log(Odometer))| + 1
    ensures InfluxOff(myt.config) ==> sent == []
    ensures var (got, log) := OdometerFetch(old(myt.FirstError([Token, Vin, Uuid])), old(myt.store.Log(Odometer)), resp);
            myt.store.Log(Odometer) == log && (r, sent) == OdometerOutcome(myt.config, got)
    ensures forall j :: j != Odometer ==> myt.store.Log(j) == old(myt.store.Log(j))
  {
    sent := [];
    var got := myt.GetOdometerFuel(resp);
    if got.Err? {
      if IsValueError(got.error) {
        return Ok(None), [];
      }
      return Err(got.error), [];
    }
    var (reading, isNew) := got.value;
    var metrics := OdometerMetrics(myt.config, isNew, reading.fuel, reading.odometer);
    if metrics.Err? {
      return Err(metrics.error), [];
    }
    sent := metrics.value;
    r := Ok(Some(reading));
  }

  /**
   * `int(v)`: an int or a bool converts; a str converts when it is an
   * optional sign and decimal digits and raises ValueError otherwise; any
   * other value raises TypeError.
   */
  function IntOf(v: Value): (r: Result<int, PyError>)
    ensures v.Num? ==> r == Ok(v.n)
    ensures r.Err? && v.Str? ==> r.error == ConversionError
    ensures r.Err? && !v.Str? ==> r.error == TypeError
    ensures v.Str? && v.s != "" && Decimal.AllDigits(v.s) ==> r == Ok(Decimal.DigitsValue(v.s))
  {
    match v
    case Num(n) => Ok(n)
    case Bool(b) => Ok(if b then 1 else 0)
    case Str(t) =>
      if t != "" && Decimal.AllDigits(t) then Ok(Decimal.DigitsValue(t))
      else if |t| > 1 && (t[0] == '-' || t[0] == '+') && Decimal.AllDigits(t[1..]) then
        var m: int := Decimal.DigitsValue(t[1..]);
        Ok(if t[0] == '-' then -m else m)
      else Err(ConversionError)
    case _ => Err(TypeError)
  }

  /** `int(str(n))` gives n back: a timestamp written by `str` or `json.dumps` converts to itself. */
  lemma {:induction false} IntOfRoundTrip(n: int)
    ensures IntOf(Str(Decimal.IntToString(n))) == Ok(n)
  {
    var digits := Decimal.NatToString(if n < 0 then -n else n);
    Decimal.NatToStringRoundTrip(if n < 0 then -n else n);
    if n < 0 {
      var t := "-" + digits;
      assert t[1..] == digits;
      assert !Decimal.AllDigits(t) by { assert !Decimal.IsDigit(t[0]); }
    }
  }

  /**
   * The parking message of `main`: `parking['tripStatus'] == '0'` chooses
   * "parked at" (true) over "left from" (false); either way the timestamp
   * goes through `int()` and the configured time zone is read. Ok(None) is
   * an `int()` ValueError, which the step's `except ValueError` catches.
   */
  function ParkingLine(config: Value, parking: Value): (r: Result<Option<bool>, PyError>)
    ensures r.Err? ==> !IsValueError(r.error)
    ensures r.Ok? ==> Get(parking, "tripStatus").Ok? && GetPath(parking, ["event", "timestamp"]).Ok?
    ensures r == Ok(None) <==>
              Get(parking, "tripStatus").Ok? && GetPath(parking, ["event", "timestamp"]).Ok? &&
              IntOf(GetPath(parking, ["event", "timestamp"]).value) == Err(ConversionError)
    ensures r.Ok? && r.value.Some? ==>
              (r.value.value <==> Get(parking, "tripStatus") == Ok(Str("0"))) &&
              IntOf(GetPath(parking, ["event", "timestamp"]).value).Ok? && Get(config, "timezone").Ok?
    ensures Get(parking, "tripStatus").Ok? && GetPath(parking, ["event", "timestamp"]).Ok? &&
            IntOf(GetPath(parking, ["event", "timestamp"]).value).Ok? && Get(config, "timezone").Ok? ==>
              r == Ok(Some(Get(parking, "tripStatus").value == Str("0")))
    ensures Get(parking, "tripStatus").Err? ==> r == Err(Get(parking, "tripStatus").error)
  {
    match Get(parking, "tripStatus")
    case Err(e) => Err(e)
    case Ok(status) =>
      match GetPath(parking, ["event", "timestamp"])
      case Err(e) => Err(e)
      case Ok(stamp) =>
        match IntOf(stamp)
        case Err(e) => if IsValueError(e) then Ok(None) else Err(e)
        case Ok(_) =>
          match Get(config, "timezone")
          case Err(e) => Err(e)
          case Ok(_) => Ok(Some(status == Str("0")))
  }

  /**
   * The parking step of `main`: a ValueError from `get_parking` or from the
   * message it prints is reported and skipped (Ok(None)); any other error
   * propagates.
   */
  method ParkingReport(myt: Myt, resp: Response) returns (r: Result<Option<bool>, PyError>)
    modifies myt`requests, myt.store`snapshots
    ensures r.Err? ==> !IsValueError(r.error)
    ensures myt.FirstError([Token, Uuid, Vin]).Some? ==>
              r == Err(myt.FirstError([Token, Uuid, Vin]).value) && myt.requests == old(myt.requests)
    ensures myt.FirstError([Token, Uuid, Vin]).None? ==> myt.requests == old(myt.requests) + [Fetch(Parking)]
    ensures myt.FirstError([Token, Uuid, Vin]).None? && (resp.status != 200 || Parse(resp.text).None?) ==> r == Ok(None)
    ensures myt.FirstError([Token, Uuid, Vin]).None? && resp.status == 200 && Parse(resp.text).Some? ==>
              r == ParkingLine(myt.config, Parse(resp.text).value)
    ensures myt.store.Log(Parking) == TextFetch(old(myt.FirstError([Token, Uuid, Vin])), old(myt.store.Log(Parking)), resp).1
    ensures forall j :: j != Parking ==> myt.store.Log(j) == old(myt.store.Log(j))
  {
    var got := myt.GetParking(resp);
    if got.Err? {
      if IsValueError(got.error) {
        return Ok(None);
      }
      return Err(got.error);
    }
    r := ParkingLine(myt.config, got.value.0);
  }

  /** One read followed by the rest: the read's error if it failed, else the rest's. */
  function Then(read: Result<Value, PyError>, rest: Option<PyError>): (e: Option<PyError>)
    ensures e.None? <==> read.Ok? && rest.None?
    ensures read.Err? ==> e == Some(read.error)
  {
    if read.Err? then Some(read.error) else rest
  }

  /** The values of the status line, the acquisition time and the configured time zone, read in order. */
  function LineReads(config: Value, status: Value, charge: Value, hvac: Value): (e: Option<PyError>)
    ensures e.Some? ==> e.value.KeyError? || e.value == TypeError
    ensures e.None? <==>
              Get(charge, "ChargeRemainingAmount").Ok? && Get(charge, "EvDistanceWithAirCoInKm").Ok? &&
              Get(charge, "GasolineTravelableDistance").Ok? && Get(hvac, "InsideTemperature").Ok? &&
              Get(charge, "ChargingStatus").Ok? && Get(config, "timezone").Ok? &&
              GetPath(status, ["VehicleInfo", "AcquisitionDatetime"]).Ok?
    ensures Get(charge, "ChargeRemainingAmount").Err? ==> e == Some(Get(charge, "ChargeRemainingAmount").error)
  {
    Then(Get(charge, "ChargeRemainingAmount"),
    Then(Get(charge, "EvDistanceWithAirCoInKm"),
    Then(Get(charge, "GasolineTravelableDistance"),
    Then(Get(hvac, "InsideTemperature"),
    Then(Get(charge, "ChargingStatus"),
    Then(GetPath(status, ["VehicleInfo", "AcquisitionDatetime"]),
    Then(Get(config, "timezone"), None)))))))
  }

  /** The values of the HVAC line, read in order when the HVAC is on. */
  function HeatingReads(hvac: Value): (e: Option<PyError>)
    ensures e.Some? ==> e.value.KeyError? || e.value == TypeError
    ensures e.None? <==>
              Get(hvac, "FrontDefoggerStatus").Ok? && Get(hvac, "RearDefoggerStatus").Ok? &&
              Get(hvac, "LatestAcStartTime").Ok? && Get(hvac, "RemainingMinutes").Ok?
    ensures Get(hvac, "FrontDefoggerStatus").Err? ==> e == Some(Get(hvac, "FrontDefoggerStatus").error)
  {
    Then(Get(hvac, "FrontDefoggerStatus"),
    Then(Get(hvac, "RearDefoggerStatus"),
    Then(Get(hvac, "LatestAcStartTime"),
    Then(Get(hvac, "RemainingMinutes"), None))))
  }

  /**
   * The results of the remote-control report before anything is posted: the
   * status line's values, the acquisition time and the configured time
   * zone; `RemainingChargeTime` while charging; the HVAC mode and, when it
   * is on, the HVAC line's values. The first that fails raises. Parsing the
   * times is outside the model.
   */
  function StatusReads(config: Value, status: Value, charge: Value, hvac: Value): (e: Option<PyError>)
    ensures e.Some? ==> e.value.KeyError? || e.value == TypeError
    ensures e.None? ==>
              LineReads(config, status, charge, hvac).None? &&
              (Get(charge, "ChargingStatus").value == Str("charging") ==> Get(charge, "RemainingChargeTime").Ok?) &&
              Get(hvac, "RemoteHvacMode").Ok? &&
              (Truthy(Get(hvac, "RemoteHvacMode").value) ==> HeatingReads(hvac).None?)
    ensures (LineReads(config, status, charge, hvac).None? &&
             (Get(charge, "ChargingStatus").value == Str("charging") ==> Get(charge, "RemainingChargeTime").Ok?) &&
             Get(hvac, "RemoteHvacMode").Ok? &&
             (Truthy(Get(hvac, "RemoteHvacMode").value) ==> HeatingReads(hvac).None?)) ==> e.None?
    ensures LineReads(config, status, charge, hvac).Some? ==> e == LineReads(config, status, charge, hvac)
  {
    match LineReads(config, status, charge, hvac)
    case Some(e) => Some(e)
    case None =>
      var charging := Get(charge, "ChargingStatus").value == Str("charging");
      var remaining := if charging then Get(charge, "RemainingChargeTime") else Ok(Null);
      if remaining.Err? then Some(remaining.error)
      else
        match Get(hvac, "RemoteHvacMode")
        case Err(e) => Some(e)
        case Ok(mode) => if !Truthy(mode) then None else HeatingReads(hvac)
  }

  /**
   * The remote-control step as a function of the lookups' error, the
   * snapshots before and the response: skipped unless `use_remote_control`
   * is truthy; then the status is fetched, read and reported. Returns the
   * outcome, the metrics posted and the snapshots afterwards.
   */
  function RemoteStep(config: Value, e: Option<PyError>, log: seq<string>, resp: Response)
    : (r: (Result<bool, PyError>, seq<Metric>, seq<string>))
    ensures r.0 == Ok(false) <==> Get(config, "use_remote_control").Ok? && !Truthy(Get(config, "use_remote_control").value)
    ensures r.0 == Ok(false) || Get(config, "use_remote_control").Err? ==> r.1 == [] && r.2 == log
    ensures r.0 == Ok(true) ==> ValueFetch(e, log, resp).0.Ok? && r.2 == ValueFetch(e, log, resp).1
    ensures r.1 != [] ==> ValueFetch(e, log, resp).0.Ok? && ValueFetch(e, log, resp).0.value.1
    ensures InfluxOff(config) ==> r.1 == []
    ensures |r.1| <= 12
    ensures Get(config, "use_remote_control").Err? ==> r.0 == Err(Get(config, "use_remote_control").error)
    ensures Get(config, "use_remote_control").Ok? && Truthy(Get(config, "use_remote_control").value) ==>
              r.2 == ValueFetch(e, log, resp).1 &&
              (ValueFetch(e, log, resp).0.Err? ==> r.0 == Err(ValueFetch(e, log, resp).0.error) && r.1 == []) &&
              (ValueFetch(e, log, resp).0.Ok? ==>
                 var p := StatusReport(config, ValueFetch(e, log, resp).0.value.0, ValueFetch(e, log, resp).0.value.1);
                 r.1 == p.sent && r.0 == (if p.error.Some? then Err(p.error.value) else Ok(true)))
  {
    match Get(config, "use_remote_control")
    case Err(err) => (Err(err), [], log)
    case Ok(on) =>
      if !Truthy(on) then (Ok(false), [], log)
      else
        var (got, log') := ValueFetch(e, log, resp);
        match got
        case Err(err) => (Err(err), [], log')
        case Ok((status, isNew)) =>
          var p := StatusReport(config, status, isNew);
          (if p.error.Some? then Err(p.error.value) else Ok(true), p.sent, log')
  }

  /**
   * The remote-control step of `main`, run only when the configuration
   * asks for it; its errors are not caught.
   */
  method RemoteControlReport(myt: Myt, resp: Response) returns (r: Result<bool, PyError>, sent: seq<Metric>)
    modifies myt`requests, myt.store`snapshots
    ensures Get(myt.config, "use_remote_control").Err? ==>
              r == Err(Get(myt.config, "use_remote_control").error) && sent == [] && myt.requests == old(myt.requests)
    ensures Get(myt.config, "use_remote_control").Ok? && !Truthy(Get(myt.config, "use_remote_control").value) ==>
              r == Ok(false) && sent == [] && myt.requests == old(myt.requests) &&
              myt.store.snapshots == old(myt.store.snapshots)
    ensures r == Ok(true) ==> myt.requests == old(myt.requests) + [Fetch(RemoteControl)]
    ensures r == Ok(false) ==> myt.requests == old(myt.requests)
    ensures InfluxOff(myt.config) ==> sent == []
    ensures |sent| <= 12
    ensures (r, sent, myt.store.Log(RemoteControl)) ==
              RemoteStep(myt.config, old(myt.FirstError([Token, Uuid, Vin])), old(myt.store.Log(RemoteControl)), resp)
    ensures Get(myt.config, "use_remote_control").Ok? && Truthy(Get(myt.config, "use_remote_control").value) ==>
              myt.requests == old(myt.requests) + (if old(myt.FirstError([Token, Uuid, Vin])).None? then [Fetch(RemoteControl)] else [])
    ensures forall j :: j != RemoteControl ==> myt.store.Log(j) == old(myt.store.Log(j))
  {
    sent := [];
    var enabled := Get(myt.config, "use_remote_control");
    if enabled.Err? {
      return Err(enabled.error), [];
    }
    if !Truthy(enabled.value) {
      return Ok(false), [];
    }
    var got := myt.GetRemoteControlStatus(resp);
    if got.Err? {
      return Err(got.error), [];
    }
    var posted := StatusReport(myt.config, got.value.0, got.value.1);
    sent := posted.sent;
    r := if posted.error.Some? then Err(posted.error.value) else Ok(true);
  }

  /**
   * What the remote-control report does with a fetched status: read the
   * charge and HVAC parts and every value it prints, then post the metrics
   * when the status is fresh and InfluxDB is on.
   */
  function StatusReport(config: Value, status: Value, isNew: bool): (p: Posted)
    ensures InfluxOff(config) ==> p.sent == []
    ensures |p.sent| <= 12
    ensures GetPath(status, ["VehicleInfo", "ChargeInfo"]).Err? ==>
              p == Posted([], Some(GetPath(status, ["VehicleInfo", "ChargeInfo"]).error))
    ensures p.sent != [] ==>
              GetPath(status, ["VehicleInfo", "ChargeInfo"]).Ok? && GetPath(status, ["VehicleInfo", "RemoteHvacInfo"]).Ok? &&
              StatusReads(config, status, GetPath(status, ["VehicleInfo", "ChargeInfo"]).value,
                          GetPath(status, ["VehicleInfo", "RemoteHvacInfo"]).value).None? &&
              Gate(isNew, config) == Ok(true)
    ensures GetPath(status, ["VehicleInfo", "ChargeInfo"]).Ok? && GetPath(status, ["VehicleInfo", "RemoteHvacInfo"]).Ok? ==>
              var charge := GetPath(status, ["VehicleInfo", "ChargeInfo"]).value;
              var hvac := GetPath(status, ["VehicleInfo", "RemoteHvacInfo"]).value;
              (StatusReads(config, status, charge, hvac).None? ==> p == RemoteControlMetrics(config, isNew, charge, hvac)) &&
              (StatusReads(config, status, charge, hvac).Some? ==> p == Posted([], StatusReads(config, status, charge, hvac)))
    ensures GetPath(status, ["VehicleInfo", "ChargeInfo"]).Ok? && GetPath(status, ["VehicleInfo", "RemoteHvacInfo"]).Err? ==>
              p == Posted([], Some(GetPath(status, ["VehicleInfo", "RemoteHvacInfo"]).error))
  {
    var charge := GetPath(status, ["VehicleInfo", "ChargeInfo"]);
    var hvac := GetPath(status, ["VehicleInfo", "RemoteHvacInfo"]);
    if charge.Err? then Posted([], Some(charge.error))
    else if hvac.Err? then Posted([], Some(hvac.error))
    else
      var missing := StatusReads(config, status, charge.value, hvac.value);
      if missing.Some? then Posted([], missing)
      else RemoteControlMetrics(config, isNew, charge.value, hvac.value)
  }

  // ------------------------------------------------------------ addresses

  /** `s.split(',')`. */
  function Split(s: string): (parts: seq<string>)
    ensures |parts| >= 1
    ensures ',' !in s ==> parts == [s]
    decreases |s|
  {
    if ',' !in s then [s]
    else
      var i := IndexOf(s, ',');
      [s[..i]] + Split(s[i + 1..])
  }

  /** `'{},{}'.format(parts[0], parts[1])`, or `parts[0]` when there is only one part. */
  function Rejoin(parts: seq<string>): string
    requires |parts| >= 1
  {
    if |parts| >= 2 then parts[0] + "," + parts[1] else parts[0]
  }

  function Shorten(address: string): string
  {
    Rejoin(Split(address))
  }

  function Commas(s: string): nat
  {
    multiset(s)[',']
  }

  /**
   * The shortened address is the text before the second comma: a prefix of
   * the address with at most one comma, which is the whole address or stops
   * exactly at its second comma.
   */
  lemma {:induction false} ShortenStopsAtSecondComma(address: string)
    ensures var r := Shorten(address);
            r <= address && Commas(r) <= 1 &&
            (|r| == |address| || (address[|r|] == ',' && Commas(r) == 1))
    ensures Commas(address) <= 1 ==> Shorten(address) == address
  {
    if ',' in address {
      var i := IndexOf(address, ',');
      var rest := address[i + 1..];
      if ',' in rest {
        ShortenTwoCommas(address, i, rest);
      } else {
        ShortenOneComma(address, i, rest);
      }
    } else {
      assert multiset(address)[','] == 0;
    }
  }

  lemma {:induction false} CommaCount(a: string, b: string)
    requires ',' !in a && ',' !in b
    ensures Commas(a + [','] + b) == 1
  {
    assert multiset(a)[','] == 0 && multiset(b)[','] == 0;
    assert multiset(a + [','] + b) == multiset(a) + multiset([',']) + multiset(b);
  }

  lemma {:induction false} ShortenOneComma(address: string, i: nat, rest: string)
    requires ',' in address && i == IndexOf(address, ',') && rest == address[i + 1..] && ',' !in rest
    ensures Shorten(address) == address && Commas(address) == 1
  {
    var head := address[..i];
    assert Split(address) == [head] + Split(rest) == [head, rest];
    assert Shorten(address) == head + "," + rest;
    assert address == head + [','] + rest;
    CommaCount(head, rest);
  }

  lemma {:induction false} ShortenTwoCommas(address: string, i: nat, rest: string)
    requires ',' in address && i == IndexOf(address, ',') && rest == address[i + 1..] && ',' in rest
    ensures var r := Shorten(address);
            r <= address && Commas(r) == 1 && |r| < |address| && address[|r|] == ',' && Commas(address) >= 2
  {
    var j := IndexOf(rest, ',');
    var n := i + 1 + j;
    ShortenIsPrefix(address, i, rest, j);
    var r := Shorten(address);
    assert r == address[..n];
    CommaCount(address[..i], rest[..j]);
    assert Commas(r) == 1;
    assert address[n] == rest[j] == ',';
    CommasSplit(address, n);
    assert Commas(address) >= 2;
    assert |r| == n < |address|;
  }

  lemma {:induction false} ShortenIsPrefix(address: string, i: nat, rest: string, j: nat)
    requires ',' in address && i == IndexOf(address, ',') && rest == address[i + 1..]
    requires ',' in rest && j == IndexOf(rest, ',')
    ensures Shorten(address) == address[..i + 1 + j] == address[..i] + [','] + rest[..j]
  {
    SplitTwoParts(address, i, rest, j);
    PrefixAroundComma(address, i, j);
  }

  lemma {:induction false} SplitTwoParts(address: string, i: nat, rest: string, j: nat)
    requires ',' in address && i == IndexOf(address, ',') && rest == address[i + 1..]
    requires ',' in rest && j == IndexOf(rest, ',')
    ensures Shorten(address) == address[..i] + [','] + rest[..j]
  {
    var parts := Split(address);
    assert parts == [address[..i]] + Split(rest);
    assert Split(rest)[0] == rest[..j];
  }

  lemma {:induction false} PrefixAroundComma(s: string, i: nat, j: nat)
    requires i < |s| && s[i] == ',' && j < |s| - i - 1
    ensures s[..i] + [','] + s[i + 1..][..j] == s[..i + 1 + j]
  {
    var r := s[..i] + [','] + s[i + 1..][..j];
    forall k | 0 <= k < i + 1 + j
      ensures r[k] == s[k]
    {
      if k > i {
        assert r[k] == s[i + 1..][k - i - 1];
      }
    }
  }

  /** A comma at position k adds one to the count of the prefix before it. */
  lemma {:induction false} CommasSplit(s: string, k: nat)
    requires k < |s| && s[k] == ','
    ensures Commas(s) >= Commas(s[..k]) + 1
  {
    assert s == s[..k] + s[k..];
    assert multiset(s) == multiset(s[..k]) + multiset(s[k..]);
    assert s[k..][0] == ',';
    assert ',' in multiset(s[k..]);
  }

  /**
   * `trip[key].split(',')` shortened: a missing key stands for
   * 'Unknown, Unknown', and a value that is not a str has no `split`.
   */
  function AddressOf(trip: Value, key: string): (r: Result<string, PyError>)
    requires trip.Obj?
    ensures key !in trip.fields ==> r == Ok("Unknown, Unknown")
    ensures key in trip.fields && trip.fields[key].Str? ==> r == Ok(Shorten(trip.fields[key].s))
    ensures r.Err? <==> key in trip.fields && !trip.fields[key].Str?
  {
    if key !in trip.fields then
      assert Rejoin(["Unknown", " Unknown"]) == "Unknown" + "," + " Unknown" == "Unknown, Unknown";
      Ok(Rejoin(["Unknown", " Unknown"]))
    else match trip.fields[key]
      case Str(a) => Ok(Shorten(a))
      case _ => Err(AttributeError)
  }

  // ------------------------------------------------------------ the trip loop

  /** One trip of the loop: its statistics, whether it was fetched, and its two addends. */
  datatype TripRow = TripRow(stats: Value, isNew: bool, km: int, liters: int)

  /** `stats[key]` is there and is the number `n` (a bool adds as 0 or 1). */
  predicate Reads(stats: Value, key: string, n: int)
  {
    Get(stats, key).Ok? && (Get(stats, key).value.Num? || Get(stats, key).value.Bool?) && NumOf(Get(stats, key).value) == n
  }

  /** What a trip's detail file holds for it. */
  predicate DetailHolds(details: map<string, string>, id: string, stats: Value)
  {
    id in details && Parse(details[id]).Some? && Get(Parse(details[id]).value, "statistics") == Ok(stats)
  }

  /** The detail files written before stay as they were. */
  predicate Kept(before: map<string, string>, after: map<string, string>)
  {
    forall k :: k in before ==> k in after && after[k] == before[k]
  }

  function TripId(trip: Value): string
  {
    if trip.Obj? && "tripId" in trip.fields && trip.fields["tripId"].Str? then trip.fields["tripId"].s else ""
  }

  /** A row's two addends are its statistics' distance and fuel. */
  predicate RowRead(row: TripRow)
  {
    Reads(row.stats, "totalDistanceInKm", row.km) && Reads(row.stats, "fuelConsumptionInL", row.liters)
  }

  /** `trip_data_to_db`'s three posts for a trip: its distance, its fuel and its per-100 average. */
  function TripMetrics(row: TripRow): seq<Metric>
    requires RowRead(row)
  {
    [Metric("trip_kilometers", Raw(Get(row.stats, "totalDistanceInKm").value)),
     Metric("trip_liters", Raw(Get(row.stats, "fuelConsumptionInL").value)),
     Metric("trip_average_consumption", Per100(row.liters, row.km))]
  }

  /**
   * Every read of the trip loop's body before the division succeeds: the
   * times and the time zone, both addresses, and the distance and fuel as
   * numbers `+=` accepts.
   */
  predicate FiguresRead(config: Value, trip: Value, stats: Value)
  {
    Get(trip, "startTimeGmt").Ok? && Get(config, "timezone").Ok? && Get(trip, "endTimeGmt").Ok? &&
    AddressOf(trip, "startAddress").Ok? && AddressOf(trip, "endAddress").Ok? &&
    Get(stats, "totalDistanceInKm").Ok? && Add(0, Get(stats, "totalDistanceInKm").value).Ok? &&
    Get(stats, "fuelConsumptionInL").Ok? && Add(0, Get(stats, "fuelConsumptionInL").value).Ok?
  }

  /**
   * The body of the trip loop once `get_trip` has returned: read the
   * statistics, the times (with the configured time zone) and the
   * addresses, add the two addends to the running sums, divide, post the
   * trip metrics when the trip is fresh and InfluxDB is on, and read the
   * speed the report prints. Whether `kms += x` succeeds does not depend on
   * the running sum, so the addition is checked against 0.
   */
  function TripFigures(config: Value, trip: Value, data: Value, isNew: bool): (r: (Result<TripRow, PyError>, seq<Metric>))
    ensures r.0.Ok? ==>
              Get(data, "statistics") == Ok(r.0.value.stats) && r.0.value.isNew == isNew &&
              RowRead(r.0.value) && r.0.value.km != 0 && Get(r.0.value.stats, "averageSpeedInKmph").Ok?
    ensures r.0.Ok? ==> r.1 == (if Gate(isNew, config) == Ok(true) then TripMetrics(r.0.value) else [])
    ensures r.1 != [] ==>
              Gate(isNew, config) == Ok(true) && |r.1| == 3 &&
              (r.0.Ok? || r.0 == Err(KeyError("averageSpeedInKmph")))
    ensures Get(data, "statistics").Err? ==> r == (Err(Get(data, "statistics").error), [])
    ensures InfluxOff(config) ==> r.1 == []
    ensures r.0.Ok? <==>
              Get(data, "statistics").Ok? && FiguresRead(config, trip, Get(data, "statistics").value) &&
              Add(0, Get(Get(data, "statistics").value, "totalDistanceInKm").value).value != 0 &&
              Gate(isNew, config).Ok? && Get(Get(data, "statistics").value, "averageSpeedInKmph").Ok?
    ensures Get(data, "statistics").Ok? && FiguresRead(config, trip, Get(data, "statistics").value) &&
            Add(0, Get(Get(data, "statistics").value, "totalDistanceInKm").value).value == 0 ==>
              r == (Err(ZeroDivisionError), [])
  {
    match Get(data, "statistics")
    case Err(e) => (Err(e), [])
    case Ok(stats) =>
      var times := Then(Get(trip, "startTimeGmt"), Then(Get(config, "timezone"), Then(Get(trip, "endTimeGmt"), None)));
      if times.Some? then (Err(times.value), [])
      else if AddressOf(trip, "startAddress").Err? then (Err(AddressOf(trip, "startAddress").error), [])
      else if AddressOf(trip, "endAddress").Err? then (Err(AddressOf(trip, "endAddress").error), [])
      else
        match Get(stats, "totalDistanceInKm")
        case Err(e) => (Err(e), [])
        case Ok(km) =>
          match Add(0, km)
          case Err(e) => (Err(e), [])
          case Ok(kmN) =>
            match Get(stats, "fuelConsumptionInL")
            case Err(e) => (Err(e), [])
            case Ok(liters) =>
              match Add(0, liters)
              case Err(e) => (Err(e), [])
              case Ok(litersN) =>
                if kmN == 0 then (Err(ZeroDivisionError), [])
                else
                  var row := TripRow(stats, isNew, kmN, litersN);
                  match Gate(isNew, config)
                  case Err(e) => (Err(e), [])
                  case Ok(on) =>
                    var sent := if on then TripMetrics(row) else [];
                    match Get(stats, "averageSpeedInKmph")
                    case Err(e) => (Err(e), sent)
                    case Ok(_) => (Ok(row), sent)
  }

  /** Whether a trip names its id with a str, as `get_trip` needs. */
  predicate HasTripId(trip: Value)
  {
    Get(trip, "tripId").Ok? && Get(trip, "tripId").value.Str?
  }

  /**
   * One trip of the loop as a function of the configuration, the lookups'
   * error, the detail files before and the responses by trip id: the id is
   * read and must be a str, `get_trip` runs, and then the figures of the
   * trip. Returns the row or the error, the metrics posted and the detail
   * files afterwards.
   */
  function TripOutcome(config: Value, e: Option<PyError>, details: map<string, string>, trip: Value, net: string -> Response)
    : (r: (Result<TripRow, PyError>, seq<Metric>, map<string, string>))
    ensures r.0.Ok? ==> RowRead(r.0.value)
    ensures r.0.Ok? ==> r.1 == (if Gate(r.0.value.isNew, config) == Ok(true) then TripMetrics(r.0.value) else [])
  {
    match Get(trip, "tripId")
    case Err(err) => (Err(err), [], details)
    case Ok(id) =>
      if !id.Str? then (Err(TypeError), [], details)
      else
        var got := TripDetail(e, details, id.s, net(id.s));
        if got.0.Err? then (Err(got.0.error), [], got.1)
        else
          var figures := TripFigures(config, trip, got.0.value.0, got.0.value.1);
          (figures.0, figures.1, got.1)
  }

  /**
   * What one trip does: the detail files only grow, by the trip's own file
   * when it is fetched; a row comes from that file; metrics are posted only
   * for a freshly fetched trip and never with InfluxDB off.
   */
  lemma {:induction false} TripOutcomeFacts(config: Value, e: Option<PyError>, details: map<string, string>,
                                            trip: Value, net: string -> Response)
    ensures var r := TripOutcome(config, e, details, trip, net);
            Kept(details, r.2) &&
            (r.2 == details || (TripId(trip) !in details && r.2.Keys == details.Keys + {TripId(trip)}))
    ensures var r := TripOutcome(config, e, details, trip, net);
            r.0.Ok? ==> DetailHolds(r.2, TripId(trip), r.0.value.stats) && r.0.value.km != 0 &&
                        (r.0.value.isNew <==> TripId(trip) !in details)
    ensures var r := TripOutcome(config, e, details, trip, net);
            r.1 != [] ==> TripId(trip) !in details && TripId(trip) in r.2
    ensures InfluxOff(config) ==> TripOutcome(config, e, details, trip, net).1 == []
  {
    match Get(trip, "tripId")
    case Err(_) =>
    case Ok(id) =>
      if id.Str? {
        var got := TripDetail(e, details, id.s, net(id.s));
        if got.0.Ok? {
          var figures := TripFigures(config, trip, got.0.value.0, got.0.value.1);
          assert TripOutcome(config, e, details, trip, net) == (figures.0, figures.1, got.1);
        }
      }
  }

  /**
   * One trip of the loop: `get_trip(trip['tripId'])`, then the figures of
   * the trip. A request is sent exactly when the id is a non-empty str
   * without a detail file and the session's lookups succeed.
   */
  method TripStep(myt: Myt, trip: Value, net: string -> Response) returns (r: Result<TripRow, PyError>, sent: seq<Metric>)
    modifies myt`requests, myt.store`details
    ensures Kept(old(myt.store.details), myt.store.details)
    ensures myt.requests == old(myt.requests) || myt.requests == old(myt.requests) + [FetchTrip(TripId(trip))]
    ensures myt.requests != old(myt.requests) <==>
              HasTripId(trip) && TripId(trip) != "" && TripId(trip) !in old(myt.store.details) &&
              myt.FirstError([Uuid, Vin]).None?
    ensures r.Ok? ==> DetailHolds(myt.store.details, TripId(trip), r.value.stats)
    ensures r.Ok? ==> RowRead(r.value) && r.value.km != 0
    ensures r.Ok? ==> (r.value.isNew <==> TripId(trip) !in old(myt.store.details))
    ensures r.Ok? && r.value.isNew ==> myt.store.details.Keys == old(myt.store.details).Keys + {TripId(trip)}
    ensures r.Ok? && !r.value.isNew ==> myt.store.details == old(myt.store.details)
    ensures r.Ok? ==> sent == (if Gate(r.value.isNew, myt.config) == Ok(true) then TripMetrics(r.value) else [])
    ensures sent != [] ==> TripId(trip) !in old(myt.store.details) && TripId(trip) in myt.store.details
    ensures sent != [] ==> |sent| == 3 && (r.Ok? || r == Err(KeyError("averageSpeedInKmph")))
    ensures InfluxOff(myt.config) ==> sent == []
    ensures (r, sent, myt.store.details) == TripOutcome(myt.config, myt.FirstError([Uuid, Vin]), old(myt.store.details), trip, net)
    ensures Get(trip, "tripId").Err? ==> r == Err(Get(trip, "tripId").error) && sent == []
    ensures Get(trip, "tripId").Ok? && !HasTripId(trip) ==> r == Err(TypeError) && sent == []
    ensures HasTripId(trip) ==>
              var got := TripDetail(myt.FirstError([Uuid, Vin]), old(myt.store.details), TripId(trip), net(TripId(trip)));
              myt.store.details == got.1 &&
              (got.0.Err? ==> r == Err(got.0.error) && sent == []) &&
              (got.0.Ok? ==> (r, sent) == TripFigures(myt.config, trip, got.0.value.0, got.0.value.1))
  {
    var id := Get(trip, "tripId");
    if id.Err? {
      return Err(id.error), [];
    }
    if !id.value.Str? {
      return Err(TypeError), [];
    }
    var got := myt.GetTrip(id.value.s, net(id.value.s));
    if got.Err? {
      return Err(got.error), [];
    }
    var (data, isNew) := got.value;
    var figures := TripFigures(myt.config, trip, data, isNew);
    r, sent := figures.0, figures.1;
  }

  /** The sum of one numeric field over the trips' rows. */
  function Total(rows: seq<TripRow>, distance: bool): int
  {
    if rows == [] then 0
    else
      (if distance then rows[0].km else rows[0].liters) + Total(rows[1..], distance)
  }

  /**
   * After the loop: the short-term average is posted when some trip was
   * fresh and InfluxDB is on, then the closing summary divides by the
   * total distance.
   */
  function Closing(config: Value, freshTrips: nat, kms: int, liters: int): (p: Posted)
    ensures p.sent != [] ==> freshTrips > 0 && !InfluxOff(config)
    ensures p.sent != [] ==> p.sent == [Metric("short_term_average_consumption", Per100(liters, kms))]
    ensures freshTrips > 0 && Get(config, "use_influxdb").Ok? && Truthy(Get(config, "use_influxdb").value) && kms != 0 ==>
              p.sent != []
    ensures p.error.None? <==> kms != 0 && (freshTrips == 0 || Get(config, "use_influxdb").Ok?)
    ensures p.error.Some? && kms == 0 && (freshTrips == 0 || Get(config, "use_influxdb").Ok?) ==>
              p.error == Some(ZeroDivisionError)
  {
    if freshTrips == 0 then
      if kms == 0 then Posted([], Some(ZeroDivisionError)) else Posted([], None)
    else match Get(config, "use_influxdb")
      case Err(e) => Posted([], Some(e))
      case Ok(on) =>
        if kms == 0 then Posted([], Some(ZeroDivisionError))
        else if Truthy(on) then Posted([Metric("short_term_average_consumption", Per100(liters, kms))], None)
        else Posted([], None)
  }

  /** What the loop accumulates: kilometres, liters and the number of fresh trips. */
  datatype Totals = Totals(kms: int, liters: int, freshTrips: nat)

  /**
   * The trip loop of `main` and the closing average. `kms` and `ls` are the
   * sums of the listed trips' distance and fuel, `fresh_data` counts the
   * trips whose details were fetched (each adding one detail file), and the
   * short-term average is posted only when some trip was fresh and
   * InfluxDB is on. The closing summary divides by `kms`, so a total of
   * zero, which an empty trip list gives, ends in ZeroDivisionError.
   */
  method TripTotals(myt: Myt, trips: Value, net: string -> Response)
    returns (r: Result<Totals, PyError>, rows: seq<TripRow>, sent: seq<Metric>)
    modifies myt`requests, myt.store`details
    ensures Kept(old(myt.store.details), myt.store.details)
    ensures r.Ok? ==> GetPath(trips, ["recentTrips"]).Ok? && Items(GetPath(trips, ["recentTrips"]).value).Ok?
    ensures r.Ok? ==> var items := Items(GetPath(trips, ["recentTrips"]).value).value;
            |rows| == |items| &&
            (forall i :: 0 <= i < |items| ==> DetailHolds(myt.store.details, TripId(items[i]), rows[i].stats))
    ensures r.Ok? ==> forall j :: 0 <= j < |rows| ==> RowRead(rows[j])
    ensures r.Ok? ==> r.value.kms == Total(rows, true) && r.value.liters == Total(rows, false) && r.value.kms != 0
    ensures r.Ok? ==> r.value.freshTrips == |myt.store.details.Keys - old(myt.store.details).Keys|
    ensures myt.store.details.Keys == old(myt.store.details).Keys ==> sent == []
    ensures InfluxOff(myt.config) ==> sent == []
    ensures r.Ok? ==> sent == FreshMetrics(myt.config, rows) +
                              Closing(myt.config, r.value.freshTrips, r.value.kms, r.value.liters).sent
    ensures GetPath(trips, ["recentTrips"]).Err? ==> r == Err(GetPath(trips, ["recentTrips"]).error) && sent == []
    ensures GetPath(trips, ["recentTrips"]).Ok? && Items(GetPath(trips, ["recentTrips"]).value).Err? ==>
              r == Err(Items(GetPath(trips, ["recentTrips"]).value).error) && sent == []
    ensures GetPath(trips, ["recentTrips"]).Ok? && Items(GetPath(trips, ["recentTrips"]).value).Ok? ==>
              var s := LoopOutcome(myt.config, myt.FirstError([Uuid, Vin]), old(myt.store.details),
                                   Items(GetPath(trips, ["recentTrips"]).value).value, net);
              rows == s.rows && (s.error.Some? ==> r == Err(s.error.value) && sent == s.sent)
    ensures GetPath(trips, ["recentTrips"]).Ok? && Items(GetPath(trips, ["recentTrips"]).value).Ok? ==>
              var s := LoopOutcome(myt.config, myt.FirstError([Uuid, Vin]), old(myt.store.details),
                                   Items(GetPath(trips, ["recentTrips"]).value).value, net);
              var c := Closing(myt.config, FreshCount(s.rows), Total(s.rows, true), Total(s.rows, false));
              s.error.None? ==>
                sent == s.sent + c.sent &&
                r == (if c.error.Some? then Err(c.error.value)
                      else Ok(Totals(Total(s.rows, true), Total(s.rows, false), FreshCount(s.rows))))
  {
    ghost var before := myt.store.details;
    var list := Get(trips, "recentTrips");
    if list.Err? {
      return Err(list.error), [], [];
    }
    var items := Items(list.value);
    if items.Err? {
      return Err(items.error), [], [];
    }
    ghost var e := myt.FirstError([Uuid, Vin]);
    var error, kms, liters, freshTrips;
    error, rows, sent, kms, liters, freshTrips := TripLoop(myt, items.value, net);
    ghost var s := LoopOutcome(myt.config, e, before, items.value, net);
    assert s == LoopState(error, rows, sent, myt.store.details);
    LoopSentFresh(myt.config, e, before, items.value, net);
    if error.Some? {
      return Err(error.value), rows, sent;
    }
    var closing := Closing(myt.config, freshTrips, kms, liters);
    assert closing == Closing(myt.config, FreshCount(s.rows), Total(s.rows, true), Total(s.rows, false));
    if closing.sent != [] {
      FreshMeansGrown(before, myt.store.details, freshTrips);
    }
    sent := sent + closing.sent;
    if closing.error.Some? {
      return Err(closing.error.value), rows, sent;
    }
    r := Ok(Totals(kms, liters, freshTrips));
  }

  /**
   * What the trip loop keeps track of after reading `rows`: the detail files
   * only grow, each row's statistics come from its trip's detail file and
   * its two addends are those statistics' distance and fuel, the count of
   * fresh trips is the number
   * of detail files added, and metrics were posted only after a fresh trip
   * and never with InfluxDB off.
   */
  ghost predicate Tally(before: map<string, string>, now: map<string, string>, items: seq<Value>,
                        rows: seq<TripRow>, freshTrips: nat, posted: bool, off: bool)
  {
    |rows| <= |items| && Kept(before, now) &&
    (forall j {:trigger DetailHolds(now, TripId(items[j]), rows[j].stats)} ::
       0 <= j < |rows| ==> DetailHolds(now, TripId(items[j]), rows[j].stats)) &&
    (forall j :: 0 <= j < |rows| ==> RowRead(rows[j])) &&
    freshTrips == |now.Keys - before.Keys| && (posted ==> freshTrips > 0) && (off ==> !posted)
  }

  /** Where the trip loop stands: the error that stopped it, the rows read, the metrics posted and the detail files. */
  datatype LoopState = LoopState(error: Option<PyError>, rows: seq<TripRow>, sent: seq<Metric>, details: map<string, string>)

  /** One more trip: nothing happens once the loop has stopped; otherwise the trip's outcome is added. */
  function LoopNext(config: Value, e: Option<PyError>, s: LoopState, trip: Value, net: string -> Response): LoopState
  {
    if s.error.Some? then s
    else
      var step := TripOutcome(config, e, s.details, trip, net);
      if step.0.Err? then LoopState(Some(step.0.error), s.rows, s.sent + step.1, step.2)
      else LoopState(None, s.rows + [step.0.value], s.sent + step.1, step.2)
  }

  /**
   * The trip loop over a list as a function: the trips are taken in order
   * and the first that fails stops the loop, with what it posted kept.
   */
  function LoopOutcome(config: Value, e: Option<PyError>, details: map<string, string>, items: seq<Value>, net: string -> Response)
    : (s: LoopState)
    ensures |s.rows| <= |items|
    ensures s.error.None? ==> |s.rows| == |items|
    ensures forall j :: 0 <= j < |s.rows| ==> RowRead(s.rows[j])
    decreases |items|
  {
    if items == [] then LoopState(None, [], [], details)
    else LoopNext(config, e, LoopOutcome(config, e, details, items[..|items| - 1], net), items[|items| - 1], net)
  }

  /** The loop over one more trip of the list is one more step. */
  lemma {:induction false} LoopOutcomeNext(config: Value, e: Option<PyError>, details: map<string, string>,
                                           items: seq<Value>, i: nat, net: string -> Response)
    requires i < |items|
    ensures LoopOutcome(config, e, details, items[..i + 1], net) ==
            LoopNext(config, e, LoopOutcome(config, e, details, items[..i], net), items[i], net)
  {
    assert items[..i + 1][..i] == items[..i];
  }

  /** Once a prefix of the list has stopped the loop, the rest of the list changes nothing. */
  lemma {:induction false} LoopErrorSticks(config: Value, e: Option<PyError>, details: map<string, string>,
                                           items: seq<Value>, i: nat, net: string -> Response)
    requires i <= |items| && LoopOutcome(config, e, details, items[..i], net).error.Some?
    ensures LoopOutcome(config, e, details, items, net) == LoopOutcome(config, e, details, items[..i], net)
    decreases |items|
  {
    if i == |items| {
      assert items[..i] == items;
    } else {
      var init := items[..|items| - 1];
      assert init[..i] == items[..i];
      LoopErrorSticks(config, e, details, init, i, net);
    }
  }

  /**
   * The loop stops at the first trip that fails: every trip before it gave
   * a row, and the error is that trip's own.
   */
  predicate StopsAtFirstError(config: Value, e: Option<PyError>, details: map<string, string>,
                              items: seq<Value>, net: string -> Response, s: LoopState)
  {
    s.error.Some? ==>
      |s.rows| < |items| &&
      var b := LoopOutcome(config, e, details, items[..|s.rows|], net);
      b.error.None? && b.rows == s.rows &&
      TripOutcome(config, e, b.details, items[|s.rows|], net).0 == Err(s.error.value)
  }

  lemma {:induction false} LoopStopsAtFirstError(config: Value, e: Option<PyError>, details: map<string, string>,
                                                 items: seq<Value>, net: string -> Response)
    ensures StopsAtFirstError(config, e, details, items, net, LoopOutcome(config, e, details, items, net))
    decreases |items|
  {
    if items != [] {
      var init := items[..|items| - 1];
      var p := LoopOutcome(config, e, details, init, net);
      if p.error.Some? {
        LoopStopsAtFirstError(config, e, details, init, net);
        LoopStopsEarlier(config, e, details, items, net);
      } else {
        LoopStopsAtLast(config, e, details, items, net);
      }
    }
  }

  /** A loop that already stopped before the last trip stops at the same place over the whole list. */
  lemma {:induction false} LoopStopsEarlier(config: Value, e: Option<PyError>, details: map<string, string>,
                                            items: seq<Value>, net: string -> Response)
    requires items != []
    requires LoopOutcome(config, e, details, items[..|items| - 1], net).error.Some?
    requires StopsAtFirstError(config, e, details, items[..|items| - 1], net, LoopOutcome(config, e, details, items[..|items| - 1], net))
    ensures StopsAtFirstError(config, e, details, items, net, LoopOutcome(config, e, details, items, net))
  {
    var init := items[..|items| - 1];
    var p := LoopOutcome(config, e, details, init, net);
    assert LoopOutcome(config, e, details, items, net) == p;
    InitPrefix(items, |p.rows|);
  }

  /** A loop that ran through every trip but the last and then failed stops at the last. */
  lemma {:induction false} LoopStopsAtLast(config: Value, e: Option<PyError>, details: map<string, string>,
                                           items: seq<Value>, net: string -> Response)
    requires items != []
    requires LoopOutcome(config, e, details, items[..|items| - 1], net).error.None?
    ensures StopsAtFirstError(config, e, details, items, net, LoopOutcome(config, e, details, items, net))
  {
    var init := items[..|items| - 1];
    var p := LoopOutcome(config, e, details, init, net);
    var s := LoopOutcome(config, e, details, items, net);
    assert s == LoopNext(config, e, p, items[|items| - 1], net);
    if s.error.Some? {
      assert s.rows == p.rows;
      assert items[..|s.rows|] == init;
    }
  }

  /** The metrics the trips post: each fresh row's three, in order, when InfluxDB is on. */
  function FreshMetrics(config: Value, rows: seq<TripRow>): seq<Metric>
    requires forall j :: 0 <= j < |rows| ==> RowRead(rows[j])
  {
    if rows == [] then []
    else
      FreshMetrics(config, rows[..|rows| - 1]) +
      (if Gate(rows[|rows| - 1].isNew, config) == Ok(true) then TripMetrics(rows[|rows| - 1]) else [])
  }

  lemma {:induction false} InitPrefix(items: seq<Value>, k: nat)
    requires k < |items| - 1
    ensures items[..|items| - 1][..k] == items[..k] && items[..|items| - 1][k] == items[k]
  {
  }

  /** A loop that runs through posts exactly the fresh rows' metrics. */
  lemma {:induction false} LoopSentFresh(config: Value, e: Option<PyError>, details: map<string, string>,
                                         items: seq<Value>, net: string -> Response)
    ensures var s := LoopOutcome(config, e, details, items, net);
            s.error.None? ==> s.sent == FreshMetrics(config, s.rows)
    decreases |items|
  {
    var s := LoopOutcome(config, e, details, items, net);
    if items != [] && s.error.None? {
      var init := items[..|items| - 1];
      var p := LoopOutcome(config, e, details, init, net);
      LoopSentFresh(config, e, details, init, net);
      assert s.rows[..|s.rows| - 1] == p.rows;
    }
  }

  /** The number of fresh rows, which is what `fresh_data` counts. */
  function FreshCount(rows: seq<TripRow>): nat
  {
    if rows == [] then 0 else FreshCount(rows[..|rows| - 1]) + (if rows[|rows| - 1].isNew then 1 else 0)
  }

  /**
   * What the loop keeps, whether or not a trip fails: the detail files only
   * grow, and metrics were posted only when some detail file was added and
   * never with InfluxDB off. A loop that runs through keeps the whole tally.
   */
  lemma {:induction false} LoopTally(config: Value, e: Option<PyError>, details: map<string, string>,
                                     items: seq<Value>, net: string -> Response)
    ensures var s := LoopOutcome(config, e, details, items, net);
            Kept(details, s.details) && (s.details.Keys == details.Keys ==> s.sent == []) &&
            (InfluxOff(config) ==> s.sent == [])
    ensures var s := LoopOutcome(config, e, details, items, net);
            s.error.None? ==> Tally(details, s.details, items, s.rows, FreshCount(s.rows), s.sent != [], InfluxOff(config))
    decreases |items|
  {
    if items != [] {
      var init := items[..|items| - 1];
      LoopTally(config, e, details, init, net);
      var p := LoopOutcome(config, e, details, init, net);
      if p.error.None? {
        LoopTallyStep(config, e, details, items, net);
      }
    }
  }

  /** The tally after one more trip, from the tally of the trips before it. */
  lemma {:induction false} LoopTallyStep(config: Value, e: Option<PyError>, details: map<string, string>,
                                         items: seq<Value>, net: string -> Response)
    requires items != []
    requires var p := LoopOutcome(config, e, details, items[..|items| - 1], net);
             p.error.None? && Tally(details, p.details, items[..|items| - 1], p.rows, FreshCount(p.rows), p.sent != [], InfluxOff(config))
    ensures var s := LoopOutcome(config, e, details, items, net);
            Kept(details, s.details) && (s.details.Keys == details.Keys ==> s.sent == []) &&
            (InfluxOff(config) ==> s.sent == [])
    ensures var s := LoopOutcome(config, e, details, items, net);
            s.error.None? ==> Tally(details, s.details, items, s.rows, FreshCount(s.rows), s.sent != [], InfluxOff(config))
  {
    var init := items[..|items| - 1];
    var p := LoopOutcome(config, e, details, init, net);
    var last := items[|items| - 1];
    var step := TripOutcome(config, e, p.details, last, net);
    var s := LoopOutcome(config, e, details, items, net);
    assert s == LoopNext(config, e, p, last, net);
    TripOutcomeFacts(config, e, p.details, last, net);
    TallyAfterStep(details, p, step, s, items, InfluxOff(config));
  }

  /**
   * The tally after one trip's outcome is added to a loop that has not
   * stopped, whether the trip gave a row or failed.
   */
  lemma {:induction false} TallyAfterStep(details: map<string, string>, p: LoopState,
                                          step: (Result<TripRow, PyError>, seq<Metric>, map<string, string>),
                                          s: LoopState, items: seq<Value>, off: bool)
    requires items != [] && |p.rows| == |items| - 1
    requires p.error.None? && Tally(details, p.details, items[..|items| - 1], p.rows, FreshCount(p.rows), p.sent != [], off)
    requires Kept(p.details, step.2)
    requires step.2 == p.details || (TripId(items[|p.rows|]) !in p.details && step.2.Keys == p.details.Keys + {TripId(items[|p.rows|])})
    requires step.0.Ok? ==> DetailHolds(step.2, TripId(items[|p.rows|]), step.0.value.stats) && RowRead(step.0.value)
    requires step.0.Ok? ==> (step.0.value.isNew <==> TripId(items[|p.rows|]) !in p.details)
    requires step.1 != [] ==> TripId(items[|p.rows|]) !in p.details && TripId(items[|p.rows|]) in step.2
    requires off ==> step.1 == []
    requires s == if step.0.Err? then LoopState(Some(step.0.error), p.rows, p.sent + step.1, step.2)
                  else LoopState(None, p.rows + [step.0.value], p.sent + step.1, step.2)
    ensures Kept(details, s.details) && (s.details.Keys == details.Keys ==> s.sent == []) && (off ==> s.sent == [])
    ensures s.error.None? ==> Tally(details, s.details, items, s.rows, FreshCount(s.rows), s.sent != [], off)
  {
    var id := TripId(items[|p.rows|]);
    if step.0.Err? {
    } else {
      TallyRowAdded(details, p.details, step.2, items, p.rows, step.0.value, p.sent, step.1, off);
    }
  }

  /** The tally after a trip that gave a row, from the tally before it. */
  lemma {:induction false} TallyRowAdded(before: map<string, string>, prev: map<string, string>, now: map<string, string>,
                                         items: seq<Value>, rows: seq<TripRow>, row: TripRow,
                                         sent: seq<Metric>, stepSent: seq<Metric>, off: bool)
    requires |rows| == |items| - 1
    requires Tally(before, prev, items[..|items| - 1], rows, FreshCount(rows), sent != [], off)
    requires Kept(prev, now) && DetailHolds(now, TripId(items[|rows|]), row.stats) && RowRead(row)
    requires row.isNew <==> TripId(items[|rows|]) !in prev
    requires row.isNew ==> now.Keys == prev.Keys + {TripId(items[|rows|])}
    requires !row.isNew ==> now == prev
    requires stepSent != [] ==> TripId(items[|rows|]) !in prev && TripId(items[|rows|]) in now
    requires off ==> stepSent == []
    ensures Tally(before, now, items, rows + [row], FreshCount(rows + [row]), sent + stepSent != [], off)
    ensures Kept(before, now) && (now.Keys == before.Keys ==> sent + stepSent == []) && (off ==> sent + stepSent == [])
  {
    var posted := sent != [];
    TallyWiden(before, prev, items[..|items| - 1], items, rows, FreshCount(rows), posted, off);
    TallyStep(before, prev, now, items, rows, row, FreshCount(rows), posted, stepSent != [], off);
    assert (rows + [row])[..|rows|] == rows;
    assert (sent + stepSent != []) == (posted || stepSent != []);
  }

  /** A tally over the first trips of a list is a tally over the whole list. */
  lemma {:induction false} TallyWiden(before: map<string, string>, now: map<string, string>, init: seq<Value>, items: seq<Value>,
                                      rows: seq<TripRow>, freshTrips: nat, posted: bool, off: bool)
    requires init <= items
    requires Tally(before, now, init, rows, freshTrips, posted, off)
    ensures Tally(before, now, items, rows, freshTrips, posted, off)
  {
    forall j | 0 <= j < |rows| ensures DetailHolds(now, TripId(items[j]), rows[j].stats) {
      assert items[j] == init[j];
    }
  }

  /** The `for trip in trips['recentTrips']` loop itself, up to its first error. */
  method TripLoop(myt: Myt, items: seq<Value>, net: string -> Response)
    returns (error: Option<PyError>, rows: seq<TripRow>, sent: seq<Metric>, kms: int, liters: int, freshTrips: nat)
    modifies myt`requests, myt.store`details
    ensures Kept(old(myt.store.details), myt.store.details)
    ensures kms == Total(rows, true) && liters == Total(rows, false) && freshTrips == FreshCount(rows)
    ensures error.None? ==> (|rows| == |items| &&
              Tally(old(myt.store.details), myt.store.details, items, rows, freshTrips, sent != [], InfluxOff(myt.config)))
    ensures myt.store.details.Keys == old(myt.store.details).Keys ==> sent == []
    ensures InfluxOff(myt.config) ==> sent == []
    ensures LoopOutcome(myt.config, myt.FirstError([Uuid, Vin]), old(myt.store.details), items, net) ==
            LoopState(error, rows, sent, myt.store.details)
  {
    ghost var before := myt.store.details;
    ghost var e := myt.FirstError([Uuid, Vin]);
    error := None;
    rows, sent := [], [];
    kms, liters, freshTrips := 0, 0, 0;
    var i := 0;
    while i < |items| && error.None?
      invariant 0 <= i <= |items|
      invariant LoopOutcome(myt.config, e, before, items[..i], net) == LoopState(error, rows, sent, myt.store.details)
      invariant kms == Total(rows, true) && liters == Total(rows, false) && freshTrips == FreshCount(rows)
    {
      var step;
      step, sent := TripNext(myt, items, i, rows, sent, before, e, net);
      if step.Err? {
        error := Some(step.error);
      } else {
        var row := step.value;
        TotalAppend(rows, row);
        assert (rows + [row])[..|rows|] == rows;
        kms := kms + row.km;
        liters := liters + row.liters;
        freshTrips := freshTrips + (if row.isNew then 1 else 0);
        rows := rows + [row];
      }
      i := i + 1;
    }
    if error.Some? {
      LoopErrorSticks(myt.config, e, before, items, i, net);
    } else {
      assert items[..i] == items;
    }
    LoopTally(myt.config, e, before, items, net);
  }

  /** One pass of the trip loop: the next trip, as one more step of the loop's outcome. */
  method TripNext(myt: Myt, items: seq<Value>, i: nat, rows: seq<TripRow>, sent: seq<Metric>,
                  ghost before: map<string, string>, ghost e: Option<PyError>, net: string -> Response)
    returns (step: Result<TripRow, PyError>, sent': seq<Metric>)
    requires i < |items| && e == myt.FirstError([Uuid, Vin])
    requires LoopOutcome(myt.config, e, before, items[..i], net) == LoopState(None, rows, sent, myt.store.details)
    modifies myt`requests, myt.store`details
    ensures LoopOutcome(myt.config, e, before, items[..i + 1], net) ==
            LoopState(if step.Err? then Some(step.error) else None, if step.Ok? then rows + [step.value] else rows,
                      sent', myt.store.details)
  {
    var stepSent;
    step, stepSent := TripStep(myt, items[i], net);
    sent' := sent + stepSent;
    LoopOutcomeNext(myt.config, e, before, items, i, net);
  }

  /** A trip read without error adds its row to the tally. */
  lemma {:induction false} TallyStep(before: map<string, string>, prev: map<string, string>, now: map<string, string>,
                                     items: seq<Value>, rows: seq<TripRow>, row: TripRow,
                                     freshTrips: nat, posted: bool, postsNow: bool, off: bool)
    requires |rows| < |items| && Tally(before, prev, items, rows, freshTrips, posted, off)
    requires Kept(prev, now) && DetailHolds(now, TripId(items[|rows|]), row.stats) && RowRead(row)
    requires row.isNew <==> TripId(items[|rows|]) !in prev
    requires row.isNew ==> now.Keys == prev.Keys + {TripId(items[|rows|])}
    requires !row.isNew ==> now == prev
    requires postsNow ==> TripId(items[|rows|]) !in prev && TripId(items[|rows|]) in now
    requires off ==> !postsNow
    ensures Tally(before, now, items, rows + [row], freshTrips + (if row.isNew then 1 else 0), posted || postsNow, off)
  {
    KeptTransitive(before, prev, now);
    KeptHolds(prev, now, items, rows);
    HoldsExtended(now, items, rows, row);
    RowsReadExtended(rows, row);
    if row.isNew {
      NewKeyCounted(before, prev, now, TripId(items[|rows|]));
    }
  }



  lemma {:induction false} KeptTransitive(a: map<string, string>, b: map<string, string>, c: map<string, string>)
    requires Kept(a, b) && Kept(b, c)
    ensures Kept(a, c)
  {
  }

  /** The rows already read stay backed by the detail files, which are only ever added to. */
  lemma {:induction false} KeptHolds(prev: map<string, string>, now: map<string, string>, items: seq<Value>, rows: seq<TripRow>)
    requires Kept(prev, now) && |rows| <= |items|
    requires forall j :: 0 <= j < |rows| ==> DetailHolds(prev, TripId(items[j]), rows[j].stats)
    ensures forall j :: 0 <= j < |rows| ==> DetailHolds(now, TripId(items[j]), rows[j].stats)
  {
    forall j | 0 <= j < |rows| ensures DetailHolds(now, TripId(items[j]), rows[j].stats) {
      assert DetailHolds(prev, TripId(items[j]), rows[j].stats);
    }
  }

  lemma {:induction false} HoldsExtended(details: map<string, string>, items: seq<Value>, rows: seq<TripRow>, row: TripRow)
    requires |rows| < |items|
    requires forall j :: 0 <= j < |rows| ==> DetailHolds(details, TripId(items[j]), rows[j].stats)
    requires DetailHolds(details, TripId(items[|rows|]), row.stats)
    ensures forall j :: 0 <= j < |rows + [row]| ==> DetailHolds(details, TripId(items[j]), (rows + [row])[j].stats)
  {
    forall j | 0 <= j < |rows + [row]|
      ensures DetailHolds(details, TripId(items[j]), (rows + [row])[j].stats)
    {
      if j < |rows| {
        assert (rows + [row])[j] == rows[j];
      }
    }
  }

  lemma {:induction false} RowsReadExtended(rows: seq<TripRow>, row: TripRow)
    requires forall j :: 0 <= j < |rows| ==> RowRead(rows[j])
    requires RowRead(row)
    ensures forall j :: 0 <= j < |rows + [row]| ==> RowRead((rows + [row])[j])
  {
    forall j | 0 <= j < |rows + [row]|
      ensures RowRead((rows + [row])[j])
    {
      if j < |rows| {
        assert (rows + [row])[j] == rows[j];
      }
    }
  }

  /** A fetched trip adds exactly one detail file to the ones written during the loop. */
  lemma {:induction false} NewKeyCounted(before: map<string, string>, prev: map<string, string>, now: map<string, string>, id: string)
    requires Kept(before, prev) && id !in prev && now.Keys == prev.Keys + {id}
    ensures |now.Keys - before.Keys| == |prev.Keys - before.Keys| + 1
  {
    assert now.Keys - before.Keys == (prev.Keys - before.Keys) + {id};
  }

  /** Adding a row adds its distance and its fuel to the totals. */
  lemma {:induction false} TotalAppend(rows: seq<TripRow>, row: TripRow)
    ensures Total(rows + [row], true) == Total(rows, true) + row.km
    ensures Total(rows + [row], false) == Total(rows, false) + row.liters
  {
    if rows != [] {
      assert (rows + [row])[1..] == rows[1..] + [row];
      TotalAppend(rows[1..], row);
    }
  }

  lemma {:induction false} FreshMeansGrown(before: map<string, string>, now: map<string, string>, freshTrips: nat)
    requires freshTrips == |now.Keys - before.Keys| && freshTrips > 0
    ensures now.Keys != before.Keys
  {
    var k :| k in now.Keys - before.Keys;
  }

  // ------------------------------------------------------------ main

  /** The odometer and remote-control steps of `main`, in order; an error in the first skips the second. */
  method VehicleReports(myt: Myt, odometerResp: Response, remoteResp: Response)
    returns (error: Option<PyError>, sent: seq<Metric>)
    modifies myt`requests, myt.store`snapshots
    ensures InfluxOff(myt.config) ==> sent == []
    ensures error.None? ==> old(myt.requests) <= myt.requests
    ensures myt.store.Log(Odometer) ==
              OdometerFetch(old(myt.FirstError([Token, Vin, Uuid])), old(myt.store.Log(Odometer)), odometerResp).1
    ensures var o := OdometerFetch(old(myt.FirstError([Token, Vin, Uuid])), old(myt.store.Log(Odometer)), odometerResp).0;
            var odometer := OdometerOutcome(myt.config, o);
            odometer.0.Err? ==>
              error == Some(odometer.0.error) && sent == odometer.1 &&
              myt.store.Log(RemoteControl) == old(myt.store.Log(RemoteControl))
    ensures var o := OdometerFetch(old(myt.FirstError([Token, Vin, Uuid])), old(myt.store.Log(Odometer)), odometerResp).0;
            var odometer := OdometerOutcome(myt.config, o);
            var remote := RemoteStep(myt.config, old(myt.FirstError([Token, Uuid, Vin])), old(myt.store.Log(RemoteControl)), remoteResp);
            odometer.0.Ok? ==>
              sent == odometer.1 + remote.1 && myt.store.Log(RemoteControl) == remote.2 &&
              error == (if remote.0.Err? then Some(remote.0.error) else None)
  {
    ghost var remoteError := myt.FirstError([Token, Uuid, Vin]);
    ghost var remoteLog := myt.store.Log(RemoteControl);
    ghost var odometerError := myt.FirstError([Token, Vin, Uuid]);
    ghost var odometerLog := myt.store.Log(Odometer);
    ghost var parked := myt.requests;
    var odometer, odometerSent := OdometerReport(myt, odometerResp);
    ghost var fetched := OdometerFetch(odometerError, odometerLog, odometerResp);
    ghost var outcome := OdometerOutcome(myt.config, fetched.0);
    assert myt.store.Log(Odometer) == fetched.1 && odometer == outcome.0 && odometerSent == outcome.1;
    assert parked <= myt.requests;
    sent := odometerSent;
    assert InfluxOff(myt.config) ==> sent == [];
    if odometer.Err? {
      return Some(odometer.error), sent;
    }
    assert outcome.0.Ok?;
    assert myt.FirstError([Token, Uuid, Vin]) == remoteError && myt.store.Log(RemoteControl) == remoteLog;
    ghost var measured := myt.requests;
    var remote, remoteSent := RemoteControlReport(myt, remoteResp);
    ghost var step := RemoteStep(myt.config, remoteError, remoteLog, remoteResp);
    assert remote == step.0 && remoteSent == step.1 && myt.store.Log(RemoteControl) == step.2;
    assert InfluxOff(myt.config) ==> remoteSent == [];
    sent := sent + remoteSent;
    error := if remote.Err? then Some(remote.error) else None;
    assert sent == outcome.1 + step.1;
    if remote == Ok(true) {
      assert myt.requests == measured + [Fetch(RemoteControl)];
    }
  }

  /**
   * tojota.py's `main` after the session is opened: the trips with one
   * re-login, the latest address, the parking, odometer and remote-control
   * steps, then the trip loop and its closing average. Returns the error
   * that ended the run, if any, and the metrics posted to InfluxDB.
   */
  method Run(myt: Myt, first: Response, loginResp: Response, second: Response, parkingResp: Response,
             odometerResp: Response, remoteResp: Response, net: string -> Response)
    returns (error: Option<PyError>, sent: seq<Metric>)
    modifies myt`userData, myt`headers, myt`requests, myt.store`snapshots, myt.store`userFile, myt.store`details
    ensures Kept(old(myt.store.details), myt.store.details)
    ensures InfluxOff(myt.config) ==> sent == []
  {
    sent := [];
    var trips, relogged := FetchTripsWithRetry(myt, first, loginResp, second);
    if trips.Err? {
      return Some(trips.error), [];
    }
    var address := LatestAddress(trips.value.0);
    if address.Err? {
      return Some(address.error), [];
    }
    var parking := ParkingReport(myt, parkingResp);
    if parking.Err? {
      return Some(parking.error), [];
    }
    error, sent := VehicleReports(myt, odometerResp, remoteResp);
    if error.Some? {
      return;
    }
    var totals, rows, tripSent := TripTotals(myt, trips.value.0, net);
    sent := sent + tripSent;
    error := if totals.Err? then Some(totals.error) else None;
  }
}

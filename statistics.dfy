/**
 * statistics.py: the request window chosen from the command line, the
 * driving-statistics fetch with one re-login, the choice of parser, and
 * the parsers' handling of each histogram bucket. The printed lines are
 * kept as the template chosen and the values it is filled with; the
 * rendering of the numbers is outside the model.
 */
module Statistics {
  import opened Wrappers
  import opened Errors
  import opened Json
  import opened Decimal
  import opened Paths
  import opened Tojota

  // ------------------------------------------------------------ the request window

  /** How many days before today each known granularity looks back. */
  function LookBack(interval: string): (days: Option<nat>)
    ensures days.Some? <==> interval in {"day", "week", "year"}
  {
    match interval
    case "day" => Some(30)
    case "week" => Some(120)
    case "year" => Some(365)
    case _ => None
  }

  /** `if args.from_date:`: a date given on the command line counts only when it is not empty. */
  predicate Explicit(fromDate: Option<string>)
  {
    fromDate.Some? && fromDate.value != ""
  }

  /**
   * The `interval` and `from_date` that `main` passes to the statistics
   * request. Only `day` and `week` are sent as an interval (a yearly
   * summary is asked for without one); a given date replaces the date but
   * never the interval.
   */
  function SelectWindow(interval: string, fromDate: Option<string>): (w: (Option<string>, Option<DateArg>))
    ensures w.0 == (if interval == "day" || interval == "week" then Some(interval) else None)
    ensures Explicit(fromDate) ==> w.1 == Some(GivenDate(fromDate.value))
    ensures !Explicit(fromDate) && LookBack(interval).Some? ==> w.1 == Some(DaysBeforeToday(LookBack(interval).value))
    ensures w.1.None? <==> !Explicit(fromDate) && LookBack(interval).None?
  {
    var (i0, f0) := (None, None);
    var (i1, f1) := if interval == "day" then (Some(interval), Some(DaysBeforeToday(30))) else (i0, f0);
    var (i2, f2) := if interval == "week" then (Some(interval), Some(DaysBeforeToday(120))) else (i1, f1);
    var (i3, f3) := if interval == "year" then (None, Some(DaysBeforeToday(365))) else (i2, f2);
    var f4 := if Explicit(fromDate) then Some(GivenDate(fromDate.value)) else f3;
    (i3, f4)
  }

  datatype Parser = Daily | Weekly | Yearly

  /**
   * The parser `main` runs after the fetch: exactly one for `day`, `week`
   * and `year`, none for any other interval. The daily and weekly parsers
   * run on data asked for with their own interval, the yearly one on a
   * summary asked for without an interval.
   */
  function Dispatch(interval: string): (p: Option<Parser>)
    ensures p.Some? <==> LookBack(interval).Some?
    ensures forall fromDate {:trigger SelectWindow(interval, fromDate)} ::
              SelectWindow(interval, fromDate).0 ==
                (match p case Some(Daily) => Some("day") case Some(Weekly) => Some("week") case _ => None)
  {
    if interval == "day" then Some(Daily)
    else if interval == "week" then Some(Weekly)
    else if interval == "year" then Some(Yearly)
    else None
  }

  // ------------------------------------------------------------ retry once

  /**
   * `get_driving_statistics`, and on a ValueError one `login` and one more
   * `get_driving_statistics` with the same window. Any other error, a
   * failing login, or a second failure propagates, and after a good login
   * the statistics are those of the second response.
   */
  method FetchStatisticsWithRetry(myt: Myt, from: Option<DateArg>, interval: Option<string>,
                                  first: Response, loginResp: Response, second: Response)
    returns (r: Result<(Value, bool), PyError>, relogged: bool)
    modifies myt`userData, myt`headers, myt`requests, myt.store`snapshots, myt.store`userFile
    ensures var ask := Summarize(from, interval);
            !relogged ==> myt.requests == old(myt.requests) || myt.requests == old(myt.requests) + [ask]
    ensures var ask := Summarize(from, interval);
            relogged ==> myt.requests == old(myt.requests) + [ask, Authenticate] ||
                         myt.requests == old(myt.requests) + [ask, Authenticate, ask]
    ensures !relogged ==> r.Ok? || !IsValueError(r.error)
    ensures relogged && LoginOutcome(loginResp).Err? ==> r == Err(LoginOutcome(loginResp).error)
    ensures !relogged ==> myt.userData == old(myt.userData) && myt.headers == old(myt.headers)
    ensures var (r1, log1) := ValueFetch(old(myt.FirstError([Token, Uuid, Vin])), old(myt.store.Log(Statistics)), first);
            var (r2, log2) := ValueFetch(myt.FirstError([Token, Uuid, Vin]), log1, second);
            (relogged <==> r1.Err? && IsValueError(r1.error)) &&
            r == Retry(r1, LoginOutcome(loginResp), r2) &&
            myt.store.Log(Statistics) == (if relogged && LoginOutcome(loginResp).Ok? then log2 else log1)
  {
    var before := myt.requests;
    var ask := Summarize(from, interval);
    ghost var firstLog := myt.store.Log(Statistics);
    ghost var firstError := myt.FirstError([Token, Uuid, Vin]);
    r := myt.GetDrivingStatistics(from, interval, first);
    ghost var firstFetch := ValueFetch(firstError, firstLog, first);
    assert r == firstFetch.0 && myt.store.Log(Statistics) == firstFetch.1;
    relogged := r.Err? && IsValueError(r.error);
    if relogged {
      assert myt.requests == before + [ask];
      r := StatisticsAfterLogin(myt, from, interval, loginResp, second);
      assert before + [ask] + [Authenticate] == before + [ask, Authenticate];
      assert before + [ask] + [Authenticate, ask] == before + [ask, Authenticate, ask];
    }
  }

  /** The `except ValueError:` branch: one `login`, then the same request again if it succeeded. */
  method StatisticsAfterLogin(myt: Myt, from: Option<DateArg>, interval: Option<string>, loginResp: Response, second: Response)
    returns (r: Result<(Value, bool), PyError>)
    modifies myt`userData, myt`headers, myt`requests, myt.store`snapshots, myt.store`userFile
    ensures LoginOutcome(loginResp).Err? ==>
              r == Err(LoginOutcome(loginResp).error) && myt.requests == old(myt.requests) + [Authenticate] &&
              myt.store.Log(Statistics) == old(myt.store.Log(Statistics))
    ensures LoginOutcome(loginResp).Ok? ==>
              var (r2, log2) := ValueFetch(myt.FirstError([Token, Uuid, Vin]), old(myt.store.Log(Statistics)), second);
              r == r2 && myt.store.Log(Statistics) == log2 &&
              (myt.requests == old(myt.requests) + [Authenticate] ||
               myt.requests == old(myt.requests) + [Authenticate, Summarize(from, interval)])
  {
    var error := myt.Login(loginResp);
    if error.Some? {
      return Err(error.value);
    }
    ghost var mid := myt.requests;
    r := myt.GetDrivingStatistics(from, interval, second);
    assert myt.requests == mid || myt.requests == mid + [Summarize(from, interval)];
  }

  // ------------------------------------------------------------ bucket data

  const FuelKey := "totalFuelConsumedInL"

  /** The values of the EV line of a day, in the order the template uses them. */
  const DailyEv := ["evDistanceInKm", "totalDistanceInKm", "evDistancePercentage",
                    "averageSpeedInKmph", "maxSpeedInKmph", FuelKey]
  /** The values of the line for a day without EV data. */
  const DailyPlain := ["totalDistanceInKm", "averageSpeedInKmph", "maxSpeedInKmph", FuelKey]
  /** The values of the EV line of a week or of the yearly summary. */
  const PeriodEv := ["evDistanceInKm", "totalDistanceInKm", "evDistancePercentage",
                     "averageSpeedInKmph", "maxSpeedInKmph", "tripCount", "nightTripsCount", FuelKey]
  /** The values of the line for a week or a year without EV data. */
  const PeriodPlain := ["totalDistanceInKm", "averageSpeedInKmph", "maxSpeedInKmph",
                        "tripCount", "nightTripsCount", FuelKey]

  /**
   * `if 'totalFuelConsumedInL' not in data: data['totalFuelConsumedInL'] = 0`.
   * A dict gains the key with 0 when it lacks it and is otherwise left as
   * it is. For anything else the `in` test raises TypeError or the
   * assignment does, unless the test finds the text and nothing is assigned.
   */
  function FillFuel(data: Value): (r: Result<Value, PyError>)
    ensures data.Obj? ==> r.Ok? && r.value.Obj? && r.value.fields.Keys == data.fields.Keys + {FuelKey}
    ensures data.Obj? ==> forall k :: k in data.fields ==> r.value.fields[k] == data.fields[k]
    ensures data.Obj? && FuelKey !in data.fields ==> r.value.fields[FuelKey] == Num(0)
    ensures !data.Obj? ==> r == (if Contains(data, FuelKey) == Ok(true) then Ok(data) else Err(TypeError))
  {
    match Contains(data, FuelKey)
    case Err(e) => Err(e)
    case Ok(present) =>
      if present then Ok(data)
      else if data.Obj? then Ok(Obj(data.fields[FuelKey := Num(0)]))
      else Err(TypeError)
  }

  /** Filling twice is filling once. */
  lemma {:induction false} FillFuelIdempotent(data: Value)
    requires FillFuel(data).Ok?
    ensures FillFuel(FillFuel(data).value) == FillFuel(data)
  {
    if data.Obj? {
      var filled := FillFuel(data).value;
      assert FuelKey in filled.fields;
    }
  }

  /** `data[k0], data[k1], ...` as a template's arguments are read: the first failing subscript raises. */
  function GetAll(data: Value, keys: seq<string>): (r: Result<seq<Value>, PyError>)
    ensures r.Ok? <==> keys == [] || (data.Obj? && forall i :: 0 <= i < |keys| ==> keys[i] in data.fields)
    ensures r.Ok? ==> |r.value| == |keys| && forall i :: 0 <= i < |keys| ==> Get(data, keys[i]) == Ok(r.value[i])
    ensures r.Err? && !data.Obj? ==> r.error == TypeError
    ensures r.Err? && data.Obj? ==>
              exists i :: 0 <= i < |keys| && r.error == KeyError(keys[i]) && keys[i] !in data.fields &&
                          forall j :: 0 <= j < i ==> keys[j] in data.fields
    decreases |keys|
  {
    if keys == [] then Ok([])
    else match Get(data, keys[0])
      case Err(e) => Err(e)
      case Ok(v) =>
        match GetAll(data, keys[1..])
        case Err(e) => (
          ghost var i :| 0 <= i < |keys[1..]| && e == KeyError(keys[1..][i]) && keys[1..][i] !in data.fields &&
                         forall j :: 0 <= j < i ==> keys[1..][j] in data.fields;
          assert forall j :: 0 <= j < i + 1 ==> keys[j] in data.fields by {
            forall j | 0 <= j < i + 1 ensures keys[j] in data.fields {
              if j > 0 { assert keys[j] == keys[1..][j - 1]; }
            }
          }
          Err(e))
        case Ok(vs) => Ok([v] + vs)
  }

  /**
   * The `try`/`except KeyError` around the EV line: the EV line when every
   * one of its values is there, else, on a KeyError only, the line without
   * EV data, whose own missing value raises KeyError in turn. Any other
   * error propagates.
   */
  function ChooseTemplate(data: Value, ev: seq<string>, plain: seq<string>): (r: Result<(bool, seq<Value>), PyError>)
    requires ev != []
    ensures !data.Obj? ==> r == Err(TypeError)
    ensures r.Ok? && r.value.0 <==> data.Obj? && forall k :: k in ev ==> k in data.fields
    ensures r.Ok? && !r.value.0 <==>
              data.Obj? && (exists k :: k in ev && k !in data.fields) && forall k :: k in plain ==> k in data.fields
    ensures r.Err? && data.Obj? ==> r.error.KeyError? && r.error.key in plain && r.error.key !in data.fields
    ensures r.Ok? ==> var keys := if r.value.0 then ev else plain;
              |r.value.1| == |keys| && forall i :: 0 <= i < |keys| ==> r.value.1[i] == data.fields[keys[i]]
  {
    match GetAll(data, ev)
    case Ok(vs) => Ok((true, vs))
    case Err(e) =>
      if e.KeyError? then
        match GetAll(data, plain)
        case Ok(vs) => Ok((false, vs))
        case Err(e2) => Err(e2)
      else Err(e)
  }

  /** What a line is dated with: a year and a padded day of the year, a year and a week, or nothing. */
  datatype Label = DayOf(year: Value, dayOfYear: string) | WeekOf(year: Value, week: Value) | Summary

  /** One printed line: its date, whether it is the EV template, and the values that fill it. */
  datatype Line = Line(date: Label, ev: bool, values: seq<Value>)

  /** The value a filled bucket holds under a template key: the fuel defaults to 0. */
  function FilledValue(fields: map<string, Value>, k: string): Value
  {
    if k in fields then fields[k] else Num(0)
  }

  /** The bucket once the fuel default has been written into its data dict, when the fill succeeds. */
  function Filled(item: Value): Value
  {
    if item.Obj? && "data" in item.fields && FillFuel(item.fields["data"]).Ok?
    then Obj(item.fields["data" := FillFuel(item.fields["data"]).value])
    else item
  }

  /**
   * The part of a daily or weekly bucket after its date: take `item['data']`,
   * fill in the fuel default (in place, so the bucket changes), then choose
   * the template. Returns the bucket as it is afterwards and the line or error.
   */
  function FilledLine(item: Value, date: Label, ev: seq<string>, plain: seq<string>): (r: (Value, Result<Line, PyError>))
    requires ev != [] && FuelKey in plain
    ensures r.0 == item || r.0 == Filled(item)
    ensures r.1.Ok? ==> r.0 == Filled(item)
    ensures r.1 != Err(KeyError(FuelKey))
    ensures r.1.Ok? ==>
              item.Obj? && "data" in item.fields && item.fields["data"].Obj? &&
              var fields := item.fields["data"].fields;
              var keys := if r.1.value.ev then ev else plain;
              r.1.value.date == date &&
              (r.1.value.ev <==> forall k :: k in ev && k != FuelKey ==> k in fields) &&
              |r.1.value.values| == |keys| &&
              forall i :: 0 <= i < |keys| ==> r.1.value.values[i] == FilledValue(fields, keys[i])
    ensures Get(item, "data").Err? ==> r == (item, Err(Get(item, "data").error))
    ensures Get(item, "data").Ok? && Get(item, "data").value.Obj? ==> r.0 == Filled(item)
    ensures r.1.Ok? <==>
              Get(item, "data").Ok? && Get(item, "data").value.Obj? &&
              ((forall k :: k in ev && k != FuelKey ==> k in Get(item, "data").value.fields) ||
               (forall k :: k in plain && k != FuelKey ==> k in Get(item, "data").value.fields))
  {
    match Get(item, "data")
    case Err(e) => (item, Err(e))
    case Ok(data) =>
      match FillFuel(data)
      case Err(e) => (item, Err(e))
      case Ok(filled) =>
        var after := Obj(item.fields["data" := filled]);
        match ChooseTemplate(filled, ev, plain)
        case Err(e) => (after, Err(e))
        case Ok((isEv, vs)) => (after, Ok(Line(date, isEv, vs)))
  }

  /** Running the step again on the bucket it left behind changes nothing more and gives the same outcome. */
  lemma {:induction false} FilledLineTwice(item: Value, date: Label, ev: seq<string>, plain: seq<string>)
    requires ev != [] && FuelKey in plain
    ensures var (after, out) := FilledLine(item, date, ev, plain); FilledLine(after, date, ev, plain) == (after, out)
  {
    var (after, out) := FilledLine(item, date, ev, plain);
    if after != item {
      var data := item.fields["data"];
      var filled := FillFuel(data).value;
      FillFuelIdempotent(data);
      assert after.fields["data"] == filled;
      assert after.fields["data" := filled] == after.fields;
    }
  }

  // ------------------------------------------------------------ daily and weekly buckets

  /** `f"{item['bucket']['dayOfYear']:03d}"`. */
  function DayOfYearText(v: Value): (r: Result<string, PyError>)
    ensures v.Num? && 1 <= v.n <= 366 ==>
              r.Ok? && |r.value| == 3 && AllDigits(r.value) && DigitsValue(r.value) == v.n
    ensures r.Ok? <==> v.Num? || v.Bool?
  {
    match AsInt(v)
    case Err(e) => Err(e)
    case Ok(n) =>
      if v.Num? && 1 <= n <= 366 then
        ZeroPaddedValue(n, 3);
        ShortDigits(n);
        Ok(ZeroPadded(n, 3))
      else Ok(ZeroPadded(n, 3))
  }

  /**
   * One bucket of `parse_daily_driving_statistics`: the year, the padded
   * day of the year and the configured time zone are read first (the
   * date itself is parsed by `pendulum`, outside the model), then the data.
   */
  function DailyBucket(config: Value, item: Value): (r: (Value, Result<Line, PyError>))
    ensures r.0 == item || r.0 == Filled(item)
    ensures r.1 != Err(KeyError(FuelKey))
    ensures r.1.Ok? ==>
              r.0 == Filled(item) && Get(config, "timezone").Ok? && r.1.value.date.DayOf? &&
              GetPath(item, ["bucket", "year"]) == Ok(r.1.value.date.year) &&
              GetPath(item, ["bucket", "dayOfYear"]).Ok? &&
              DayOfYearText(GetPath(item, ["bucket", "dayOfYear"]).value) == Ok(r.1.value.date.dayOfYear)
    ensures GetPath(item, ["bucket", "year"]).Ok? && GetPath(item, ["bucket", "dayOfYear"]).Ok? &&
            DayOfYearText(GetPath(item, ["bucket", "dayOfYear"]).value).Ok? && Get(config, "timezone").Ok? ==>
              r == FilledLine(item, DayOf(GetPath(item, ["bucket", "year"]).value,
                                          DayOfYearText(GetPath(item, ["bucket", "dayOfYear"]).value).value),
                              DailyEv, DailyPlain)
    ensures !(GetPath(item, ["bucket", "year"]).Ok? && GetPath(item, ["bucket", "dayOfYear"]).Ok? &&
              DayOfYearText(GetPath(item, ["bucket", "dayOfYear"]).value).Ok? && Get(config, "timezone").Ok?) ==>
              r.0 == item && r.1.Err?
    ensures GetPath(item, ["bucket", "year"]).Err? ==> r == (item, Err(GetPath(item, ["bucket", "year"]).error))
    ensures GetPath(item, ["bucket", "year"]).Ok? && GetPath(item, ["bucket", "dayOfYear"]).Err? ==>
              r == (item, Err(GetPath(item, ["bucket", "dayOfYear"]).error))
    ensures GetPath(item, ["bucket", "year"]).Ok? && GetPath(item, ["bucket", "dayOfYear"]).Ok? &&
            DayOfYearText(GetPath(item, ["bucket", "dayOfYear"]).value).Err? ==>
              r == (item, Err(DayOfYearText(GetPath(item, ["bucket", "dayOfYear"]).value).error))
    ensures GetPath(item, ["bucket", "year"]).Ok? && GetPath(item, ["bucket", "dayOfYear"]).Ok? &&
            DayOfYearText(GetPath(item, ["bucket", "dayOfYear"]).value).Ok? && Get(config, "timezone").Err? ==>
              r == (item, Err(Get(config, "timezone").error))
  {
    match GetPath(item, ["bucket", "year"])
    case Err(e) => (item, Err(e))
    case Ok(year) =>
      match GetPath(item, ["bucket", "dayOfYear"])
      case Err(e) => (item, Err(e))
      case Ok(d) =>
        match DayOfYearText(d)
        case Err(e) => (item, Err(e))
        case Ok(day) =>
          match Get(config, "timezone")
          case Err(e) => (item, Err(e))
          case Ok(_) => FilledLine(item, DayOf(year, day), DailyEv, DailyPlain)
  }

  /** One bucket of `parse_weekly_driving_statistics`: the year and the week, then the data. */
  function WeeklyBucket(item: Value): (r: (Value, Result<Line, PyError>))
    ensures r.0 == item || r.0 == Filled(item)
    ensures r.1 != Err(KeyError(FuelKey))
    ensures r.1.Ok? ==>
              r.0 == Filled(item) && r.1.value.date.WeekOf? &&
              GetPath(item, ["bucket", "year"]) == Ok(r.1.value.date.year) &&
              GetPath(item, ["bucket", "week"]) == Ok(r.1.value.date.week)
    ensures GetPath(item, ["bucket", "year"]).Ok? && GetPath(item, ["bucket", "week"]).Ok? ==>
              r == FilledLine(item, WeekOf(GetPath(item, ["bucket", "year"]).value, GetPath(item, ["bucket", "week"]).value),
                              PeriodEv, PeriodPlain)
    ensures GetPath(item, ["bucket", "year"]).Err? ==> r == (item, Err(GetPath(item, ["bucket", "year"]).error))
    ensures GetPath(item, ["bucket", "year"]).Ok? && GetPath(item, ["bucket", "week"]).Err? ==>
              r == (item, Err(GetPath(item, ["bucket", "week"]).error))
  {
    match GetPath(item, ["bucket", "year"])
    case Err(e) => (item, Err(e))
    case Ok(year) =>
      match GetPath(item, ["bucket", "week"])
      case Err(e) => (item, Err(e))
      case Ok(week) => FilledLine(item, WeekOf(year, week), PeriodEv, PeriodPlain)
  }

  /** Filling a bucket's data leaves its `bucket` entry alone. */
  lemma {:induction false} FilledKeepsBucket(item: Value, keys: seq<string>)
    ensures GetPath(Filled(item), ["bucket"] + keys) == GetPath(item, ["bucket"] + keys)
  {
    assert (["bucket"] + keys)[0] == "bucket" && (["bucket"] + keys)[1..] == keys;
    if Filled(item) != item && "bucket" in item.fields {
      assert Filled(item).fields["bucket"] == item.fields["bucket"];
    }
  }

  /**
   * A second pass over the buckets a daily parse has filled prints the same
   * lines and changes nothing more.
   */
  lemma {:induction false} DailyBucketTwice(config: Value, item: Value)
    ensures var (after, out) := DailyBucket(config, item); DailyBucket(config, after) == (after, out)
  {
    var (after, out) := DailyBucket(config, item);
    if after != item {
      FilledKeepsBucket(item, ["year"]);
      FilledKeepsBucket(item, ["dayOfYear"]);
      var year := GetPath(item, ["bucket", "year"]).value;
      var day := DayOfYearText(GetPath(item, ["bucket", "dayOfYear"]).value).value;
      FilledLineTwice(item, DayOf(year, day), DailyEv, DailyPlain);
    }
  }

  /** The same for a weekly parse. */
  lemma {:induction false} WeeklyBucketTwice(item: Value)
    ensures var (after, out) := WeeklyBucket(item); WeeklyBucket(after) == (after, out)
  {
    var (after, out) := WeeklyBucket(item);
    if after != item {
      FilledKeepsBucket(item, ["year"]);
      FilledKeepsBucket(item, ["week"]);
      var year := GetPath(item, ["bucket", "year"]).value;
      var week := GetPath(item, ["bucket", "week"]).value;
      FilledLineTwice(item, WeekOf(year, week), PeriodEv, PeriodPlain);
    }
  }

  /** One daily or weekly bucket, as the parser of that granularity handles it. */
  function BucketStep(p: Parser, config: Value, item: Value): (Value, Result<Line, PyError>)
  {
    if p == Daily then DailyBucket(config, item) else WeeklyBucket(item)
  }

  /**
   * The lines a bucket loop prints over `items`: the lines of a prefix of
   * the buckets, in order, ending either with every bucket or with the
   * error of the first bucket that fails.
   */
  ghost predicate Printed(p: Parser, config: Value, items: seq<Value>, printed: seq<Line>, error: Option<PyError>)
  {
    |printed| <= |items| && (error.None? <==> |printed| == |items|) &&
    (forall j :: 0 <= j < |printed| ==> BucketStep(p, config, items[j]).1 == Ok(printed[j])) &&
    (error.Some? ==> BucketStep(p, config, items[|printed|]).1 == Err(error.value))
  }

  /** `data['histogram']` as the loop iterates it. */
  function HistogramItems(data: Value): (r: Result<seq<Value>, PyError>)
    ensures Get(data, "histogram").Err? ==> r == Err(Get(data, "histogram").error)
    ensures Get(data, "histogram").Ok? ==> r == Items(Get(data, "histogram").value)
  {
    match Get(data, "histogram")
    case Err(e) => Err(e)
    case Ok(h) => Items(h)
  }

  /**
   * What `main` prints once the data is fetched: nothing for an unknown
   * interval, the daily or weekly lines of the histogram up to the first
   * error, or the one yearly line.
   */
  ghost predicate ParserPrinted(config: Value, interval: string, data: Value, printed: seq<Line>, error: Option<PyError>)
  {
    match Dispatch(interval)
    case None => printed == [] && error.None?
    case Some(Yearly) =>
      (match ParseYearly(data)
       case Err(e) => printed == [] && error == Some(e)
       case Ok(line) => printed == [line] && error.None?)
    case Some(p) =>
      (match HistogramItems(data)
       case Err(e) => printed == [] && error == Some(e)
       case Ok(items) => Printed(p, config, items, printed, error))
  }

  /**
   * The loop over `data['histogram']`: each bucket is processed in turn
   * and replaced, in the list, by the bucket as the step leaves it; the
   * first error stops the loop with the lines before it already printed.
   */
  method PrintBuckets(histogram: array<Value>, step: Value -> (Value, Result<Line, PyError>))
    returns (printed: seq<Line>, error: Option<PyError>)
    modifies histogram
    ensures |printed| <= histogram.Length
    ensures error.None? <==> |printed| == histogram.Length
    ensures forall j :: 0 <= j < |printed| ==> step(old(histogram[j])) == (histogram[j], Ok(printed[j]))
    ensures error.Some? ==> step(old(histogram[|printed|])) == (histogram[|printed|], Err(error.value))
    ensures error.Some? ==> forall j :: |printed| < j < histogram.Length ==> histogram[j] == old(histogram[j])
  {
    printed := [];
    var i := 0;
    while i < histogram.Length
      invariant 0 <= i <= histogram.Length && |printed| == i
      invariant forall j :: 0 <= j < i ==> step(old(histogram[j])) == (histogram[j], Ok(printed[j]))
      invariant forall j :: i <= j < histogram.Length ==> histogram[j] == old(histogram[j])
    {
      var (after, out) := step(histogram[i]);
      histogram[i] := after;
      if out.Err? {
        return printed, Some(out.error);
      }
      printed := printed + [out.value];
      i := i + 1;
    }
    error := None;
  }

  /**
   * The buckets of `data['histogram']` as the loop sees them; the list is
   * the array the loop updates.
   */
  method Histogram(data: Value) returns (r: Result<array<Value>, PyError>)
    ensures Get(data, "histogram").Err? ==> r == Err(Get(data, "histogram").error)
    ensures r.Ok? ==> fresh(r.value)
    ensures Get(data, "histogram").Ok? ==>
              match Items(Get(data, "histogram").value)
              case Err(e) => r == Err(e)
              case Ok(items) => r.Ok? && r.value[..] == items
  {
    var h := Get(data, "histogram");
    if h.Err? {
      return Err(h.error);
    }
    var items := Items(h.value);
    if items.Err? {
      return Err(items.error);
    }
    var a := new Value[|items.value|](i requires 0 <= i < |items.value| => items.value[i]);
    r := Ok(a);
  }

  /** `parse_daily_driving_statistics(myt, data)`: the printed lines, and the error that ended the loop early. */
  method ParseDaily(config: Value, data: Value) returns (printed: seq<Line>, error: Option<PyError>)
    ensures HistogramItems(data).Err? ==> printed == [] && error == Some(HistogramItems(data).error)
    ensures HistogramItems(data).Ok? ==> Printed(Daily, config, HistogramItems(data).value, printed, error)
    ensures Get(data, "histogram").Ok? && Items(Get(data, "histogram").value).Ok? ==>
              var items := Items(Get(data, "histogram").value).value;
              |printed| <= |items| && (error.None? <==> |printed| == |items|) &&
              (forall j :: 0 <= j < |printed| ==> DailyBucket(config, items[j]).1 == Ok(printed[j])) &&
              (error.Some? ==> DailyBucket(config, items[|printed|]).1 == Err(error.value))
    ensures error != Some(KeyError(FuelKey))
  {
    var histogram := Histogram(data);
    if histogram.Err? {
      return [], Some(histogram.error);
    }
    printed, error := PrintBuckets(histogram.value, item => DailyBucket(config, item));
  }

  /** `parse_weekly_driving_statistics(data)`. */
  method ParseWeekly(data: Value) returns (printed: seq<Line>, error: Option<PyError>)
    ensures HistogramItems(data).Err? ==> printed == [] && error == Some(HistogramItems(data).error)
    ensures forall config :: HistogramItems(data).Ok? ==> Printed(Weekly, config, HistogramItems(data).value, printed, error)
    ensures Get(data, "histogram").Ok? && Items(Get(data, "histogram").value).Ok? ==>
              var items := Items(Get(data, "histogram").value).value;
              |printed| <= |items| && (error.None? <==> |printed| == |items|) &&
              (forall j :: 0 <= j < |printed| ==> WeeklyBucket(items[j]).1 == Ok(printed[j])) &&
              (error.Some? ==> WeeklyBucket(items[|printed|]).1 == Err(error.value))
    ensures error != Some(KeyError(FuelKey))
  {
    var histogram := Histogram(data);
    if histogram.Err? {
      return [], Some(histogram.error);
    }
    printed, error := PrintBuckets(histogram.value, WeeklyBucket);
  }

  /**
   * `parse_yearly_driving_statistics(data)`: the summary gets no fuel
   * default, so a summary without the fuel value ends in KeyError.
   */
  function ParseYearly(data: Value): (r: Result<Line, PyError>)
    ensures (Get(data, "summary").Ok? && Get(data, "summary").value.Obj? &&
             FuelKey !in Get(data, "summary").value.fields) ==> r.Err? && r.error.KeyError?
    ensures r.Ok? ==>
              Get(data, "summary").Ok? && Get(data, "summary").value.Obj? &&
              var fields := Get(data, "summary").value.fields;
              var keys := if r.value.ev then PeriodEv else PeriodPlain;
              r.value.date == Summary && (r.value.ev <==> forall k :: k in PeriodEv ==> k in fields) &&
              (forall k :: k in keys ==> k in fields) &&
              |r.value.values| == |keys| && forall i :: 0 <= i < |keys| ==> r.value.values[i] == fields[keys[i]]
    ensures Get(data, "summary").Err? ==> r == Err(Get(data, "summary").error)
    ensures Get(data, "summary").Ok? && !Get(data, "summary").value.Obj? ==> r == Err(TypeError)
    ensures Get(data, "summary").Ok? && Get(data, "summary").value.Obj? ==>
              var fields := Get(data, "summary").value.fields;
              ((forall k :: k in PeriodEv ==> k in fields) ==> r.Ok? && r.value.ev) &&
              ((exists k :: k in PeriodEv && k !in fields) && (forall k :: k in PeriodPlain ==> k in fields) ==>
                 r.Ok? && !r.value.ev) &&
              (r.Err? ==> r.error.KeyError? && r.error.key in PeriodPlain && r.error.key !in fields)
  {
    assert PeriodEv[7] == FuelKey && PeriodPlain[5] == FuelKey;
    match Get(data, "summary")
    case Err(e) => Err(e)
    case Ok(summary) =>
      match ChooseTemplate(summary, PeriodEv, PeriodPlain)
      case Err(e) => Err(e)
      case Ok((isEv, vs)) => Ok(Line(Summary, isEv, vs))
  }

  // ------------------------------------------------------------ the week label

  /**
   * The literal text `str.format` makes of a template: `{{` and `}}` stand
   * for one brace each. None at a replacement field or a lone brace, whose
   * handling this model does not interpret.
   */
  function FormatLiteral(s: string): (r: Option<string>)
    ensures r.Some? ==> (|r.value| == |s| <==> '{' !in s && '}' !in s)
    ensures r.Some? ==> |r.value| <= |s|
    decreases |s|
  {
    if s == [] then Some([])
    else if s[0] == '{' || s[0] == '}' then
      if |s| >= 2 && s[1] == s[0] then
        match FormatLiteral(s[2..])
        case None => None
        case Some(t) => Some([s[0]] + t)
      else None
    else
      match FormatLiteral(s[1..])
      case None => None
      case Some(t) => (assert s == [s[0]] + s[1..]; Some([s[0]] + t))
  }

  /** A text without braces is left as it is. */
  lemma {:induction false} BraceFreeUnchanged(s: string)
    requires '{' !in s && '}' !in s
    ensures FormatLiteral(s) == Some(s)
    decreases |s|
  {
    if s != [] {
      assert s[0] != '{' && s[0] != '}';
      BraceFreeUnchanged(s[1..]);
      assert s == [s[0]] + s[1..];
    }
  }

  /** `'{} W{}'.format(year, week)`, for a year and a week whose text is modelled. */
  function WeekText(year: Value, week: Value): (r: Option<string>)
    ensures r.Some? <==> Render(year).Some? && Render(week).Some?
    ensures r.Some? ==> Render(year).value <= r.value
  {
    match (Render(year), Render(week))
    case (Some(y), Some(w)) => Some(y + " W" + w)
    case _ => None
  }

  /**
   * For a numeric year and week the label is `<year> W<week>`, and the
   * `.format('YYYY-MM-DD')` applied to it, which has no replacement field
   * to fill, leaves it unchanged.
   */
  lemma {:induction false} WeekLabelUnchanged(year: int, week: int)
    ensures WeekText(Num(year), Num(week)) == Some(IntToString(year) + " W" + IntToString(week))
    ensures FormatLiteral(WeekText(Num(year), Num(week)).value) == WeekText(Num(year), Num(week))
  {
    var t := IntToString(year) + " W" + IntToString(week);
    NoBraces(year);
    NoBraces(week);
    assert forall c :: c in t ==> c in IntToString(year) || c in " W" || c in IntToString(week);
    BraceFreeUnchanged(t);
  }

  lemma {:induction false} NoBraces(n: int)
    ensures '{' !in IntToString(n) && '}' !in IntToString(n)
  {
    var d := NatToString(if n < 0 then -n else n);
    assert forall i :: 0 <= i < |d| ==> IsDigit(d[i]);
    assert IntToString(n) == (if n < 0 then "-" + d else d);
  }

  // ------------------------------------------------------------ main

  /** The `if args.interval == ...` dispatch after the fetch: run the parser the interval names on the data. */
  method PrintParsed(config: Value, interval: string, data: Value) returns (printed: seq<Line>, error: Option<PyError>)
    ensures ParserPrinted(config, interval, data, printed, error)
    ensures Dispatch(interval).None? ==> printed == []
    ensures Dispatch(interval) == Some(Yearly) ==> |printed| <= 1
  {
    match Dispatch(interval)
    case None =>
      printed, error := [], None;
    case Some(Daily) =>
      printed, error := ParseDaily(config, data);
    case Some(Weekly) =>
      printed, error := ParseWeekly(data);
    case Some(Yearly) =>
      match ParseYearly(data)
      case Err(e) => printed, error := [], Some(e);
      case Ok(line) => printed, error := [line], None;
  }

  /**
   * statistics.py's `main` after the session is opened: choose the window,
   * fetch with one re-login, then run the parser the interval names on the
   * data of the call that succeeded.
   */
  method Run(myt: Myt, interval: string, fromDate: Option<string>, first: Response, loginResp: Response, second: Response)
    returns (printed: seq<Line>, error: Option<PyError>)
    modifies myt`userData, myt`headers, myt`requests, myt.store`snapshots, myt.store`userFile
    ensures old(myt.requests) <= myt.requests
    ensures var w := SelectWindow(interval, fromDate);
            var r1 := ValueFetch(old(myt.FirstError([Token, Uuid, Vin])), old(myt.store.Log(Statistics)), first).0;
            r1.Ok? || !IsValueError(r1.error) ==>
              myt.requests == old(myt.requests) || myt.requests == old(myt.requests) + [Summarize(w.1, w.0)]
    ensures var w := SelectWindow(interval, fromDate);
            var r1 := ValueFetch(old(myt.FirstError([Token, Uuid, Vin])), old(myt.store.Log(Statistics)), first).0;
            r1.Err? && IsValueError(r1.error) ==>
              myt.requests == old(myt.requests) + [Summarize(w.1, w.0), Authenticate] ||
              myt.requests == old(myt.requests) + [Summarize(w.1, w.0), Authenticate, Summarize(w.1, w.0)]
    ensures Dispatch(interval).None? ==> printed == []
    ensures Dispatch(interval) == Some(Yearly) ==> |printed| <= 1
    ensures var (r1, log1) := ValueFetch(old(myt.FirstError([Token, Uuid, Vin])), old(myt.store.Log(Statistics)), first);
            var fetched := Retry(r1, LoginOutcome(loginResp), ValueFetch(myt.FirstError([Token, Uuid, Vin]), log1, second).0);
            (fetched.Err? ==> printed == [] && error == Some(fetched.error)) &&
            (fetched.Ok? ==> ParserPrinted(myt.config, interval, fetched.value.0, printed, error))
  {
    var (iv, from) := SelectWindow(interval, fromDate);
    var fetched, relogged := FetchStatisticsWithRetry(myt, from, iv, first, loginResp, second);
    if fetched.Err? {
      return [], Some(fetched.error);
    }
    printed, error := PrintParsed(myt.config, interval, fetched.value.0);
  }
}

/**
 * The `Myt` session of tojota.py: the logged-in user data, the request
 * headers, and the fetch methods that keep the cache of snapshots.
 * HTTP is abstract: each method is handed the response its request gets,
 * and the session keeps the list of requests it has sent.
 */
module Tojota {
  import opened Wrappers
  import opened Errors
  import opened Json
  import opened JsonText
  import opened Paths
  import opened Cache

  /** An HTTP response as the modelled code uses it: the status code and the body text. */
  datatype Response = Response(status: int, text: string)

  /** The `from` date of a statistics request: a day a number of days before today, or a date given as text. */
  datatype DateArg = DaysBeforeToday(days: nat) | GivenDate(text: string)

  /** The requests a session sends, in order. */
  datatype Request =
    | Authenticate
    | Fetch(kind: Kind)
    | FetchTrip(id: string)
    | Summarize(from: Option<DateArg>, interval: Option<string>)

  /** The values a fetch reads out of the user data and the configuration before it sends its request. */
  datatype Lookup = Token | Uuid | Vin

  /** `r.json()` of a successful response, paired with the freshness flag. */
  function Decoded(text: string, isNew: bool): (r: Result<(Value, bool), PyError>)
    ensures r.Ok? <==> Parse(text).Some?
    ensures r.Ok? ==> r.value == (Parse(text).value, isNew)
    ensures r.Err? ==> r.error == DecodeError
  {
    match Parse(text)
    case None => Err(DecodeError)
    case Some(v) => Ok((v, isNew))
  }

  /**
   * What `login` obtains from the authentication response: the decoded
   * user data and its token, or the error `login` raises.
   */
  function LoginOutcome(resp: Response): (r: Result<(Value, Value), PyError>)
    ensures resp.status != 200 ==> r == Err(BadStatus(resp.status))
    ensures resp.status == 200 && Parse(resp.text).None? ==> r == Err(DecodeError)
    ensures resp.status == 200 && Parse(resp.text).Some? ==>
              (match Get(Parse(resp.text).value, "token")
               case Err(e) => r == Err(e)
               case Ok(t) => r == Ok((Parse(resp.text).value, t)))
  {
    if resp.status != 200 then Err(BadStatus(resp.status))
    else match Parse(resp.text)
      case None => Err(DecodeError)
      case Some(u) =>
        match Get(u, "token")
        case Err(e) => Err(e)
        case Ok(t) => Ok((u, t))
  }

  /** `_get_user_data`: no file reads as None, a malformed file raises. */
  function CachedUserData(file: Option<string>): (r: Result<Value, PyError>)
    ensures file.None? ==> r == Ok(Null)
    ensures file.Some? ==> r == (match Parse(file.value) case None => Err(DecodeError) case Some(u) => Ok(u))
  {
    match file
    case None => Ok(Null)
    case Some(t) => (match Parse(t) case None => Err(DecodeError) case Some(u) => Ok(u))
  }

  /** The headers `__init__` builds from cached user data. */
  function CachedHeaders(token: Value): map<string, Value>
  {
    map["X-TME-TOKEN" := token, "X-TME-LOCALE" := Str("fi-fi")]
  }

  /** The headers `login` leaves: the token only. */
  function LoginHeaders(token: Value): map<string, Value>
  {
    map["X-TME-TOKEN" := token]
  }

  // ------------------------------------------------------------ fetch outcomes

  /**
   * What `get_trips` and `get_parking` return, and the snapshots of their
   * kind afterwards, from the lookups' error, the snapshots before and the
   * response. The body is recorded as text before it is decoded, so a
   * fresh body that is not JSON is written and then raises.
   */
  function TextFetch(e: Option<PyError>, log: seq<string>, resp: Response): (r: (Result<(Value, bool), PyError>, seq<string>))
    ensures r.1 == log || r.1 == log + [resp.text]
    ensures r.1 != log ==> e.None? && resp.status == 200
    ensures e.Some? ==> r.0 == Err(e.value)
    ensures e.None? && resp.status != 200 ==> r.0 == Err(BadStatus(resp.status))
    ensures r.0.Ok? ==> Parse(resp.text) == Some(r.0.value.0) && (r.0.value.1 <==> r.1 != log)
    ensures e.None? && resp.status == 200 ==>
              (r.1 != log <==> RecordText(log, resp.text).1) && (Parse(resp.text).None? ==> r.0 == Err(DecodeError))
    ensures e.None? && resp.status == 200 ==> r.1 == RecordText(log, resp.text).0
    ensures e.None? && resp.status == 200 && Parse(resp.text).Some? ==>
              r.0 == Ok((Parse(resp.text).value, RecordText(log, resp.text).1))
  {
    if e.Some? then (Err(e.value), log)
    else if resp.status != 200 then (Err(BadStatus(resp.status)), log)
    else
      var (log', isNew) := RecordText(log, resp.text);
      (Decoded(resp.text, isNew), log')
  }

  /**
   * What `get_remote_control_status` and `get_driving_statistics` return,
   * and the snapshots of their kind afterwards. The body is decoded before
   * anything is written, and what is written is its sorted-key dump.
   */
  function ValueFetch(e: Option<PyError>, log: seq<string>, resp: Response): (r: (Result<(Value, bool), PyError>, seq<string>))
    ensures r.1 != log ==> r.0.Ok? && r.0.value.1 && r.1 == log + [Dump(r.0.value.0)]
    ensures e.Some? ==> r.0 == Err(e.value)
    ensures e.None? && resp.status != 200 ==> r.0 == Err(BadStatus(resp.status))
    ensures Parse(resp.text).None? ==> r.1 == log && r.0.Err?
    ensures r.0.Ok? ==> e.None? && resp.status == 200 && Parse(resp.text) == Some(r.0.value.0)
    ensures r.0.Ok? ==> Previous(log).Ok? && (r.0.value.1 <==> !PyEq(r.0.value.0, Previous(log).value))
    ensures r.0.Ok? ==> r.1 == (if r.0.value.1 then log + [Dump(r.0.value.0)] else log)
    ensures e.None? && resp.status == 200 && Parse(resp.text).None? ==> r == (Err(DecodeError), log)
    ensures e.None? && resp.status == 200 && Parse(resp.text).Some? && Previous(log).Err? ==> r == (Err(DecodeError), log)
    ensures e.None? && resp.status == 200 && Parse(resp.text).Some? && Previous(log).Ok? ==>
              r.0 == Ok((Parse(resp.text).value, !PyEq(Parse(resp.text).value, Previous(log).value)))
  {
    if e.Some? then (Err(e.value), log)
    else if resp.status != 200 then (Err(BadStatus(resp.status)), log)
    else match Parse(resp.text)
      case None => (Err(DecodeError), log)
      case Some(data) =>
        match RecordValue(log, data)
        case Err(err) => (Err(err), log)
        case Ok((log', isNew)) => (Ok((data, isNew)), log')
  }

  /**
   * What `get_trip` returns and the detail files afterwards, from the
   * lookups' error, the detail files before, the trip id and the response.
   * A detail file that exists is read back with no request; otherwise the
   * body of a 200 response is written under the id before it is decoded.
   */
  function TripDetail(e: Option<PyError>, details: map<string, string>, id: string, resp: Response)
    : (r: (Result<(Value, bool), PyError>, map<string, string>))
    ensures r.1 == details || (id != "" && id !in details && e.None? && resp.status == 200 && r.1 == details[id := resp.text])
    ensures id in details ==> r.1 == details
    ensures id == "" ==> r.0 == Err(OSError)
    ensures id != "" && id !in details && e.Some? ==> r.0 == Err(e.value)
    ensures id != "" && id !in details && e.None? && resp.status != 200 ==> r.0 == Err(BadStatus(resp.status))
    ensures id != "" && id !in details && e.None? && resp.status == 200 ==> r.1 == details[id := resp.text]
    ensures id != "" ==> (r.0.Ok? <==> id in r.1 && Parse(r.1[id]).Some?)
    ensures r.0.Ok? ==> id in r.1 && Parse(r.1[id]) == Some(r.0.value.0) && (r.0.value.1 <==> id !in details)
  {
    if id == "" then (Err(OSError), details)
    else if id in details then (Decoded(details[id], false), details)
    else if e.Some? then (Err(e.value), details)
    else if resp.status != 200 then (Err(BadStatus(resp.status)), details)
    else (Decoded(resp.text, true), details[id := resp.text])
  }

  /**
   * `try: x = f() except ValueError: login(); x = f()`: a ValueError from
   * the first call is replaced by the login's error or by the second
   * call's outcome, whatever that is; anything else is the first outcome.
   */
  function Retry<T>(first: Result<T, PyError>, login: Result<(Value, Value), PyError>, second: Result<T, PyError>): (r: Result<T, PyError>)
    ensures first.Ok? || !IsValueError(first.error) ==> r == first
    ensures first.Err? && IsValueError(first.error) ==> r == (if login.Err? then Err(login.error) else second)
  {
    if first.Ok? || !IsValueError(first.error) then first
    else if login.Err? then Err(login.error)
    else second
  }

  // ------------------------------------------------------------ odometer

  /** What `get_odometer_fuel` reports besides freshness. */
  datatype Reading = Reading(odometer: Value, unit: Value, fuel: Value)

  const Unread := Reading(Num(0), Str(""), Num(0))

  /**
   * One pass of the odometer loop: an item of type 'mileage' sets the
   * odometer and its unit, one of type 'Fuel' sets the fuel level.
   */
  function OdometerStep(acc: Reading, item: Value): Result<Reading, PyError>
  {
    match Get(item, "type")
    case Err(e) => Err(e)
    case Ok(t) =>
      var mileage :=
        if t == Str("mileage") then
          match Get(item, "value")
          case Err(e) => Err(e)
          case Ok(v) =>
            match Get(item, "unit")
            case Err(e) => Err(e)
            case Ok(u) => Ok(acc.(odometer := v, unit := u))
        else Ok(acc);
      match mileage
      case Err(e) => Err(e)
      case Ok(a) =>
        if t == Str("Fuel") then
          match Get(item, "value")
          case Err(e) => Err(e)
          case Ok(v) => Ok(a.(fuel := v))
        else Ok(a)
  }

  /** The odometer loop over a whole list, item by item from the first. */
  function ReadOdometer(items: seq<Value>): Result<Reading, PyError>
    decreases |items|
  {
    if items == [] then Ok(Unread)
    else match ReadOdometer(items[..|items| - 1])
      case Err(e) => Err(e)
      case Ok(acc) => OdometerStep(acc, items[|items| - 1])
  }

  /**
   * What `get_odometer_fuel` returns and the odometer snapshots afterwards:
   * the text fetch, then the odometer loop over the decoded list.
   */
  function OdometerFetch(e: Option<PyError>, log: seq<string>, resp: Response): (r: (Result<(Reading, bool), PyError>, seq<string>))
    ensures r.1 == TextFetch(e, log, resp).1
    ensures TextFetch(e, log, resp).0.Err? ==> r.0 == Err(TextFetch(e, log, resp).0.error)
    ensures r.0.Ok? ==>
              var (data, isNew) := TextFetch(e, log, resp).0.value;
              TextFetch(e, log, resp).0.Ok? && Items(data).Ok? && ReadOdometer(Items(data).value) == Ok(r.0.value.0) &&
              r.0.value.1 == isNew
    ensures TextFetch(e, log, resp).0.Ok? ==>
              var (data, isNew) := TextFetch(e, log, resp).0.value;
              r.0 == (match Items(data)
                      case Err(err) => Err(err)
                      case Ok(items) =>
                        match ReadOdometer(items)
                        case Err(err) => Err(err)
                        case Ok(reading) => Ok((reading, isNew)))
  {
    var (got, log') := TextFetch(e, log, resp);
    match got
    case Err(err) => (Err(err), log')
    case Ok((data, isNew)) =>
      match Items(data)
      case Err(err) => (Err(err), log')
      case Ok(items) =>
        match ReadOdometer(items)
        case Err(err) => (Err(err), log')
        case Ok(reading) => (Ok((reading, isNew)), log')
  }

  /** An item the loop gets through: it has a type, and the keys its type makes the loop read. */
  predicate Readable(item: Value)
  {
    item.Obj? && "type" in item.fields &&
    (item.fields["type"] == Str("mileage") ==> "value" in item.fields && "unit" in item.fields) &&
    (item.fields["type"] == Str("Fuel") ==> "value" in item.fields)
  }

  predicate HasType(item: Value, tag: string)
  {
    item.Obj? && "type" in item.fields && item.fields["type"] == Str(tag)
  }

  /** The index of the last item of the given type. */
  function LastOfType(items: seq<Value>, tag: string): (r: Option<nat>)
    ensures r.None? ==> forall i :: 0 <= i < |items| ==> !HasType(items[i], tag)
    ensures r.Some? ==> r.value < |items| && HasType(items[r.value], tag)
    ensures r.Some? ==> forall i :: r.value < i < |items| ==> !HasType(items[i], tag)
    decreases |items|
  {
    if items == [] then None
    else if HasType(items[|items| - 1], tag) then Some(|items| - 1)
    else LastOfType(items[..|items| - 1], tag)
  }

  /**
   * The loop's outcome stated without the loop: it fails exactly when some
   * item is not readable, and otherwise the odometer and unit come from the
   * last 'mileage' item and the fuel level from the last 'Fuel' item, each
   * keeping its starting value (0, '' and 0) when there is no such item.
   */
  lemma {:induction false} OdometerFromLastItems(items: seq<Value>)
    ensures ReadOdometer(items).Ok? <==> forall i :: 0 <= i < |items| ==> Readable(items[i])
    ensures ReadOdometer(items).Ok? ==>
              var r := ReadOdometer(items).value;
              (match LastOfType(items, "mileage")
               case None => r.odometer == Num(0) && r.unit == Str("")
               case Some(i) => r.odometer == items[i].fields["value"] && r.unit == items[i].fields["unit"]) &&
              (match LastOfType(items, "Fuel")
               case None => r.fuel == Num(0)
               case Some(i) => r.fuel == items[i].fields["value"])
    decreases |items|
  {
    if items != [] {
      var init := items[..|items| - 1];
      var last := items[|items| - 1];
      OdometerFromLastItems(init);
      assert forall i :: 0 <= i < |init| ==> init[i] == items[i];
      if ReadOdometer(init).Ok? {
        assert OdometerStep(ReadOdometer(init).value, last).Ok? <==> Readable(last);
      }
    }
  }

  /** The loop of `get_odometer_fuel`. */
  method ParseOdometer(items: seq<Value>) returns (r: Result<Reading, PyError>)
    ensures r == ReadOdometer(items)
  {
    var acc := Unread;
    var i := 0;
    while i < |items|
      invariant 0 <= i <= |items|
      invariant ReadOdometer(items[..i]) == Ok(acc)
    {
      var item := items[i];
      assert items[..i + 1][..i] == items[..i];
      var tag := Get(item, "type");
      if tag.Err? {
        r := Err(tag.error);
        ErrorPersists(items, i + 1);
        return;
      }
      if tag.value == Str("mileage") {
        var value := Get(item, "value");
        if value.Err? {
          r := Err(value.error);
          ErrorPersists(items, i + 1);
          return;
        }
        var unit := Get(item, "unit");
        if unit.Err? {
          r := Err(unit.error);
          ErrorPersists(items, i + 1);
          return;
        }
        acc := acc.(odometer := value.value, unit := unit.value);
      }
      if tag.value == Str("Fuel") {
        var value := Get(item, "value");
        if value.Err? {
          r := Err(value.error);
          ErrorPersists(items, i + 1);
          return;
        }
        acc := acc.(fuel := value.value);
      }
      i := i + 1;
    }
    assert items[..i] == items;
    r := Ok(acc);
  }

  /** Once an item has failed, the loop's outcome is that failure. */
  lemma {:induction false} ErrorPersists(items: seq<Value>, n: nat)
    requires n <= |items| && ReadOdometer(items[..n]).Err?
    ensures ReadOdometer(items) == ReadOdometer(items[..n])
    decreases |items| - n
  {
    if n < |items| {
      assert items[..n + 1][..n] == items[..n];
      ErrorPersists(items, n + 1);
    } else {
      assert items[..n] == items;
    }
  }

  // ------------------------------------------------------------ the session

  class Myt {
    const config: Value
    const store: Store
    var userData: Value
    var headers: map<string, Value>
    var requests: seq<Request>

    constructor Make(config: Value, store: Store, userData: Value, headers: map<string, Value>)
      ensures this.config == config && this.store == store
      ensures this.userData == userData && this.headers == headers && requests == []
    {
      this.config := config;
      this.store := store;
      this.userData := userData;
      this.headers := headers;
      requests := [];
    }

    /** `user_data['token']`, `user_data['customerProfile']['uuid']`, `config_data['vin']`. */
    function Find(l: Lookup): Result<Value, PyError>
      reads this`userData
    {
      match l
      case Token => Get(userData, "token")
      case Uuid => GetPath(userData, ["customerProfile", "uuid"])
      case Vin => Get(config, "vin")
    }

    /** The error of the first lookup in the list that fails. */
    function FirstError(ls: seq<Lookup>): (e: Option<PyError>)
      reads this`userData
      ensures e.None? <==> forall i :: 0 <= i < |ls| ==> Find(ls[i]).Ok?
      ensures ls != [] && Find(ls[0]).Err? ==> e == Some(Find(ls[0]).error)
    {
      if ls == [] then None
      else if Find(ls[0]).Err? then Some(Find(ls[0]).error)
      else FirstError(ls[1..])
    }

    /**
     * `Myt()`: reuse the cached user data when it is truthy, with the token
     * and the locale as headers; otherwise log in. Loading the
     * configuration is outside the model: it is the `config` argument.
     */
    static method Open(config: Value, store: Store, loginResp: Response) returns (r: Result<Myt, PyError>)
      modifies store`userFile
      ensures r.Ok? ==> fresh(r.value) && r.value.config == config && r.value.store == store
      ensures CachedUserData(old(store.userFile)).Err? ==>
                r == Err(DecodeError) && store.userFile == old(store.userFile)
      ensures CachedUserData(old(store.userFile)).Ok? && Truthy(CachedUserData(old(store.userFile)).value) ==>
                var u := CachedUserData(old(store.userFile)).value;
                store.userFile == old(store.userFile) &&
                (match Get(u, "token")
                 case Err(e) => r == Err(e)
                 case Ok(t) =>
                   r.Ok? && r.value.userData == u && r.value.headers == CachedHeaders(t) && r.value.requests == [])
      ensures CachedUserData(old(store.userFile)).Ok? && !Truthy(CachedUserData(old(store.userFile)).value) ==>
                (match LoginOutcome(loginResp)
                 case Err(e) => r == Err(e) && store.userFile == old(store.userFile)
                 case Ok((u, t)) =>
                   r.Ok? && r.value.userData == u && r.value.headers == LoginHeaders(t) &&
                   r.value.requests == [Authenticate] && store.userFile == Some(loginResp.text))
    {
      var cached := CachedUserData(store.userFile);
      if cached.Err? {
        return Err(DecodeError);
      }
      var u := cached.value;
      if Truthy(u) {
        var token := Get(u, "token");
        if token.Err? {
          return Err(token.error);
        }
        var m := new Myt.Make(config, store, u, CachedHeaders(token.value));
        return Ok(m);
      }
      var m := new Myt.Make(config, store, u, map[]);
      var error := m.Login(loginResp);
      if error.Some? {
        return Err(error.value);
      }
      r := Ok(m);
    }

    /**
     * `login`: a status other than 200 raises and changes nothing. Otherwise
     * the user data is replaced by the decoded body, the headers become the
     * token alone, and the raw body is saved. The user data is replaced
     * before the token is read, so a body without a token leaves new user
     * data beside the old headers.
     */
    method Login(resp: Response) returns (error: Option<PyError>)
      modifies this`userData, this`headers, this`requests, store`userFile
      ensures requests == old(requests) + [Authenticate]
      ensures error.None? <==> LoginOutcome(resp).Ok?
      ensures LoginOutcome(resp).Err? ==>
                error == Some(LoginOutcome(resp).error) && headers == old(headers) &&
                store.userFile == old(store.userFile)
      ensures LoginOutcome(resp).Ok? ==>
                userData == LoginOutcome(resp).value.0 && headers == LoginHeaders(LoginOutcome(resp).value.1) &&
                store.userFile == Some(resp.text)
      ensures resp.status != 200 || Parse(resp.text).None? ==> userData == old(userData)
      ensures resp.status == 200 && Parse(resp.text).Some? ==> userData == Parse(resp.text).value
    {
      requests := requests + [Authenticate];
      if resp.status != 200 {
        return Some(BadStatus(resp.status));
      }
      var parsed := Parse(resp.text);
      if parsed.None? {
        return Some(DecodeError);
      }
      userData := parsed.value;
      var token := Get(parsed.value, "token");
      if token.Err? {
        return Some(token.error);
      }
      headers := LoginHeaders(token.value);
      store.WriteUserData(resp.text);
      error := None;
    }

    /**
     * The part `get_trips`, `get_parking` and `get_odometer_fuel` share:
     * read the lookups, send the request, refuse a status other than 200,
     * then save the body unless it equals the latest snapshot.
     */
    method FetchText(k: Kind, lookups: seq<Lookup>, request: Request, resp: Response) returns (r: Result<bool, PyError>)
      modifies this`requests, store`snapshots
      ensures FirstError(lookups).Some? ==>
                r == Err(FirstError(lookups).value) && requests == old(requests) && store.snapshots == old(store.snapshots)
      ensures FirstError(lookups).None? ==> requests == old(requests) + [request]
      ensures FirstError(lookups).None? && resp.status != 200 ==>
                r == Err(BadStatus(resp.status)) && store.snapshots == old(store.snapshots)
      ensures FirstError(lookups).None? && resp.status == 200 ==>
                r.Ok? && (store.Log(k), r.value) == RecordText(old(store.Log(k)), resp.text)
      ensures forall j :: j != k ==> store.Log(j) == old(store.Log(j))
      ensures r != Ok(true) ==> store.snapshots == old(store.snapshots)
    {
      var e := FirstError(lookups);
      if e.Some? {
        return Err(e.value);
      }
      requests := requests + [request];
      if resp.status != 200 {
        return Err(BadStatus(resp.status));
      }
      var isNew := store.WriteIfChanged(k, resp.text);
      r := Ok(isNew);
    }

    /**
     * `get_trips`: the trips list is compared as text with the latest trips
     * snapshot. The body is saved before it is decoded, so a body that is
     * not JSON is saved and then raises.
     */
    method GetTrips(resp: Response) returns (r: Result<(Value, bool), PyError>)
      modifies this`requests, store`snapshots
      ensures FirstError([Uuid, Vin]).Some? ==>
                r == Err(FirstError([Uuid, Vin]).value) && requests == old(requests) && store.snapshots == old(store.snapshots)
      ensures FirstError([Uuid, Vin]).None? ==> requests == old(requests) + [Fetch(Trips)]
      ensures FirstError([Uuid, Vin]).None? && resp.status != 200 ==>
                r == Err(BadStatus(resp.status)) && store.snapshots == old(store.snapshots)
      ensures FirstError([Uuid, Vin]).None? && resp.status == 200 ==>
                var (log, isNew) := RecordText(old(store.Log(Trips)), resp.text);
                store.Log(Trips) == log && r == Decoded(resp.text, isNew)
      ensures forall j :: j != Trips ==> store.Log(j) == old(store.Log(j))
      ensures (r, store.Log(Trips)) == TextFetch(FirstError([Uuid, Vin]), old(store.Log(Trips)), resp)
    {
      var saved := FetchText(Trips, [Uuid, Vin], Fetch(Trips), resp);
      if saved.Err? {
        return Err(saved.error);
      }
      r := Decoded(resp.text, saved.value);
    }

    /** `get_parking`: like `get_trips`, for the parking location. */
    method GetParking(resp: Response) returns (r: Result<(Value, bool), PyError>)
      modifies this`requests, store`snapshots
      ensures FirstError([Token, Uuid, Vin]).Some? ==>
                r == Err(FirstError([Token, Uuid, Vin]).value) && requests == old(requests) &&
                store.snapshots == old(store.snapshots)
      ensures FirstError([Token, Uuid, Vin]).None? ==> requests == old(requests) + [Fetch(Parking)]
      ensures FirstError([Token, Uuid, Vin]).None? && resp.status != 200 ==>
                r == Err(BadStatus(resp.status)) && store.snapshots == old(store.snapshots)
      ensures FirstError([Token, Uuid, Vin]).None? && resp.status == 200 ==>
                var (log, isNew) := RecordText(old(store.Log(Parking)), resp.text);
                store.Log(Parking) == log && r == Decoded(resp.text, isNew)
      ensures forall j :: j != Parking ==> store.Log(j) == old(store.Log(j))
      ensures (r, store.Log(Parking)) == TextFetch(FirstError([Token, Uuid, Vin]), old(store.Log(Parking)), resp)
    {
      var saved := FetchText(Parking, [Token, Uuid, Vin], Fetch(Parking), resp);
      if saved.Err? {
        return Err(saved.error);
      }
      r := Decoded(resp.text, saved.value);
    }

    /**
     * `get_odometer_fuel`: the body is compared as text and saved, then
     * decoded and read by the odometer loop.
     */
    method GetOdometerFuel(resp: Response) returns (r: Result<(Reading, bool), PyError>)
      modifies this`requests, store`snapshots
      ensures FirstError([Token, Vin, Uuid]).Some? ==>
                r == Err(FirstError([Token, Vin, Uuid]).value) && requests == old(requests) &&
                store.snapshots == old(store.snapshots)
      ensures FirstError([Token, Vin, Uuid]).None? ==> requests == old(requests) + [Fetch(Odometer)]
      ensures FirstError([Token, Vin, Uuid]).None? && resp.status != 200 ==>
                r == Err(BadStatus(resp.status)) && store.snapshots == old(store.snapshots)
      ensures FirstError([Token, Vin, Uuid]).None? && resp.status == 200 ==>
                var (log, isNew) := RecordText(old(store.Log(Odometer)), resp.text);
                store.Log(Odometer) == log &&
                r == (match Parse(resp.text)
                      case None => Err(DecodeError)
                      case Some(data) =>
                        match Items(data)
                        case Err(e) => Err(e)
                        case Ok(items) =>
                          match ReadOdometer(items)
                          case Err(e) => Err(e)
                          case Ok(reading) => Ok((reading, isNew)))
      ensures forall j :: j != Odometer ==> store.Log(j) == old(store.Log(j))
      ensures (r, store.Log(Odometer)) == OdometerFetch(FirstError([Token, Vin, Uuid]), old(store.Log(Odometer)), resp)
    {
      var saved := FetchText(Odometer, [Token, Vin, Uuid], Fetch(Odometer), resp);
      if saved.Err? {
        return Err(saved.error);
      }
      var data := Parse(resp.text);
      if data.None? {
        return Err(DecodeError);
      }
      var items := Items(data.value);
      if items.Err? {
        return Err(items.error);
      }
      var reading := ParseOdometer(items.value);
      if reading.Err? {
        return Err(reading.error);
      }
      r := Ok((reading.value, saved.value));
    }

    /**
     * The part `get_remote_control_status` and `get_driving_statistics`
     * share: the body is decoded before anything is saved, then compared as
     * a value with the decoded latest snapshot, and its sorted-key dump is
     * saved when it differs.
     */
    method FetchValue(k: Kind, request: Request, resp: Response) returns (r: Result<(Value, bool), PyError>)
      modifies this`requests, store`snapshots
      ensures FirstError([Token, Uuid, Vin]).Some? ==>
                r == Err(FirstError([Token, Uuid, Vin]).value) && requests == old(requests)
      ensures FirstError([Token, Uuid, Vin]).None? ==> requests == old(requests) + [request]
      ensures FirstError([Token, Uuid, Vin]).None? && resp.status != 200 ==> r == Err(BadStatus(resp.status))
      ensures FirstError([Token, Uuid, Vin]).None? && resp.status == 200 && Parse(resp.text).None? ==>
                r == Err(DecodeError)
      ensures FirstError([Token, Uuid, Vin]).None? && resp.status == 200 && Parse(resp.text).Some? ==>
                var data := Parse(resp.text).value;
                match RecordValue(old(store.Log(k)), data)
                case Err(e) => r == Err(e)
                case Ok((log, isNew)) => r == Ok((data, isNew)) && store.Log(k) == log
      ensures forall j :: j != k ==> store.Log(j) == old(store.Log(j))
      ensures r.Err? || !r.value.1 ==> store.snapshots == old(store.snapshots)
      ensures (r, store.Log(k)) == ValueFetch(FirstError([Token, Uuid, Vin]), old(store.Log(k)), resp)
    {
      var e := FirstError([Token, Uuid, Vin]);
      if e.Some? {
        return Err(e.value);
      }
      requests := requests + [request];
      if resp.status != 200 {
        return Err(BadStatus(resp.status));
      }
      var data := Parse(resp.text);
      if data.None? {
        return Err(DecodeError);
      }
      var isNew := store.WriteIfDifferent(k, data.value);
      if isNew.Err? {
        return Err(isNew.error);
      }
      r := Ok((data.value, isNew.value));
    }

    /** `get_remote_control_status`. */
    method GetRemoteControlStatus(resp: Response) returns (r: Result<(Value, bool), PyError>)
      modifies this`requests, store`snapshots
      ensures FirstError([Token, Uuid, Vin]).Some? ==>
                r == Err(FirstError([Token, Uuid, Vin]).value) && requests == old(requests)
      ensures FirstError([Token, Uuid, Vin]).None? ==> requests == old(requests) + [Fetch(RemoteControl)]
      ensures FirstError([Token, Uuid, Vin]).None? && resp.status != 200 ==> r == Err(BadStatus(resp.status))
      ensures FirstError([Token, Uuid, Vin]).None? && resp.status == 200 && Parse(resp.text).None? ==>
                r == Err(DecodeError)
      ensures FirstError([Token, Uuid, Vin]).None? && resp.status == 200 && Parse(resp.text).Some? ==>
                var data := Parse(resp.text).value;
                match RecordValue(old(store.Log(RemoteControl)), data)
                case Err(e) => r == Err(e)
                case Ok((log, isNew)) => r == Ok((data, isNew)) && store.Log(RemoteControl) == log
      ensures forall j :: j != RemoteControl ==> store.Log(j) == old(store.Log(j))
      ensures (r, store.Log(RemoteControl)) == ValueFetch(FirstError([Token, Uuid, Vin]), old(store.Log(RemoteControl)), resp)
      ensures r.Err? || !r.value.1 ==> store.snapshots == old(store.snapshots)
    {
      r := FetchValue(RemoteControl, Fetch(RemoteControl), resp);
    }

    /** `get_driving_statistics(date_from, interval)`. */
    method GetDrivingStatistics(from: Option<DateArg>, interval: Option<string>, resp: Response)
      returns (r: Result<(Value, bool), PyError>)
      modifies this`requests, store`snapshots
      ensures FirstError([Token, Uuid, Vin]).Some? ==>
                r == Err(FirstError([Token, Uuid, Vin]).value) && requests == old(requests)
      ensures FirstError([Token, Uuid, Vin]).None? ==> requests == old(requests) + [Summarize(from, interval)]
      ensures FirstError([Token, Uuid, Vin]).None? && resp.status != 200 ==> r == Err(BadStatus(resp.status))
      ensures FirstError([Token, Uuid, Vin]).None? && resp.status == 200 && Parse(resp.text).None? ==>
                r == Err(DecodeError)
      ensures FirstError([Token, Uuid, Vin]).None? && resp.status == 200 && Parse(resp.text).Some? ==>
                var data := Parse(resp.text).value;
                match RecordValue(old(store.Log(Statistics)), data)
                case Err(e) => r == Err(e)
                case Ok((log, isNew)) => r == Ok((data, isNew)) && store.Log(Statistics) == log
      ensures forall j :: j != Statistics ==> store.Log(j) == old(store.Log(j))
      ensures (r, store.Log(Statistics)) == ValueFetch(FirstError([Token, Uuid, Vin]), old(store.Log(Statistics)), resp)
      ensures r.Err? || !r.value.1 ==> store.snapshots == old(store.snapshots)
    {
      r := FetchValue(Statistics, Summarize(from, interval), resp);
    }

    /**
     * `get_trip`: a trip whose detail file exists is read from it, with no
     * request and `fresh` false. Otherwise the details are fetched and
     * written (before they are decoded) and `fresh` is true. An existing
     * detail file is never rewritten. The empty id names `cache/trips`
     * itself, a directory, which `open` refuses.
     */
    method GetTrip(id: string, resp: Response) returns (r: Result<(Value, bool), PyError>)
      modifies this`requests, store`details
      ensures id == "" ==> r == Err(OSError) && requests == old(requests) && store.details == old(store.details)
      ensures id != "" && id in old(store.details) ==>
                requests == old(requests) && store.details == old(store.details) &&
                r == Decoded(old(store.details)[id], false)
      ensures id != "" && id !in old(store.details) && FirstError([Uuid, Vin]).Some? ==>
                r == Err(FirstError([Uuid, Vin]).value) && requests == old(requests) &&
                store.details == old(store.details)
      ensures id != "" && id !in old(store.details) && FirstError([Uuid, Vin]).None? ==>
                requests == old(requests) + [FetchTrip(id)] &&
                if resp.status != 200 then
                  r == Err(BadStatus(resp.status)) && store.details == old(store.details)
                else
                  store.details == old(store.details)[id := resp.text] && r == Decoded(resp.text, true)
      ensures id in old(store.details) ==> store.details == old(store.details)
      ensures (r, store.details) == TripDetail(FirstError([Uuid, Vin]), old(store.details), id, resp)
    {
      if id == "" {
        return Err(OSError);
      }
      if id in store.details {
        return Decoded(store.details[id], false);
      }
      var e := FirstError([Uuid, Vin]);
      if e.Some? {
        return Err(e.value);
      }
      requests := requests + [FetchTrip(id)];
      if resp.status != 200 {
        return Err(BadStatus(resp.status));
      }
      store.WriteDetail(id, resp.text);
      r := Decoded(resp.text, true);
    }
  }
}

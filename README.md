# tojota in Dafny

A model of the core of tojota, a command-line client for Toyota's MyT vehicle
API. The modelled code is the `Myt` session class and `main` of `tojota.py`,
plus `main` and the three bucket parsers of `statistics.py`.

The `Myt` session keeps user data and request headers. It fetches trips,
trip details, parking, odometer, remote-control status and driving
statistics, and it keeps a cache directory of timestamped snapshots. `main`
does the following:

- fetches the trips, logging in again and retrying once if that fails;
- reports parking, odometer and remote-control status;
- walks the recent trips, summing distance and fuel and counting fresh trips;
- posts metrics to InfluxDB when data is fresh and InfluxDB is enabled.

The statistics tool does the following:

- picks an interval and a date window;
- fetches with the same retry;
- fills a missing fuel figure with zero;
- prints each day, week or year with an EV or a non-EV template.

Modules, one concept each:

- `Wrappers`: `Option` and `Result`.
- `Errors`: the Python exceptions the code raises or catches.
- `Json`: a decoded JSON value and Python's operations on it: subscript,
  `in`, iteration, truthiness, `==`, `+`, `:03d` and `str`.
- `JsonString`, `JsonText` and `KeyOrder`: a concrete
  `json.dumps(sort_keys=True)` and `json.loads`. The round trip
  `Parse(Dump(v)) == Some(v)` is proved, not assumed.
- `Decimal`: decimal and hexadecimal digit text.
- `Paths`: the cache layout, the latest-file glob, and Windows colon
  stripping.
- `Cache`: the snapshot store as a class whose methods append to it in
  place, with the freshness rules as functions.
- `Tojota`: the `Myt` class with its fetch methods. Each method is handed
  the HTTP response its request would get, and the session logs the
  requests it sends.
- `Report`: tojota's `main`: the retry, the report steps, the InfluxDB
  gating, address shortening, and the trip loop with its invariant.
- `Statistics`: `statistics.py`: window selection, dispatch, retry, the
  in-place fuel fill over the histogram, template choice, day-of-year
  padding and the week label.

Facts about the code that the model keeps:

- **Login.** `login` makes one POST and keeps the user data it returns.
  There is no refresh or expiry logic.
- **Retry trigger.** `main` logs in again after any `ValueError` from the
  first fetch: every non-200 status and every JSON decode error.
- **Division.** The trip loop and the closing line divide without a guard.
  A trip whose distance is 0 raises `ZeroDivisionError`, and so does the
  closing line when the summed distance is 0 (for example, an empty trip
  list).
- **Session updates.** `login` replaces the user data before it reads the
  token. A response without a token therefore leaves the new user data
  beside the old headers.
- **Decode order.** For trips, parking, odometer and trip details, the
  body is written to the cache before it is decoded, so a body that is
  not JSON is written and then raises. Remote control and statistics
  decode first.
- **Text mode.** Snapshots are read back in text mode, which turns each
  "\r\n" and lone "\r" into "\n". A body holding a carriage return thus
  never equals its own snapshot and is written again on every fetch.

## Model

| member | source | states |
|---|---|---|
| Json.Get | tojota.py:206-208 | `d[k]` gives the value when `d` is a dict holding `k`, KeyError(k) on a dict without it, and TypeError on anything else |
| Json.GetPath | tojota.py:207 | a chained subscript fails only with TypeError or with the KeyError of one of the keys on the path |
| Json.Items | tojota.py:247 | iterating for string subscripts: a list yields its elements, an empty dict or str yields nothing, anything else is a TypeError |
| Json.AsInt | statistics.py:53 | `:03d` accepts exactly ints and bools, and an int formats as itself |
| Json.Add | tojota.py:471-472 | `acc + v` succeeds exactly for ints and bools, and then its value is `acc` plus the int |
| Json.Render | statistics.py:90 | `str(v)` of a scalar is defined (a str renders as itself); lists and dicts are outside the model |
| Json.Contains | statistics.py:57 | `k in v` is a key test on a dict and an element test on a list, and a TypeError on non-containers |
| Json.PyEqReflexive | tojota.py:282 | Python `==` on decoded values is reflexive |
| Json.PyEqSymmetric | tojota.py:282 | Python `==` on decoded values is symmetric |
| Json.PyEqTransitive | tojota.py:282 | Python `==` on decoded values is transitive |
| JsonText.ParseDump | tojota.py:283 | loading the sorted-key dump of any value gives back that value |
| JsonText.ValueRoundTrip | tojota.py:277-283 | a dumped value followed by any delimiter parses back to the value and leaves the rest |
| JsonText.ItemsRoundTrip | tojota.py:277-283 | a dumped non-empty list body parses back to its elements |
| JsonText.MembersRoundTrip | tojota.py:277-283 | dumped members in sorted-key order parse back to the member pairs |
| JsonText.MembersToMap | tojota.py:282 | the parsed member pairs of a dict rebuild exactly that dict |
| JsonText.NumberRoundTrip | tojota.py:277-283 | an integer's text parses back to that integer |
| JsonString.QuoteRoundTrip | tojota.py:277-283 | a quoted, escaped string parses back to the same string, ASCII escapes and surrogate pairs included |
| JsonString.EscapeCharRoundTrip | tojota.py:283 | every character's escape (short form, `\uXXXX` or surrogate pair) reads back as that character |
| KeyOrder.SortedKeys | tojota.py:283 | `sort_keys` lists every key exactly once |
| KeyOrder.SortedKeysSorted | tojota.py:283 | `sort_keys` lists the keys in strictly increasing code-point order |
| KeyOrder.BelowTotal | tojota.py:283 | the key order is total |
| KeyOrder.BelowAntisymmetric | tojota.py:283 | the key order is antisymmetric |
| KeyOrder.BelowTransitive | tojota.py:283 | the key order is transitive |
| KeyOrder.Least | tojota.py:283 | every non-empty key set has a least key |
| Decimal.NatToStringRoundTrip | statistics.py:53 | the decimal text of a natural number reads back to that number |
| Decimal.ZeroPaddedValue | statistics.py:53 | zero padding keeps the digits' value and pads to at least the width |
| Decimal.Hex4RoundTrip | tojota.py:283 | the four hex digits of a `\uXXXX` escape read back to the code unit |
| Paths.SnapshotInOwnGlob | tojota.py:153-163 | a snapshot is found by the latest-file glob of its own kind and of no other |
| Paths.Slice | tojota.py:179 | `s[i:j]` clamps its bounds and is the Dafny slice when they are in range |
| Paths.DetailPathShape | tojota.py:178-180 | a trip id of four or more characters is kept at `cache/trips/id[0:2]/id[2:4]/id` |
| Paths.DetailPathEnds | tojota.py:178-180 | a non-empty id's path ends in the id; the empty id names `cache/trips` itself |
| Paths.DetailPathInjective | tojota.py:178-180 | different ids give different component lists; for ids without '/' these are different detail files |
| Paths.DetailPathsPrefixFree | tojota.py:178-180 | for ids of four or more characters, no detail path is a proper prefix of another; for such ids without '/', no detail file is another trip's directory |
| Paths.DetailOutsideTripsGlob | tojota.py:163-180 | neither a detail file nor its directories match the `trips*` latest-file glob |
| Paths.StripColons | tojota.py:109-110 | the Windows path has no ':' and keeps every other character |
| Paths.StripColonsAppend | tojota.py:109-110 | stripping keeps order and works piece by piece |
| Paths.StripColonsIdempotent | tojota.py:109-110 | stripping twice is stripping once |
| Cache.LastOf | tojota.py:114-124 | the latest snapshot is the last written; None exactly when there is none |
| Cache.ReadBack | tojota.py:96-97 | text-mode reading removes every carriage return, shortens or keeps the text, and returns text without one unchanged |
| Cache.ReadBackPlain | tojota.py:96-97 | text without a carriage return reads back as itself, whatever follows it |
| Cache.ReadBackCrLf | tojota.py:96-97 | a "\r\n" reads back as one "\n" |
| Cache.RecordText | tojota.py:162-166 | fresh exactly when there is no snapshot or the latest one, read back in text mode, differs from the body; then exactly one snapshot, the body as written, is appended; otherwise nothing changes |
| Cache.RecordTextTwice | tojota.py:162-166 | recording a body without a carriage return again is not fresh and writes nothing |
| Cache.CarriageReturnAlwaysFresh | tojota.py:162-166 | a body holding a carriage return is fresh, and is fresh and appended again right after it was recorded |
| Cache.CrLfSnapshotNotMatched | tojota.py:162-166 | a body with a "\r\n" reads back with "\n" and is written a second time on the next identical fetch |
| Cache.Previous | tojota.py:276-280 | a missing snapshot loads as None; a malformed one raises a decode error |
| Cache.RecordValue | tojota.py:275-284 | fresh exactly when the decoded body is not `==` the decoded latest; then its sorted-key dump is appended; a malformed latest raises and writes nothing |
| Cache.RecordValueTwice | tojota.py:282-284 | recording the same value again is not fresh and writes nothing |
| Cache.RefetchEqualNotFresh | tojota.py:275-284 | a re-fetch equal as a value (e.g. keys in another order) is not fresh |
| Cache.FirstValueFresh | tojota.py:276-284 | with no snapshot every body except `null` is fresh |
| Cache.Store.Latest | tojota.py:89-99 | None exactly when the kind has no snapshot; otherwise the last snapshot read back in text mode, which holds no carriage return |
| Cache.Store.WriteIfChanged | tojota.py:162-166 | the kind's snapshots and the flag are those of `RecordText`; other kinds are untouched; nothing changes when not fresh |
| Cache.Store.WriteIfDifferent | tojota.py:275-284 | the kind's snapshots and the flag are those of `RecordValue`; other kinds are untouched; nothing changes unless fresh |
| Cache.Store.WriteDetail | tojota.py:187-188 | the trip's detail file holds the body and no other file changes |
| Cache.Store.WriteUserData | tojota.py:142 | the saved user data file holds the login body |
| Tojota.Decoded | tojota.py:167-168 | `r.json()` succeeds exactly when the body parses, returning the value with the freshness flag |
| Tojota.TripDetail | tojota.py:170-194 | the empty id raises; a cached trip is read back, not fresh, with no file written; an uncached one raises the lookup error or the status error, or is written once and is fresh; it succeeds exactly when the trip's detail file parses, and its value is that file's |
| Tojota.TextFetch | tojota.py:156-168 | a failed lookup raises its error and a non-200 status raises the status error, both leaving the snapshots; with status 200 the snapshots are exactly those of `RecordText` on the body, and the result is the parsed body with `RecordText`'s freshness when it parses, and a decode error otherwise |
| Tojota.ValueFetch | tojota.py:268-285 | a failed lookup or non-200 status raises and writes nothing; a body that does not parse, or a malformed latest snapshot, raises a decode error and writes nothing; otherwise the result is the parsed body, fresh exactly when it is not `==` the decoded latest snapshot, and exactly a fresh body's sorted-key dump is appended |
| Tojota.OdometerFetch | tojota.py:221-253 | the snapshots are those of the text fetch and its error propagates; after a good text fetch the result is the iteration error of the body, else the odometer fold's error, else the fold's reading with the text fetch's freshness |
| Tojota.LoginOutcome | tojota.py:136-141 | non-200 raises the status error, a non-JSON body the decode error, a body without a token its KeyError; otherwise the user data and the token |
| Tojota.CachedUserData | tojota.py:71-86 | no file loads as None; a malformed file raises |
| Tojota.LastOfType | tojota.py:247-252 | the index of the last item of a type: none before it is skipped, none after it has the type |
| Tojota.OdometerFromLastItems | tojota.py:244-253 | the fold succeeds exactly when every item has a type (and a value and unit where read); odometer and unit come from the last 'mileage' item and fuel from the last 'Fuel' item, else `(0, '', 0)` |
| Tojota.ParseOdometer | tojota.py:244-253 | the loop computes the odometer fold |
| Tojota.ErrorPersists | tojota.py:247-252 | an item that raises ends the loop with that error |
| Tojota.Myt.FirstError | tojota.py:206-208 | the lookups before a request fail with the first failing lookup's error, and succeed only when all succeed |
| Tojota.Myt.Open | tojota.py:44-54 | truthy cached user data is reused with the token and locale as headers and no request; otherwise the session logs in, and a failed login is the result and leaves the saved user data file as it was; a malformed cache file raises |
| Tojota.Myt.Login | tojota.py:126-142 | one authentication request; on failure the headers and saved file are unchanged; on success the user data is the body, the headers the token alone, and the body is saved |
| Tojota.Myt.FetchText | tojota.py:156-166 | a failed lookup sends nothing; a non-200 status raises and writes nothing; otherwise the body is recorded as text |
| Tojota.Myt.GetTrips | tojota.py:144-168 | the result and the trips snapshots are exactly those of the text fetch for the uuid and vin lookups |
| Tojota.Myt.GetParking | tojota.py:196-219 | the result and the parking snapshots are exactly those of the text fetch for the token, uuid and vin lookups |
| Tojota.Myt.GetOdometerFuel | tojota.py:221-253 | the result and the odometer snapshots are exactly those of the odometer fetch for the token, vin and uuid lookups |
| Tojota.Myt.FetchValue | tojota.py:255-285 | a non-200 status raises and writes nothing; the body is decoded before it is compared; the result and the kind's snapshots are those of the value fetch, and other kinds are untouched |
| Tojota.Myt.GetRemoteControlStatus | tojota.py:255-285 | the result and the remote-control snapshots are exactly those of the value fetch |
| Tojota.Myt.GetDrivingStatistics | tojota.py:287-323 | the statistics request carries the window and interval; the result and the statistics snapshots are exactly those of the value fetch |
| Tojota.Myt.GetTrip | tojota.py:170-194 | the result and the detail files are exactly those of `TripDetail` for the uuid and vin lookups; a request is sent exactly when the id is non-empty, uncached and the lookups succeed |
| Report.FetchTripsWithRetry | tojota.py:377-383 | only a ValueError from the first fetch leads to one login and one retry; a login failure propagates; after a good login the result (its data, or its error) and the trips snapshots are those of the second fetch; the requests are one of the four possible sequences |
| Report.TripsAfterLogin | tojota.py:380-383 | a failed login is the result and sends nothing more; after a good login the result and the trips snapshots are those of the second fetch |
| Report.LatestAddress | tojota.py:384-387 | the first trip's end address, or 'Unknown address' on a KeyError or IndexError; a TypeError escapes |
| Report.PayloadRoundTrip | tojota.py:334 | the payload `"name value=v"` reads back to the name and value |
| Report.Gate | tojota.py:339 | stale data gives Ok(false) without reading the flag; fresh data gives the truthiness of `use_influxdb` when it is present and its KeyError (or TypeError) when it is not |
| Report.OdometerMetrics | tojota.py:356-360 | exactly the odometer and fuel metrics, and only when the gate opens |
| Report.PostEach | tojota.py:341-353 | metrics are posted in order until a lookup fails, and that failure is the error |
| Report.RemoteControlMetrics | tojota.py:338-353 | the twelve remote-control metrics when the gate opens; none when InfluxDB is off |
| Report.RemoteControlAllSent | tojota.py:338-353 | with every field present all twelve metrics are posted under their names, in order |
| Report.OdometerOutcome | tojota.py:406-413 | a ValueError becomes no reading and no metrics; any other fetch error propagates with none; a reading gives the gated odometer metrics, or the error of reading the gate flag with none; metrics are posted only for a fresh reading and never with InfluxDB off |
| Report.OdometerReport | tojota.py:406-413 | the odometer snapshots are those of the odometer fetch, and the result and the metrics are its outcome; no other kind's snapshots change |
| Report.IntOf | tojota.py:396 | `int()` of an int is itself, of a decimal str its value; a bad str raises ValueError and other types TypeError |
| Report.IntOfRoundTrip | tojota.py:396 | `int()` reads back every integer's decimal text |
| Report.ParkingLine | tojota.py:394-402 | a missing status raises its error; an `int()` ValueError on the timestamp is Ok(None); with every read good the line says parked exactly when the status is '0'; a result means the status and timestamp were read |
| Report.ParkingReport | tojota.py:389-404 | every ValueError (lookup status, decoding, `int()`) is caught; other errors escape; a good body gives the parking line; the parking snapshots are those of the text fetch and no other kind's change |
| Report.LineReads | tojota.py:421-427 | the status line's reads succeed together or fail with a KeyError or TypeError |
| Report.HeatingReads | tojota.py:433-439 | the HVAC line's reads succeed together or fail with a KeyError or TypeError |
| Report.StatusReads | tojota.py:419-439 | no error exactly when the status line's reads, the charge time while charging, the HVAC mode and, if it is on, the HVAC line's reads all succeed; a failing status line read is the error; every error is a KeyError or TypeError |
| Report.StatusReport | tojota.py:419-441 | a missing charge or HVAC part is the error with nothing posted; with both present, a failing read is the error with nothing posted, and otherwise the result is the twelve gated remote-control metrics; at most twelve, none with InfluxDB off |
| Report.RemoteStep | tojota.py:415-441 | a missing `use_remote_control` raises with nothing written or posted; a falsy one gives Ok(false) the same way; a truthy one runs the value fetch, whose snapshots are kept: its error propagates with nothing posted, else the status report's metrics are posted and its error, if any, is the result |
| Report.RemoteControlReport | tojota.py:415-441 | the result, the metrics and the remote-control snapshots are those of the remote-control step; when enabled, exactly one request is sent if the lookups succeed; no other kind's snapshots change |
| Report.Split | tojota.py:455-462 | `split(',')` yields at least one part, and the text itself when there is no comma |
| Report.ShortenStopsAtSecondComma | tojota.py:463-470 | the short address is a prefix with at most one comma, ending at the second comma or the end; text with at most one comma is unchanged |
| Report.ShortenOneComma | tojota.py:463-466 | an address with one comma is unchanged |
| Report.ShortenTwoCommas | tojota.py:463-466 | an address with two or more commas is cut just before the second |
| Report.SplitTwoParts | tojota.py:463-470 | the short address is the first two parts rejoined with ',' |
| Report.AddressOf | tojota.py:455-470 | a missing address is 'Unknown, Unknown'; a str is shortened; any other value raises |
| Report.TripFigures | tojota.py:450-477 | succeeds exactly when the statistics, times, time zone, addresses, distance and fuel read and add, the distance is non-zero, the gate flag reads and the speed reads; a zero distance raises ZeroDivisionError with nothing posted; a row holds the detail's statistics and its figures; the three trip metrics are posted exactly when the gate opens |
| Report.TripOutcome | tojota.py:447-477 | a row comes with its trip metrics exactly when the gate opens, and every row's distance and fuel are read from its statistics |
| Report.TripOutcomeFacts | tojota.py:447-477 | one trip keeps every detail file and adds at most its own; a row is held by that file, has a non-zero distance and is fresh exactly when the file was new; metrics are posted only for a new file and never with InfluxDB off |
| Report.TripStep | tojota.py:447-477 | the step is `TripOutcome`: a missing id raises, a non-str id is a TypeError, then the detail files and error are `TripDetail`'s and otherwise the result and metrics are `TripFigures` of the fetched detail; one request exactly when the id is a non-empty str without a detail file and the lookups succeed |
| Report.TripLoop | tojota.py:444-477 | the error, rows, metrics and detail files are exactly `LoopOutcome` over the trips; the sums are the rows' totals; on success every trip has a row held by its detail file and the fresh count is the number of new detail files; nothing is posted without a new file or with InfluxDB off |
| Report.TripNext | tojota.py:446-477 | one pass of the loop is one more step of `LoopOutcome` |
| Report.LoopOutcome | tojota.py:446-477 | the loop's outcome: at most one row per trip, one per trip when no error stopped it, and every row read from its statistics |
| Report.LoopOutcomeNext | tojota.py:446 | one more trip of the list is one more loop step |
| Report.LoopErrorSticks | tojota.py:446-477 | once a trip raises, the later trips change nothing |
| Report.LoopStopsAtFirstError | tojota.py:446-477 | a loop error is the error of the first trip that fails: the trips before it all gave rows and ran without error |
| Report.LoopSentFresh | tojota.py:446-477 | a loop that runs through posts exactly the fresh rows' trip metrics, in trip order |
| Report.LoopTally | tojota.py:446-477 | the loop only adds detail files, posts nothing without a new file or with InfluxDB off, and when it runs through has a row per trip held by its detail file with the fresh count the number of new files |
| Report.LoopTallyStep | tojota.py:446-477 | one more trip keeps the loop's tally |
| Report.TallyAfterStep | tojota.py:446-477 | the tally survives one trip's outcome, whether the trip gave a row or failed |
| Report.TallyRowAdded | tojota.py:446-474 | a trip that gives a row extends the tally with it |
| Report.TallyWiden | tojota.py:446 | a tally over the first trips holds for the whole list |
| Report.TallyStep | tojota.py:446-474 | a row extends the invariant, counting a fresh trip once |
| Report.KeptHolds | tojota.py:181-194 | what a trip's detail file held stays true as later trips are fetched |
| Report.HoldsExtended | tojota.py:447-450 | the detail-file correspondence extends to the new row |
| Report.NewKeyCounted | tojota.py:449 | a newly written detail file adds one to the fresh count |
| Report.TotalAppend | tojota.py:471-472 | the running sums add the trip's distance and fuel |
| Report.FreshMeansGrown | tojota.py:478 | a non-zero fresh count means detail files were added |
| Report.Closing | tojota.py:478-480 | the short-term average is posted only when a trip was fresh and InfluxDB is on; a zero total distance raises ZeroDivisionError |
| Report.TripTotals | tojota.py:444-480 | a missing or non-iterable `recentTrips` raises with nothing posted; otherwise the rows are the loop's, and a loop error is the result with the loop's metrics; a loop that runs through posts its metrics then the closing average's, and the result is exactly the closing step's: its error (ZeroDivisionError for a zero total distance, as an empty trip list gives) or the totals of the rows with the fresh count; on success the fresh count is the number of new detail files and every row is held by its trip's detail file |
| Report.VehicleReports | tojota.py:406-441 | the odometer snapshots are those of the odometer fetch; an odometer error ends the step with its metrics and no remote-control change; otherwise the metrics are the odometer's then the remote-control step's, the remote-control snapshots are the step's, and its error is the result |
| Report.Run | tojota.py:370-480 | a run never changes a detail file already written, and posts nothing when InfluxDB is off |
| Statistics.LookBack | statistics.py:145-153 | a look-back exists exactly for 'day', 'week' and 'year' |
| Statistics.SelectWindow | statistics.py:143-155 | 'day' and 'week' keep their interval and the others give None; an explicit date replaces the window but never the interval; no date exactly for unknown intervals without `-f` |
| Statistics.Dispatch | statistics.py:163-168 | exactly one parser for 'day', 'week' or 'year', none otherwise, and it agrees with the interval sent |
| Statistics.FetchStatisticsWithRetry | statistics.py:157-162 | only a ValueError from the first fetch leads to one login and one retry; a login failure propagates; after a good login the result (its data, or its error) and the statistics snapshots are those of the second fetch; the requests are one of the four possible sequences |
| Statistics.StatisticsAfterLogin | statistics.py:159-162 | a failed login is the result and sends nothing more; after a good login the result and the statistics snapshots are those of the second fetch |
| Statistics.FillFuel | statistics.py:57-59 | a dict gains the fuel key set to 0 when missing; every present key keeps its value |
| Statistics.FillFuelIdempotent | statistics.py:57-59 | filling twice is filling once |
| Statistics.GetAll | statistics.py:62-65 | reading the keys in order succeeds exactly when all are present, else the first missing key's KeyError |
| Statistics.ChooseTemplate | statistics.py:60-72 | the EV line exactly when all EV keys are present; the plain line when an EV key is missing and all plain keys are present; otherwise the KeyError of a missing plain key |
| Statistics.FilledLine | statistics.py:55-72 | a missing `data` raises with the bucket unchanged; a dict `data` is filled with the fuel default; a line results exactly when `data` is a dict holding every EV key or every plain key other than the fuel key; the line's values are the filled fields |
| Statistics.FilledLineTwice | statistics.py:57-59 | handling the same bucket again gives the same line and leaves it as it is |
| Statistics.DayOfYearText | statistics.py:53 | for days 1 to 366 exactly three digits that read back to the day; only ints and bools format |
| Statistics.DailyBucket | statistics.py:50-72 | the year, the day of year, its `:03d` text and the time zone are read in that order, and the first that fails is the error with the bucket untouched; with all four read, the result is the filled line for that year and padded day with the daily templates |
| Statistics.WeeklyBucket | statistics.py:87-110 | with the year and the week label read, the result is the filled line for that label with the period templates; a missing year or week raises with the bucket untouched |
| Statistics.FilledKeepsBucket | statistics.py:51-59 | the fuel fill never changes the bucket's year, day or week |
| Statistics.DailyBucketTwice | statistics.py:50-72 | a daily bucket handled twice gives the same line |
| Statistics.WeeklyBucketTwice | statistics.py:87-110 | a weekly bucket handled twice gives the same line |
| Statistics.PrintBuckets | statistics.py:50-59 | the in-place loop prints each bucket's line in order and stops at the first error; later buckets are untouched |
| Statistics.Histogram | statistics.py:50 | the histogram's items, or the error of reading or iterating it |
| Statistics.ParseDaily | statistics.py:43-72 | a histogram that cannot be read or iterated prints nothing and raises; otherwise the printed lines are the daily lines of the buckets up to the first error, which is that bucket's error, never a missing-fuel KeyError |
| Statistics.ParseWeekly | statistics.py:75-110 | a histogram that cannot be read or iterated prints nothing and raises; otherwise the printed lines are the weekly lines of the buckets up to the first error, which is that bucket's error, never a missing-fuel KeyError |
| Statistics.ParseYearly | statistics.py:113-133 | a missing `summary` raises its error and a non-dict summary TypeError; a dict summary gives the EV line when every EV key is present, the plain line when an EV key is missing and every plain key is present, and otherwise the KeyError of a missing plain key; there is no fuel default, so a summary without the fuel key raises KeyError; the line's values are the summary's fields |
| Statistics.FormatLiteral | statistics.py:98 | `str.format` on a text without replacement fields keeps the length exactly when there are no braces, and never lengthens it |
| Statistics.BraceFreeUnchanged | statistics.py:98 | a text without braces is returned unchanged |
| Statistics.WeekText | statistics.py:90 | the label exists when year and week render, and starts with the year |
| Statistics.WeekLabelUnchanged | statistics.py:90-98 | an integer year and week give `'<year> W<week>'`, and the later `.format` leaves it as it is |
| Statistics.NoBraces | statistics.py:90 | an integer's text has no braces |
| Statistics.PrintParsed | statistics.py:163-168 | the printed lines are those of the parser the interval names: nothing for an unknown interval, the daily or weekly lines up to the first error, or the one yearly line |
| Statistics.Run | statistics.py:136-168 | the requests are the window's statistics request alone, or after a ValueError that request, the login and (after a good login) the retry; the fetched outcome is the retry of the two value fetches; an error prints nothing and is the result; otherwise the printed lines are those of the interval's parser on the fetched data |

## Left out

- HTTP (the login POST, the resource GETs and the InfluxDB POST) is abstract. Each fetch is handed its response `(status, text)`, and the InfluxDB posts are the returned list of metrics.
- Filesystem mechanics are not modelled: `glob` with `os.path.getctime`, `os.makedirs`, and the `pendulum.now()` file names. The latest snapshot is the one appended last.
- The `platform.system()` check is not modelled; colon stripping is kept as a pure function.
- Dates and time zones through `pendulum` are left out. The model checks only that the values and the `timezone` setting those calls read are present.
- Floating-point numbers are left out. JSON numbers are integers, so the averages, the `:.1f`/`:.2f` output and the timestamp `/ 1000` are not modelled. `Report.Closing` and `Report.TripMetrics` record a per-100 average as a pair of integers.
- A `:.1f`-style format applied to a non-number is not modelled as an error in the statistics lines.
- Printed text and logging are left out. A printed line is the list of values it shows.
- Argument parsing, configuration loading and the `Myt` constructor's `os.makedirs` are left out. The configuration is the `config` value.
- JSON floats, `NaN`/`Infinity` and lone surrogates in strings are not parsed.
- Python's text of a list or dict is not modelled.
- `int()` with surrounding whitespace, `_` separators or non-ASCII decimal digits (which Python accepts) is not modelled; such a str raises ValueError in the model.
- Cache.ReadBack: only the text comparison of trips, parking and odometer reads a snapshot back through it. The JSON loads of the latest remote-control and statistics snapshot, of a cached trip detail and of the cached user data decode the stored text as written. A raw carriage return can appear in valid JSON only as whitespace between tokens, and inside a string it is invalid either way, so this changes no result; that is not proved.
- Writes use "\n" as the line separator, as on Linux; the Windows translation of "\n" to "\r\n" on write is not modelled.
- Tojota.Myt.GetTrip: trip ids are distinct keys of the detail map. On disk, an id of fewer than four characters or one holding '/' can name a directory of another trip's file (for example "ab" and "abab"), which raises on open or write; these collisions are not modelled.
- Statistics.WeeklyBucket: prints a line for any year and week. The source formats the label `'{} W{}'` and then calls `.format('YYYY-MM-DD')` on it inside the `try` (statistics.py:90-106). A year or week whose text holds braces can therefore raise there: a named field such as '{x}' raises KeyError, which the `except KeyError` catches before the fallback line raises it again; '{1}' raises IndexError; a lone '{' raises ValueError. The model does not raise these. For integer years and weeks, which is what the API sends, `Statistics.WeekLabelUnchanged` proves that the label is left as it is. `Statistics.WeekText` does not render list or dict years or weeks.
- Report.TripStep: a trip id that is not a str raises TypeError, as an int id does in the source. The id slicing of other types is not modelled.
- Report.Run: states only the detail-file and InfluxDB properties across the whole run. Each step's own contract states the rest.
- Refresh tokens, expiry and multi-round login are not modelled because the code has none.

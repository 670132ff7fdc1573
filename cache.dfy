/**
 * The snapshot cache: for each kind an append-only list of saved response
 * texts (the latest is the one written last), the write-once trip detail
 * files, and the saved login response.
 */
module Cache {
  import opened Wrappers
  import opened Errors
  import opened Json
  import opened JsonText
  import opened Paths

  /** The snapshot the latest-file lookup returns: the last one written, None when there is none. */
  function LastOf(log: seq<string>): (r: Option<string>)
    ensures r.None? <==> log == []
    ensures r.Some? ==> r.value == log[|log| - 1]
  {
    if log == [] then None else Some(log[|log| - 1])
  }

  /**
   * What reading a file in text mode gives back: universal newlines turn
   * each "\r\n" and each lone "\r" into "\n", and leave the rest alone.
   */
  function ReadBack(s: string): (r: string)
    ensures '\r' !in r
    ensures '\r' !in s ==> r == s
    ensures |r| <= |s|
    decreases |s|
  {
    if s == [] then []
    else if s[0] == '\r' then "\n" + ReadBack(if |s| >= 2 && s[1] == '\n' then s[2..] else s[1..])
    else [s[0]] + ReadBack(s[1..])
  }

  /** A character other than a carriage return reads back as itself. */
  lemma ReadBackCons(c: char, t: string)
    requires c != '\r'
    ensures ReadBack([c] + t) == [c] + ReadBack(t)
  {
    assert ([c] + t)[1..] == t;
  }

  /** Text without a carriage return reads back unchanged, whatever follows it. */
  lemma {:induction false} ReadBackPlain(x: string, y: string)
    requires '\r' !in x
    ensures ReadBack(x + y) == x + ReadBack(y)
    decreases |x|
  {
    if x == [] {
      assert x + y == y;
    } else {
      var c, rest := x[0], x[1..];
      calc {
        ReadBack(x + y);
        { assert x + y == [c] + (rest + y); }
        ReadBack([c] + (rest + y));
        { ReadBackCons(c, rest + y); }
        [c] + ReadBack(rest + y);
        { ReadBackPlain(rest, y); }
        [c] + (rest + ReadBack(y));
        { assert x == [c] + rest; }
        x + ReadBack(y);
      }
    }
  }

  /** A "\r\n" reads back as one "\n", and the text around it is read back piece by piece. */
  lemma ReadBackCrLf(a: string, b: string)
    requires '\r' !in a
    ensures ReadBack(a + "\r\n" + b) == a + "\n" + ReadBack(b)
  {
    var t := "\r\n" + b;
    assert t[0] == '\r' && t[1] == '\n' && t[2..] == b;
    assert a + "\r\n" + b == a + t;
    ReadBackPlain(a, t);
  }

  /**
   * Compare-as-text recording: the body is fresh exactly when there is no
   * snapshot or the latest one, read back in text mode, differs from it;
   * then it is appended as written.
   */
  function RecordText(log: seq<string>, text: string): (r: (seq<string>, bool))
    ensures r.1 <==> LastOf(log).None? || ReadBack(LastOf(log).value) != text
    ensures log <= r.0 && |r.0| == |log| + (if r.1 then 1 else 0)
    ensures r.1 ==> LastOf(r.0) == Some(text)
    ensures !r.1 ==> r.0 == log
  {
    if LastOf(log).None? || ReadBack(LastOf(log).value) != text then (log + [text], true) else (log, false)
  }

  /** Recording the same body again, when it has no carriage return, is not fresh and writes nothing. */
  lemma {:induction false} RecordTextTwice(log: seq<string>, text: string)
    requires '\r' !in text
    ensures var (after, _) := RecordText(log, text); RecordText(after, text) == (after, false)
  {
    var (after, isNew) := RecordText(log, text);
    if !isNew {
      assert ReadBack(LastOf(log).value) == text;
    }
  }

  /**
   * A body holding a carriage return never equals the text-mode read-back
   * of a snapshot, so it is fresh and appended on every fetch, even right
   * after the same body was recorded.
   */
  lemma {:induction false} CarriageReturnAlwaysFresh(log: seq<string>, text: string)
    requires '\r' in text
    ensures RecordText(log, text).1
    ensures var after := RecordText(log, text).0; RecordText(after, text) == (after + [text], true)
  {
    var after := RecordText(log, text).0;
    assert LastOf(after) == Some(text);
  }

  /** A snapshot written with Windows line ends is read back with "\n" and does not match the same body again. */
  lemma {:induction false} CrLfSnapshotNotMatched(log: seq<string>, a: string, b: string)
    requires '\r' !in a && '\r' !in b
    ensures var text := a + "\r\n" + b;
            ReadBack(text) == a + "\n" + b && RecordText(log + [text], text) == (log + [text, text], true)
  {
    var text := a + "\r\n" + b;
    ReadBackCrLf(a, b);
    assert text[|a|] == '\r';
    assert LastOf(log + [text]) == Some(text);
    assert (log + [text]) + [text] == log + [text, text];
    assert ReadBack(text) != text by {
      assert '\r' in text;
    }
  }

  /**
   * `json.loads` of the latest snapshot. A missing snapshot reads as None
   * (the TypeError of loading None is caught); a malformed one raises.
   */
  function Previous(log: seq<string>): (r: Result<Value, PyError>)
    ensures log == [] ==> r == Ok(Null)
    ensures log != [] ==> r == (match Parse(log[|log| - 1]) case None => Err(DecodeError) case Some(v) => Ok(v))
  {
    match LastOf(log)
    case None => Ok(Null)
    case Some(t) => (match Parse(t) case None => Err(DecodeError) case Some(v) => Ok(v))
  }

  /**
   * Compare-as-values recording: the decoded body is fresh exactly when it
   * is not `==` to the decoded latest snapshot, and then its sorted-key
   * dump is appended.
   */
  function RecordValue(log: seq<string>, data: Value): (r: Result<(seq<string>, bool), PyError>)
    ensures r.Err? <==> Previous(log).Err?
    ensures r.Err? ==> r.error == DecodeError
    ensures r.Ok? ==> (r.value.1 <==> !PyEq(data, Previous(log).value))
    ensures r.Ok? ==> log <= r.value.0 && |r.value.0| == |log| + (if r.value.1 then 1 else 0)
    ensures r.Ok? && r.value.1 ==> LastOf(r.value.0) == Some(Dump(data))
  {
    match Previous(log)
    case Err(e) => Err(e)
    case Ok(prev) => if !PyEq(data, prev) then Ok((log + [Dump(data)], true)) else Ok((log, false))
  }

  /** Recording the same value again is not fresh and writes nothing: the dump loads back to it. */
  lemma {:induction false} RecordValueTwice(log: seq<string>, data: Value)
    requires RecordValue(log, data).Ok?
    ensures var after := RecordValue(log, data).value.0; RecordValue(after, data) == Ok((after, false))
  {
    var (after, isNew) := RecordValue(log, data).value;
    if isNew {
      ParseDump(data);
      PyEqReflexive(data);
    }
  }

  /**
   * A re-fetch that decodes to an equal value (the same document with its
   * keys in another order, say) is not fresh after the first one was recorded.
   */
  lemma {:induction false} RefetchEqualNotFresh(log: seq<string>, first: Value, again: Value)
    requires RecordValue(log, first).Ok? && PyEq(first, again)
    ensures var after := RecordValue(log, first).value.0; RecordValue(after, again) == Ok((after, false))
  {
    var (after, isNew) := RecordValue(log, first).value;
    PyEqSymmetric(first, again);
    if isNew {
      ParseDump(first);
    } else {
      PyEqTransitive(again, first, Previous(log).value);
    }
  }

  /**
   * With no snapshot yet, the body is compared with None: every body but
   * `null` is fresh, and a `null` body is not recorded at all.
   */
  lemma {:induction false} FirstValueFresh(data: Value)
    ensures RecordValue([], data).Ok?
    ensures RecordValue([], data).value.1 <==> !data.Null?
  {
  }

  /** The files of the cache directory, as the modelled code reads and writes them. */
  class Store {
    var snapshots: map<Kind, seq<string>>
    var details: map<string, string>
    var userFile: Option<string>

    constructor (snapshots: map<Kind, seq<string>>, details: map<string, string>, userFile: Option<string>)
      ensures this.snapshots == snapshots && this.details == details && this.userFile == userFile
    {
      this.snapshots := snapshots;
      this.details := details;
      this.userFile := userFile;
    }

    /** The snapshots of one kind, oldest first. */
    function Log(k: Kind): seq<string>
      reads this
    {
      if k in snapshots then snapshots[k] else []
    }

    /**
     * `_read_file(_find_latest_file(...))`: the latest snapshot as text mode
     * reads it back, or None when there is none.
     */
    function Latest(k: Kind): (r: Option<string>)
      reads this
      ensures r.None? <==> Log(k) == []
      ensures r.Some? ==> r.value == ReadBack(Log(k)[|Log(k)| - 1]) && '\r' !in r.value
    {
      match LastOf(Log(k))
      case None => None
      case Some(t) => Some(ReadBack(t))
    }

    /** Save a text body unless it equals the latest snapshot of its kind. */
    method WriteIfChanged(k: Kind, text: string) returns (isNew: bool)
      modifies this`snapshots
      ensures (Log(k), isNew) == RecordText(old(Log(k)), text)
      ensures forall j :: j != k ==> Log(j) == old(Log(j))
      ensures !isNew ==> snapshots == old(snapshots)
    {
      isNew := Latest(k) != Some(text);
      if isNew {
        snapshots := snapshots[k := Log(k) + [text]];
      }
    }

    /** Save the sorted-key dump of a decoded body unless it is `==` to the decoded latest snapshot. */
    method WriteIfDifferent(k: Kind, data: Value) returns (r: Result<bool, PyError>)
      modifies this`snapshots
      ensures RecordValue(old(Log(k)), data).Err? ==>
                r == Err(DecodeError) && snapshots == old(snapshots)
      ensures RecordValue(old(Log(k)), data).Ok? ==>
                r == Ok(RecordValue(old(Log(k)), data).value.1) &&
                Log(k) == RecordValue(old(Log(k)), data).value.0
      ensures forall j :: j != k ==> Log(j) == old(Log(j))
      ensures r != Ok(true) ==> snapshots == old(snapshots)
    {
      var previous := Previous(Log(k));
      if previous.Err? {
        return Err(DecodeError);
      }
      if !PyEq(data, previous.value) {
        snapshots := snapshots[k := Log(k) + [Dump(data)]];
        r := Ok(true);
      } else {
        r := Ok(false);
      }
    }

    /** Write a trip's detail file. */
    method WriteDetail(id: string, text: string)
      modifies this`details
      ensures details == old(details)[id := text]
    {
      details := details[id := text];
    }

    /** Save the raw login response as `cache/user_data.json`. */
    method WriteUserData(text: string)
      modifies this`userFile
      ensures userFile == Some(text)
    {
      userFile := Some(text);
    }
  }
}

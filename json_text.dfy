/**
 * JSON text: `json.dumps(v, sort_keys=True)` as Dump and `json.loads(t)`
 * as Parse, with the proof that loading a dump gives back the value.
 *
 * Dump writes Python's default separators ", " and ": ", dict keys in
 * ascending order and strings with `ensure_ascii`. Parse follows CPython's
 * decoder: whitespace between tokens, `null`/`true`/`false`, integers,
 * strings, arrays, objects (a repeated key keeps its last value), and
 * nothing but whitespace after the document. A fraction or exponent,
 * NaN and Infinity are floats in Python and are refused here.
 */
module JsonText {
  import opened Wrappers
  import opened Json
  import opened Decimal
  import opened JsonString
  import opened KeyOrder

  predicate IsWs(c: char) { c == ' ' || c == '\t' || c == '\n' || c == '\r' }

  /** The characters a value's text can start with. */
  predicate StartsValue(c: char)
  {
    c == 'n' || c == 't' || c == 'f' || c == '-' || IsDigit(c) || c == '"' || c == '[' || c == '{'
  }

  // ---------------------------------------------------------------- dumping

  function Dump(v: Value): (t: string)
    ensures |t| >= 1 && StartsValue(t[0])
  {
    match v
    case Null => "null"
    case Bool(b) => if b then "true" else "false"
    case Num(n) => IntToString(n)
    case Str(s) => Quote(s)
    case Arr(items) => "[" + DumpItems(items) + "]"
    case Obj(fields) => "{" + DumpMembers(fields, SortedKeys(fields.Keys)) + "}"
  }

  function DumpItems(items: seq<Value>): (t: string)
    ensures items != [] ==> |t| >= 1 && StartsValue(t[0])
    decreases items
  {
    if items == [] then ""
    else if |items| == 1 then Dump(items[0])
    else Dump(items[0]) + ", " + DumpItems(items[1..])
  }

  function DumpMembers(fields: map<string, Value>, keys: seq<string>): (t: string)
    requires forall k :: k in keys ==> k in fields
    ensures keys != [] ==> |t| >= 1 && t[0] == '"'
    decreases Obj(fields), |keys|
  {
    if keys == [] then ""
    else
      var member := Quote(keys[0]) + ": " + Dump(fields[keys[0]]);
      if |keys| == 1 then member else member + ", " + DumpMembers(fields, keys[1..])
  }

  // ---------------------------------------------------------------- loading

  function SkipWs(s: string): (r: string)
    ensures |r| <= |s|
    ensures r == [] || !IsWs(r[0])
    ensures s != [] && !IsWs(s[0]) ==> r == s
    decreases |s|
  {
    if s != [] && IsWs(s[0]) then SkipWs(s[1..]) else s
  }

  /** The number of decimal digits at the front of s. */
  function DigitRun(s: string): (k: nat)
    ensures k <= |s| && AllDigits(s[..k])
    ensures k < |s| ==> !IsDigit(s[k])
  {
    if s != [] && IsDigit(s[0]) then
      var k := 1 + DigitRun(s[1..]);
      assert s[..k] == [s[0]] + s[1..][..k - 1];
      k
    else 0
  }

  /**
   * The digits of an integer without its sign, `0|[1-9][0-9]*`; a
   * fraction or exponent right after them would make a float.
   */
  function ParseUnsigned(t: string): (r: Option<(nat, string)>)
    ensures r.Some? ==> |r.value.1| < |t|
  {
    if t == [] || !IsDigit(t[0]) then None
    else
      var k := if t[0] == '0' then 1 else DigitRun(t);
      if k < |t| && (t[k] == '.' || t[k] == 'e' || t[k] == 'E') then None
      else Some((DigitsValue(t[..k]), t[k..]))
  }

  /** An integer: an optional minus sign and its digits. */
  function ParseNumber(s: string): (r: Option<(Value, string)>)
    requires s != []
    ensures r.Some? ==> |r.value.1| < |s|
  {
    if s[0] == '-' then
      match ParseUnsigned(s[1..])
      case None => None
      case Some((m, rest)) => var n: int := m; Some((Num(-n), rest))
    else
      match ParseUnsigned(s)
      case None => None
      case Some((m, rest)) => Some((Num(m), rest))
  }

  /** A value starting exactly at the front of s; the rest of s after it. */
  function ParseValue(s: string): (r: Option<(Value, string)>)
    ensures r.Some? ==> |r.value.1| < |s|
    decreases |s|, 0
  {
    if s == [] then None
    else if s[0] == '"' then
      match ParseBody(s[1..])
      case None => None
      case Some((text, rest)) => Some((Str(text), rest))
    else if s[0] == '{' then ParseObject(SkipWs(s[1..]))
    else if s[0] == '[' then ParseArray(SkipWs(s[1..]))
    else if |s| >= 4 && s[..4] == "null" then Some((Null, s[4..]))
    else if |s| >= 4 && s[..4] == "true" then Some((Bool(true), s[4..]))
    else if |s| >= 5 && s[..5] == "false" then Some((Bool(false), s[5..]))
    else if s[0] == '-' || IsDigit(s[0]) then ParseNumber(s)
    else None
  }

  /** After `[` and any whitespace. */
  function ParseArray(s: string): (r: Option<(Value, string)>)
    ensures r.Some? ==> |r.value.1| < |s|
    decreases |s|, 2
  {
    if s != [] && s[0] == ']' then Some((Arr([]), s[1..]))
    else
      match ParseElements(s)
      case None => None
      case Some((items, rest)) => Some((Arr(items), rest))
  }

  /** One or more elements and the closing `]`. */
  function ParseElements(s: string): (r: Option<(seq<Value>, string)>)
    ensures r.Some? ==> |r.value.1| < |s|
    decreases |s|, 1
  {
    match ParseValue(s)
    case None => None
    case Some((v, after)) =>
      var t := SkipWs(after);
      if t == [] then None
      else if t[0] == ']' then Some(([v], t[1..]))
      else if t[0] == ',' then
        match ParseElements(SkipWs(t[1..]))
        case None => None
        case Some((vs, rest)) => Some(([v] + vs, rest))
      else None
  }

  /** After `{` and any whitespace. */
  function ParseObject(s: string): (r: Option<(Value, string)>)
    ensures r.Some? ==> |r.value.1| < |s|
    decreases |s|, 2
  {
    if s != [] && s[0] == '}' then Some((Obj(map[]), s[1..]))
    else
      match ParseMembers(s)
      case None => None
      case Some((pairs, rest)) => Some((Obj(PairsToMap(pairs)), rest))
  }

  /** One or more `"key": value` members and the closing `}`. */
  function ParseMembers(s: string): (r: Option<(seq<(string, Value)>, string)>)
    ensures r.Some? ==> |r.value.1| < |s|
    decreases |s|, 1
  {
    if s == [] || s[0] != '"' then None
    else
      match ParseBody(s[1..])
      case None => None
      case Some((key, afterKey)) =>
        var colon := SkipWs(afterKey);
        if colon == [] || colon[0] != ':' then None
        else
          match ParseValue(SkipWs(colon[1..]))
          case None => None
          case Some((v, after)) =>
            var t := SkipWs(after);
            if t == [] then None
            else if t[0] == '}' then Some(([(key, v)], t[1..]))
            else if t[0] == ',' then
              match ParseMembers(SkipWs(t[1..]))
              case None => None
              case Some((ps, rest)) => Some(([(key, v)] + ps, rest))
            else None
  }

  /** `dict(pairs)`: a later pair replaces an earlier one with the same key. */
  function PairsToMap(pairs: seq<(string, Value)>): map<string, Value>
  {
    if pairs == [] then map[]
    else
      var last := pairs[|pairs| - 1];
      PairsToMap(pairs[..|pairs| - 1])[last.0 := last.1]
  }

  /** `json.loads(t)`: None is the JSONDecodeError Python raises. */
  function Parse(t: string): Option<Value>
  {
    match ParseValue(SkipWs(t))
    case None => None
    case Some((v, rest)) => if SkipWs(rest) == [] then Some(v) else None
  }

  // ---------------------------------------------------------------- round trip

  /** What may follow a value inside a dump, or nothing at all. */
  predicate Delimited(rest: string)
  {
    rest == [] || rest[0] == ',' || rest[0] == ']' || rest[0] == '}'
  }

  function Members(fields: map<string, Value>, keys: seq<string>): (ps: seq<(string, Value)>)
    requires forall k :: k in keys ==> k in fields
    ensures |ps| == |keys|
    ensures forall i :: 0 <= i < |keys| ==> ps[i] == (keys[i], fields[keys[i]])
  {
    if keys == [] then [] else [(keys[0], fields[keys[0]])] + Members(fields, keys[1..])
  }

  /** The central property: loading what Dump wrote gives back the same value. */
  lemma {:induction false} ParseDump(v: Value)
    ensures Parse(Dump(v)) == Some(v)
  {
    var t := Dump(v);
    assert SkipWs(t) == t;
    ValueRoundTrip(v, []);
    assert t + [] == t;
    assert ParseValue(SkipWs(t)) == Some((v, []));
  }

  lemma {:induction false} NumberRoundTrip(n: int, rest: string)
    requires Delimited(rest)
    ensures ParseNumber(IntToString(n) + rest) == Some((Num(n), rest))
  {
    if n < 0 {
      NegativeRoundTrip(n, rest);
    } else {
      NonNegativeRoundTrip(n, rest);
    }
  }

  lemma {:induction false} NegativeRoundTrip(n: int, rest: string)
    requires n < 0 && Delimited(rest)
    ensures ParseNumber(IntToString(n) + rest) == Some((Num(n), rest))
  {
    var u := NatToString(-n) + rest;
    assert IntToString(n) + rest == "-" + u;
    UnsignedRoundTrip(-n, rest);
    NegativeNumber(u);
  }

  lemma {:induction false} NonNegativeRoundTrip(n: nat, rest: string)
    requires Delimited(rest)
    ensures ParseNumber(IntToString(n) + rest) == Some((Num(n), rest))
  {
    var u := NatToString(n) + rest;
    assert u[0] == NatToString(n)[0];
    UnsignedRoundTrip(n, rest);
    PlainNumber(u);
  }

  /** Without a minus sign the text is the digits themselves. */
  lemma {:induction false} PlainNumber(u: string)
    requires u != [] && u[0] != '-'
    ensures ParseNumber(u) == match ParseUnsigned(u) case None => None case Some((m, rest)) => Some((Num(m), rest))
  {
  }

  /** After a minus sign come the digits of the magnitude. */
  lemma {:induction false} NegativeNumber(u: string)
    ensures ParseNumber("-" + u) ==
            match ParseUnsigned(u) case None => None case Some((m, rest)) => Some((Num(-(m as int)), rest))
  {
    assert ("-" + u)[1..] == u;
  }

  lemma {:induction false} UnsignedRoundTrip(m: nat, rest: string)
    requires Delimited(rest)
    ensures ParseUnsigned(NatToString(m) + rest) == Some((m, rest))
  {
    var digits := NatToString(m);
    var t := digits + rest;
    assert t[0] == digits[0];
    if m == 0 {
      assert t[..1] == "0" && t[1..] == rest;
      assert DigitsValue("0") == 0;
    } else {
      DigitRunOver(digits, rest);
      assert t[..|digits|] == digits && t[|digits|..] == rest;
      NatToStringRoundTrip(m);
    }
  }

  lemma {:induction false} DigitRunOver(digits: string, rest: string)
    requires AllDigits(digits)
    requires rest == [] || !IsDigit(rest[0])
    ensures DigitRun(digits + rest) == |digits|
    decreases |digits|
  {
    if digits == [] {
      assert digits + rest == rest;
    } else {
      assert (digits + rest)[1..] == digits[1..] + rest;
      DigitRunOver(digits[1..], rest);
    }
  }

  lemma {:induction false} ValueRoundTrip(v: Value, rest: string)
    requires Delimited(rest)
    ensures ParseValue(Dump(v) + rest) == Some((v, rest))
    decreases v, 2
  {
    match v
    case Null => LiteralRoundTrip(v, rest);
    case Bool(_) => LiteralRoundTrip(v, rest);
    case Num(n) =>
      var s := Dump(v) + rest;
      NumberRoundTrip(n, rest);
      ValueAtNumber(s);
    case Str(text) =>
      var s := Dump(v) + rest;
      QuoteRoundTrip(text, rest);
      assert s[1..] == Quote(text)[1..] + rest;
    case Arr(items) => ArrRoundTrip(items, rest);
    case Obj(fields) => ObjRoundTrip(fields, rest);
  }

  lemma {:induction false} LiteralRoundTrip(v: Value, rest: string)
    requires v.Null? || v.Bool?
    ensures ParseValue(Dump(v) + rest) == Some((v, rest))
  {
    var s := Dump(v) + rest;
    if v.Null? {
      assert s[..4] == "null" && s[4..] == rest;
    } else if v.b {
      assert s[..4] == "true" && s[4..] == rest;
    } else {
      assert s[..4] != "null" && s[..4] != "true";
      assert s[..5] == "false" && s[5..] == rest;
    }
  }

  lemma {:induction false} ValueAtNumber(s: string)
    requires s != [] && (s[0] == '-' || IsDigit(s[0]))
    ensures ParseValue(s) == ParseNumber(s)
  {
    assert |s| >= 4 ==> s[..4] != "null" && s[..4] != "true" by {
      if |s| >= 4 { assert s[..4][0] == s[0]; }
    }
    assert |s| >= 5 ==> s[..5] != "false" by {
      if |s| >= 5 { assert s[..5][0] == s[0]; }
    }
  }

  lemma {:induction false} ArrRoundTrip(items: seq<Value>, rest: string)
    requires Delimited(rest)
    ensures ParseValue(Dump(Arr(items)) + rest) == Some((Arr(items), rest))
    decreases Arr(items), 1
  {
    if items == [] {
      assert Dump(Arr(items)) + rest == "[" + ("]" + rest);
      EmptyArray(rest);
    } else {
      var inner := DumpItems(items) + "]" + rest;
      assert Dump(Arr(items)) + rest == "[" + inner;
      ItemsRoundTrip(items, rest);
      ArrayOfElements(inner, items, rest);
    }
  }

  lemma {:induction false} EmptyArray(rest: string)
    ensures ParseValue("[" + ("]" + rest)) == Some((Arr([]), rest))
  {
    var s := "[" + ("]" + rest);
    assert s[1..] == "]" + rest;
    assert SkipWs(s[1..]) == "]" + rest;
    assert ("]" + rest)[1..] == rest;
  }

  lemma {:induction false} ArrayOfElements(inner: string, items: seq<Value>, rest: string)
    requires inner != [] && StartsValue(inner[0])
    requires ParseElements(inner) == Some((items, rest))
    ensures ParseValue("[" + inner) == Some((Arr(items), rest))
  {
    var s := "[" + inner;
    assert s[1..] == inner;
    assert SkipWs(inner) == inner;
  }

  lemma {:induction false} ObjRoundTrip(fields: map<string, Value>, rest: string)
    requires Delimited(rest)
    ensures ParseValue(Dump(Obj(fields)) + rest) == Some((Obj(fields), rest))
    decreases Obj(fields), 1
  {
    var keys := SortedKeys(fields.Keys);
    var inner := DumpMembers(fields, keys) + "}" + rest;
    var s := Dump(Obj(fields)) + rest;
    assert s == "{" + inner;
    ValueAtBrace(s);
    assert s[1..] == inner;
    if keys == [] {
      EmptyObject(fields, inner, rest);
    } else {
      MembersRoundTrip(fields, keys, rest);
      MembersToMap(fields, keys);
      ObjectOfMembers(inner, Members(fields, keys), rest);
    }
  }

  lemma {:induction false} EmptyObject(fields: map<string, Value>, inner: string, rest: string)
    requires SortedKeys(fields.Keys) == []
    requires inner == DumpMembers(fields, []) + "}" + rest
    ensures ParseObject(SkipWs(inner)) == Some((Obj(fields), rest))
  {
    assert fields.Keys == {};
    assert fields == map[];
    assert inner == "}" + rest;
  }

  lemma {:induction false} ValueAtBrace(s: string)
    requires s != [] && s[0] == '{'
    ensures ParseValue(s) == ParseObject(SkipWs(s[1..]))
  {
  }

  lemma {:induction false} ObjectOfMembers(s: string, ps: seq<(string, Value)>, rest: string)
    requires s != [] && s[0] == '"'
    requires ParseMembers(s) == Some((ps, rest))
    ensures ParseObject(SkipWs(s)) == Some((Obj(PairsToMap(ps)), rest))
  {
  }

  lemma {:induction false} ItemsRoundTrip(items: seq<Value>, rest: string)
    requires items != []
    ensures ParseElements(DumpItems(items) + "]" + rest) == Some((items, rest))
    decreases items, 0
  {
    var s := DumpItems(items) + "]" + rest;
    if |items| == 1 {
      assert s == Dump(items[0]) + ("]" + rest);
      ValueRoundTrip(items[0], "]" + rest);
      ElementsLast(s, items[0], "]" + rest);
      assert ("]" + rest)[1..] == rest;
      assert items == [items[0]];
    } else {
      var tail := DumpItems(items[1..]) + "]" + rest;
      assert s == Dump(items[0]) + (", " + tail);
      ValueRoundTrip(items[0], ", " + tail);
      AfterSeparator(", " + tail, tail);
      ItemsRoundTrip(items[1..], rest);
      ElementsMore(s, items[0], ", " + tail, items[1..], rest);
      assert [items[0]] + items[1..] == items;
    }
  }

  /** Skipping the blank after a separator lands on the next token. */
  lemma {:induction false} AfterSeparator(t: string, next: string)
    requires |t| >= 2 && t[1] == ' ' && t[2..] == next
    requires next != [] && StartsValue(next[0])
    ensures SkipWs(t[1..]) == next
  {
    assert t[1..][1..] == next;
  }

  lemma {:induction false} ElementsLast(s: string, v: Value, t: string)
    requires ParseValue(s) == Some((v, t))
    requires t != [] && t[0] == ']'
    ensures ParseElements(s) == Some(([v], t[1..]))
  {
  }

  lemma {:induction false} ElementsMore(s: string, v: Value, t: string, vs: seq<Value>, rest: string)
    requires ParseValue(s) == Some((v, t))
    requires t != [] && t[0] == ','
    requires ParseElements(SkipWs(t[1..])) == Some((vs, rest))
    ensures ParseElements(s) == Some(([v] + vs, rest))
  {
  }

  lemma {:induction false} MembersRoundTrip(fields: map<string, Value>, keys: seq<string>, rest: string)
    requires keys != [] && forall k :: k in keys ==> k in fields
    ensures ParseMembers(DumpMembers(fields, keys) + "}" + rest) == Some((Members(fields, keys), rest))
    decreases Obj(fields), 0, |keys|
  {
    var key := keys[0];
    var value := fields[key];
    var tail := MembersTail(fields, keys, rest);
    var afterKey := ": " + (Dump(value) + tail);
    var s := DumpMembers(fields, keys) + "}" + rest;
    MembersShape(fields, keys, rest);
    KeyRoundTrip(s, key, afterKey);
    AfterSeparator(afterKey, Dump(value) + tail);
    ValueRoundTrip(value, tail);
    if |keys| == 1 {
      MemberLast(s, key, afterKey, value, tail);
      assert tail[1..] == rest;
      assert Members(fields, keys) == [(key, value)];
    } else {
      var next := DumpMembers(fields, keys[1..]) + "}" + rest;
      AfterSeparator(tail, next);
      MembersRoundTrip(fields, keys[1..], rest);
      MemberMore(s, key, afterKey, value, tail, Members(fields, keys[1..]), rest);
      assert Members(fields, keys) == [(key, value)] + Members(fields, keys[1..]);
    }
  }

  /** What follows the first member's value in a dump of members and the closing brace. */
  function MembersTail(fields: map<string, Value>, keys: seq<string>, rest: string): string
    requires keys != [] && forall k :: k in keys ==> k in fields
  {
    if |keys| == 1 then "}" + rest else ", " + (DumpMembers(fields, keys[1..]) + "}" + rest)
  }

  lemma {:induction false} MembersShape(fields: map<string, Value>, keys: seq<string>, rest: string)
    requires keys != [] && forall k :: k in keys ==> k in fields
    ensures DumpMembers(fields, keys) + "}" + rest
            == Quote(keys[0]) + (": " + (Dump(fields[keys[0]]) + MembersTail(fields, keys, rest)))
    ensures Delimited(MembersTail(fields, keys, rest))
  {
    if |keys| == 1 {
      LastMemberShape(fields, keys, rest);
    } else {
      MoreMembersShape(fields, keys, rest);
    }
  }

  lemma {:induction false} LastMemberShape(fields: map<string, Value>, keys: seq<string>, rest: string)
    requires |keys| == 1 && keys[0] in fields
    ensures DumpMembers(fields, keys) + "}" + rest
            == Quote(keys[0]) + (": " + (Dump(fields[keys[0]]) + ("}" + rest)))
  {
    var q, d := Quote(keys[0]), Dump(fields[keys[0]]);
    assert DumpMembers(fields, keys) == q + ": " + d;
    Assoc3(q, ": ", d);
    Assoc3(q + ": ", d, "}" + rest);
    Assoc3(q, ": ", d + ("}" + rest));
    Assoc3(q + ": " + d, "}", rest);
  }

  lemma {:induction false} MoreMembersShape(fields: map<string, Value>, keys: seq<string>, rest: string)
    requires |keys| > 1 && forall k :: k in keys ==> k in fields
    ensures DumpMembers(fields, keys) + "}" + rest
            == Quote(keys[0]) + (": " + (Dump(fields[keys[0]]) + (", " + (DumpMembers(fields, keys[1..]) + "}" + rest))))
  {
    var q, d := Quote(keys[0]), Dump(fields[keys[0]]);
    var member := q + ": " + d;
    var more := DumpMembers(fields, keys[1..]);
    var close := "}" + rest;
    assert DumpMembers(fields, keys) == member + ", " + more;
    Assoc3(member + ", " + more, "}", rest);
    Assoc3(member + ", ", more, close);
    Assoc3(member, ", ", more + close);
    Assoc3(q, ": ", d);
    Assoc3(q + ": ", d, ", " + (more + close));
    Assoc3(q, ": ", d + (", " + (more + close)));
    Assoc3(more, "}", rest);
  }

  lemma {:induction false} Assoc3(a: string, b: string, c: string)
    ensures (a + b) + c == a + (b + c)
  {
  }

  lemma {:induction false} KeyRoundTrip(s: string, key: string, afterKey: string)
    requires s == Quote(key) + afterKey
    ensures s != [] && s[0] == '"' && ParseBody(s[1..]) == Some((key, afterKey))
  {
    assert s[1..] == Quote(key)[1..] + afterKey;
    QuoteRoundTrip(key, afterKey);
  }

  lemma {:induction false} MemberLast(s: string, key: string, afterKey: string, v: Value, t: string)
    requires s != [] && s[0] == '"' && ParseBody(s[1..]) == Some((key, afterKey))
    requires afterKey != [] && afterKey[0] == ':'
    requires ParseValue(SkipWs(afterKey[1..])) == Some((v, t))
    requires t != [] && t[0] == '}'
    ensures ParseMembers(s) == Some(([(key, v)], t[1..]))
  {
  }

  lemma {:induction false} MemberMore(s: string, key: string, afterKey: string, v: Value, t: string,
                   ps: seq<(string, Value)>, rest: string)
    requires s != [] && s[0] == '"' && ParseBody(s[1..]) == Some((key, afterKey))
    requires afterKey != [] && afterKey[0] == ':'
    requires ParseValue(SkipWs(afterKey[1..])) == Some((v, t))
    requires t != [] && t[0] == ','
    requires ParseMembers(SkipWs(t[1..])) == Some((ps, rest))
    ensures ParseMembers(s) == Some(([(key, v)] + ps, rest))
  {
  }

  /** Members for every key of a map rebuild exactly that map. */
  lemma {:induction false} MembersToMap(fields: map<string, Value>, keys: seq<string>)
    requires forall k :: k in keys ==> k in fields
    requires forall k :: k in fields ==> k in keys
    ensures PairsToMap(Members(fields, keys)) == fields
  {
    PrefixToMap(fields, keys, |keys|);
    assert keys[..|keys|] == keys;
  }

  lemma {:induction false} PrefixToMap(fields: map<string, Value>, keys: seq<string>, n: nat)
    requires forall k :: k in keys ==> k in fields
    requires n <= |keys|
    ensures var m := PairsToMap(Members(fields, keys[..n]));
            (forall k :: k in m <==> k in keys[..n]) && (forall k :: k in m ==> m[k] == fields[k])
  {
    if n > 0 {
      PrefixToMap(fields, keys, n - 1);
      var prev := Members(fields, keys[..n - 1]);
      var key := keys[n - 1];
      MembersSnoc(fields, keys, n);
      PairsToMapSnoc(prev, (key, fields[key]));
      assert keys[..n] == keys[..n - 1] + [key];
    }
  }

  /** The members of one more key are the earlier members and one pair. */
  lemma {:induction false} MembersSnoc(fields: map<string, Value>, keys: seq<string>, n: nat)
    requires forall k :: k in keys ==> k in fields
    requires 0 < n <= |keys|
    ensures Members(fields, keys[..n]) == Members(fields, keys[..n - 1]) + [(keys[n - 1], fields[keys[n - 1]])]
  {
    var ps, prev := Members(fields, keys[..n]), Members(fields, keys[..n - 1]);
    assert forall i :: 0 <= i < n - 1 ==> ps[i] == prev[i];
  }

  lemma {:induction false} PairsToMapSnoc(ps: seq<(string, Value)>, p: (string, Value))
    ensures PairsToMap(ps + [p]) == PairsToMap(ps)[p.0 := p.1]
  {
    assert (ps + [p])[..|ps|] == ps;
  }
}

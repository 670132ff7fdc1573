/**
 * JSON string literals: the escaping of `json.dumps` with its default
 * `ensure_ascii=True`, and the reading of CPython's JSON decoder, with
 * the proof that reading undoes escaping.
 */
module JsonString {
  import opened Wrappers
  import opened Decimal

  /** One character as `json.dumps` writes it inside a string literal. */
  function EscapeChar(c: char): (e: string)
    ensures |e| >= 1 && e[0] != '"'
  {
    if c == '\\' then "\\\\"
    else if c == '"' then "\\\""
    else if c as int == 0x08 then "\\b"
    else if c as int == 0x0C then "\\f"
    else if c == '\n' then "\\n"
    else if c == '\r' then "\\r"
    else if c == '\t' then "\\t"
    else if ' ' <= c <= '~' then [c]
    else if c as int < 0x10000 then "\\u" + Hex4(c as int)
    else
      // outside the Basic Multilingual Plane: a UTF-16 surrogate pair
      var n := c as int - 0x10000;
      "\\u" + Hex4(0xD800 + n / 0x400) + "\\u" + Hex4(0xDC00 + n % 0x400)
  }

  function Escape(s: string): string
  {
    if s == [] then "" else EscapeChar(s[0]) + Escape(s[1..])
  }

  /** A string literal as `json.dumps` writes it. */
  function Quote(s: string): (q: string)
    ensures |q| >= 2 && q[0] == '"'
  {
    "\"" + Escape(s) + "\""
  }

  /**
   * One character of a string literal's body that is not its closing
   * quote: a raw character (a control character below U+0020 is refused),
   * a two-character escape, or a `\uXXXX` escape, where a high surrogate
   * directly followed by an escaped low surrogate makes one character. A
   * surrogate left alone cannot be a Dafny character and is refused.
   */
  function ParseUnit(s: string): (r: Option<(char, string)>)
    requires s != [] && s[0] != '"'
    ensures r.Some? ==> |r.value.1| < |s|
  {
    if s[0] == '\\' then
      if |s| < 2 then None
      else if s[1] == '"' then Some(('"', s[2..]))
      else if s[1] == '\\' then Some(('\\', s[2..]))
      else if s[1] == '/' then Some(('/', s[2..]))
      else if s[1] == 'b' then Some((0x08 as char, s[2..]))
      else if s[1] == 'f' then Some((0x0C as char, s[2..]))
      else if s[1] == 'n' then Some(('\n', s[2..]))
      else if s[1] == 'r' then Some(('\r', s[2..]))
      else if s[1] == 't' then Some(('\t', s[2..]))
      else if s[1] == 'u' && |s| >= 6 then
        var u := ReadHex4(s[2..6]);
        if u < 0 then None
        else if 0xD800 <= u < 0xDC00 && |s| >= 12 && s[6] == '\\' && s[7] == 'u'
                && 0xDC00 <= ReadHex4(s[8..12]) < 0xE000 then
          Some(((0x10000 + (u - 0xD800) * 0x400 + (ReadHex4(s[8..12]) - 0xDC00)) as char, s[12..]))
        else if 0xD800 <= u < 0xE000 then None
        else Some((u as char, s[6..]))
      else None
    else if (s[0] as int) < 0x20 then None
    else Some((s[0], s[1..]))
  }

  /** The body of a string literal after its opening quote, up to and including the closing quote. */
  function ParseBody(s: string): (r: Option<(string, string)>)
    ensures r.Some? ==> |r.value.1| < |s|
    decreases |s|
  {
    if s == [] then None
    else if s[0] == '"' then Some(([], s[1..]))
    else match ParseUnit(s)
      case None => None
      case Some((c, rest)) =>
        match ParseBody(rest)
        case None => None
        case Some((t, after)) => Some(([c] + t, after))
  }

  lemma {:induction false} EscapeCharRoundTrip(c: char, t: string)
    ensures ParseUnit(EscapeChar(c) + t) == Some((c, t))
  {
    if c == '\\' || c == '"' || c as int == 0x08 || c as int == 0x0C || c == '\n' || c == '\r' || c == '\t' {
      TwoCharEscapeRoundTrip(c, t);
    } else if ' ' <= c <= '~' {
      PlainCharRoundTrip(c, t);
    } else if c as int < 0x10000 {
      UnicodeEscapeRoundTrip(c, t);
    } else {
      SurrogatePairRoundTrip(c, t);
    }
  }

  lemma {:induction false} TwoCharEscapeRoundTrip(c: char, t: string)
    requires c == '\\' || c == '"' || c as int == 0x08 || c as int == 0x0C || c == '\n' || c == '\r' || c == '\t'
    ensures ParseUnit(EscapeChar(c) + t) == Some((c, t))
  {
    var s := EscapeChar(c) + t;
    assert |EscapeChar(c)| == 2 && s[0] == '\\' && s[1] == EscapeChar(c)[1];
    assert s[2..] == t;
  }

  lemma {:induction false} PlainCharRoundTrip(c: char, t: string)
    requires ' ' <= c <= '~' && c != '\\' && c != '"'
    ensures ParseUnit(EscapeChar(c) + t) == Some((c, t))
  {
    var s := EscapeChar(c) + t;
    assert EscapeChar(c) == [c];
    assert s[0] == c && s[1..] == t;
  }

  lemma {:induction false} UnicodeEscapeRoundTrip(c: char, t: string)
    requires !(' ' <= c <= '~') && c != '\n' && c != '\r' && c != '\t'
    requires c as int != 0x08 && c as int != 0x0C && c as int < 0x10000
    ensures ParseUnit(EscapeChar(c) + t) == Some((c, t))
  {
    var h := Hex4(c as int);
    var s := EscapeChar(c) + t;
    assert EscapeChar(c) == "\\u" + h;
    assert s[0] == '\\' && s[1] == 'u' && |s| >= 6;
    assert s[2..6] == h;
    assert s[6..] == t;
    Hex4RoundTrip(c as int);
    assert !(0xD800 <= c as int < 0xE000);
  }

  lemma {:induction false} SurrogatePairRoundTrip(c: char, t: string)
    requires c as int >= 0x10000
    ensures ParseUnit(EscapeChar(c) + t) == Some((c, t))
  {
    var n := c as int - 0x10000;
    var hi, lo := 0xD800 + n / 0x400, 0xDC00 + n % 0x400;
    SurrogateHalves(n);
    assert EscapeChar(c) + t == "\\u" + Hex4(hi) + "\\u" + Hex4(lo) + t;
    PairRead(hi, lo, t);
  }

  /** The two halves of a pair are a high and a low surrogate that add back to the code point. */
  lemma {:induction false} SurrogateHalves(n: int)
    requires 0 <= n < 0x100000
    ensures 0xD800 <= 0xD800 + n / 0x400 < 0xDC00 && 0xDC00 <= 0xDC00 + n % 0x400 < 0xE000
    ensures (0xD800 + n / 0x400 - 0xD800) * 0x400 + (0xDC00 + n % 0x400 - 0xDC00) == n
  {
  }

  /** A high surrogate escape followed by a low one reads as one character. */
  lemma {:induction false} PairRead(hi: int, lo: int, t: string)
    requires 0xD800 <= hi < 0xDC00 && 0xDC00 <= lo < 0xE000
    ensures ParseUnit("\\u" + Hex4(hi) + "\\u" + Hex4(lo) + t)
            == Some(((0x10000 + (hi - 0xD800) * 0x400 + (lo - 0xDC00)) as char, t))
  {
    var s := "\\u" + Hex4(hi) + "\\u" + Hex4(lo) + t;
    assert s[0] == '\\' && s[1] == 'u' && |s| >= 12;
    assert s[2..6] == Hex4(hi);
    assert s[6] == '\\' && s[7] == 'u';
    assert s[8..12] == Hex4(lo);
    assert s[12..] == t;
    Hex4RoundTrip(hi);
    Hex4RoundTrip(lo);
  }

  /** Reading a literal that `Quote` wrote gives back the string and stops right after it. */
  lemma {:induction false} QuoteRoundTrip(s: string, rest: string)
    ensures ParseBody(Quote(s)[1..] + rest) == Some((s, rest))
  {
    assert Quote(s)[1..] + rest == Escape(s) + ("\"" + rest);
    BodyRoundTrip(s, "\"" + rest);
  }

  lemma {:induction false} BodyRoundTrip(s: string, rest: string)
    requires rest != [] && rest[0] == '"'
    ensures ParseBody(Escape(s) + rest) == Some((s, rest[1..]))
    decreases |s|
  {
    if s == [] {
      assert Escape(s) + rest == rest;
    } else {
      var after := Escape(s[1..]) + rest;
      var x := EscapeChar(s[0]) + after;
      assert Escape(s) + rest == x;
      assert x[0] != '"';
      EscapeCharRoundTrip(s[0], after);
      BodyRoundTrip(s[1..], rest);
      BodyStep(x, s[0], after);
      assert [s[0]] + s[1..] == s;
    }
  }

  /** ParseBody's step over one unit, stated on its own to keep the induction small. */
  lemma {:induction false} BodyStep(x: string, c: char, after: string)
    requires x != [] && x[0] != '"'
    requires ParseUnit(x) == Some((c, after))
    ensures ParseBody(x) == match ParseBody(after)
                            case None => None
                            case Some((t, rest)) => Some(([c] + t, rest))
  {
  }
}

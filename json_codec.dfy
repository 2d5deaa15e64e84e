/**
 * The serialisation the repository puts in the cache: `json.dumps` of a list of rows and
 * `json.loads` back. Encoding reproduces the default layout of `json.dumps` (separators ", "
 * and ": ", keys in column order, `ensure_ascii` escaping with lower-case hex and surrogate
 * pairs above U+FFFF). Decoding accepts that layout for a list of `{id, name, email}` objects.
 */
module JsonCodec {
  import opened Wrappers
  import opened Records

  /* ---------------------------------------------------------------- literals */

  /** Strips `lit` from the front of `s`, if `s` starts with it. */
  function Expect(lit: string, s: string): (r: Option<string>)
    ensures r.Some? <==> (|lit| <= |s| && s[..|lit|] == lit)
    ensures r.Some? ==> r.value == s[|lit|..]
  {
    if |lit| <= |s| && s[..|lit|] == lit then Some(s[|lit|..]) else None
  }

  /* ---------------------------------------------------------------- numbers */

  predicate IsDigit(c: char) {
    '0' <= c <= '9'
  }

  predicate AllDigits(s: string) {
    forall i :: 0 <= i < |s| ==> IsDigit(s[i])
  }

  function DigitChar(d: nat): (c: char)
    requires d < 10
    ensures IsDigit(c) && (c as int) - ('0' as int) == d
  {
    (('0' as int) + d) as char
  }

  /** Decimal notation of a non-negative integer, as `json.dumps` writes an int. */
  function Decimal(n: nat): (s: string)
    ensures |s| > 0 && AllDigits(s)
    ensures |s| > 1 ==> s[0] != '0'
    decreases n
  {
    if n < 10 then [DigitChar(n)] else Decimal(n / 10) + [DigitChar(n % 10)]
  }

  /** The value of a string of decimal digits, most significant first. */
  function DigitsValue(ds: string): nat
    requires AllDigits(ds)
  {
    if ds == [] then 0
    else DigitsValue(ds[..|ds| - 1]) * 10 + ((ds[|ds| - 1] as int) - ('0' as int))
  }

  /** The length of the longest run of digits at the front of `s`. */
  function DigitRun(s: string): (k: nat)
    ensures k <= |s| && AllDigits(s[..k])
    ensures k < |s| ==> !IsDigit(s[k])
  {
    if s != [] && IsDigit(s[0]) then
      assert s[..1 + DigitRun(s[1..])] == [s[0]] + s[1..][..DigitRun(s[1..])];
      1 + DigitRun(s[1..])
    else 0
  }

  /** A JSON number that is a non-negative integer: digits, no leading zero. */
  function ParseNat(s: string): (r: Option<(nat, string)>)
    ensures r.Some? ==> |r.value.1| < |s|
  {
    var k := DigitRun(s);
    if k == 0 || (k > 1 && s[0] == '0') then None
    else Some((DigitsValue(s[..k]), s[k..]))
  }

  /* ---------------------------------------------------------------- hex escapes */

  function HexDigit(d: nat): char
    requires d < 16
  {
    if d < 10 then (('0' as int) + d) as char else (('a' as int) + d - 10) as char
  }

  /** The value of one hex digit; `json.loads` accepts both cases. */
  function HexValue(c: char): Option<nat>
  {
    if '0' <= c <= '9' then Some((c as int) - ('0' as int))
    else if 'a' <= c <= 'f' then Some((c as int) - ('a' as int) + 10)
    else if 'A' <= c <= 'F' then Some((c as int) - ('A' as int) + 10)
    else None
  }

  /** Four lower-case hex digits, as in Python's '{0:04x}'. */
  function Hex4(n: nat): string
    requires n < 0x10000
  {
    var n1 := n / 16;
    var n2 := n1 / 16;
    [HexDigit(n2 / 16), HexDigit(n2 % 16), HexDigit(n1 % 16), HexDigit(n % 16)]
  }

  function ParseHex4(s: string): (r: Option<(nat, string)>)
    ensures r.Some? ==> |s| >= 4 && r.value.0 < 0x10000 && r.value.1 == s[4..]
  {
    if |s| < 4 then None
    else match (HexValue(s[0]), HexValue(s[1]), HexValue(s[2]), HexValue(s[3]))
      case (Some(a), Some(b), Some(c), Some(d)) =>
        if a < 16 && b < 16 && c < 16 && d < 16 then Some((((a * 16 + b) * 16 + c) * 16 + d, s[4..]))
        else None
      case _ => None
  }

  /* ---------------------------------------------------------------- strings */

  const Backspace: char := 8 as char
  const FormFeed: char := 12 as char

  /** How `json.dumps` (with `ensure_ascii`) writes one character inside a string literal. */
  function EscapeChar(c: char): (e: string)
    ensures |e| > 0 && e[0] != '"'
  {
    if c == '"' then "\\\""
    else if c == '\\' then "\\\\"
    else if c == '\n' then "\\n"
    else if c == '\r' then "\\r"
    else if c == '\t' then "\\t"
    else if c == Backspace then "\\b"
    else if c == FormFeed then "\\f"
    else if ' ' <= c <= '~' then [c]
    else if (c as int) < 0x10000 then "\\u" + Hex4(c as int)
    else
      var v := (c as int) - 0x10000;
      "\\u" + Hex4(0xD800 + v / 0x400) + "\\u" + Hex4(0xDC00 + v % 0x400)
  }

  function EscapeAll(x: string): string
  {
    if x == [] then "" else EscapeChar(x[0]) + EscapeAll(x[1..])
  }

  /** A JSON string literal holding `x`. */
  function EncodeString(x: string): string
  {
    "\"" + EscapeAll(x) + "\""
  }

  /** Decodes the `\u` escape whose four hex digits start `s`, joining a surrogate pair. */
  function ParseUnicode(s: string): (r: Option<(char, string)>)
    ensures r.Some? ==> |r.value.1| < |s|
  {
    match ParseHex4(s)
    case None => None
    case Some((v, t)) =>
      if 0xD800 <= v < 0xDC00 then
        if |t| >= 2 && t[0] == '\\' && t[1] == 'u' then
          match ParseHex4(t[2..])
          case None => None
          case Some((w, t2)) =>
            if 0xDC00 <= w < 0xE000 then Some(((0x10000 + (v - 0xD800) * 0x400 + (w - 0xDC00)) as char, t2))
            else None
        else None
      else if 0xDC00 <= v < 0xE000 then None
      else Some((v as char, t))
  }

  /** Decodes the escape sequence that follows a backslash. */
  function ParseEscape(s: string): (r: Option<(char, string)>)
    ensures r.Some? ==> |r.value.1| < |s|
  {
    if s == [] then None
    else if s[0] == '"' then Some(('"', s[1..]))
    else if s[0] == '\\' then Some(('\\', s[1..]))
    else if s[0] == '/' then Some(('/', s[1..]))
    else if s[0] == 'b' then Some((Backspace, s[1..]))
    else if s[0] == 'f' then Some((FormFeed, s[1..]))
    else if s[0] == 'n' then Some(('\n', s[1..]))
    else if s[0] == 'r' then Some(('\r', s[1..]))
    else if s[0] == 't' then Some(('\t', s[1..]))
    else if s[0] == 'u' then ParseUnicode(s[1..])
    else None
  }

  /** Decodes one character of a string literal's body; raw control characters are refused. */
  function ParseChar(s: string): (r: Option<(char, string)>)
    requires s != []
    ensures r.Some? ==> |r.value.1| < |s|
  {
    if s[0] == '\\' then ParseEscape(s[1..])
    else if (s[0] as int) < 0x20 then None
    else Some((s[0], s[1..]))
  }

  /** Decodes a string literal's body up to and including its closing quote. */
  function ParseStringBody(s: string): (r: Option<(string, string)>)
    ensures r.Some? ==> |r.value.1| < |s|
    decreases |s|
  {
    if s == [] then None
    else if s[0] == '"' then Some(("", s[1..]))
    else match ParseChar(s)
      case None => None
      case Some((c, t)) =>
        match ParseStringBody(t)
        case None => None
        case Some((body, rest)) => Some(([c] + body, rest))
  }

  function ParseString(s: string): (r: Option<(string, string)>)
    ensures r.Some? ==> |r.value.1| < |s|
  {
    if s != [] && s[0] == '"' then ParseStringBody(s[1..]) else None
  }

  /* ---------------------------------------------------------------- rows */

  const IdKey: string := "{\"id\": "
  const NameKey: string := ", \"name\": "
  const EmailKey: string := ", \"email\": "

  /** One row as `json.dumps` writes the dict `{"id": ..., "name": ..., "email": ...}`. */
  function EncodeRecord(r: Record): string
  {
    IdKey + (Decimal(r.id) + (NameKey + (EncodeString(r.name) + (EmailKey + (EncodeString(r.email) + "}")))))
  }

  /** A key followed by a string value, as in `, "name": "..."`. */
  function ParseField(key: string, s: string): (r: Option<(string, string)>)
    ensures r.Some? ==> |r.value.1| < |s|
  {
    match Expect(key, s)
    case None => None
    case Some(t) => ParseString(t)
  }

  function ParseRecord(s: string): (r: Option<(Record, string)>)
    ensures r.Some? ==> |r.value.1| < |s|
  {
    match Expect(IdKey, s)
    case None => None
    case Some(s1) =>
      match ParseNat(s1)
      case None => None
      case Some((id, s2)) => ParseFields(id, s2)
  }

  /** The rest of a row object once its id has been read. */
  function ParseFields(id: nat, s: string): (r: Option<(Record, string)>)
    ensures r.Some? ==> |r.value.1| < |s|
  {
    match ParseField(NameKey, s)
    case None => None
    case Some((name, s1)) =>
      match ParseField(EmailKey, s1)
      case None => None
      case Some((email, s2)) =>
        match Expect("}", s2)
        case None => None
        case Some(s3) => Some((Record(id, name, email), s3))
  }

  /** The elements of a non-empty list, separated by ", ", without the opening bracket. */
  function JoinRecords(rows: seq<Record>): string
  {
    if rows == [] then ""
    else if |rows| == 1 then EncodeRecord(rows[0])
    else EncodeRecord(rows[0]) + ", " + JoinRecords(rows[1..])
  }

  /** `json.dumps(rows)`. */
  function Encode(rows: seq<Record>): (s: string)
    ensures |s| >= 2 && s[0] == '[' && s[|s| - 1] == ']'
  {
    "[" + JoinRecords(rows) + "]"
  }

  /** Parses the elements of a non-empty list and its closing bracket. */
  function ParseRecords(s: string): (r: Option<(seq<Record>, string)>)
    ensures r.Some? ==> |r.value.0| > 0 && |r.value.1| < |s|
    decreases |s|
  {
    match ParseRecord(s)
    case None => None
    case Some((row, s1)) =>
      if |s1| >= 2 && s1[..2] == ", " then
        match ParseRecords(s1[2..])
        case None => None
        case Some((rows, s2)) => Some(([row] + rows, s2))
      else if s1 != [] && s1[0] == ']' then Some(([row], s1[1..]))
      else None
  }

  /** `json.loads(s)` for a list of rows; None where `json.loads` would raise or would not yield rows. */
  function Decode(s: string): Option<seq<Record>>
  {
    match Expect("[", s)
    case None => None
    case Some(s1) =>
      if s1 == "]" then Some([])
      else match ParseRecords(s1)
        case None => None
        case Some((rows, rest)) => if rest == [] then Some(rows) else None
  }

  /* ---------------------------------------------------------------- round trip */

  lemma {:induction false} DecimalValue(n: nat)
    ensures DigitsValue(Decimal(n)) == n
    decreases n
  {
    if n >= 10 {
      var d := Decimal(n);
      assert d[..|d| - 1] == Decimal(n / 10);
      DecimalValue(n / 10);
    }
  }

  lemma {:induction false} DigitRunOf(ds: string, rest: string)
    requires AllDigits(ds)
    requires rest == [] || !IsDigit(rest[0])
    ensures DigitRun(ds + rest) == |ds|
  {
    if ds == [] {
      assert ds + rest == rest;
    } else {
      assert (ds + rest)[1..] == ds[1..] + rest;
      DigitRunOf(ds[1..], rest);
    }
  }

  /** The number `json.dumps` writes for an id is read back as that id. */
  lemma ParseNatDecimal(n: nat, rest: string)
    requires rest == [] || !IsDigit(rest[0])
    ensures ParseNat(Decimal(n) + rest) == Some((n, rest))
  {
    var d := Decimal(n);
    DigitRunOf(d, rest);
    DecimalValue(n);
    assert (d + rest)[..|d|] == d;
    assert (d + rest)[|d|..] == rest;
  }

  lemma HexDigitValue(d: nat)
    requires d < 16
    ensures HexValue(HexDigit(d)) == Some(d)
  {
  }

  /** Four hex digits written by `Hex4` are read back as the same number. */
  lemma HexRoundTrip(n: nat, rest: string)
    requires n < 0x10000
    ensures ParseHex4(Hex4(n) + rest) == Some((n, rest))
  {
    var n1 := n / 16;
    var n2 := n1 / 16;
    HexDigitValue(n2 / 16);
    HexDigitValue(n2 % 16);
    HexDigitValue(n1 % 16);
    HexDigitValue(n % 16);
    var s := Hex4(n) + rest;
    assert s[4..] == rest;
    assert ((n2 / 16 * 16 + n2 % 16) * 16 + n1 % 16) * 16 + n % 16 == n;
  }

  /** A character above U+FFFF survives its surrogate-pair escape. */
  lemma SurrogatePair(c: char, rest: string)
    requires (c as int) >= 0x10000
    ensures
      var v := (c as int) - 0x10000;
      ParseUnicode(Hex4(0xD800 + v / 0x400) + "\\u" + Hex4(0xDC00 + v % 0x400) + rest) == Some((c, rest))
  {
    var v := (c as int) - 0x10000;
    var hi, lo := 0xD800 + v / 0x400, 0xDC00 + v % 0x400;
    var t := "\\u" + Hex4(lo) + rest;
    HexRoundTrip(hi, t);
    assert Hex4(hi) + "\\u" + Hex4(lo) + rest == Hex4(hi) + t;
    HexRoundTrip(lo, rest);
    assert t[2..] == Hex4(lo) + rest;
    assert 0x10000 + (hi - 0xD800) * 0x400 + (lo - 0xDC00) == c as int;
  }

  lemma TwoCharEscape(c: char, e: char, rest: string)
    requires ParseEscape([e]) == Some((c, []))
    ensures ParseChar(['\\', e] + rest) == Some((c, rest))
  {
    var s := ['\\', e] + rest;
    assert s[1..] == [e] + rest;
    assert s[1..][1..] == rest;
  }

  lemma BmpEscape(c: char, rest: string)
    requires (c as int) < 0x10000
    ensures ParseChar("\\u" + Hex4(c as int) + rest) == Some((c, rest))
  {
    var s := "\\u" + Hex4(c as int) + rest;
    HexRoundTrip(c as int, rest);
    assert s[1..][1..] == Hex4(c as int) + rest;
  }

  lemma AstralEscape(c: char, rest: string)
    requires (c as int) >= 0x10000
    ensures
      var v := (c as int) - 0x10000;
      ParseChar("\\u" + Hex4(0xD800 + v / 0x400) + "\\u" + Hex4(0xDC00 + v % 0x400) + rest) == Some((c, rest))
  {
    var v := (c as int) - 0x10000;
    var h1, h2 := Hex4(0xD800 + v / 0x400), Hex4(0xDC00 + v % 0x400);
    var t := h1 + "\\u" + h2 + rest;
    var s := "\\u" + h1 + "\\u" + h2 + rest;
    Assoc("\\u" + h1 + "\\u", h2, rest);
    Assoc("\\u" + h1, "\\u", h2 + rest);
    Assoc("\\u", h1, "\\u" + (h2 + rest));
    Assoc(h1 + "\\u", h2, rest);
    Assoc(h1, "\\u", h2 + rest);
    assert s == "\\u" + t;
    assert s[1..] == "u" + t;
    assert s[1..][1..] == t;
    SurrogatePair(c, rest);
  }

  /** Every character escaped by `EscapeChar` decodes to itself. */
  lemma EscapeCharRoundTrip(c: char, rest: string)
    ensures ParseChar(EscapeChar(c) + rest) == Some((c, rest))
  {
    if c == '"' {
      TwoCharEscape(c, '"', rest);
    } else if c == '\\' {
      TwoCharEscape(c, '\\', rest);
    } else if c == '\n' {
      TwoCharEscape(c, 'n', rest);
    } else if c == '\r' {
      TwoCharEscape(c, 'r', rest);
    } else if c == '\t' {
      TwoCharEscape(c, 't', rest);
    } else if c == Backspace {
      TwoCharEscape(c, 'b', rest);
    } else if c == FormFeed {
      TwoCharEscape(c, 'f', rest);
    } else if ' ' <= c <= '~' {
      assert ([c] + rest)[1..] == rest;
    } else if (c as int) < 0x10000 {
      BmpEscape(c, rest);
    } else {
      AstralEscape(c, rest);
    }
  }

  lemma {:induction false} EscapeAllRoundTrip(x: string, rest: string)
    ensures ParseStringBody(EscapeAll(x) + "\"" + rest) == Some((x, rest))
  {
    var s := EscapeAll(x) + "\"" + rest;
    if x == [] {
      assert s == "\"" + rest;
      assert s[1..] == rest;
    } else {
      var tail := EscapeAll(x[1..]) + "\"" + rest;
      assert s == EscapeChar(x[0]) + tail;
      EscapeCharRoundTrip(x[0], tail);
      EscapeAllRoundTrip(x[1..], rest);
      assert [x[0]] + x[1..] == x;
    }
  }

  /** `json.loads` of a string literal written by `json.dumps` gives the original string back. */
  lemma StringRoundTrip(x: string, rest: string)
    ensures ParseString(EncodeString(x) + rest) == Some((x, rest))
  {
    var s := EncodeString(x) + rest;
    assert s[1..] == EscapeAll(x) + "\"" + rest;
    EscapeAllRoundTrip(x, rest);
  }

  lemma ExpectPrefix(lit: string, t: string)
    ensures Expect(lit, lit + t) == Some(t)
  {
    assert (lit + t)[..|lit|] == lit;
    assert (lit + t)[|lit|..] == t;
  }

  lemma FieldRoundTrip(key: string, x: string, rest: string)
    ensures ParseField(key, key + (EncodeString(x) + rest)) == Some((x, rest))
  {
    ExpectPrefix(key, EncodeString(x) + rest);
    StringRoundTrip(x, rest);
  }

  lemma FieldsRoundTrip(r: Record, rest: string)
    ensures ParseFields(r.id, NameKey + (EncodeString(r.name) + (EmailKey + (EncodeString(r.email) + ("}" + rest))))) ==
            Some((r, rest))
  {
    FieldRoundTrip(NameKey, r.name, EmailKey + (EncodeString(r.email) + ("}" + rest)));
    FieldRoundTrip(EmailKey, r.email, "}" + rest);
    ExpectPrefix("}", rest);
  }

  /** One row written by `json.dumps` is read back unchanged, whatever follows it. */
  lemma RecordRoundTrip(r: Record, rest: string)
    ensures ParseRecord(EncodeRecord(r) + rest) == Some((r, rest))
  {
    var f5 := EncodeString(r.email);
    var f4 := EmailKey;
    var f3 := EncodeString(r.name);
    var f2 := NameKey;
    var f1 := Decimal(r.id);
    Assoc(f5, "}", rest);
    Assoc(f4, f5 + "}", rest);
    Assoc(f3, f4 + (f5 + "}"), rest);
    Assoc(f2, f3 + (f4 + (f5 + "}")), rest);
    Assoc(f1, f2 + (f3 + (f4 + (f5 + "}"))), rest);
    Assoc(IdKey, f1 + (f2 + (f3 + (f4 + (f5 + "}")))), rest);
    var t2 := f2 + (f3 + (f4 + (f5 + ("}" + rest))));
    var t1 := f1 + t2;
    assert EncodeRecord(r) + rest == IdKey + t1;
    ExpectPrefix(IdKey, t1);
    ParseNatDecimal(r.id, t2);
    FieldsRoundTrip(r, rest);
  }

  lemma LastRecord(row: Record, rest: string)
    ensures ParseRecords(EncodeRecord(row) + "]" + rest) == Some(([row], rest))
  {
    var t := "]" + rest;
    assert EncodeRecord(row) + "]" + rest == EncodeRecord(row) + t;
    RecordRoundTrip(row, t);
    assert t[0] == ']' && t[1..] == rest;
    assert |t| >= 2 ==> t[..2][0] == ']';
  }

  lemma NextRecord(row: Record, inner: string, rows: seq<Record>, rest: string)
    requires ParseRecords(inner) == Some((rows, rest))
    ensures ParseRecords(EncodeRecord(row) + ", " + inner) == Some(([row] + rows, rest))
  {
    var t := ", " + inner;
    assert EncodeRecord(row) + ", " + inner == EncodeRecord(row) + t;
    RecordRoundTrip(row, t);
    assert t[..2] == ", " && t[2..] == inner;
  }

  lemma JoinCons(rows: seq<Record>, rest: string)
    requires |rows| > 1
    ensures JoinRecords(rows) + "]" + rest == EncodeRecord(rows[0]) + ", " + (JoinRecords(rows[1..]) + "]" + rest)
  {
    var x, tail := EncodeRecord(rows[0]) + ", ", JoinRecords(rows[1..]);
    assert JoinRecords(rows) == x + tail;
    Assoc(x + tail, "]", rest);
    Assoc(x, tail, "]" + rest);
    Assoc(tail, "]", rest);
  }

  lemma Assoc(a: string, b: string, c: string)
    ensures a + b + c == a + (b + c)
  {
  }

  lemma {:induction false} RecordsRoundTrip(rows: seq<Record>, rest: string)
    requires rows != []
    ensures ParseRecords(JoinRecords(rows) + "]" + rest) == Some((rows, rest))
    decreases |rows|
  {
    if |rows| == 1 {
      assert JoinRecords(rows) == EncodeRecord(rows[0]);
      LastRecord(rows[0], rest);
      assert rows == [rows[0]];
    } else {
      var inner := JoinRecords(rows[1..]) + "]" + rest;
      RecordsRoundTrip(rows[1..], rest);
      NextRecord(rows[0], inner, rows[1..], rest);
      JoinCons(rows, rest);
      assert rows == [rows[0]] + rows[1..];
    }
  }

  /** `json.loads(json.dumps(rows)) == rows`: the cached snapshot decodes to the rows it was made from. */
  lemma RoundTrip(rows: seq<Record>)
    ensures Decode(Encode(rows)) == Some(rows)
  {
    var s := Encode(rows);
    ExpectPrefix("[", JoinRecords(rows) + "]");
    assert s == "[" + (JoinRecords(rows) + "]");
    if rows != [] {
      assert |JoinRecords(rows)| > 0 by {
        assert |EncodeRecord(rows[0])| > 0;
      }
      RecordsRoundTrip(rows, "");
      assert JoinRecords(rows) + "]" + "" == JoinRecords(rows) + "]";
    }
  }

  /** Different row lists never share an encoding, so a cached value names exactly one snapshot. */
  lemma EncodeInjective(a: seq<Record>, b: seq<Record>)
    ensures Encode(a) == Encode(b) ==> a == b
  {
    RoundTrip(a);
    RoundTrip(b);
  }
}

/**
 * The text `json.dumps` writes for a Python value with its default settings
 * (item separator ", ", key separator ": "), and a decoder for that text.
 * The round-trip lemma `DecodeEncode` is what makes the JSON-encoded query
 * parameters faithful: two different values never share an encoding.
 */
module Json {
  import opened Wrappers
  import opened Values

  predicate IsDigit(c: char) {
    '0' <= c <= '9'
  }

  function DigitChar(d: nat): (c: char)
    requires d < 10
    ensures IsDigit(c) && c as int - '0' as int == d
  {
    ('0' as int + d) as char
  }

  /** Decimal digits of `n`, most significant first, as `str(n)` writes them. */
  function Digits(n: nat): (r: string)
    ensures |r| >= 1
    ensures forall i :: 0 <= i < |r| ==> IsDigit(r[i])
  {
    if n < 10 then [DigitChar(n)] else Digits(n / 10) + [DigitChar(n % 10)]
  }

  function EncodeInt(i: int): string {
    if i < 0 then "-" + Digits(-i) else Digits(i)
  }

  /** The escape `json.dumps` writes for one character of a string. */
  function EscapeChar(c: char): (r: string)
    ensures |r| >= 1
  {
    if c == '"' then "\\\""
    else if c == '\\' then "\\\\"
    else if c == '\n' then "\\n"
    else if c == '\r' then "\\r"
    else if c == '\t' then "\\t"
    else if c == '\U{0008}' then "\\b"
    else if c == '\U{000C}' then "\\f"
    else [c]
  }

  function Escape(s: string): string {
    if s == [] then "" else EscapeChar(s[0]) + Escape(s[1..])
  }

  function EncodeStr(s: string): (r: string)
    ensures |r| >= 2 && r[0] == '"'
  {
    "\"" + Escape(s) + "\""
  }

  /** `json.dumps(v)`. */
  function Encode(v: Value): (r: string)
    ensures |r| >= 1 && r[0] != ']' && r[0] != '}' && r[0] != ',' && r[0] != ' '
    decreases v, 1
  {
    match v
    case VNone => "null"
    case VBool(b) => if b then "true" else "false"
    case VInt(i) => EncodeInt(i)
    case VStr(s) => EncodeStr(s)
    case VList(items) => "[" + EncodeItems(items) + "]"
    case VDict(entries) => "{" + EncodeEntries(entries) + "}"
  }

  function EncodeItems(items: seq<Value>): (r: string)
    ensures items != [] ==> |r| >= 1 && r[0] != ']'
    decreases items, 0
  {
    if items == [] then ""
    else if |items| == 1 then Encode(items[0])
    else Encode(items[0]) + ", " + EncodeItems(items[1..])
  }

  function EncodeEntry(e: (string, Value)): (r: string)
    ensures |r| >= 1 && r[0] == '"'
    decreases e, 0
  {
    EncodeStr(e.0) + ": " + Encode(e.1)
  }

  function EncodeEntries(entries: seq<(string, Value)>): (r: string)
    ensures entries != [] ==> |r| >= 1 && r[0] == '"'
    decreases entries, 0
  {
    if entries == [] then ""
    else if |entries| == 1 then EncodeEntry(entries[0])
    else EncodeEntry(entries[0]) + ", " + EncodeEntries(entries[1..])
  }

  // ---------------------------------------------------------------------
  // Decoding

  function LeadingDigits(s: string): (n: nat)
    ensures n <= |s|
    ensures forall i :: 0 <= i < n ==> IsDigit(s[i])
    ensures n < |s| ==> !IsDigit(s[n])
  {
    if s == [] || !IsDigit(s[0]) then 0 else 1 + LeadingDigits(s[1..])
  }

  function DigitValue(c: char): (d: nat)
    requires IsDigit(c)
    ensures d < 10
  {
    c as int - '0' as int
  }

  function DigitsValue(ds: string): nat
    requires forall i :: 0 <= i < |ds| ==> IsDigit(ds[i])
  {
    if ds == [] then 0
    else DigitsValue(ds[..|ds| - 1]) * 10 + DigitValue(ds[|ds| - 1])
  }

  function ParseNat(s: string): (r: Option<(nat, string)>)
    ensures r.Some? ==> |r.value.1| < |s|
  {
    var n := LeadingDigits(s);
    if n == 0 then None else Some((DigitsValue(s[..n]), s[n..]))
  }

  function ParseInt(s: string): (r: Option<(Value, string)>)
    ensures r.Some? ==> |r.value.1| < |s|
  {
    if s != [] && s[0] == '-' then
      match ParseNat(s[1..])
      case None => None
      case Some((n, rest)) => Some((VInt(-(n as int)), rest))
    else
      match ParseNat(s)
      case None => None
      case Some((n, rest)) => Some((VInt(n), rest))
  }

  /** The character an escape `\x` stands for. */
  function Unescape(x: char): Option<char> {
    if x == '"' then Some('"')
    else if x == '\\' then Some('\\')
    else if x == 'n' then Some('\n')
    else if x == 'r' then Some('\r')
    else if x == 't' then Some('\t')
    else if x == 'b' then Some('\U{0008}')
    else if x == 'f' then Some('\U{000C}')
    else None
  }

  /** The body of a string literal up to and including its closing quote. */
  function ParseStrBody(s: string): (r: Option<(string, string)>)
    ensures r.Some? ==> |r.value.1| < |s|
  {
    if s == [] then None
    else if s[0] == '"' then Some(("", s[1..]))
    else if s[0] == '\\' then
      if |s| < 2 then None
      else match Unescape(s[1])
        case None => None
        case Some(c) =>
          match ParseStrBody(s[2..])
          case None => None
          case Some((body, rest)) => Some(([c] + body, rest))
    else
      match ParseStrBody(s[1..])
      case None => None
      case Some((body, rest)) => Some(([s[0]] + body, rest))
  }

  function ParseValue(s: string): (r: Option<(Value, string)>)
    ensures r.Some? ==> |r.value.1| < |s|
    decreases |s|, 1
  {
    if s == [] then None
    else if s[0] == 'n' then
      if |s| >= 4 && s[..4] == "null" then Some((VNone, s[4..])) else None
    else if s[0] == 't' then
      if |s| >= 4 && s[..4] == "true" then Some((VBool(true), s[4..])) else None
    else if s[0] == 'f' then
      if |s| >= 5 && s[..5] == "false" then Some((VBool(false), s[5..])) else None
    else if s[0] == '"' then
      match ParseStrBody(s[1..])
      case None => None
      case Some((str, rest)) => Some((VStr(str), rest))
    else if s[0] == '[' then
      if |s| >= 2 && s[1] == ']' then Some((VList([]), s[2..]))
      else
        match ParseItems(s[1..])
        case None => None
        case Some((items, rest)) => Some((VList(items), rest))
    else if s[0] == '{' then
      if |s| >= 2 && s[1] == '}' then Some((VDict([]), s[2..]))
      else
        match ParseEntries(s[1..])
        case None => None
        case Some((entries, rest)) => Some((VDict(entries), rest))
    else ParseInt(s)
  }

  /** One or more values separated by ", " and closed by ']'. */
  function ParseItems(s: string): (r: Option<(seq<Value>, string)>)
    ensures r.Some? ==> |r.value.1| < |s|
    decreases |s|, 2
  {
    match ParseValue(s)
    case None => None
    case Some((v, rest)) =>
      if |rest| >= 1 && rest[0] == ']' then Some(([v], rest[1..]))
      else if |rest| >= 2 && rest[..2] == ", " then
        match ParseItems(rest[2..])
        case None => None
        case Some((vs, rest')) => Some(([v] + vs, rest'))
      else None
  }

  /** One or more `"key": value` pairs separated by ", " and closed by '}'. */
  function ParseEntries(s: string): (r: Option<(seq<(string, Value)>, string)>)
    ensures r.Some? ==> |r.value.1| < |s|
    decreases |s|, 2
  {
    if s == [] || s[0] != '"' then None
    else
      match ParseStrBody(s[1..])
      case None => None
      case Some((key, afterKey)) =>
        if |afterKey| < 2 || afterKey[..2] != ": " then None
        else
          match ParseValue(afterKey[2..])
          case None => None
          case Some((v, rest)) =>
            if |rest| >= 1 && rest[0] == '}' then Some(([(key, v)], rest[1..]))
            else if |rest| >= 2 && rest[..2] == ", " then
              match ParseEntries(rest[2..])
              case None => None
              case Some((es, rest')) => Some(([(key, v)] + es, rest'))
            else None
  }

  /** `json.loads(s)` for the text the encoder writes. */
  function Decode(s: string): Option<Value> {
    match ParseValue(s)
    case Some((v, rest)) => if rest == [] then Some(v) else None
    case None => None
  }

  // ---------------------------------------------------------------------
  // Round trip

  /** What may follow a value inside the encoder's output. */
  predicate Delimited(rest: string) {
    rest == [] || rest[0] == ',' || rest[0] == ']' || rest[0] == '}'
  }

  lemma {:induction false} DigitsValueOfDigits(n: nat)
    ensures DigitsValue(Digits(n)) == n
  {
    if n >= 10 {
      DigitsValueOfDigits(n / 10);
      var ds := Digits(n);
      assert ds[..|ds| - 1] == Digits(n / 10);
    }
  }

  lemma {:induction false} LeadingDigitsOf(ds: string, rest: string)
    requires forall i :: 0 <= i < |ds| ==> IsDigit(ds[i])
    requires rest == [] || !IsDigit(rest[0])
    ensures LeadingDigits(ds + rest) == |ds|
    decreases |ds|
  {
    if ds == [] {
      assert ds + rest == rest;
    } else {
      assert (ds + rest)[1..] == ds[1..] + rest;
      LeadingDigitsOf(ds[1..], rest);
    }
  }

  lemma ParseNatDigits(n: nat, rest: string)
    requires rest == [] || !IsDigit(rest[0])
    ensures ParseNat(Digits(n) + rest) == Some((n, rest))
  {
    var ds := Digits(n);
    LeadingDigitsOf(ds, rest);
    assert (ds + rest)[..|ds|] == ds;
    assert (ds + rest)[|ds|..] == rest;
    DigitsValueOfDigits(n);
  }

  lemma ParseIntEncode(i: int, rest: string)
    requires rest == [] || !IsDigit(rest[0])
    ensures ParseInt(EncodeInt(i) + rest) == Some((VInt(i), rest))
  {
    if i < 0 {
      ParseNegative(-i, rest);
    } else {
      ParseNonNegative(i, rest);
    }
  }

  lemma ParseNegative(n: nat, rest: string)
    requires n > 0
    requires rest == [] || !IsDigit(rest[0])
    ensures ParseInt("-" + Digits(n) + rest) == Some((VInt(-(n as int)), rest))
  {
    var s := "-" + Digits(n) + rest;
    assert s[1..] == Digits(n) + rest;
    ParseNatDigits(n, rest);
  }

  lemma ParseNonNegative(n: nat, rest: string)
    requires rest == [] || !IsDigit(rest[0])
    ensures ParseInt(Digits(n) + rest) == Some((VInt(n), rest))
  {
    var ds := Digits(n);
    assert (ds + rest)[0] == ds[0];
    assert IsDigit(ds[0]);
    ParseNatDigits(n, rest);
  }

  /** An escaped character is `\` followed by a character `Unescape` maps back. */
  lemma EscapeCharShape(c: char)
    ensures |EscapeChar(c)| == 1 ==> EscapeChar(c) == [c] && c != '"' && c != '\\'
    ensures |EscapeChar(c)| != 1 ==>
              |EscapeChar(c)| == 2 && EscapeChar(c)[0] == '\\' && Unescape(EscapeChar(c)[1]) == Some(c)
  {
  }

  /** The body parser reads back one written character. */
  lemma ParseStrBodyChar(c: char, tail: string)
    requires ParseStrBody(tail).Some?
    ensures ParseStrBody(EscapeChar(c) + tail) ==
            Some(([c] + ParseStrBody(tail).value.0, ParseStrBody(tail).value.1))
  {
    var e := EscapeChar(c);
    EscapeCharShape(c);
    if |e| == 1 {
      assert (e + tail)[0] == c && (e + tail)[1..] == tail;
    } else {
      assert (e + tail)[0] == '\\' && (e + tail)[1] == e[1] && (e + tail)[2..] == tail;
    }
  }

  lemma {:induction false} ParseStrBodyEscape(s: string, rest: string)
    ensures ParseStrBody(Escape(s) + "\"" + rest) == Some((s, rest))
    decreases |s|
  {
    if s == [] {
      assert Escape(s) + "\"" + rest == ['"'] + rest;
    } else {
      var tail := Escape(s[1..]) + "\"" + rest;
      ParseStrBodyEscape(s[1..], rest);
      assert Escape(s) == EscapeChar(s[0]) + Escape(s[1..]);
      Regroup(EscapeChar(s[0]), Escape(s[1..]), "\"", rest);
      ParseStrBodyChar(s[0], tail);
      assert [s[0]] + s[1..] == s;
    }
  }

  lemma ParseEncodeStr(s: string, rest: string)
    ensures ParseValue(EncodeStr(s) + rest) == Some((VStr(s), rest))
  {
    ParseStrBodyEscape(s, rest);
    assert (EncodeStr(s) + rest)[1..] == Escape(s) + "\"" + rest;
  }

  lemma ParseEncodeLiteral(v: Value, rest: string)
    requires v.VNone? || v.VBool?
    ensures ParseValue(Encode(v) + rest) == Some((v, rest))
  {
    var e := Encode(v);
    assert (e + rest)[..|e|] == e && (e + rest)[|e|..] == rest;
  }

  lemma ParseEncodeInt(i: int, rest: string)
    requires Delimited(rest)
    ensures ParseValue(Encode(VInt(i)) + rest) == Some((VInt(i), rest))
  {
    var e := EncodeInt(i);
    ParseIntEncode(i, rest);
    assert e[0] == '-' || IsDigit(e[0]);
    assert (e + rest)[0] == e[0];
  }

  lemma ParseEncodeList(items: seq<Value>, rest: string)
    requires Delimited(rest)
    ensures ParseValue(Encode(VList(items)) + rest) == Some((VList(items), rest))
    decreases VList(items), 0
  {
    var s := Encode(VList(items)) + rest;
    if items == [] {
      assert s == "[]" + rest;
      assert s[2..] == rest;
    } else {
      var body := EncodeItems(items);
      assert s == "[" + (body + "]" + rest);
      assert s[1..] == body + "]" + rest;
      assert s[1] == body[0];
      ParseEncodeItems(items, rest);
    }
  }

  lemma ParseEncodeDict(entries: seq<(string, Value)>, rest: string)
    requires Delimited(rest)
    ensures ParseValue(Encode(VDict(entries)) + rest) == Some((VDict(entries), rest))
    decreases VDict(entries), 0
  {
    var s := Encode(VDict(entries)) + rest;
    if entries == [] {
      assert s == "{}" + rest;
      assert s[2..] == rest;
    } else {
      var body := EncodeEntries(entries);
      Regroup("{", body, "}", rest);
      assert s[1..] == body + "}" + rest;
      assert s[1] == body[0] == '"';
      ParseEncodeEntries(entries, rest);
    }
  }

  lemma {:induction false} ParseEncode(v: Value, rest: string)
    requires Delimited(rest)
    ensures ParseValue(Encode(v) + rest) == Some((v, rest))
    decreases v, 1
  {
    match v
    case VNone => ParseEncodeLiteral(v, rest);
    case VBool(_) => ParseEncodeLiteral(v, rest);
    case VInt(i) => ParseEncodeInt(i, rest);
    case VStr(s) => ParseEncodeStr(s, rest);
    case VList(items) => ParseEncodeList(items, rest);
    case VDict(entries) => ParseEncodeDict(entries, rest);
  }

  /** How two or more encoded items followed by `]` and `rest` are laid out. */
  lemma ItemsLayout(items: seq<Value>, rest: string)
    requires |items| >= 2
    ensures EncodeItems(items) + "]" + rest ==
            Encode(items[0]) + (", " + (EncodeItems(items[1..]) + "]" + rest))
    ensures (", " + (EncodeItems(items[1..]) + "]" + rest))[..2] == ", "
    ensures (", " + (EncodeItems(items[1..]) + "]" + rest))[2..] == EncodeItems(items[1..]) + "]" + rest
  {
    var a := Encode(items[0]);
    var tail := EncodeItems(items[1..]) + "]" + rest;
    assert EncodeItems(items) == a + ", " + EncodeItems(items[1..]);
    SeparatorLayout(a, ", ", EncodeItems(items[1..]), "]" + rest);
    assert EncodeItems(items[1..]) + "]" + rest == EncodeItems(items[1..]) + ("]" + rest);
  }

  /** Regrouping a concatenation of four parts around its first. */
  lemma Regroup(a: string, b: string, c: string, d: string)
    ensures a + b + c + d == a + (b + c + d)
    ensures (a + (b + c + d))[|a|..] == b + c + d
  {
  }

  /** Regrouping `a + sep + b` followed by `after`, and reading the separator back. */
  lemma SeparatorLayout(a: string, sep: string, b: string, after: string)
    ensures a + sep + b + after == a + (sep + (b + after))
    ensures (sep + (b + after))[..|sep|] == sep
    ensures (sep + (b + after))[|sep|..] == b + after
  {
  }

  lemma {:induction false} ParseEncodeItems(items: seq<Value>, rest: string)
    requires items != []
    ensures ParseItems(EncodeItems(items) + "]" + rest) == Some((items, rest))
    decreases items, 0
  {
    if |items| == 1 {
      assert EncodeItems(items) + "]" + rest == Encode(items[0]) + ("]" + rest);
      ParseEncode(items[0], "]" + rest);
      assert ("]" + rest)[1..] == rest;
      assert items == [items[0]];
    } else {
      var tail := EncodeItems(items[1..]) + "]" + rest;
      ItemsLayout(items, rest);
      ParseEncode(items[0], ", " + tail);
      ParseEncodeItems(items[1..], rest);
      assert [items[0]] + items[1..] == items;
    }
  }

  /** How an encoded entry followed by `after` is laid out. */
  lemma EntryLayout(e: (string, Value), after: string, s: string)
    requires s == EncodeEntry(e) + after
    ensures s != [] && s[0] == '"'
    ensures s[1..] == Escape(e.0) + "\"" + (": " + Encode(e.1) + after)
    ensures (": " + Encode(e.1) + after)[..2] == ": "
    ensures (": " + Encode(e.1) + after)[2..] == Encode(e.1) + after
  {
    var k := Escape(e.0);
    var afterKey := ": " + Encode(e.1) + after;
    assert s == "\"" + (k + "\"" + afterKey);
    assert afterKey == ": " + (Encode(e.1) + after);
  }

  lemma {:induction false} ParseEncodeEntry(e: (string, Value), after: string, s: string)
    requires Delimited(after)
    requires s == EncodeEntry(e) + after
    ensures s != [] && s[0] == '"'
    ensures ParseStrBody(s[1..]) == Some((e.0, ": " + Encode(e.1) + after))
    ensures (": " + Encode(e.1) + after)[..2] == ": "
    ensures (": " + Encode(e.1) + after)[2..] == Encode(e.1) + after
    ensures ParseValue(Encode(e.1) + after) == Some((e.1, after))
    decreases e, 1
  {
    EntryLayout(e, after, s);
    ParseStrBodyEscape(e.0, ": " + Encode(e.1) + after);
    ParseEncode(e.1, after);
  }

  lemma {:induction false} ParseEncodeEntries(entries: seq<(string, Value)>, rest: string)
    requires entries != []
    ensures ParseEntries(EncodeEntries(entries) + "}" + rest) == Some((entries, rest))
    decreases entries, 2
  {
    if |entries| == 1 {
      ParseEncodeLastEntry(entries, rest);
    } else {
      var e := entries[0];
      var tail := EncodeEntries(entries[1..]) + "}" + rest;
      var after := ", " + tail;
      var s := EncodeEntries(entries) + "}" + rest;
      assert s == EncodeEntry(e) + after;
      ParseEncodeEntry(e, after, s);
      assert after[..2] == ", " && after[2..] == tail;
      ParseEncodeEntries(entries[1..], rest);
      assert [e] + entries[1..] == entries;
    }
  }

  lemma ParseEncodeLastEntry(entries: seq<(string, Value)>, rest: string)
    requires |entries| == 1
    ensures ParseEntries(EncodeEntries(entries) + "}" + rest) == Some((entries, rest))
    decreases entries, 1
  {
    var e := entries[0];
    var after := "}" + rest;
    var s := EncodeEntries(entries) + "}" + rest;
    assert s == EncodeEntry(e) + after;
    ParseEncodeEntry(e, after, s);
    assert after[1..] == rest;
    assert entries == [e];
  }

  /** `json.loads(json.dumps(v)) == v`: the encoding loses nothing. */
  lemma DecodeEncode(v: Value)
    ensures Decode(Encode(v)) == Some(v)
  {
    ParseEncode(v, "");
    assert Encode(v) + "" == Encode(v);
  }

  /** Two values with the same JSON text are the same value. */
  lemma EncodeInjective(a: Value, b: Value)
    requires Encode(a) == Encode(b)
    ensures a == b
  {
    DecodeEncode(a);
    DecodeEncode(b);
  }
}

/**
 * `urllib.parse.urlencode` with its default `quote_plus`: every character
 * outside letters, digits and `_.-~` is written as `%XX` escapes of its
 * UTF-8 bytes, except the space, which becomes `+`; the pairs are joined as
 * `key=value` with `&`.
 */
module UrlEncode {
  import opened Values

  /** The characters `quote_plus` never escapes. */
  predicate Unreserved(c: char) {
    ('A' <= c <= 'Z') || ('a' <= c <= 'z') || ('0' <= c <= '9') ||
    c == '_' || c == '.' || c == '-' || c == '~'
  }

  /** The UTF-8 encoding of one scalar value. */
  function Utf8(c: char): (bytes: seq<int>)
    ensures 1 <= |bytes| <= 4
    ensures forall i :: 0 <= i < |bytes| ==> 0 <= bytes[i] < 256
    ensures (c as int < 0x80) <==> |bytes| == 1
  {
    var n := c as int;
    if n < 0x80 then [n]
    else if n < 0x800 then [0xC0 + n / 0x40, 0x80 + n % 0x40]
    else if n < 0x1_0000 then [0xE0 + n / 0x1000, 0x80 + (n / 0x40) % 0x40, 0x80 + n % 0x40]
    else [0xF0 + n / 0x4_0000, 0x80 + (n / 0x1000) % 0x40, 0x80 + (n / 0x40) % 0x40, 0x80 + n % 0x40]
  }

  /** The characters of an upper-case hex escape. */
  predicate EscapeChar(c: char) {
    c == '%' || ('0' <= c <= '9') || ('A' <= c <= 'F')
  }

  /** The upper-case hex digit of `d`. */
  function HexDigit(d: int): (c: char)
    requires 0 <= d < 16
    ensures EscapeChar(c) && c != '%'
  {
    if d < 10 then ('0' as int + d) as char else ('A' as int + d - 10) as char
  }

  /** `%XX` for one byte, upper-case hex. */
  function Escape(b: int): (r: string)
    requires 0 <= b < 256
    ensures |r| == 3 && r[0] == '%' && r[1] != '%' && r[2] != '%'
    ensures forall i :: 0 <= i < |r| ==> EscapeChar(r[i])
  {
    ['%', HexDigit(b / 16), HexDigit(b % 16)]
  }

  function EscapeBytes(bytes: seq<int>): (r: string)
    requires forall i :: 0 <= i < |bytes| ==> 0 <= bytes[i] < 256
    ensures |r| == 3 * |bytes|
    ensures forall i :: 0 <= i < |r| ==> EscapeChar(r[i])
    decreases |bytes|
  {
    if bytes == [] then "" else Escape(bytes[0]) + EscapeBytes(bytes[1..])
  }

  /** How `quote_plus` writes one character. */
  function QuoteChar(c: char): string {
    if Unreserved(c) then [c]
    else if c == ' ' then "+"
    else EscapeBytes(Utf8(c))
  }

  /** `quote_plus(s)`. */
  function QuotePlus(s: string): string
    decreases |s|
  {
    if s == [] then "" else QuoteChar(s[0]) + QuotePlus(s[1..])
  }

  /** Text that cannot break the `key=value&...` structure it is placed in. */
  predicate QuerySafe(r: string) {
    forall i :: 0 <= i < |r| ==> r[i] != '&' && r[i] != '=' && r[i] != ' '
  }

  lemma QuoteCharSafe(c: char)
    ensures QuoteChar(c) != [] && QuerySafe(QuoteChar(c))
  {
  }

  lemma SafeConcat(a: string, b: string)
    requires QuerySafe(a) && QuerySafe(b)
    ensures QuerySafe(a + b)
  {
    forall i | 0 <= i < |a + b| ensures (a + b)[i] != '&' && (a + b)[i] != '=' && (a + b)[i] != ' ' {
      if i < |a| {
        assert (a + b)[i] == a[i];
      } else {
        assert (a + b)[i] == b[i - |a|];
      }
    }
  }

  /**
   * `quote_plus(s)` never writes `&`, `=` or a space, and writes at least
   * one character per input character.
   */
  lemma {:induction false} QuotePlusSafe(s: string)
    ensures QuerySafe(QuotePlus(s))
    ensures |QuotePlus(s)| >= |s|
    decreases |s|
  {
    if s != [] {
      QuoteCharSafe(s[0]);
      QuotePlusSafe(s[1..]);
      SafeConcat(QuoteChar(s[0]), QuotePlus(s[1..]));
    }
  }

  /** `quote_plus` leaves a string of unreserved characters as it is. */
  lemma {:induction false} QuotePlusUnreserved(s: string)
    requires forall i :: 0 <= i < |s| ==> Unreserved(s[i])
    ensures QuotePlus(s) == s
    decreases |s|
  {
    if s != [] {
      QuotePlusUnreserved(s[1..]);
      assert [s[0]] + s[1..] == s;
    }
  }

  /** `quote_plus` of a concatenation is the concatenation of the quoted parts. */
  lemma {:induction false} QuotePlusAppend(s: string, t: string)
    ensures QuotePlus(s + t) == QuotePlus(s) + QuotePlus(t)
    decreases |s|
  {
    if s == [] {
      assert s + t == t;
    } else {
      var st := s + t;
      assert st[0] == s[0] && st[1..] == s[1..] + t;
      assert QuotePlus(st) == QuoteChar(s[0]) + QuotePlus(s[1..] + t);
      QuotePlusAppend(s[1..], t);
    }
  }

  lemma QuotedComma()
    ensures QuotePlus(",") == "%2C"
  {
    assert !Unreserved(',');
    assert Utf8(',') == [44];
    assert EscapeBytes([44]) == Escape(44) + EscapeBytes([]);
    assert HexDigit(2) == '2' && HexDigit(12) == 'C';
  }

  /** A comma-joined list of unreserved words is sent with every comma written `%2C`. */
  lemma {:induction false} QuotePlusCommaJoin(parts: seq<string>)
    requires forall i, j :: 0 <= i < |parts| && 0 <= j < |parts[i]| ==> Unreserved(parts[i][j])
    ensures QuotePlus(CommaJoin(parts)) == Join("%2C", parts)
    decreases |parts|
  {
    if parts == [] {
    } else if |parts| == 1 {
      QuotePlusUnreserved(parts[0]);
    } else {
      QuotePlusCommaJoin(parts[1..]);
      QuotePlusUnreserved(parts[0]);
      QuotedComma();
      QuotePlusAppend(parts[0] + ",", CommaJoin(parts[1..]));
      QuotePlusAppend(parts[0], ",");
    }
  }

  /** One `key=value` component. */
  function Field(kv: (string, string)): string {
    QuotePlus(kv.0) + "=" + QuotePlus(kv.1)
  }

  /** Two safe parts around one `=`: the `=` is the only one, and there is no `&`. */
  lemma SafePair(k: string, v: string)
    requires QuerySafe(k) && QuerySafe(v)
    ensures '&' !in k + "=" + v
    ensures forall i :: 0 <= i < |k + "=" + v| ==> ((k + "=" + v)[i] == '=' <==> i == |k|)
  {
    var w := k + "=" + v;
    forall i | 0 <= i < |w| ensures w[i] != '&' && (w[i] == '=' <==> i == |k|) {
      if i < |k| {
        assert w[i] == k[i];
      } else if i > |k| {
        assert w[i] == v[i - |k| - 1];
      }
    }
  }

  /** A field holds exactly one `=`, after the quoted key, and no `&`, so `urlencode` can be split back into its pairs. */
  lemma FieldShape(kv: (string, string))
    ensures '&' !in Field(kv)
    ensures forall i :: 0 <= i < |Field(kv)| ==> (Field(kv)[i] == '=' <==> i == |QuotePlus(kv.0)|)
  {
    QuotePlusSafe(kv.0);
    QuotePlusSafe(kv.1);
    SafePair(QuotePlus(kv.0), QuotePlus(kv.1));
  }

  /** `urlencode(pairs)`, pairs in insertion order. */
  function Urlencode(pairs: seq<(string, string)>): string {
    Join("&", seq(|pairs|, i requires 0 <= i < |pairs| => Field(pairs[i])))
  }

  /** A field whose key and value are unreserved is written as they are. */
  lemma FieldUnreserved(key: string, value: string)
    requires forall i :: 0 <= i < |key| ==> Unreserved(key[i])
    requires forall i :: 0 <= i < |value| ==> Unreserved(value[i])
    ensures Field((key, value)) == key + "=" + value
  {
    QuotePlusUnreserved(key);
    QuotePlusUnreserved(value);
  }

  /** A field whose value is a comma-joined list of unreserved words. */
  lemma FieldCommaJoin(key: string, parts: seq<string>)
    requires forall i :: 0 <= i < |key| ==> Unreserved(key[i])
    requires forall i, j :: 0 <= i < |parts| && 0 <= j < |parts[i]| ==> Unreserved(parts[i][j])
    ensures Field((key, CommaJoin(parts))) == key + "=" + Join("%2C", parts)
  {
    QuotePlusUnreserved(key);
    QuotePlusCommaJoin(parts);
  }
}

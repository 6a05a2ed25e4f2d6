/**
 * The text operations the management commands use when they write their reports:
 * `str.join`, the decimal rendering of an int, `"-" * n`, and Python's `repr` of a
 * string and of a list of strings.
 */
module Text {
  import opened Wrappers

  /** `sep.join(xs)`. */
  function Join(sep: string, xs: seq<string>): (r: string)
    ensures xs == [] ==> r == ""
    ensures |xs| == 1 ==> r == xs[0]
  {
    if |xs| == 0 then ""
    else if |xs| == 1 then xs[0]
    else Join(sep, xs[..|xs| - 1]) + sep + xs[|xs| - 1]
  }

  /** A joined text ends with the last piece joined. */
  lemma {:induction false} JoinEndsWithLast(sep: string, xs: seq<string>)
    requires xs != []
    ensures |Join(sep, xs)| >= |xs[|xs| - 1]|
    ensures Join(sep, xs)[|Join(sep, xs)| - |xs[|xs| - 1]|..] == xs[|xs| - 1]
  {
    if |xs| > 1 {
      var r := Join(sep, xs);
      var last := xs[|xs| - 1];
      assert r == (Join(sep, xs[..|xs| - 1]) + sep) + last;
    }
  }

  predicate IsDecimalDigit(c: char) {
    '0' <= c <= '9'
  }

  function DigitChar(d: nat): (c: char)
    requires d < 10
    ensures IsDecimalDigit(c)
  {
    "0123456789"[d]
  }

  /** Python's `str(n)` for a non-negative int: decimal digits, most significant first, no leading zero. */
  function NatToString(n: nat): (s: string)
    ensures |s| >= 1
    ensures forall k :: 0 <= k < |s| ==> IsDecimalDigit(s[k])
    ensures n >= 10 <==> |s| > 1
    ensures |s| > 1 ==> s[0] != '0'
    decreases n
  {
    if n < 10 then [DigitChar(n)] else NatToString(n / 10) + [DigitChar(n % 10)]
  }

  /** Python's `str(i)` for an int. */
  function IntToString(i: int): (s: string)
    ensures |s| >= 1
    ensures s[0] == '-' <==> i < 0
  {
    if i < 0 then "-" + NatToString(-i) else NatToString(i)
  }

  /** `c * n` for a one-character string `c`. */
  function Repeat(c: char, n: nat): (s: string)
    ensures |s| == n && forall k :: 0 <= k < n ==> s[k] == c
  {
    seq(n, _ => c)
  }

  // ---- Python's repr of a str ----

  /** The quote `repr` puts around `s`: double quotes only when `s` holds `'` and no `"`. */
  function ReprQuote(s: string): (q: char)
    ensures q == '"' <==> '\'' in s && '"' !in s
    ensures q == '"' || q == '\''
  {
    if '\'' in s && '"' !in s then '"' else '\''
  }

  function HexDigit(d: int): char
    requires 0 <= d < 16
  {
    "0123456789abcdef"[d]
  }

  /** A control character of ASCII: escaped as `\xhh` unless it has a short form. */
  predicate IsAsciiControl(c: char) {
    (c as int) < 0x20 || (c as int) == 0x7F
  }

  /** How `repr` writes one character inside quotes `q`. */
  function EscapeChar(c: char, q: char): string {
    if c == q || c == '\\' then ['\\', c]
    else if c == '\t' then ['\\', 't']
    else if c == '\n' then ['\\', 'n']
    else if c == '\r' then ['\\', 'r']
    else if IsAsciiControl(c) then ['\\', 'x', HexDigit(c as int / 16), HexDigit(c as int % 16)]
    else [c]
  }

  function Escape(s: string, q: char): string {
    if s == [] then [] else EscapeChar(s[0], q) + Escape(s[1..], q)
  }

  /** Python's `repr` of a str (equally its `str` inside a list). */
  function StrRepr(s: string): string {
    var q := ReprQuote(s);
    [q] + Escape(s, q) + [q]
  }

  // ---- reading an escaped text back, the partner of `Escape` ----

  predicate IsHexDigit(c: char) {
    '0' <= c <= '9' || 'a' <= c <= 'f'
  }

  function HexValue(c: char): (d: int)
    requires IsHexDigit(c)
    ensures 0 <= d < 16
  {
    if c <= '9' then c as int - '0' as int else c as int - 'a' as int + 10
  }

  function Prepend(c: char, r: Option<string>): Option<string> {
    if r.Some? then Some([c] + r.value) else None
  }

  /** The text a Python string literal body stands for, or None if an escape is malformed. */
  function Unescape(t: string): Option<string>
    decreases |t|
  {
    if t == [] then Some([])
    else if t[0] != '\\' then Prepend(t[0], Unescape(t[1..]))
    else if |t| < 2 then None
    else if t[1] == '\\' || t[1] == '\'' || t[1] == '"' then Prepend(t[1], Unescape(t[2..]))
    else if t[1] == 't' then Prepend('\t', Unescape(t[2..]))
    else if t[1] == 'n' then Prepend('\n', Unescape(t[2..]))
    else if t[1] == 'r' then Prepend('\r', Unescape(t[2..]))
    else if t[1] == 'x' && |t| >= 4 && IsHexDigit(t[2]) && IsHexDigit(t[3]) then
      Prepend((HexValue(t[2]) * 16 + HexValue(t[3])) as char, Unescape(t[4..]))
    else None
  }

  lemma HexDigitValue(d: int)
    requires 0 <= d < 16
    ensures IsHexDigit(HexDigit(d)) && HexValue(HexDigit(d)) == d
  {
  }

  /** One escaped character reads back as that character. */
  lemma UnescapeChar(c: char, q: char, r: string)
    requires q == '"' || q == '\''
    ensures Unescape(EscapeChar(c, q) + r) == Prepend(c, Unescape(r))
  {
    var e := EscapeChar(c, q);
    var t := e + r;
    if c == q || c == '\\' || c == '\t' || c == '\n' || c == '\r' {
      assert t[2..] == r;
    } else if IsAsciiControl(c) {
      var hi, lo := c as int / 16, c as int % 16;
      HexDigitValue(hi);
      HexDigitValue(lo);
      assert t[2] == HexDigit(hi) && t[3] == HexDigit(lo);
      assert t[4..] == r;
      assert (hi * 16 + lo) as char == c;
    } else {
      assert t[1..] == r;
    }
  }

  /** Escaping loses nothing: reading the escaped text back gives the original. */
  lemma {:induction false} EscapeRoundTrip(s: string, q: char)
    requires q == '"' || q == '\''
    ensures Unescape(Escape(s, q)) == Some(s)
  {
    if s != [] {
      EscapeRoundTrip(s[1..], q);
      UnescapeChar(s[0], q, Escape(s[1..], q));
      assert [s[0]] + s[1..] == s;
    }
  }

  /** `repr(s)` is `s` between two equal quotes, written so that reading it back gives `s`. */
  lemma StrReprRoundTrip(s: string)
    ensures var r := StrRepr(s);
      && |r| >= 2 && r[0] == r[|r| - 1] == ReprQuote(s)
      && Unescape(r[1..|r| - 1]) == Some(s)
  {
    var q := ReprQuote(s);
    var r := StrRepr(s);
    assert r[1..|r| - 1] == Escape(s, q);
    EscapeRoundTrip(s, q);
  }

  /** Ordinary printable text is written unchanged between single quotes. */
  lemma {:induction false} PlainEscape(s: string, q: char)
    requires forall k :: 0 <= k < |s| ==> s[k] != q && s[k] != '\\' && !IsAsciiControl(s[k])
    ensures Escape(s, q) == s
  {
    if s != [] {
      PlainEscape(s[1..], q);
      assert [s[0]] + s[1..] == s;
    }
  }

  lemma StrReprPlain(s: string)
    requires forall k :: 0 <= k < |s| ==> s[k] != '\'' && s[k] != '"' && s[k] != '\\' && !IsAsciiControl(s[k])
    ensures StrRepr(s) == "'" + s + "'"
  {
    PlainEscape(s, '\'');
  }

  /** A text holding `'` and no `"` is put between double quotes, with nothing escaped. */
  lemma StrReprSwitchesQuote()
    ensures StrRepr("E'1") == "\"E'1\""
  {
    assert "E'1"[1] == '\'';
    assert ReprQuote("E'1") == '"';
    assert Escape("1", '"') == "1";
    assert Escape("'1", '"') == "'1";
  }

  /** A newline is written as the two characters `\n`. */
  lemma StrReprEscapesNewline()
    ensures StrRepr("E\n1") == "'E\\n1'"
  {
    assert ReprQuote("E\n1") == '\'';
    assert Escape("1", '\'') == "1";
    assert Escape("\n1", '\'') == "\\n1";
  }

  function StrReprs(xs: seq<string>): (r: seq<string>)
    ensures |r| == |xs| && forall k :: 0 <= k < |xs| ==> r[k] == StrRepr(xs[k])
  {
    if xs == [] then [] else [StrRepr(xs[0])] + StrReprs(xs[1..])
  }

  /** Python's `repr` (equally `str`) of a list of strings: `['a', 'b']`. */
  function StrListRepr(xs: seq<string>): string {
    "[" + Join(", ", StrReprs(xs)) + "]"
  }
}

/**
 * The few Python `str` operations the chatbots rely on: `isspace`/`strip`,
 * `find`, `join`, `repr` and the decimal rendering of integers.
 */
module PyStr {

  /** `c.isspace()` in Python 3: the Unicode whitespace characters. */
  predicate IsSpace(c: char) {
    || c == ' '
    || ('\t' <= c <= '\r')
    || ('\U{1C}' <= c <= '\U{1F}')
    || c == '\U{85}' || c == '\U{A0}' || c == '\U{1680}'
    || ('\U{2000}' <= c <= '\U{200A}')
    || c == '\U{2028}' || c == '\U{2029}' || c == '\U{202F}' || c == '\U{205F}' || c == '\U{3000}'
  }

  predicate AllSpace(s: string) {
    forall i :: 0 <= i < |s| ==> IsSpace(s[i])
  }

  /** Neither the first nor the last character is whitespace. */
  predicate NoEdgeSpace(s: string) {
    s == [] || (!IsSpace(s[0]) && !IsSpace(s[|s| - 1]))
  }

  /** `s.lstrip()`: drops whitespace from the front. */
  function TrimLeft(s: string): (r: string)
    ensures |r| <= |s|
  {
    if s != [] && IsSpace(s[0]) then TrimLeft(s[1..]) else s
  }

  /** `s.rstrip()`: drops whitespace from the back. */
  function TrimRight(s: string): (r: string)
    ensures |r| <= |s|
  {
    if s != [] && IsSpace(s[|s| - 1]) then TrimRight(s[..|s| - 1]) else s
  }

  /** `lstrip` keeps the longest suffix that does not start with whitespace. */
  lemma {:induction false} TrimLeftIsSuffix(s: string)
    ensures TrimLeft(s) == s[|s| - |TrimLeft(s)|..]
    ensures AllSpace(s[..|s| - |TrimLeft(s)|])
    ensures TrimLeft(s) == [] || !IsSpace(TrimLeft(s)[0])
  {
    if s != [] && IsSpace(s[0]) {
      var r := TrimLeft(s[1..]);
      TrimLeftIsSuffix(s[1..]);
      assert s[1..][..|s| - 1 - |r|] == s[1..|s| - |r|];
      assert s[1..][|s| - 1 - |r|..] == s[|s| - |r|..];
    }
  }

  /** `rstrip` keeps the longest prefix that does not end with whitespace. */
  lemma {:induction false} TrimRightIsPrefix(s: string)
    ensures TrimRight(s) == s[..|TrimRight(s)|]
    ensures AllSpace(s[|TrimRight(s)|..])
    ensures TrimRight(s) == [] || !IsSpace(TrimRight(s)[|TrimRight(s)| - 1])
  {
    if s != [] && IsSpace(s[|s| - 1]) {
      var r := TrimRight(s[..|s| - 1]);
      TrimRightIsPrefix(s[..|s| - 1]);
      assert s[..|s| - 1][|r|..] == s[|r|..|s| - 1];
      assert s[..|s| - 1][..|r|] == s[..|r|];
    }
  }

  /** The number of whitespace characters `strip` removes from the front. */
  function LeadingSpace(s: string): nat {
    |s| - |TrimLeft(s)|
  }

  /** `s.strip()`: `s` with the whitespace at both ends removed. */
  function Strip(s: string): (r: string)
    ensures |r| <= |s|
  {
    TrimRight(TrimLeft(s))
  }

  /**
   * What `Strip` keeps: the slice of `s` that only whitespace surrounds and that
   * neither starts nor ends with whitespace (which determines it).
   */
  lemma StripIsSlice(s: string)
    ensures NoEdgeSpace(Strip(s))
    ensures LeadingSpace(s) + |Strip(s)| <= |s|
    ensures Strip(s) == s[LeadingSpace(s)..LeadingSpace(s) + |Strip(s)|]
    ensures AllSpace(s[..LeadingSpace(s)]) && AllSpace(s[LeadingSpace(s) + |Strip(s)|..])
  {
    var l := TrimLeft(s);
    var r := TrimRight(l);
    TrimLeftIsSuffix(s);
    TrimRightIsPrefix(l);
    assert r == [] || r[0] == l[0];
    assert s[LeadingSpace(s) + |r|..] == l[|r|..];
  }

  /** Stripping a string that has no whitespace at either end leaves it as it is. */
  lemma StripKeeps(s: string)
    requires NoEdgeSpace(s)
    ensures Strip(s) == s
  {
    StripIsSlice(s);
  }

  /** `strip` is idempotent. */
  lemma StripIdempotent(s: string)
    ensures Strip(Strip(s)) == Strip(s)
  {
    StripIsSlice(s);
    StripKeeps(Strip(s));
  }

  /** `t` occurs in `s` starting at index `i`. */
  predicate OccursAt(s: string, t: string, i: int) {
    0 <= i && i + |t| <= |s| && s[i..i + |t|] == t
  }

  /** `s.find(t, from)`: the lowest index at or after `from` where `t` occurs, or -1. */
  function FindFrom(s: string, t: string, from: nat): (r: int)
    requires from <= |s|
    ensures r == -1 || (from <= r && OccursAt(s, t, r))
    ensures forall k :: from <= k && (r == -1 || k < r) ==> !OccursAt(s, t, k)
    decreases |s| - from
  {
    if OccursAt(s, t, from) then from
    else if from == |s| then -1
    else FindFrom(s, t, from + 1)
  }

  /** `s.find(t)`: the lowest index where `t` occurs in `s`, or -1 when it does not occur. */
  function Find(s: string, t: string): (r: int)
    ensures r == -1 || OccursAt(s, t, r)
    ensures forall k :: 0 <= k && (r == -1 || k < r) ==> !OccursAt(s, t, k)
  {
    FindFrom(s, t, 0)
  }

  /** `sep.join(parts)` */
  function Join(sep: string, parts: seq<string>): string {
    if |parts| == 0 then ""
    else if |parts| == 1 then parts[0]
    else parts[0] + sep + Join(sep, parts[1..])
  }

  function DigitChar(n: nat): char
    requires n < 10
  {
    (48 + n) as char
  }

  function HexDigit(n: nat): char
    requires n < 16
  {
    if n < 10 then (48 + n) as char else (87 + n) as char
  }

  /** The decimal digits of `n`, as `str(n)` writes them. */
  function NatToString(n: nat): (r: string)
    ensures |r| > 0
    ensures forall i :: 0 <= i < |r| ==> '0' <= r[i] <= '9'
  {
    if n < 10 then [DigitChar(n)] else NatToString(n / 10) + [DigitChar(n % 10)]
  }

  /** `str(i)` for an integer. */
  function IntToString(i: int): string {
    if i < 0 then "-" + NatToString(-i) else NatToString(i)
  }

  /** The quote `repr` chooses: a double quote only when the text holds a single quote and no double quote. */
  function ReprQuote(s: string): char {
    if '\'' in s && '"' !in s then '"' else '\''
  }

  /**
   * The characters `str.isprintable` rejects, as far as this model knows
   * them: the control characters, every separator but the space (categories
   * Zs, Zl and Zp), the format characters of the ranges below, the
   * private-use characters and the noncharacters.
   */
  predicate Unprintable(c: char) {
    || c < ' ' || ('\U{7F}' <= c <= '\U{A0}') || c == '\U{AD}'
    || ('\U{600}' <= c <= '\U{605}') || c == '\U{61C}' || c == '\U{6DD}' || c == '\U{70F}'
    || c == '\U{1680}' || c == '\U{180E}'
    || ('\U{2000}' <= c <= '\U{200F}') || ('\U{2028}' <= c <= '\U{202F}') || ('\U{205F}' <= c <= '\U{206F}')
    || c == '\U{3000}'
    || ('\U{E000}' <= c <= '\U{F8FF}') || ('\U{FDD0}' <= c <= '\U{FDEF}')
    || c == '\U{FEFF}' || ('\U{FFF0}' <= c <= '\U{FFFB}')
    || c as int % 0x10000 >= 0xFFFE || c as int >= 0xF0000
  }

  /** The lowest `width` hexadecimal digits of `n`, most significant first. */
  function HexDigits(n: nat, width: nat): (r: string)
    ensures |r| == width
    ensures forall i :: 0 <= i < |r| ==> '0' <= r[i] <= '9' || 'a' <= r[i] <= 'f'
  {
    if width == 0 then "" else HexDigits(n / 16, width - 1) + [HexDigit(n % 16)]
  }

  /**
   * How `repr` writes one character inside the quotes `q`: the quote and the
   * backslash behind a backslash, tab, newline and return by name, any other
   * unprintable character as `\x`, `\u` or `\U` and its code in hex.
   */
  function ReprChar(c: char, q: char): string {
    if c == q || c == '\\' then ['\\', c]
    else if c == '\t' then "\\t"
    else if c == '\n' then "\\n"
    else if c == '\r' then "\\r"
    else if Unprintable(c) then
      if c as int < 0x100 then "\\x" + HexDigits(c as int, 2)
      else if c as int < 0x10000 then "\\u" + HexDigits(c as int, 4)
      else "\\U" + HexDigits(c as int, 8)
    else [c]
  }

  function ReprBody(s: string, q: char): string {
    if s == [] then "" else ReprChar(s[0], q) + ReprBody(s[1..], q)
  }

  /** `repr(s)` for a string. */
  function PyRepr(s: string): (r: string)
    ensures |r| >= 2 && r[0] == r[|r| - 1] == ReprQuote(s)
  {
    var q := ReprQuote(s);
    [q] + ReprBody(s, q) + [q]
  }

  /** Text that needs no escape comes back between single quotes, as it is. */
  lemma {:induction false} ReprVerbatim(s: string)
    requires forall i :: 0 <= i < |s| ==> !Unprintable(s[i]) && s[i] != '\\' && s[i] != '\'' && s[i] != '"'
    ensures PyRepr(s) == "'" + s + "'"
  {
    BodyVerbatim(s, '\'');
  }

  lemma {:induction false} BodyVerbatim(s: string, q: char)
    requires forall i :: 0 <= i < |s| ==> !Unprintable(s[i]) && s[i] != '\\' && s[i] != q
    ensures ReprBody(s, q) == s
    decreases |s|
  {
    if s != [] {
      BodyVerbatim(s[1..], q);
      assert s == [s[0]] + s[1..];
    }
  }

  /** The line separator U+2028 is written as its `\u` escape, as CPython writes it. */
  lemma ReprEscapesLineSeparator()
    ensures PyRepr("\U{2028}") == "'\\u2028'"
  {
    assert HexDigits(2, 1) == "2";
    assert HexDigits(0x20, 2) == "20";
    assert HexDigits(0x202, 3) == "202";
    assert HexDigits(0x2028, 4) == "2028";
    assert ReprBody("\U{2028}", '\'') == ReprChar('\U{2028}', '\'');
  }

  /** Whatever the text, its `repr` holds no unprintable character. */
  lemma ReprPrintable(s: string)
    ensures forall i :: 0 <= i < |PyRepr(s)| ==> !Unprintable(PyRepr(s)[i])
  {
    var q := ReprQuote(s);
    BodyPrintable(s, q);
    var r := PyRepr(s);
    assert r == [q] + ReprBody(s, q) + [q];
    forall i | 0 <= i < |r|
      ensures !Unprintable(r[i])
    {
      if 0 < i < |r| - 1 {
        assert r[i] == ReprBody(s, q)[i - 1];
      }
    }
  }

  lemma {:induction false} BodyPrintable(s: string, q: char)
    requires !Unprintable(q)
    ensures forall i :: 0 <= i < |ReprBody(s, q)| ==> !Unprintable(ReprBody(s, q)[i])
    decreases |s|
  {
    if s != [] {
      BodyPrintable(s[1..], q);
      var a, b := ReprChar(s[0], q), ReprBody(s[1..], q);
      CharReprPrintable(s[0], q);
      forall i | 0 <= i < |a + b|
        ensures !Unprintable((a + b)[i])
      {
        if i >= |a| {
          assert (a + b)[i] == b[i - |a|];
        }
      }
    }
  }

  /** The representation of one character uses only printable characters. */
  lemma CharReprPrintable(c: char, q: char)
    requires !Unprintable(q)
    ensures forall i :: 0 <= i < |ReprChar(c, q)| ==> !Unprintable(ReprChar(c, q)[i])
  {
    var r := ReprChar(c, q);
    if c != q && c != '\\' && c != '\t' && c != '\n' && c != '\r' && Unprintable(c) {
      var w := if c as int < 0x100 then 2 else if c as int < 0x10000 then 4 else 8;
      var d := HexDigits(c as int, w);
      var tag := if c as int < 0x100 then 'x' else if c as int < 0x10000 then 'u' else 'U';
      assert r == ['\\', tag] + d;
      forall i | 0 <= i < |r| ensures !Unprintable(r[i]) {
        if i >= 2 {
          assert r[i] == d[i - 2];
        }
      }
    }
  }
}

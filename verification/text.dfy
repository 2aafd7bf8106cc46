/** String helpers the application relies on through JavaScript's built-ins:
    `String.prototype.trim`, number-to-decimal conversion, `padStart`, and
    `parseInt(_, 16)`; plus a decimal reader used to state round trips. */
module Text {
  import opened Common

  /** The characters `trim` and `parseInt` skip: ECMAScript WhiteSpace and
      LineTerminator code points. */
  predicate IsWhitespace(c: char) {
    c == '\t' || c == '\n' || c == '\U{0B}' || c == '\U{0C}' || c == '\r' || c == ' '
    || c == '\U{A0}' || c == '\U{1680}' || ('\U{2000}' <= c <= '\U{200A}')
    || c == '\U{2028}' || c == '\U{2029}' || c == '\U{202F}' || c == '\U{205F}'
    || c == '\U{3000}' || c == '\U{FEFF}'
  }

  /** Drops the leading whitespace: the result is the suffix of `s` that
      starts at its first non-whitespace character. */
  function TrimStart(s: string): (r: string)
    ensures |r| <= |s| && r == s[|s| - |r|..]
    ensures forall i {:trigger IsWhitespace(s[i])} :: 0 <= i < |s| - |r| ==> IsWhitespace(s[i])
    ensures r != [] ==> !IsWhitespace(r[0])
  {
    if s != [] && IsWhitespace(s[0]) then TrimStart(s[1..]) else s
  }

  /** Drops the trailing whitespace: the result is the prefix of `s` that
      ends at its last non-whitespace character. */
  function TrimEnd(s: string): (r: string)
    ensures |r| <= |s| && r == s[..|r|]
    ensures forall i {:trigger IsWhitespace(s[i])} :: |r| <= i < |s| ==> IsWhitespace(s[i])
    ensures r != [] ==> !IsWhitespace(r[|r| - 1])
  {
    if s != [] && IsWhitespace(s[|s| - 1]) then TrimEnd(s[..|s| - 1]) else s
  }

  /** `s.trim()`. */
  function Trim(s: string): (r: string)
    ensures r != [] ==> !IsWhitespace(r[0]) && !IsWhitespace(r[|r| - 1])
    ensures |r| <= |s|
  {
    TrimEnd(TrimStart(s))
  }

  lemma {:induction false} TrimStartOfClean(s: string)
    requires s == [] || !IsWhitespace(s[0])
    ensures TrimStart(s) == s
  {
  }

  lemma {:induction false} TrimEndOfClean(s: string)
    requires s == [] || !IsWhitespace(s[|s| - 1])
    ensures TrimEnd(s) == s
  {
  }

  /** Trimming twice is trimming once. */
  lemma TrimIdempotent(s: string)
    ensures Trim(Trim(s)) == Trim(s)
  {
    var t := Trim(s);
    TrimStartOfClean(t);
    TrimEndOfClean(t);
  }

  /** The trimmed string is the slice of `s` between its outermost
      non-whitespace characters. */
  lemma TrimIsSlice(s: string)
    ensures exists i, j :: 0 <= i <= j <= |s| && Trim(s) == s[i..j]
  {
    var a := TrimStart(s);
    var b := TrimEnd(a);
    var i := |s| - |a|;
    assert b == a[..|b|];
    assert b == s[i..i + |b|];
  }

  /** The trimmed string is empty exactly when `s` is all whitespace. */
  lemma TrimEmptyIffBlank(s: string)
    ensures Trim(s) == [] <==> forall k :: 0 <= k < |s| ==> IsWhitespace(s[k])
  {
    var a := TrimStart(s);
    if !forall k :: 0 <= k < |s| ==> IsWhitespace(s[k]) {
      var k :| 0 <= k < |s| && !IsWhitespace(s[k]);
      assert a[k - (|s| - |a|)] == s[k];
    }
  }

  predicate IsDigit(c: char) { '0' <= c <= '9' }

  function DigitChar(d: nat): (c: char)
    requires d < 10
    ensures IsDigit(c)
  {
    ('0' as int + d) as char
  }

  function DigitValue(c: char): (d: nat)
    requires IsDigit(c)
    ensures d < 10 && DigitChar(d) == c
  {
    c as int - '0' as int
  }

  /** The decimal spelling of a natural number (`n.toString()`): digits
      only, no leading zero. */
  function NatToString(n: nat): (r: string)
    ensures r != []
    ensures forall i :: 0 <= i < |r| ==> IsDigit(r[i])
    ensures |r| > 1 ==> r[0] != '0'
  {
    if n < 10 then [DigitChar(n)] else NatToString(n / 10) + [DigitChar(n % 10)]
  }

  /** Reads a non-empty string of decimal digits (leading zeros allowed);
      `None` for anything else. */
  function ParseDecimal(s: string): (r: Option<nat>)
    ensures r.Some? <==> s != [] && forall i :: 0 <= i < |s| ==> IsDigit(s[i])
  {
    if s == [] || !IsDigit(s[|s| - 1]) then None
    else if |s| == 1 then Some(DigitValue(s[0]))
    else match ParseDecimal(s[..|s| - 1])
      case None => None
      case Some(p) => Some(p * 10 + DigitValue(s[|s| - 1]))
  }

  /** Reading back a number's decimal spelling gives the number. */
  lemma {:induction false} ParseNatToString(n: nat)
    ensures ParseDecimal(NatToString(n)) == Some(n)
  {
    if n >= 10 {
      var s := NatToString(n);
      ParseNatToString(n / 10);
      assert s[..|s| - 1] == NatToString(n / 10);
      assert DigitValue(s[|s| - 1]) == n % 10;
    }
  }

  /** Distinct numbers have distinct decimal spellings. */
  lemma NatToStringInjective(m: nat, n: nat)
    ensures NatToString(m) == NatToString(n) <==> m == n
  {
    ParseNatToString(m);
    ParseNatToString(n);
  }

  lemma NatToStringShort(n: nat)
    ensures n < 10 ==> NatToString(n) == [DigitChar(n)]
    ensures 10 <= n < 100 ==> NatToString(n) == [DigitChar(n / 10), DigitChar(n % 10)]
  {
  }

  /** `s.padStart(2, '0')` */
  function PadTwo(s: string): (r: string)
    ensures |r| == if |s| >= 2 then |s| else 2
    ensures r[|r| - |s|..] == s
    ensures forall i :: 0 <= i < |r| - |s| ==> r[i] == '0'
  {
    if |s| >= 2 then s else seq(2 - |s|, _ => '0') + s
  }

  /** A two-digit rendering of a number below 100 reads back as that
      number. */
  lemma {:induction false} ParsePadTwo(n: nat)
    requires n < 100
    ensures |PadTwo(NatToString(n))| == 2
    ensures ParseDecimal(PadTwo(NatToString(n))) == Some(n)
  {
    NatToStringShort(n);
    var p := PadTwo(NatToString(n));
    if n < 10 {
      assert p == ['0', DigitChar(n)];
      assert p[..1] == ['0'];
    } else {
      ParseNatToString(n);
    }
  }

  // ---------------------------------------------------------------------
  // parseInt(s, 16)

  function HexDigitValue(c: char): (r: Option<nat>)
    ensures r.Some? ==> r.value < 16
  {
    if '0' <= c <= '9' then Some(c as int - '0' as int)
    else if 'a' <= c <= 'f' then Some(c as int - 'a' as int + 10)
    else if 'A' <= c <= 'F' then Some(c as int - 'A' as int + 10)
    else None
  }

  /** Length of the longest prefix of `s` made of hexadecimal digits. */
  function HexRun(s: string): (k: nat)
    ensures k <= |s|
    ensures forall i :: 0 <= i < k ==> HexDigitValue(s[i]).Some?
    ensures k < |s| ==> HexDigitValue(s[k]).None?
  {
    if s == [] || HexDigitValue(s[0]).None? then 0 else 1 + HexRun(s[1..])
  }

  /** Value of a string of hexadecimal digits, most significant first. */
  function HexValue(s: string): nat
    requires forall i :: 0 <= i < |s| ==> HexDigitValue(s[i]).Some?
  {
    if s == [] then 0 else HexValue(s[..|s| - 1]) * 16 + HexDigitValue(s[|s| - 1]).value
  }

  /** Whether `s`, after leading whitespace, starts with a minus sign. */
  predicate HexNegative(s: string) {
    var t := TrimStart(s);
    t != [] && t[0] == '-'
  }

  /** What `parseInt(_, 16)` reads digits from: `s` without its leading
      whitespace, an optional sign and an optional `0x`/`0X` prefix. */
  function HexBody(s: string): (w: string)
    ensures |w| <= |s| && w == s[|s| - |w|..]
  {
    var t := TrimStart(s);
    var u := if t != [] && (t[0] == '-' || t[0] == '+') then t[1..] else t;
    if |u| >= 2 && u[0] == '0' && (u[1] == 'x' || u[1] == 'X') then u[2..] else u
  }

  /** The value of the longest run of hexadecimal digits at the start of
      `w`, or `None` when `w` does not start with one. */
  function ReadHexRun(w: string): (r: Option<nat>)
    ensures r.Some? <==> w != [] && HexDigitValue(w[0]).Some?
  {
    var k := HexRun(w);
    if k == 0 then None else Some(HexValue(w[..k]))
  }

  /** `parseInt(s, 16)`: read the longest run of hexadecimal digits after
      the skipped prefix; `None` stands for NaN (no digit at all). The
      result is NaN exactly when no digit follows the prefix, is negative
      only after a minus sign, and its magnitude is the value of the digits
      up to the first character that is not one; the rest is ignored. */
  function ParseHex(s: string): (r: Option<int>)
    ensures r.Some? <==> HexBody(s) != [] && HexDigitValue(HexBody(s)[0]).Some?
    ensures r.Some? && r.value < 0 ==> HexNegative(s)
    ensures r.Some? ==>
      var w := HexBody(s);
      var k := HexRun(w);
      0 < k && (if HexNegative(s) then -r.value else r.value) == HexValue(w[..k])
  {
    match ReadHexRun(HexBody(s))
    case None => None
    case Some(v) => Some(if HexNegative(s) then -(v as int) else v as int)
  }

  lemma HexRunPair(a: char, b: char)
    requires HexDigitValue(a).Some? && HexDigitValue(b).Some?
    ensures HexRun([a, b]) == 2
  {
    assert [a, b][1..] == [b];
    assert [b][1..] == [];
  }

  lemma HexValuePair(a: char, b: char)
    requires HexDigitValue(a).Some? && HexDigitValue(b).Some?
    ensures HexValue([a, b]) == HexDigitValue(a).value * 16 + HexDigitValue(b).value
  {
    assert [a, b][..1] == [a];
    assert [a][..0] == [];
    assert HexValue([a]) == HexDigitValue(a).value;
  }

  /** A string that starts with a hexadecimal digit (and not with `0x`)
      is read from its first character, as a non-negative number. */
  lemma HexBodyOfDigits(s: string)
    requires s != [] && HexDigitValue(s[0]).Some?
    requires |s| >= 2 && s[0] == '0' ==> s[1] != 'x' && s[1] != 'X'
    ensures HexBody(s) == s && !HexNegative(s)
  {
    assert !IsWhitespace(s[0]);
    TrimStartOfClean(s);
  }

  /** The digit run of two hexadecimal digits is both of them. */
  lemma ReadHexRunPair(a: char, b: char)
    requires HexDigitValue(a).Some? && HexDigitValue(b).Some?
    ensures ReadHexRun([a, b]) == Some(HexDigitValue(a).value * 16 + HexDigitValue(b).value)
  {
    HexRunPair(a, b);
    assert [a, b][..2] == [a, b];
    HexValuePair(a, b);
  }

  /** Two hexadecimal digits read back as their value. */
  lemma ParseHexPair(a: char, b: char)
    requires HexDigitValue(a).Some? && HexDigitValue(b).Some?
    ensures ParseHex([a, b]) == Some(HexDigitValue(a).value * 16 + HexDigitValue(b).value)
  {
    HexBodyOfDigits([a, b]);
    ReadHexRunPair(a, b);
  }
}

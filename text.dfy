/** The .NET string and integer primitives the core relies on: trimming,
    splitting and joining, ordinal search and replace, decimal formatting and
    parsing, and C#'s truncating integer division. */
module Text {
  import opened Outcomes

  /** The characters NumberStyles.Integer accepts as leading or trailing white
      space (U+0009 to U+000D and U+0020). */
  predicate IsWhiteSpace(c: char) {
    c == ' ' || 9 <= c as int <= 13
  }

  predicate IsDigit(c: char) {
    '0' <= c <= '9'
  }

  predicate AllDigits(s: string) {
    forall i :: 0 <= i < |s| ==> IsDigit(s[i])
  }

  function DigitValue(c: char): (d: nat)
    requires IsDigit(c)
    ensures d < 10
  {
    c as int - '0' as int
  }

  function DigitChar(d: nat): (c: char)
    requires d < 10
    ensures IsDigit(c) && DigitValue(c) == d
  {
    (48 + d) as char
  }

  /** The value of a string of decimal digits, most significant first. */
  function DigitsValue(s: string): nat
    requires AllDigits(s)
    decreases |s|
  {
    if s == [] then 0 else DigitsValue(s[..|s| - 1]) * 10 + DigitValue(s[|s| - 1])
  }

  /** n.ToString() for a natural number. */
  function NatToString(n: nat): (s: string)
    ensures |s| > 0 && AllDigits(s)
    ensures DigitsValue(s) == n
  {
    if n < 10 then [DigitChar(n)]
    else
      var t, c := NatToString(n / 10), DigitChar(n % 10);
      assert (t + [c])[..|t|] == t;
      t + [c]
  }

  /** n.ToString() for any integer. */
  function IntToString(n: int): (s: string)
    ensures |s| > 0
    ensures n >= 0 ==> s == NatToString(n)
    ensures n < 0 ==> s == "-" + NatToString(-n)
  {
    if n < 0 then "-" + NatToString(-n) else NatToString(n)
  }

  /** n.ToString("D" + width): the digits of |n| left-padded with zeros to at
      least width characters, after a minus sign when n is negative. */
  function FormatD(n: int, width: nat): (s: string)
    ensures |s| >= width
  {
    var digits := NatToString(if n < 0 then -n else n);
    var padded := if |digits| < width then Zeros(width - |digits|) + digits else digits;
    if n < 0 then "-" + padded else padded
  }

  function Zeros(k: nat): (z: string)
    ensures |z| == k && forall i :: 0 <= i < k ==> z[i] == '0'
  {
    if k == 0 then [] else Zeros(k - 1) + ['0']
  }

  /** An optional sign followed by at least one decimal digit, with no other
      characters: the syntax int.Parse accepts once white space is removed. */
  function ParseDecimal(s: string): Option<int> {
    if |s| > 0 && (s[0] == '-' || s[0] == '+') then
      if |s| > 1 && AllDigits(s[1..]) then
        var v: int := DigitsValue(s[1..]);
        Some(if s[0] == '-' then -v else v)
      else None
    else if |s| > 0 && AllDigits(s) then Some(DigitsValue(s))
    else None
  }

  const Int32Min: int := -0x8000_0000
  const Int32Max: int := 0x7FFF_FFFF

  predicate IsInt32(n: int) {
    Int32Min <= n <= Int32Max
  }

  /** C#'s unchecked int arithmetic: the value taken modulo 2^32 into the
      Int32 range. */
  function Wrap32(n: int): (r: int)
    ensures IsInt32(r)
    ensures (r - n) % 0x1_0000_0000 == 0
    ensures IsInt32(n) ==> r == n
  {
    (n - Int32Min) % 0x1_0000_0000 + Int32Min
  }

  /** int.TryParse(s, out n) with NumberStyles.Integer. */
  function Int32TryParse(s: string): (r: Option<int>)
    ensures r.Some? ==> IsInt32(r.value)
  {
    match ParseDecimal(Trim(s, IsWhiteSpace))
    case Some(v) => if IsInt32(v) then Some(v) else None
    case None => None
  }

  /** int.Parse(s): FormatException on bad syntax, OverflowException when the
      number does not fit in 32 bits. */
  function Int32Parse(s: string): (r: Result<int>)
    ensures r.Ok? <==> Int32TryParse(s).Some?
    ensures r.Ok? ==> r.value == Int32TryParse(s).value
  {
    match ParseDecimal(Trim(s, IsWhiteSpace))
    case Some(v) => if IsInt32(v) then Ok(v) else Fail(Overflow)
    case None => Fail(Format)
  }

  /** C#'s integer division, which truncates toward zero. */
  function DivTrunc(a: int, b: int): (q: int)
    requires b != 0
    ensures a >= 0 && b > 0 ==> q == a / b
  {
    var q := (if a < 0 then -a else a) / (if b < 0 then -b else b);
    if (a < 0) != (b < 0) then -q else q
  }

  /** String.TrimStart(chars): drops the longest prefix of characters to strip. */
  function TrimStart(s: string, strip: char -> bool): (r: string)
    ensures |r| <= |s| && r == s[|s| - |r|..]
    ensures forall i :: 0 <= i < |s| - |r| ==> strip(s[i])
    ensures r != [] ==> !strip(r[0])
    decreases |s|
  {
    if s != [] && strip(s[0]) then TrimStart(s[1..], strip) else s
  }

  /** String.TrimEnd(chars): drops the longest suffix of characters to strip. */
  function TrimEnd(s: string, strip: char -> bool): (r: string)
    ensures |r| <= |s| && r == s[..|r|]
    ensures forall i :: |r| <= i < |s| ==> strip(s[i])
    ensures r != [] ==> !strip(r[|r| - 1])
    decreases |s|
  {
    if s != [] && strip(s[|s| - 1]) then TrimEnd(s[..|s| - 1], strip) else s
  }

  /** String.Trim(chars). */
  function Trim(s: string, strip: char -> bool): string {
    TrimEnd(TrimStart(s, strip), strip)
  }

  /** String.IsNullOrWhiteSpace for a non-null string. */
  predicate IsBlank(s: string) {
    forall i :: 0 <= i < |s| ==> IsWhiteSpace(s[i])
  }

  /** String.IndexOf(char): the first position of c, or -1. */
  function IndexOf(s: string, c: char): (k: int)
    ensures -1 <= k < |s|
    ensures k == -1 <==> c !in s
    ensures k >= 0 ==> s[k] == c && c !in s[..k]
  {
    if s == [] then -1
    else if s[0] == c then 0
    else
      var k := IndexOf(s[1..], c);
      if k < 0 then -1
      else
        assert s[..k + 1] == [s[0]] + s[1..][..k];
        k + 1
  }

  /** String.Split(char): the pieces between separators, always at least one. */
  function Split(s: string, sep: char): (parts: seq<string>)
    ensures |parts| >= 1
    ensures forall i :: 0 <= i < |parts| ==> sep !in parts[i]
    decreases |s|
  {
    var k := IndexOf(s, sep);
    if k < 0 then [s]
    else
      var first, rest := s[..k], Split(s[k + 1..], sep);
      assert sep !in first;
      [first] + rest
  }

  /** String.Join(sep, parts). */
  function Join(sep: string, parts: seq<string>): string
    decreases |parts|
  {
    if |parts| == 0 then ""
    else if |parts| == 1 then parts[0]
    else parts[0] + sep + Join(sep, parts[1..])
  }

  /** String.Replace(pattern, replacement) with ordinal comparison: every occurrence of
      the pattern, scanning left to right without overlap, is replaced. */
  function Replace(s: string, pattern: string, replacement: string): string
    requires |pattern| > 0
    decreases |s|
  {
    if |s| < |pattern| then s
    else if s[..|pattern|] == pattern then replacement + Replace(s[|pattern|..], pattern, replacement)
    else [s[0]] + Replace(s[1..], pattern, replacement)
  }

  // ---------------------------------------------------------------------------
  // Lemmas

  lemma {:induction false} DigitsValueSnoc(s: string, c: char)
    requires AllDigits(s) && IsDigit(c)
    ensures AllDigits(s + [c]) && DigitsValue(s + [c]) == DigitsValue(s) * 10 + DigitValue(c)
  {
    assert (s + [c])[..|s|] == s;
  }

  /** Leading zeros do not change the value of a digit string. */
  lemma {:induction false} LeadingZerosIgnored(k: nat, s: string)
    requires AllDigits(s)
    ensures AllDigits(Zeros(k) + s) && DigitsValue(Zeros(k) + s) == DigitsValue(s)
    decreases |s|
  {
    if s == [] {
      assert Zeros(k) + s == Zeros(k);
      ZerosValue(k);
    } else {
      var init, last := s[..|s| - 1], s[|s| - 1];
      assert s == init + [last];
      LeadingZerosIgnored(k, init);
      assert Zeros(k) + s == (Zeros(k) + init) + [last];
      DigitsValueSnoc(Zeros(k) + init, last);
      DigitsValueSnoc(init, last);
    }
  }

  lemma {:induction false} ZerosValue(k: nat)
    ensures AllDigits(Zeros(k)) && DigitsValue(Zeros(k)) == 0
  {
    if k > 0 {
      ZerosValue(k - 1);
      DigitsValueSnoc(Zeros(k - 1), '0');
    }
  }

  /** Parsing the decimal text of an integer gives the integer back. */
  lemma {:induction false} IntToStringParses(n: int)
    ensures ParseDecimal(IntToString(n)) == Some(n)
  {
    if n < 0 {
      assert ("-" + NatToString(-n))[1..] == NatToString(-n);
    }
  }

  /** The D-format of an integer parses back to it, whatever the padding. */
  lemma {:induction false} FormatDParses(n: int, width: nat)
    ensures ParseDecimal(FormatD(n, width)) == Some(n)
  {
    var digits := NatToString(if n < 0 then -n else n);
    var padded := if |digits| < width then Zeros(width - |digits|) + digits else digits;
    if |digits| < width {
      LeadingZerosIgnored(width - |digits|, digits);
    }
    assert AllDigits(padded) && DigitsValue(padded) == (if n < 0 then -n else n);
    if n < 0 {
      assert ("-" + padded)[1..] == padded;
    }
  }

  /** A string that starts and ends with characters that are not stripped is
      left unchanged by trimming. */
  lemma {:induction false} TrimKeeps(s: string, strip: char -> bool)
    requires s != [] ==> !strip(s[0]) && !strip(s[|s| - 1])
    ensures Trim(s, strip) == s
  {
  }

  /** The first separator of `a + [sep] + b` is the one after `a` when `a`
      holds none. */
  lemma {:induction false} IndexOfAfter(a: string, sep: char, b: string)
    requires sep !in a
    ensures IndexOf(a + [sep] + b, sep) == |a|
    decreases |a|
  {
    if a != [] {
      assert (a + [sep] + b)[1..] == a[1..] + [sep] + b;
      IndexOfAfter(a[1..], sep, b);
    }
  }

  /** Where the separator occurs, Split cuts at its first occurrence. */
  lemma {:induction false} SplitAt(s: string, sep: char)
    requires IndexOf(s, sep) >= 0
    ensures Split(s, sep) == [s[..IndexOf(s, sep)]] + Split(s[IndexOf(s, sep) + 1..], sep)
  {
  }

  /** Splitting a joined list on a separator that occurs in no element gives
      the list back. */
  lemma {:induction false} SplitJoin(parts: seq<string>, sep: char)
    requires |parts| >= 1
    requires forall i :: 0 <= i < |parts| ==> sep !in parts[i]
    ensures Split(Join([sep], parts), sep) == parts
    decreases |parts|
  {
    var s := Join([sep], parts);
    if |parts| == 1 {
      assert IndexOf(s, sep) == -1;
    } else {
      var head, tail := parts[0], parts[1..];
      var rest := Join([sep], tail);
      assert s == head + [sep] + rest;
      IndexOfAfter(head, sep, rest);
      assert s[..|head|] == head && s[|head| + 1..] == rest;
      SplitAt(s, sep);
      assert forall i :: 0 <= i < |tail| ==> tail[i] == parts[i + 1];
      SplitJoin(tail, sep);
      assert parts == [head] + tail;
    }
  }

  /** Distinct naturals have distinct decimal texts. */
  lemma {:induction false} NatToStringInjective(a: nat, b: nat)
    requires NatToString(a) == NatToString(b)
    ensures a == b
  {
  }
}

/**
 * The pieces of Go's `strings`, `strconv` and `fmt` packages that the bot's core relies on,
 * written out so that their edge cases are part of the model: `strings.Index`/`LastIndex` for a
 * one-character needle, `strings.HasPrefix`, `strings.TrimSpace` (Unicode white space),
 * `strings.Split` on one separator, `fmt`'s `%d`, `strconv.Atoi` (with its value on error) and the
 * truncating `int32(...)` conversion.
 *
 * Go strings are byte strings; here a string is a sequence of characters. Every index the core
 * computes is that of an ASCII character ('{', '}', ':' prefixes, '\n'), so the substrings cut out
 * are the same either way.
 */
module GoStrings {
  import opened Wrappers

  // ---------------------------------------------------------------------------------------------
  // Searching

  /** strings.Index(s, string(c)): the first position of `c` in `s`, or -1. */
  function IndexOf(s: string, c: char): (r: int)
    ensures -1 <= r < |s|
    ensures r == -1 <==> c !in s
    ensures r >= 0 ==> s[r] == c && c !in s[..r]
  {
    if |s| == 0 then -1
    else if s[0] == c then 0
    else
      var k := IndexOf(s[1..], c);
      assert s == [s[0]] + s[1..];
      if k == -1 then -1
      else
        assert s[..k + 1] == [s[0]] + s[1..][..k];
        k + 1
  }

  /** strings.LastIndex(s, string(c)): the last position of `c` in `s`, or -1. */
  function LastIndexOf(s: string, c: char): (r: int)
    ensures -1 <= r < |s|
    ensures r == -1 <==> c !in s
    ensures r >= 0 ==> s[r] == c && c !in s[r + 1..]
  {
    if |s| == 0 then -1
    else if s[|s| - 1] == c then |s| - 1
    else
      var k := LastIndexOf(s[..|s| - 1], c);
      LastIndexStep(s, c, k);
      k
  }

  /** A last character other than `c` changes neither whether `c` occurs nor where it last does. */
  lemma LastIndexStep(s: string, c: char, k: int)
    requires |s| > 0 && s[|s| - 1] != c && -1 <= k < |s| - 1
    requires k == -1 <==> c !in s[..|s| - 1]
    requires k >= 0 ==> c !in s[..|s| - 1][k + 1..]
    ensures k == -1 <==> c !in s
    ensures k >= 0 ==> c !in s[k + 1..]
  {
    var init, last := s[..|s| - 1], s[|s| - 1];
    assert s == init + [last];
    if k >= 0 {
      assert s[k + 1..] == init[k + 1..] + [last];
    }
  }

  /** strings.HasPrefix(s, p): `s` is `p` followed by the rest of `s`. */
  predicate HasPrefix(s: string, p: string) {
    |p| <= |s| && s[..|p|] == p
  }

  /** Whatever follows `p`, the string starts with `p`, and what follows is what was appended. */
  lemma PrefixOfConcat(p: string, rest: string)
    ensures HasPrefix(p + rest, p) && (p + rest)[|p|..] == rest
  {
    assert (p + rest)[..|p|] == p;
  }

  // ---------------------------------------------------------------------------------------------
  // White space

  /** unicode.IsSpace: the Latin-1 spaces and the other characters with the White_Space property. */
  predicate IsSpace(c: char) {
    c == '\t' || c == '\n' || c == '\U{000B}' || c == '\U{000C}' || c == '\r' || c == ' '
    || c == '\U{0085}' || c == '\U{00A0}' || c == '\U{1680}'
    || ('\U{2000}' <= c <= '\U{200A}')
    || c == '\U{2028}' || c == '\U{2029}' || c == '\U{202F}' || c == '\U{205F}' || c == '\U{3000}'
  }

  predicate AllSpace(s: string) {
    forall i :: 0 <= i < |s| ==> IsSpace(s[i])
  }

  /** The number of white-space characters `s` starts with. */
  function LeadingSpaces(s: string): (n: nat)
    ensures n <= |s| && AllSpace(s[..n])
    ensures n == |s| || !IsSpace(s[n])
  {
    if |s| > 0 && IsSpace(s[0]) then
      var n := 1 + LeadingSpaces(s[1..]);
      assert s[..n] == [s[0]] + s[1..][..n - 1];
      n
    else 0
  }

  /** The number of white-space characters `s` ends with. */
  function TrailingSpaces(s: string): (n: nat)
    ensures n <= |s| && AllSpace(s[|s| - n..])
    ensures n == |s| || !IsSpace(s[|s| - n - 1])
  {
    if |s| > 0 && IsSpace(s[|s| - 1]) then
      var n := 1 + TrailingSpaces(s[..|s| - 1]);
      assert s[|s| - n..] == s[..|s| - 1][|s| - n..] + [s[|s| - 1]];
      n
    else 0
  }

  /**
   * strings.TrimSpace: `s` without its leading and trailing white space. The result is the piece
   * of `s` after the leading white space; it starts and ends with a character that is not white
   * space, and everything cut off after it is white space too.
   */
  function TrimSpace(s: string): (r: string)
    ensures var a := LeadingSpaces(s);
      a + |r| <= |s| && r == s[a..a + |r|] && AllSpace(s[..a]) && AllSpace(s[a + |r|..])
    ensures r == [] || (!IsSpace(r[0]) && !IsSpace(r[|r| - 1]))
  {
    var start := LeadingSpaces(s);
    if start == |s| then []
    else
      var t := TrailingSpaces(s);
      var stop := |s| - t;
      s[start..stop]
  }

  // ---------------------------------------------------------------------------------------------
  // Splitting on one separator

  /** strings.Join(parts, string(sep)). */
  function Join(parts: seq<string>, sep: char): string {
    if |parts| == 0 then ""
    else if |parts| == 1 then parts[0]
    else parts[0] + [sep] + Join(parts[1..], sep)
  }

  /**
   * strings.Split(s, string(sep)): the pieces between separators, at least one (the empty string
   * gives [""]), none holding the separator, and joining them back gives `s`.
   */
  function Split(s: string, sep: char): (r: seq<string>)
    ensures |r| >= 1
    ensures forall i :: 0 <= i < |r| ==> sep !in r[i]
    ensures Join(r, sep) == s
    decreases |s|
  {
    var k := IndexOf(s, sep);
    if k == -1 then [s]
    else
      var head := s[..k];
      var rest := Split(s[k + 1..], sep);
      var r := [head] + rest;
      assert r[0] == head && r[1..] == rest;
      assert forall i :: 1 <= i < |r| ==> r[i] == rest[i - 1];
      assert s == head + [sep] + s[k + 1..];
      r
  }

  /** The first occurrence is unique: a position holding `c` with no `c` before it is the index. */
  lemma IndexOfAt(s: string, c: char, k: int)
    requires 0 <= k < |s| && s[k] == c && c !in s[..k]
    ensures IndexOf(s, c) == k
  {
  }

  /** strings.LastIndex's answer is the one position holding `c` with no `c` after it. */
  lemma LastIndexOfAt(s: string, c: char, k: int)
    requires 0 <= k < |s| && s[k] == c && c !in s[k + 1..]
    ensures LastIndexOf(s, c) == k
  {
  }

  /** Split takes the piece before the first separator off the front. */
  lemma SplitAt(s: string, sep: char, k: int)
    requires 0 <= k < |s| && s[k] == sep && sep !in s[..k]
    ensures Split(s, sep) == [s[..k]] + Split(s[k + 1..], sep)
  {
    IndexOfAt(s, sep, k);
  }

  /** A separator put between two pieces, the first one free of it, is found right after that piece. */
  lemma SplitAfterPiece(head: string, sep: char, rest: string)
    requires sep !in head
    ensures Split(head + [sep] + rest, sep) == [head] + Split(rest, sep)
  {
    var s := head + [sep] + rest;
    var k := |head|;
    assert s[..k] == head;
    assert s[k] == sep;
    assert s[k + 1..] == rest;
    SplitAt(s, sep, k);
  }

  /** Splitting separator-free pieces joined by the separator gives the pieces back. */
  lemma {:induction false} SplitJoin(parts: seq<string>, sep: char)
    requires |parts| >= 1
    requires forall i :: 0 <= i < |parts| ==> sep !in parts[i]
    ensures Split(Join(parts, sep), sep) == parts
  {
    if |parts| > 1 {
      var tail := parts[1..];
      assert Join(parts, sep) == parts[0] + [sep] + Join(tail, sep);
      assert forall i :: 0 <= i < |tail| ==> tail[i] == parts[i + 1];
      SplitAfterPiece(parts[0], sep, Join(tail, sep));
      SplitJoin(tail, sep);
      assert parts == [parts[0]] + tail;
    }
  }

  /** The number of occurrences of `c` in `s`. */
  function Count(s: string, c: char): nat {
    if s == [] then 0 else Count(s[..|s| - 1], c) + (if s[|s| - 1] == c then 1 else 0)
  }

  lemma {:induction false} CountAppend(a: string, b: string, c: char)
    ensures Count(a + b, c) == Count(a, c) + Count(b, c)
    decreases |b|
  {
    if b == [] {
      assert a + b == a;
    } else {
      assert (a + b)[..|a + b| - 1] == a + b[..|b| - 1];
      CountAppend(a, b[..|b| - 1], c);
    }
  }

  lemma {:induction false} CountAbsent(s: string, c: char)
    requires c !in s
    ensures Count(s, c) == 0
  {
    if s != [] {
      CountAbsent(s[..|s| - 1], c);
    }
  }

  // ---------------------------------------------------------------------------------------------
  // Decimal integers

  const MinInt64: int := -0x8000_0000_0000_0000
  const MaxInt64: int := 0x7FFF_FFFF_FFFF_FFFF
  const MaxUint64: int := 0xFFFF_FFFF_FFFF_FFFF
  const MinInt32: int := -0x8000_0000
  const MaxInt32: int := 0x7FFF_FFFF

  predicate IsDigit(c: char) {
    '0' <= c <= '9'
  }

  predicate AllDigits(s: string) {
    forall i :: 0 <= i < |s| ==> IsDigit(s[i])
  }

  function DigitChar(d: nat): (c: char)
    requires d < 10
    ensures IsDigit(c)
  {
    ('0' as int + d) as char
  }

  /** The decimal digits of `n`, most significant first, without leading zeros. */
  function Digits(n: nat): (r: string)
    ensures |r| >= 1 && AllDigits(r)
  {
    if n < 10 then [DigitChar(n)] else Digits(n / 10) + [DigitChar(n % 10)]
  }

  /**
   * fmt.Sprintf("%d", n) and strconv.Itoa(n): the canonical decimal form, a '-' exactly for
   * negatives and then one or more digits without a leading zero (`ItoaCanonical`); `ParseItoa`
   * reads it back.
   */
  function Itoa(n: int): string {
    if n < 0 then "-" + Digits(-n) else Digits(n)
  }

  /** Itoa's text is canonical: a '-' exactly for negatives, then digits with no leading zero. */
  lemma ItoaCanonical(n: int)
    ensures var r := Itoa(n);
      |r| >= 1 && (r[0] == '-' <==> n < 0)
      && var d := if n < 0 then r[1..] else r;
      |d| >= 1 && AllDigits(d) && (d[0] == '0' <==> n == 0)
  {
    if n < 0 {
      assert Itoa(n)[1..] == Digits(-n);
      DigitsLeadingZero(-n);
    } else {
      DigitsLeadingZero(n);
    }
  }

  /** Only zero is written with a leading '0'. */
  lemma {:induction false} DigitsLeadingZero(n: nat)
    ensures Digits(n)[0] == '0' <==> n == 0
  {
    if n >= 10 {
      DigitsLeadingZero(n / 10);
    }
  }

  /** The number a string of decimal digits denotes. */
  function DigitsValue(s: string): nat
    requires AllDigits(s)
  {
    if s == [] then 0
    else DigitsValue(s[..|s| - 1]) * 10 + (s[|s| - 1] as int - '0' as int)
  }

  /**
   * The syntax strconv.Atoi accepts for base 10: an optional '+' or '-' and then one or more
   * digits. The value is the unbounded number written; the 64-bit range is checked by Atoi.
   */
  function ParseDecimal(s: string): (r: Option<int>)
    ensures r.Some? ==> |s| > 0
    ensures r.Some? <==>
      (AllDigits(s) && |s| > 0) || (|s| > 1 && (s[0] == '+' || s[0] == '-') && AllDigits(s[1..]))
  {
    if |s| > 0 && (s[0] == '+' || s[0] == '-') then
      if |s| > 1 && AllDigits(s[1..]) then
        var v: int := DigitsValue(s[1..]);
        Some(if s[0] == '-' then -v else v)
      else None
    else if |s| > 0 && AllDigits(s) then Some(DigitsValue(s))
    else None
  }

  /** `s` without its optional leading '+' or '-'. */
  function Unsigned(s: string): string {
    if |s| > 0 && (s[0] == '+' || s[0] == '-') then s[1..] else s
  }

  /** The length of the run of digits `s` starts with. */
  function DigitRun(s: string): (n: nat)
    ensures n <= |s| && AllDigits(s[..n])
    ensures n == |s| || !IsDigit(s[n])
  {
    if |s| > 0 && IsDigit(s[0]) then
      var n := 1 + DigitRun(s[1..]);
      assert s[..n] == [s[0]] + s[1..][..n - 1];
      n
    else 0
  }

  /** The digits after the optional sign, up to the first character that is not a digit. */
  function LeadingDigits(s: string): (r: string)
    ensures AllDigits(r)
  {
    var u := Unsigned(s);
    u[..DigitRun(u)]
  }

  /** When nothing but digits follows the sign, the leading digits are all of them. */
  lemma LeadingDigitsOfNumeral(s: string)
    requires AllDigits(Unsigned(s))
    ensures LeadingDigits(s) == Unsigned(s)
  {
    var u := Unsigned(s);
    assert DigitRun(u) == |u|;
  }

  /**
   * strconv.ParseUint stops with a range error at the first digit that takes the value read so
   * far past 2^64-1, before it looks at any later character; a non-digit after that point does
   * not make it a syntax error.
   */
  predicate RunOverflows(s: string) {
    DigitsValue(LeadingDigits(s)) > MaxUint64
  }

  /** The pair strconv.Atoi returns: the value, and whether the error is nil. */
  datatype AtoiResult = AtoiResult(value: int, ok: bool)

  /**
   * strconv.Atoi on a 64-bit platform. A number outside the int64 range gives the nearest int64
   * bound together with a range error, and so does a leading digit run worth more than 2^64-1
   * whatever follows it; any other syntax error gives (0, error). `AtoiErrorValue` states the
   * value returned with an error.
   */
  function Atoi(s: string): (r: AtoiResult)
    ensures MinInt64 <= r.value <= MaxInt64
    ensures r.ok <==> ParseDecimal(s).Some? && MinInt64 <= ParseDecimal(s).value <= MaxInt64
    ensures r.ok ==> r.value == ParseDecimal(s).value
  {
    match ParseDecimal(s)
    case None =>
      if RunOverflows(s) then AtoiResult(if |s| > 0 && s[0] == '-' then MinInt64 else MaxInt64, false)
      else AtoiResult(0, false)
    case Some(n) =>
      if n < MinInt64 then AtoiResult(MinInt64, false)
      else if n > MaxInt64 then AtoiResult(MaxInt64, false)
      else AtoiResult(n, true)
  }

  /**
   * The value Atoi returns with an error: the int64 bound on the side of an out-of-range number,
   * the bound on the side of the sign when the leading digits alone pass 2^64-1, and 0 for any
   * other syntax error.
   */
  lemma AtoiErrorValue(s: string)
    ensures ParseDecimal(s).Some? && !Atoi(s).ok ==>
      Atoi(s).value == (if ParseDecimal(s).value < 0 then MinInt64 else MaxInt64)
    ensures RunOverflows(s) ==> Atoi(s) == AtoiResult(if |s| > 0 && s[0] == '-' then MinInt64 else MaxInt64, false)
    ensures ParseDecimal(s).None? && !RunOverflows(s) ==> Atoi(s) == AtoiResult(0, false)
  {
    if ParseDecimal(s).Some? && RunOverflows(s) {
      LeadingDigitsOfNumeral(s);
      assert Unsigned(s) == (if s[0] == '+' || s[0] == '-' then s[1..] else s);
    }
  }

  /** Go's int32(n): keeps the low 32 bits, read in two's complement. */
  function ToInt32(n: int): (r: int)
    ensures MinInt32 <= r <= MaxInt32
    ensures (r - n) % 0x1_0000_0000 == 0
    ensures MinInt32 <= n <= MaxInt32 ==> r == n
  {
    (n - MinInt32) % 0x1_0000_0000 + MinInt32
  }

  /** Reading the digits of `n` back gives `n`. */
  lemma {:induction false} DigitsValueOfDigits(n: nat)
    ensures DigitsValue(Digits(n)) == n
  {
    if n >= 10 {
      var d := Digits(n);
      assert d[..|d| - 1] == Digits(n / 10);
      DigitsValueOfDigits(n / 10);
    }
  }

  /** fmt's %d and strconv.Atoi's syntax are inverse: parsing the rendering of `n` gives `n`. */
  lemma ParseItoa(n: int)
    ensures ParseDecimal(Itoa(n)) == Some(n)
  {
    var s := Itoa(n);
    if n < 0 {
      assert s[0] == '-' && s[1..] == Digits(-n);
      DigitsValueOfDigits(-n);
      var v: int := DigitsValue(Digits(-n));
      assert ParseDecimal(s) == Some(-v);
    } else {
      assert s == Digits(n) && IsDigit(s[0]);
      DigitsValueOfDigits(n);
      assert ParseDecimal(s) == Some(DigitsValue(Digits(n)));
    }
  }

  /** strconv.Atoi(strconv.Itoa(n)) == (n, nil) for every int64 `n`. */
  lemma AtoiItoa(n: int)
    requires MinInt64 <= n <= MaxInt64
    ensures Atoi(Itoa(n)) == AtoiResult(n, true)
  {
    ParseItoa(n);
  }
}

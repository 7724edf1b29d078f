/** The character classes and string helpers of Go's `strings`, `strconv` and
    `regexp` packages that the repository relies on. */
module Text {
  import opened Wrappers

  const MAX_INT64 := 0x7fff_ffff_ffff_ffff
  const MIN_INT64 := -0x8000_0000_0000_0000

  predicate IsDigit(c: char) { '0' <= c <= '9' }

  predicate IsAlnum(c: char) { IsDigit(c) || 'a' <= c <= 'z' || 'A' <= c <= 'Z' }

  /** `\w` of RE2. */
  predicate IsWord(c: char) { IsAlnum(c) || c == '_' }

  /** `\s` of RE2. */
  predicate IsBlank(c: char) { c == ' ' || c == '\t' || c == '\n' || c == '\r' || c == '\U{0c}' }

  /** `unicode.IsSpace`. */
  predicate IsSpace(c: char) {
    || '\t' <= c <= '\r' || c == ' ' || c == '\U{85}' || c == '\U{a0}' || c == '\U{1680}'
    || '\U{2000}' <= c <= '\U{200a}' || c == '\U{2028}' || c == '\U{2029}'
    || c == '\U{202f}' || c == '\U{205f}' || c == '\U{3000}'
  }

  function LowerChar(c: char): char {
    if 'A' <= c <= 'Z' then c - 'A' + 'a' else c
  }

  const DIGITS := "0123456789"
  const SMALL := "abcdefghijklmnopqrstuvwxyz"
  const CAPITAL := "ABCDEFGHIJKLMNOPQRSTUVWXYZ"

  lemma SmallLetters()
    ensures |SMALL| == 26 && forall i :: 0 <= i < 26 ==> SMALL[i] == 'a' + i as char
  {}

  lemma CapitalLetters()
    ensures |CAPITAL| == 26 && forall i :: 0 <= i < 26 ==> CAPITAL[i] == 'A' + i as char
  {}

  lemma InSmall(c: char)
    ensures 'a' <= c <= 'z' <==> c in SMALL
  {
    SmallLetters();
    if 'a' <= c <= 'z' { assert SMALL[(c - 'a') as int] == c; }
  }

  lemma InCapital(c: char)
    ensures 'A' <= c <= 'Z' <==> c in CAPITAL
  {
    CapitalLetters();
    if 'A' <= c <= 'Z' { assert CAPITAL[(c - 'A') as int] == c; }
  }

  /** The character classes, spelled out. */
  lemma ClassesExact(c: char)
    ensures IsDigit(c) <==> c in DIGITS
    ensures IsAlnum(c) <==> c in DIGITS || c in SMALL || c in CAPITAL
    ensures IsWord(c) <==> c in DIGITS || c in SMALL || c in CAPITAL || c == '_'
    ensures IsBlank(c) <==> c in " \t\n\r\U{0c}"
  {
    InSmall(c);
    InCapital(c);
  }

  lemma SpacesExact(c: char)
    ensures IsSpace(c) <==> || c in " \t\n\U{0b}\U{0c}\r\U{85}\U{a0}\U{1680}"
                            || c in "\U{2000}\U{2001}\U{2002}\U{2003}\U{2004}\U{2005}"
                            || c in "\U{2006}\U{2007}\U{2008}\U{2009}\U{200a}"
                            || c in "\U{2028}\U{2029}\U{202f}\U{205f}\U{3000}"
  {}

  /** Each capital letter has its own small one, and nothing else changes. */
  lemma LowerExact(c: char)
    ensures c !in CAPITAL ==> LowerChar(c) == c
    ensures forall i :: 0 <= i < 26 && c == CAPITAL[i] ==> LowerChar(c) == SMALL[i]
  {
    InCapital(c);
    SmallLetters();
    CapitalLetters();
  }

  /** `strings.ToLower`, on the ASCII letters that the callers compare against. */
  function ToLower(s: string): (r: string)
    ensures |r| == |s|
    ensures forall i :: 0 <= i < |s| ==> r[i] == LowerChar(s[i])
  {
    seq(|s|, i requires 0 <= i < |s| => LowerChar(s[i]))
  }

  function TrimLeft(s: string): string {
    if s != "" && IsSpace(s[0]) then TrimLeft(s[1..]) else s
  }

  function TrimRight(s: string): string {
    if s != "" && IsSpace(s[|s| - 1]) then TrimRight(s[..|s| - 1]) else s
  }

  /** `strings.TrimSpace`. */
  function TrimSpace(s: string): string { TrimRight(TrimLeft(s)) }

  lemma TrimKeeps(s: string)
    requires s != "" && !IsSpace(s[0]) && !IsSpace(s[|s| - 1])
    ensures TrimSpace(s) == s
  {}

  lemma {:induction false} TrimLeftShrinks(s: string)
    ensures |TrimLeft(s)| <= |s| && (|TrimLeft(s)| == |s| ==> TrimLeft(s) == s)
    ensures TrimLeft(s) == s <==> s == "" || !IsSpace(s[0])
  {
    if s != "" && IsSpace(s[0]) { TrimLeftShrinks(s[1..]); }
  }

  lemma {:induction false} TrimRightShrinks(s: string)
    ensures |TrimRight(s)| <= |s|
    ensures TrimRight(s) == s <==> s == "" || !IsSpace(s[|s| - 1])
  {
    if s != "" && IsSpace(s[|s| - 1]) { TrimRightShrinks(s[..|s| - 1]); }
  }

  /** A text is its own trim exactly when it is empty or neither begins nor ends with
      a space. */
  lemma TrimmedExact(s: string)
    ensures TrimSpace(s) == s <==> s == "" || (!IsSpace(s[0]) && !IsSpace(s[|s| - 1]))
  {
    TrimLeftShrinks(s);
    TrimRightShrinks(TrimLeft(s));
  }

  lemma {:induction false} TrimLeftSkips(left: string, s: string)
    requires (forall i :: 0 <= i < |left| ==> IsSpace(left[i])) && (s == "" || !IsSpace(s[0]))
    ensures TrimLeft(left + s) == s
  {
    if left == "" {
      assert left + s == s;
    } else {
      assert (left + s)[1..] == left[1..] + s;
      TrimLeftSkips(left[1..], s);
    }
  }

  lemma {:induction false} TrimRightSkips(s: string, right: string)
    requires (forall i :: 0 <= i < |right| ==> IsSpace(right[i])) && (s == "" || !IsSpace(s[|s| - 1]))
    ensures TrimRight(s + right) == s
  {
    if right == "" {
      assert s + right == s;
    } else {
      assert (s + right)[..|s + right| - 1] == s + right[..|right| - 1];
      TrimRightSkips(s, right[..|right| - 1]);
    }
  }

  /** Spaces around a text are trimmed away, and nothing else. */
  lemma TrimSpaceExact(left: string, s: string, right: string)
    requires forall i :: 0 <= i < |left| ==> IsSpace(left[i])
    requires forall i :: 0 <= i < |right| ==> IsSpace(right[i])
    requires s != "" && TrimSpace(s) == s
    ensures TrimSpace(left + (s + right)) == s
  {
    TrimmedExact(s);
    TrimLeftSkips(left, s + right);
    TrimRightSkips(s, right);
  }

  predicate AllDigits(s: string) { forall i :: 0 <= i < |s| ==> IsDigit(s[i]) }

  function DigitValue(c: char): nat
    requires IsDigit(c)
  {
    c as int - '0' as int
  }

  /** The number a string of decimal digits denotes. */
  function Value(ds: string): nat
    requires AllDigits(ds)
  {
    if ds == "" then 0 else 10 * Value(ds[..|ds| - 1]) + DigitValue(ds[|ds| - 1])
  }

  /** `strconv.ParseInt(s, 10, 64)`: an optional sign, at least one digit and
      nothing else, and a range error outside int64. */
  function ParseInt64(s: string): (r: Option<int>)
    ensures r.Some? ==> MIN_INT64 <= r.value <= MAX_INT64
  {
    var signed := s != "" && (s[0] == '+' || s[0] == '-');
    var ds := if signed then s[1..] else s;
    if ds == "" || !AllDigits(ds) then None
    else
      var sign: int := if signed && s[0] == '-' then -1 else 1;
      var n := sign * Value(ds);
      if MIN_INT64 <= n <= MAX_INT64 then Some(n) else None
  }

  function DigitOf(n: nat): (c: char)
    requires n < 10
    ensures IsDigit(c) && DigitValue(c) == n
  {
    "0123456789"[n]
  }

  /** A number as decimal digits. */
  function Decimal(n: nat): (s: string)
    ensures s != "" && AllDigits(s)
  {
    if n < 10 then [DigitOf(n)] else Decimal(n / 10) + [DigitOf(n % 10)]
  }

  function PrintInt(n: int): string { if n < 0 then "-" + Decimal(-n) else Decimal(n) }

  lemma {:induction false} ValueOfDecimal(n: nat)
    ensures Value(Decimal(n)) == n
  {
    if n < 10 {
      assert Decimal(n)[..0] == "";
    } else {
      ValueOfDecimal(n / 10);
      assert Decimal(n)[..|Decimal(n)| - 1] == Decimal(n / 10);
    }
  }

  /** Leading zeros do not count. */
  lemma {:induction false} ValueOfZeros(ds: string)
    requires AllDigits(ds)
    ensures Value("0" + ds) == Value(ds)
  {
    if ds == "" {
      assert ("0" + ds)[..0] == "";
    } else {
      ValueOfZeros(ds[..|ds| - 1]);
      assert ("0" + ds)[..|ds|] == "0" + ds[..|ds| - 1];
    }
  }

  /** Parsing undoes printing for exactly the numbers of 64 bits; a plus sign before one
      that is not negative makes no difference. */
  lemma ParsePrinted(n: int)
    ensures ParseInt64(PrintInt(n)) == if MIN_INT64 <= n <= MAX_INT64 then Some(n) else None
    ensures n >= 0 ==> ParseInt64("+" + PrintInt(n)) == ParseInt64(PrintInt(n))
  {
    var ds := Decimal(if n < 0 then -n else n);
    ValueOfDecimal(if n < 0 then -n else n);
    assert ("-" + ds)[1..] == ds && ("+" + ds)[1..] == ds;
    assert IsDigit(ds[0]);
  }

  /** Nothing else parses. */
  lemma ParsesOnlyNumbers(s: string)
    requires ParseInt64(s).Some?
    ensures exists ds :: ds != "" && AllDigits(ds) && s in [ds, "+" + ds, "-" + ds]
  {
    var signed := s[0] == '+' || s[0] == '-';
    var ds := if signed then s[1..] else s;
    assert signed ==> s == [s[0]] + ds;
    assert s in [ds, "+" + ds, "-" + ds];
  }

  /** Two's-complement wrap-around of a 64-bit multiplication. */
  function Wrap64(x: int): (r: int)
    ensures MIN_INT64 <= r <= MAX_INT64
    ensures MIN_INT64 <= x <= MAX_INT64 ==> r == x
    ensures (x - r) % 0x1_0000_0000_0000_0000 == 0
  {
    (x - MIN_INT64) % 0x1_0000_0000_0000_0000 + MIN_INT64
  }

  /** The length of the longest prefix whose characters are all in a class. */
  function Run(s: string, p: char -> bool): (n: nat)
    ensures n <= |s|
    ensures forall i :: 0 <= i < n ==> p(s[i])
    ensures n < |s| ==> !p(s[n])
  {
    if s == "" || !p(s[0]) then 0 else 1 + Run(s[1..], p)
  }

  lemma RunStopsAt(s: string, p: char -> bool, n: nat)
    requires n <= |s|
    requires forall i :: 0 <= i < n ==> p(s[i])
    requires n < |s| ==> !p(s[n])
    ensures Run(s, p) == n
  {}

  lemma Associate(a: string, b: string, c: string)
    ensures (a + b) + c == a + (b + c)
  {}
}

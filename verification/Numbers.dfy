/** Decimal text: what `%d` prints and what `strtol` reads back. */
module Numbers {

  function Digit(d: nat): (c: char)
    requires d < 10
    ensures IsDigit(c) && ValueOf(c) == d
  {
    "0123456789"[d]
  }

  predicate IsDigit(c: char) {
    '0' <= c <= '9'
  }

  function ValueOf(c: char): nat
    requires IsDigit(c)
  {
    c as int - '0' as int
  }

  function Digits(n: nat): (r: string)
    ensures r != [] && forall i :: 0 <= i < |r| ==> IsDigit(r[i])
  {
    if n < 10 then [Digit(n)] else Digits(n / 10) + [Digit(n % 10)]
  }

  function PowerOfTen(k: nat): nat {
    if k == 0 then 1 else 10 * PowerOfTen(k - 1)
  }

  /** A number below 10^k has at most k digits. */
  lemma {:induction false} FewDigits(n: nat, k: nat)
    requires k >= 1 && n < PowerOfTen(k)
    ensures |Digits(n)| <= k
  {
    if n < 10 {
    } else {
      assert k > 1 by { assert PowerOfTen(0) == 1; }
      FewDigits(n / 10, k - 1);
    }
  }

  /** `%d` */
  function IntText(i: int): (r: string)
    ensures r != [] && forall j :: 0 <= j < |r| ==> IsDigit(r[j]) || r[j] == '-'
  {
    if i < 0 then "-" + Digits(-i) else Digits(i)
  }

  /** Read digits from position i on, continuing the number acc; also where the digits end. */
  function ReadDigits(s: string, i: nat, acc: nat): (nat, nat)
    decreases |s| - i
  {
    if i < |s| && IsDigit(s[i]) then ReadDigits(s, i + 1, acc * 10 + ValueOf(s[i])) else (acc, i)
  }

  predicate IsSpace(c: char) {
    c == ' ' || '\t' <= c <= '\r'
  }

  function SkipSpace(s: string, i: nat): (j: nat)
    ensures i <= j && (i <= |s| ==> j <= |s|)
    decreases |s| - i
  {
    if i < |s| && IsSpace(s[i]) then SkipSpace(s, i + 1) else i
  }

  const LONG_MAX: int := 0x7fff_ffff_ffff_ffff

  function Clamp(v: int): int {
    if v > LONG_MAX then LONG_MAX else if v < -LONG_MAX - 1 then -LONG_MAX - 1 else v
  }

  /** `strtol(s + i, &end, 10)`: the value and the position of `end`. */
  function Strtol(s: string, i: nat): (int, nat) {
    var j := SkipSpace(s, i);
    var signed := j < |s| && (s[j] == '-' || s[j] == '+');
    var k := if signed then j + 1 else j;
    var (n, e) := ReadDigits(s, k, 0);
    if e == k then (0, i) else (Clamp(if signed && s[j] == '-' then 0 - n else n), e)
  }

  /** t stands in s at position a. */
  predicate At(s: string, a: nat, t: string) {
    a + |t| <= |s| && s[a..a + |t|] == t
  }

  lemma AtParts(s: string, a: nat, t: string, u: string)
    requires At(s, a, t + u)
    ensures At(s, a, t) && At(s, a + |t|, u)
  {
    assert s[a..a + |t|] == (t + u)[..|t|];
    assert s[a + |t|..a + |t| + |u|] == (t + u)[|t|..];
  }

  lemma AtChar(s: string, a: nat, t: string, i: nat)
    requires At(s, a, t) && i < |t|
    ensures s[a + i] == t[i]
  {
    assert s[a..a + |t|][i] == t[i];
  }

  lemma {:induction false} DigitsRead(s: string, a: nat, n: nat)
    requires At(s, a, Digits(n))
    ensures ReadDigits(s, a, 0) == ReadDigits(s, a + |Digits(n)|, n)
  {
    if n < 10 {
      AtChar(s, a, Digits(n), 0);
      ReadOne(s, a, 0, n);
    } else {
      hide At, ReadDigits;
      var front, last := Digits(n / 10), n % 10;
      AtParts(s, a, front, [Digit(last)]);
      AtChar(s, a + |front|, [Digit(last)], 0);
      DigitsRead(s, a, n / 10);
      InText(s, a + |front|, [Digit(last)]);
      ReadOne(s, a + |front|, n / 10, last);
    }
  }

  lemma InText(s: string, a: nat, t: string)
    requires At(s, a, t)
    ensures a + |t| <= |s|
  {
  }

  lemma ReadOne(s: string, i: nat, acc: nat, d: nat)
    requires i < |s| && d < 10 && s[i] == Digit(d)
    ensures ReadDigits(s, i, acc) == ReadDigits(s, i + 1, acc * 10 + d)
  {
  }

  /** What `%d` printed, `strtol` reads, as long as no further digit follows. */
  lemma StrtolReads(s: string, a: nat, v: int)
    requires At(s, a, IntText(v)) && -LONG_MAX <= v <= LONG_MAX
    requires a + |IntText(v)| < |s| ==> !IsDigit(s[a + |IntText(v)|])
    ensures Strtol(s, a) == (v, a + |IntText(v)|)
  {
    hide Digits;
    AtChar(s, a, IntText(v), 0);
    if v < 0 {
      AtParts(s, a, "-", Digits(-v));
      DigitsRead(s, a + 1, -v);
    } else {
      DigitsRead(s, a, v);
    }
  }

  // ----- the width of an incarnation -----

  const TWO_31: nat := 0x8000_0000
  const TWO_32: nat := 0x1_0000_0000
  const TWO_64: nat := 0x1_0000_0000_0000_0000

  /** The low 32 bits of a number, read as a signed integer: what `%d` prints of a `size_t`. */
  function Low32(n: nat): int {
    if n % TWO_32 < TWO_31 then n % TWO_32 else n % TWO_32 - TWO_32
  }

  /** A `long` stored in a `size_t`. */
  function ToSize(v: int): nat {
    v % TWO_64
  }

  /** A `long` stored in an enumeration without negative members. */
  function ToEnum(v: int): nat {
    v % TWO_32
  }

  /** Exactly these incarnations survive being printed with `%d` and read into a `size_t`. */
  lemma SizeSurvivesIff(n: nat)
    requires n < TWO_64
    ensures ToSize(Low32(n)) == n <==> n < TWO_31 || n >= TWO_64 - TWO_31
  {
    var v := Low32(n);
    assert 0 - TWO_31 <= v < TWO_31;
    if v < 0 { assert v % TWO_64 == v + TWO_64; }
    if n >= TWO_64 - TWO_31 {
      assert n == (n - (TWO_64 - TWO_32)) + (TWO_32 - 1) * TWO_32;
      assert n % TWO_32 == n - (TWO_64 - TWO_32);
    }
  }

  lemma EnumSurvives(n: nat)
    requires n < TWO_32
    ensures ToEnum(Low32(n)) == n
  {
  }
}

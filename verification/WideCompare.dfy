/** The COMPARE_n macros of the generated lexer: comparisons of 2 to 8 characters by wide loads. */
module WideCompare {

  /** The two code unit types the lexer is instantiated with. */
  datatype CodeUnit = LChar | UChar

  /** The preprocessor branches: aligned access needed, little endian with or without the 64-bit
      quad loads, big endian. */
  datatype Target = Aligned | LittleEndian(x86_64: bool) | BigEndian

  function Base(u: CodeUnit): nat { if u.LChar? then 0x100 else 0x1_0000 }

  predicate IsText(input: seq<nat>, u: CodeUnit) { forall i | 0 <= i < |input| :: input[i] < Base(u) }

  /** A character literal of the generated program: one ASCII character. */
  predicate IsLiteral(cs: string) { forall i | 0 <= i < |cs| :: cs[i] as int < 128 }

  // ---------------------------------------------------------------- memory

  function UnitSize(u: CodeUnit): nat { if u.LChar? then 1 else 2 }

  /** The byte at address `k` of the text in memory. */
  function ByteAt(input: seq<nat>, u: CodeUnit, big: bool, k: nat): nat
    requires k < |input| * UnitSize(u)
  {
    if u.LChar? then input[k]
    else if (k % 2 == 0) != big then input[k / 2] % 0x100 else input[k / 2] / 0x100
  }

  /** The unsigned integers of two, four and eight bytes at address `k`. */
  function Load16(input: seq<nat>, u: CodeUnit, big: bool, k: nat): nat
    requires k + 2 <= |input| * UnitSize(u)
  {
    var b0, b1 := ByteAt(input, u, big, k), ByteAt(input, u, big, k + 1);
    if big then b0 * 0x100 + b1 else b0 + 0x100 * b1
  }

  function Load32(input: seq<nat>, u: CodeUnit, big: bool, k: nat): nat
    requires k + 4 <= |input| * UnitSize(u)
  {
    var h0, h1 := Load16(input, u, big, k), Load16(input, u, big, k + 2);
    if big then h0 * 0x1_0000 + h1 else h0 + 0x1_0000 * h1
  }

  function Load64(input: seq<nat>, u: CodeUnit, big: bool, k: nat): nat
    requires k + 8 <= |input| * UnitSize(u)
  {
    var w0, w1 := Load32(input, u, big, k), Load32(input, u, big, k + 4);
    if big then w0 * 0x1_0000_0000 + w1 else w0 + 0x1_0000_0000 * w1
  }

  /** `reinterpret_cast` of the address of unit `at` to a pointer to two units. */
  function LoadPair(input: seq<nat>, u: CodeUnit, big: bool, at: nat): nat
    requires at + 2 <= |input|
  {
    if u.LChar? then Load16(input, u, big, at) else Load32(input, u, big, 2 * at)
  }

  function LoadQuad(input: seq<nat>, u: CodeUnit, big: bool, at: nat): nat
    requires at + 4 <= |input|
  {
    if u.LChar? then Load32(input, u, big, at) else Load64(input, u, big, 2 * at)
  }

  // ---------------------------------------------------------------- the macros

  /** CHARPAIR_TOUINT16 is computed in `int`; UCHARPAIR_TOUINT32 in `uint32_t`. */
  function PairConstant(u: CodeUnit, big: bool, a: char, b: char): nat {
    var lo, hi := if big then b as int else a as int, if big then a as int else b as int;
    if u.LChar? then hi * 0x100 + lo else ((hi * 0x1_0000) % 0x1_0000_0000 + lo) % 0x1_0000_0000
  }

  /** CHARQUAD_TOUINT32 and UCHARQUAD_TOUINT64, little endian: the only form a quad load is used with. */
  function QuadConstant(u: CodeUnit, a: char, b: char, c: char, d: char): nat {
    var lo, hi := PairConstant(u, false, a, b), PairConstant(u, false, c, d);
    if u.LChar? then ((hi * 0x1_0000) % 0x1_0000_0000 + lo) % 0x1_0000_0000
    else ((hi * 0x1_0000_0000) % 0x1_0000_0000_0000_0000 + lo) % 0x1_0000_0000_0000_0000
  }

  predicate ComparePair(t: Target, u: CodeUnit, input: seq<nat>, at: nat, a: char, b: char)
    requires at + 2 <= |input|
  {
    if t.Aligned? then input[at] == a as int && input[at + 1] == b as int
    else LoadPair(input, u, t.BigEndian?, at) == PairConstant(u, t.BigEndian?, a, b)
  }

  predicate CompareQuad(t: Target, u: CodeUnit, input: seq<nat>, at: nat, a: char, b: char, c: char, d: char)
    requires at + 4 <= |input|
  {
    if t == LittleEndian(true) then LoadQuad(input, u, false, at) == QuadConstant(u, a, b, c, d)
    else ComparePair(t, u, input, at, a, b) && ComparePair(t, u, input, at + 2, c, d)
  }

  /** COMPARE_2 to COMPARE_8; seven characters are two overlapping quads. */
  predicate Compare(t: Target, u: CodeUnit, input: seq<nat>, at: nat, cs: string)
    requires 2 <= |cs| <= 8 && at + |cs| <= |input|
  {
    match |cs|
    case 2 => ComparePair(t, u, input, at, cs[0], cs[1])
    case 3 => ComparePair(t, u, input, at, cs[0], cs[1]) && input[at + 2] == cs[2] as int
    case _ => CompareQuad(t, u, input, at, cs[0], cs[1], cs[2], cs[3]) && CompareRest(t, u, input, at, cs)
  }

  /** What is compared after the first quad. */
  predicate CompareRest(t: Target, u: CodeUnit, input: seq<nat>, at: nat, cs: string)
    requires 4 <= |cs| <= 8 && at + |cs| <= |input|
  {
    match |cs|
    case 4 => true
    case 5 => input[at + 4] == cs[4] as int
    case 6 => ComparePair(t, u, input, at + 4, cs[4], cs[5])
    case 7 => CompareQuad(t, u, input, at + 3, cs[3], cs[4], cs[5], cs[6])
    case _ => CompareQuad(t, u, input, at + 4, cs[4], cs[5], cs[6], cs[7])
  }

  // ---------------------------------------------------------------- wide compares refine single ones

  /** The text has the characters `cs` at `at`. */
  predicate TextAt(input: seq<nat>, at: nat, cs: string) {
    at + |cs| <= |input| && forall i | 0 <= i < |cs| :: input[at + i] == cs[i] as int
  }

  lemma {:induction false} UCharBytes(input: seq<nat>, big: bool, at: nat)
    requires at < |input|
    ensures Load16(input, UChar, big, 2 * at) == input[at]
  {
    assert (2 * at) / 2 == (2 * at + 1) / 2 == at && (2 * at) % 2 == 0 && (2 * at + 1) % 2 == 1;
  }

  /** Two-digit numbers are equal only digit by digit. */
  lemma {:induction false} SameDigits(base: nat, x0: nat, x1: nat, y0: nat, y1: nat)
    requires base == 0x100 || base == 0x1_0000 || base == 0x1_0000_0000
    requires x0 < base && y0 < base
    ensures x0 + base * x1 == y0 + base * y1 <==> x0 == y0 && x1 == y1
  {
    if base == 0x100 {
      assert x0 + 0x100 * x1 == y0 + 0x100 * y1 <==> x0 == y0 && x1 == y1;
    } else if base == 0x1_0000 {
      assert x0 + 0x1_0000 * x1 == y0 + 0x1_0000 * y1 <==> x0 == y0 && x1 == y1;
    } else {
      assert x0 + 0x1_0000_0000 * x1 == y0 + 0x1_0000_0000 * y1 <==> x0 == y0 && x1 == y1;
    }
  }

  /** No shift in the constants of ASCII characters overflows. */
  lemma {:induction false} ConstantDigits(u: CodeUnit, a: char, b: char)
    requires a as int < 128 && b as int < 128
    ensures PairConstant(u, false, a, b) == a as int + Base(u) * b as int
    ensures PairConstant(u, true, a, b) == a as int * Base(u) + b as int
  {
  }

  lemma {:induction false} LoadPairDigits(input: seq<nat>, u: CodeUnit, big: bool, at: nat)
    requires at + 2 <= |input|
    ensures LoadPair(input, u, big, at)
         == if big then input[at] * Base(u) + input[at + 1] else input[at] + Base(u) * input[at + 1]
  {
    if u.UChar? { UCharBytes(input, big, at); UCharBytes(input, big, at + 1); }
  }

  lemma {:induction false} ComparePairIsText(t: Target, u: CodeUnit, input: seq<nat>, at: nat, a: char, b: char)
    requires at + 2 <= |input| && IsText(input, u) && IsLiteral([a, b])
    ensures ComparePair(t, u, input, at, a, b) <==> input[at] == a as int && input[at + 1] == b as int
  {
    assert [a, b][0] == a && [a, b][1] == b;
    LoadPairDigits(input, u, t.BigEndian?, at);
    ConstantDigits(u, a, b);
    SameDigits(Base(u), input[at], input[at + 1], a as int, b as int);
    SameDigits(Base(u), input[at + 1], input[at], b as int, a as int);
  }

  lemma {:induction false} LoadQuadDigits(input: seq<nat>, u: CodeUnit, at: nat)
    requires at + 4 <= |input|
    ensures LoadQuad(input, u, false, at)
         == LoadPair(input, u, false, at) + Base(u) * Base(u) * LoadPair(input, u, false, at + 2)
  {
  }

  lemma {:induction false} QuadConstantDigits(u: CodeUnit, a: char, b: char, c: char, d: char)
    requires a as int < 128 && b as int < 128 && c as int < 128 && d as int < 128
    ensures QuadConstant(u, a, b, c, d)
         == PairConstant(u, false, a, b) + Base(u) * Base(u) * PairConstant(u, false, c, d)
    ensures PairConstant(u, false, a, b) < Base(u) * Base(u)
  {
    ConstantDigits(u, a, b);
    ConstantDigits(u, c, d);
    var lo, hi := PairConstant(u, false, a, b), PairConstant(u, false, c, d);
    if u.LChar? { NoOverflow(lo, hi, 0x1_0000); } else { NoOverflow(lo, hi, 0x1_0000_0000); }
  }

  lemma {:induction false} NoOverflow(lo: nat, hi: nat, base: nat)
    requires (base == 0x1_0000 || base == 0x1_0000_0000) && lo < base && hi < base
    ensures base == 0x1_0000 ==> ((hi * 0x1_0000) % 0x1_0000_0000 + lo) % 0x1_0000_0000 == lo + 0x1_0000 * hi
    ensures base == 0x1_0000_0000 ==>
      ((hi * 0x1_0000_0000) % 0x1_0000_0000_0000_0000 + lo) % 0x1_0000_0000_0000_0000 == lo + 0x1_0000_0000 * hi
  {
  }

  lemma {:induction false} CompareQuadIsText(t: Target, u: CodeUnit, input: seq<nat>, at: nat, a: char, b: char,
      c: char, d: char)
    requires at + 4 <= |input| && IsText(input, u) && IsLiteral([a, b, c, d])
    ensures CompareQuad(t, u, input, at, a, b, c, d)
      <==> input[at] == a as int && input[at + 1] == b as int && input[at + 2] == c as int && input[at + 3] == d as int
  {
    var l := [a, b, c, d];
    assert l[0] == a && l[1] == b && l[2] == c && l[3] == d;
    ComparePairIsText(LittleEndian(true), u, input, at, a, b);
    ComparePairIsText(LittleEndian(true), u, input, at + 2, c, d);
    if t == LittleEndian(true) {
      LoadQuadDigits(input, u, at);
      LoadPairDigits(input, u, false, at);
      QuadConstantDigits(u, a, b, c, d);
      assert Base(u) * Base(u) == if u.LChar? then 0x1_0000 else 0x1_0000_0000;
      SameDigits(Base(u) * Base(u), LoadPair(input, u, false, at), LoadPair(input, u, false, at + 2),
        PairConstant(u, false, a, b), PairConstant(u, false, c, d));
    } else {
      ComparePairIsText(t, u, input, at, a, b);
      ComparePairIsText(t, u, input, at + 2, c, d);
    }
  }

  lemma {:induction false} TextAtSplit(input: seq<nat>, at: nat, cs: string)
    requires |cs| >= 4 && at + |cs| <= |input|
    ensures TextAt(input, at, cs) <==>
      && input[at] == cs[0] as int && input[at + 1] == cs[1] as int && input[at + 2] == cs[2] as int
      && input[at + 3] == cs[3] as int
      && TextAt(input, at + 4, cs[4..])
  {
    if TextAt(input, at + 4, cs[4..]) {
      forall i | 4 <= i < |cs| ensures input[at + i] == cs[i] as int {
        assert input[at + 4 + (i - 4)] == cs[4..][i - 4] as int;
      }
    }
    if TextAt(input, at, cs) {
      forall i | 0 <= i < |cs| - 4 ensures input[at + 4 + i] == cs[4..][i] as int {
        assert input[at + (4 + i)] == cs[4 + i] as int;
      }
    }
  }

  /** Up to four characters at a place, one by one. */
  lemma {:induction false} FewAreText(input: seq<nat>, at: nat, cs: string)
    requires |cs| <= 4 && at + |cs| <= |input|
    ensures TextAt(input, at, cs) <==>
      && (|cs| > 0 ==> input[at] == cs[0] as int) && (|cs| > 1 ==> input[at + 1] == cs[1] as int)
      && (|cs| > 2 ==> input[at + 2] == cs[2] as int) && (|cs| > 3 ==> input[at + 3] == cs[3] as int)
  {
    if TextAt(input, at, cs) {
      assert |cs| > 0 ==> input[at + 0] == cs[0] as int;
    }
  }

  /** For every target, code unit, text and position, COMPARE_n holds exactly when the n characters
      are there one by one. */
  lemma {:induction false} CompareIsText(t: Target, u: CodeUnit, input: seq<nat>, at: nat, cs: string)
    requires 2 <= |cs| <= 8 && at + |cs| <= |input| && IsText(input, u) && IsLiteral(cs)
    ensures Compare(t, u, input, at, cs) <==> TextAt(input, at, cs)
  {
    if |cs| < 4 {
      FewAreText(input, at, cs);
      ComparePairIsText(t, u, input, at, cs[0], cs[1]);
    } else {
      TextAtSplit(input, at, cs);
      CompareQuadIsText(t, u, input, at, cs[0], cs[1], cs[2], cs[3]);
      CompareRestIsText(t, u, input, at, cs);
    }
  }

  lemma {:induction false} CompareRestIsText(t: Target, u: CodeUnit, input: seq<nat>, at: nat, cs: string)
    requires 4 <= |cs| <= 8 && at + |cs| <= |input| && IsText(input, u) && IsLiteral(cs)
    ensures CompareRest(t, u, input, at, cs) <==>
      (|cs| == 7 ==> input[at + 3] == cs[3] as int) && TextAt(input, at + 4, cs[4..])
  {
    FewAreText(input, at + 4, cs[4..]);
    match |cs|
    case 6 => CompareLastPair(t, u, input, at, cs);
    case 7 => CompareLastQuad(t, u, input, at, cs);
    case 8 => CompareLastQuad(t, u, input, at, cs);
    case _ => assert |cs| <= 5;
  }

  lemma {:induction false} CompareLastPair(t: Target, u: CodeUnit, input: seq<nat>, at: nat, cs: string)
    requires |cs| == 6 && at + 6 <= |input| && IsText(input, u) && IsLiteral(cs)
    ensures CompareRest(t, u, input, at, cs) <==> input[at + 4] == cs[4] as int && input[at + 5] == cs[5] as int
  {
    ComparePairIsText(t, u, input, at + 4, cs[4], cs[5]);
  }

  lemma {:induction false} CompareLastQuad(t: Target, u: CodeUnit, input: seq<nat>, at: nat, cs: string)
    requires 7 <= |cs| <= 8 && at + |cs| <= |input| && IsText(input, u) && IsLiteral(cs)
    ensures var from := |cs| - 4;
      CompareRest(t, u, input, at, cs)
      <==> input[at + from] == cs[from] as int && input[at + from + 1] == cs[from + 1] as int
           && input[at + from + 2] == cs[from + 2] as int && input[at + from + 3] == cs[from + 3] as int
  {
    var from := |cs| - 4;
    CompareQuadIsText(t, u, input, at + from, cs[from], cs[from + 1], cs[from + 2], cs[from + 3]);
  }
}

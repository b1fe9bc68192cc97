/** Recognising an identifier part that may be written as a Unicode escape, at the place where a
    keyword ends. */
module IdentEscapes {
  import opened KeywordProgram

  const MAX_CODE_POINT: nat := 0x10FFFF

  predicate AllHex(digits: seq<nat>) { forall i | 0 <= i < |digits| :: HexValue(digits[i]) >= 0 }

  /** The number that hexadecimal digits spell. */
  function ValueOf(digits: seq<nat>): nat
    requires AllHex(digits)
  {
    if digits == [] then 0 else ValueOf(digits[..|digits| - 1]) * 16 + HexValue(digits[|digits| - 1])
  }

  lemma {:induction false} ValueGrows(digits: seq<nat>, n: nat)
    requires AllHex(digits) && n <= |digits|
    ensures ValueOf(digits[..n]) <= ValueOf(digits)
  {
    if n < |digits| {
      ValueGrows(digits[..|digits| - 1], n);
      assert digits[..|digits| - 1][..n] == digits[..n];
    } else {
      assert digits[..n] == digits;
    }
  }

  /** A braced escape, of any number of digits, is an identifier part exactly when the number its digits
      spell is a code point that is one. */
  lemma {:induction false} BracedEscapeIsItsValue(lx: Lexer, digits: seq<nat>, rest: seq<nat>)
    requires AllHex(digits)
    ensures BracedEscape(lx, digits + ['}' as int] + rest, 0) <==>
      ValueOf(digits) <= MAX_CODE_POINT && lx.isPart(ValueOf(digits))
  {
    assert digits[..0] == [] && digits[0..] == digits;
    BracedFrom(lx, digits, rest, 0);
  }

  lemma {:induction false} BracedFrom(lx: Lexer, digits: seq<nat>, rest: seq<nat>, n: nat)
    requires AllHex(digits) && n <= |digits| && ValueOf(digits[..n]) <= MAX_CODE_POINT
    ensures BracedEscape(lx, digits[n..] + ['}' as int] + rest, ValueOf(digits[..n]))
      <==> ValueOf(digits) <= MAX_CODE_POINT && lx.isPart(ValueOf(digits))
    decreases |digits| - n
  {
    var s := digits[n..] + ['}' as int] + rest;
    if n == |digits| {
      assert digits[..n] == digits && s[0] == '}' as int;
    } else {
      assert s[0] == digits[n] && s[1..] == digits[n + 1..] + ['}' as int] + rest;
      assert digits[..n + 1][..n] == digits[..n];
      ValueGrows(digits, n + 1);
      if ValueOf(digits[..n + 1]) <= MAX_CODE_POINT { BracedFrom(lx, digits, rest, n + 1); }
    }
  }

  /** An escape of four digits is an identifier part exactly when the number they spell is one. */
  lemma {:induction false} FourDigitEscapeIsItsValue(lx: Lexer, at: nat, digits: seq<nat>)
    requires AllHex(digits) && |digits| == 4 && at + 6 <= |lx.input| && !lx.isPart('\\' as int)
    requires lx.input[at..at + 6] == ['\\' as int, 'u' as int] + digits
    ensures IdentPartIncludingEscape(lx, at) <==> lx.isPart(ValueOf(digits))
  {
    var s, e := lx.input[at..], lx.input[at..at + 6];
    assert forall i | 0 <= i < 6 :: s[i] == e[i];
    assert s[2] == digits[0] && s[3] == digits[1] && s[4] == digits[2] && s[5] == digits[3];
    assert ValueOf(digits[..1]) == HexValue(digits[0]) by { assert digits[..1][..0] == []; }
    assert ValueOf(digits[..2]) == ValueOf(digits[..1]) * 16 + HexValue(digits[1]) by {
      assert digits[..2][..1] == digits[..1];
    }
    assert ValueOf(digits[..3]) == ValueOf(digits[..2]) * 16 + HexValue(digits[2]) by {
      assert digits[..3][..2] == digits[..2];
    }
  }

  /** A braced escape in the text: the digits are those between the braces, all of them. */
  lemma {:induction false} BracedEscapeInText(lx: Lexer, at: nat, digits: seq<nat>, rest: seq<nat>)
    requires AllHex(digits) && digits != [] && at < |lx.input| && !lx.isPart('\\' as int)
    requires lx.input[at..] == ['\\' as int, 'u' as int, '{' as int] + (digits + ['}' as int] + rest)
    ensures IdentPartIncludingEscape(lx, at) <==> ValueOf(digits) <= MAX_CODE_POINT && lx.isPart(ValueOf(digits))
  {
    var s := lx.input[at..];
    assert s[3..] == digits + ['}' as int] + rest;
    BracedEscapeIsItsValue(lx, digits, rest);
  }

  const DIGITS := "0123456789abcdef"
  const UPPER_CASE_DIGITS := "0123456789ABCDEF"

  /** The sixteen digits have their values, in either case, and nothing else is a digit. */
  lemma {:induction false} HexValueIsPosition(c: nat, v: nat)
    requires v < 16
    ensures HexValue(c) == v <==> c == DIGITS[v] as int || c == UPPER_CASE_DIGITS[v] as int
    ensures HexValue(c) < 0 <==> forall i | 0 <= i < 16 :: c != DIGITS[i] as int && c != UPPER_CASE_DIGITS[i] as int
  {
    DigitsAre(v);
    if HexValue(c) >= 0 {
      DigitsAre(HexValue(c));
    } else {
      forall i | 0 <= i < 16 ensures c != DIGITS[i] as int && c != UPPER_CASE_DIGITS[i] as int { DigitsAre(i); }
    }
  }

  lemma {:induction false} DigitsAre(v: nat)
    requires v < 16
    ensures v < 10 ==> DIGITS[v] as int == '0' as int + v && UPPER_CASE_DIGITS[v] == DIGITS[v]
    ensures v >= 10 ==> DIGITS[v] as int == 'a' as int + (v - 10)
    ensures v >= 10 ==> UPPER_CASE_DIGITS[v] as int == 'A' as int + (v - 10)
  {
  }

  /** `s` starts with an escape of these digits. */
  predicate StartsWithEscape(s: seq<nat>, digits: seq<nat>) {
    && AllHex(digits)
    && (|| (|s| >= 5 && ['\\' as int, 'u' as int, '{' as int] + digits + ['}' as int] <= s)
        || (|digits| == 4 && ['\\' as int, 'u' as int] + digits <= s))
  }

  /** The text goes on with an identifier part, written plainly or as an escape, in braces or of four digits. */
  ghost predicate GoesOn(lx: Lexer, s: seq<nat>) {
    s != [] &&
    (lx.isPart(s[0]) ||
     exists digits :: StartsWithEscape(s, digits) && ValueOf(digits) <= MAX_CODE_POINT && lx.isPart(ValueOf(digits)))
  }

  /** The digits in front of `s`. */
  function LeadingDigits(s: seq<nat>): (digits: seq<nat>)
    ensures AllHex(digits) && digits <= s
    ensures |digits| < |s| ==> HexValue(s[|digits|]) < 0
  {
    if s == [] || HexValue(s[0]) < 0 then [] else [s[0]] + LeadingDigits(s[1..])
  }

  lemma {:induction false} EscapeIsRead(lx: Lexer, at: nat, digits: seq<nat>)
    requires at < |lx.input| && StartsWithEscape(lx.input[at..], digits) && !lx.isPart('\\' as int)
    ensures IdentPartIncludingEscape(lx, at) <==> ValueOf(digits) <= MAX_CODE_POINT && lx.isPart(ValueOf(digits))
  {
    var s := lx.input[at..];
    var open := ['\\' as int, 'u' as int, '{' as int];
    if |s| >= 5 && open + digits + ['}' as int] <= s {
      var rest := s[|digits| + 4..];
      assert s == open + digits + ['}' as int] + rest;
      assert s[3..] == digits + ['}' as int] + rest;
      BracedEscapeIsItsValue(lx, digits, rest);
    } else {
      assert lx.input[at..at + 6] == ['\\' as int, 'u' as int] + digits;
      FourDigitEscapeIsItsValue(lx, at, digits);
      FourDigitsAreSmall(digits);
    }
  }

  lemma {:induction false} FourDigitsAreSmall(digits: seq<nat>)
    requires AllHex(digits) && |digits| == 4
    ensures ValueOf(digits) <= 0xFFFF
  {
    var a, b, c := digits[..3], digits[..2], digits[..1];
    assert a[..2] == b && b[..1] == c && c[..0] == [];
    assert ValueOf(c) < 16;
    assert ValueOf(b) < 256;
    assert ValueOf(a) < 4096;
  }

  /** What isIdentPartIncludingEscape decides, over the text alone. */
  lemma {:induction false} IdentPartIff(lx: Lexer, at: nat)
    requires at < |lx.input|
    ensures IdentPartIncludingEscape(lx, at) <==> GoesOn(lx, lx.input[at..])
  {
    var s := lx.input[at..];
    if lx.isPart(s[0]) {
    } else if digits :| StartsWithEscape(s, digits) {
      assert s[0] == '\\' as int;
      forall other | StartsWithEscape(s, other)
        ensures IdentPartIncludingEscape(lx, at) <==> ValueOf(other) <= MAX_CODE_POINT && lx.isPart(ValueOf(other))
      {
        EscapeIsRead(lx, at, other);
      }
      assert StartsWithEscape(s, digits);
    } else if IdentPartIncludingEscape(lx, at) {
      NoEscapeNoPart(lx, at);
      assert false;
    }
  }

  lemma {:induction false} NoEscapeNoPart(lx: Lexer, at: nat)
    requires at < |lx.input| && !lx.isPart(lx.input[at]) && IdentPartIncludingEscape(lx, at)
    ensures exists digits :: StartsWithEscape(lx.input[at..], digits)
  {
    var s := lx.input[at..];
    if s[2] == '{' as int {
      var digits := LeadingDigits(s[3..]);
      BracedEscapeEnds(lx, s[3..], 0);
      assert s == ['\\' as int, 'u' as int, '{' as int] + s[3..];
      assert StartsWithEscape(s, digits);
    } else {
      assert ['\\' as int, 'u' as int] + s[2..6] <= s;
      assert StartsWithEscape(s, s[2..6]);
    }
  }

  lemma {:induction false} BracedEscapeEnds(lx: Lexer, s: seq<nat>, codePoint: nat)
    requires BracedEscape(lx, s, codePoint)
    ensures LeadingDigits(s) + ['}' as int] <= s
  {
    if HexValue(s[0]) >= 0 { BracedEscapeEnds(lx, s[1..], codePoint * 16 + HexValue(s[0])); }
  }

  /** The function as it runs, with the loop over the digits in braces. */
  method IsIdentPartIncludingEscape(lx: Lexer, at: nat) returns (b: bool)
    requires at < |lx.input|
    ensures b == IdentPartIncludingEscape(lx, at)
  {
    var code := lx.input[at..];
    if lx.isPart(code[0]) { return true; }
    if !(code[0] == '\\' as int && |code| >= 5 && code[1] == 'u' as int) { return false; }
    if code[2] == '{' as int {
      var codePoint: nat, pointer: nat := 0, 3;
      while pointer < |code| && HexValue(code[pointer]) >= 0
        invariant 3 <= pointer <= |code|
        invariant BracedEscape(lx, code[3..], 0) == BracedEscape(lx, code[pointer..], codePoint)
      {
        assert code[pointer..][1..] == code[pointer + 1..];
        codePoint := codePoint * 16 + HexValue(code[pointer]);
        if codePoint > MAX_CODE_POINT { return false; }
        pointer := pointer + 1;
      }
      return lx.isPart(codePoint) && pointer < |code| && code[pointer] == '}' as int;
    }
    if |code| < 6 { return false; }
    var a, b1, c, d := HexValue(code[2]), HexValue(code[3]), HexValue(code[4]), HexValue(code[5]);
    return a >= 0 && b1 >= 0 && c >= 0 && d >= 0 && lx.isPart(((a * 16 + b1) * 16 + c) * 16 + d);
  }
}

/** Browser versions: a client asks for at least a version, written as up to three numbers with dots. */
module BrowserVersions {
  import opened Options
  import opened Text

  predicate IsSpace(c: char) { c == ' ' || '\t' <= c <= '\r' }

  predicate IsDigit(c: char) { '0' <= c <= '9' }

  function SkipSpaces(s: string): string { if s != "" && IsSpace(s[0]) then SkipSpaces(s[1..]) else s }

  /** The digits that a string begins with. */
  function LeadingDigits(s: string): (r: string)
    ensures AllDigits(r)
  {
    if s != "" && IsDigit(s[0]) then [s[0]] + LeadingDigits(s[1..]) else ""
  }

  predicate AllDigits(s: string) { forall i | 0 <= i < |s| :: IsDigit(s[i]) }

  function Value(digits: string): nat
    requires AllDigits(digits)
  {
    if digits == "" then 0 else Value(digits[..|digits| - 1]) * 10 + (digits[|digits| - 1] as int - '0' as int)
  }

  const INT64_MAX := 0x7FFF_FFFF_FFFF_FFFF
  const UINT64 := 0x1_0000_0000_0000_0000

  /** `toInt64`: spaces, a sign, digits; whatever follows is ignored. */
  function ToInt64(s: string): Option<int> {
    var t := SkipSpaces(s);
    var negative := t != "" && t[0] == '-';
    var digits := LeadingDigits(if t != "" && (t[0] == '-' || t[0] == '+') then t[1..] else t);
    if digits == "" then None
    else if negative then (if Value(digits) <= INT64_MAX + 1 then Some(0 - Value(digits)) else None)
    else if Value(digits) <= INT64_MAX then Some(Value(digits))
    else None
  }

  /** A part of a version is kept as an unsigned number. */
  function Part(s: string): Option<nat> {
    var n := ToInt64(s);
    if n.Some? then Some(n.value % UINT64) else None
  }

  datatype Version = Version(major: nat, minor: nat, micro: nat)

  function ParseVersion(version: string): Option<Version> {
    var tokens := Split(version, '.');
    var micro := if |tokens| == 3 then Part(tokens[2]) else Some(0);
    var minor := if 2 <= |tokens| <= 3 then Part(tokens[1]) else Some(0);
    var major := if 1 <= |tokens| <= 3 then Part(tokens[0]) else None;
    if micro.Some? && minor.Some? && major.Some? then Some(Version(major.value, minor.value, micro.value)) else None
  }

  predicate AtLeast(proposed: Version, required: Version) {
    || proposed.major > required.major
    || (proposed.major == required.major && proposed.minor > required.minor)
    || (proposed.major == required.major && proposed.minor == required.minor && proposed.micro >= required.micro)
  }

  /** `platformCompareBrowserVersions`. */
  predicate CompareBrowserVersions(requiredVersion: string, proposedVersion: string) {
    var required, proposed := ParseVersion(requiredVersion), ParseVersion(proposedVersion);
    required.Some? && proposed.Some? && AtLeast(proposed.value, required.value)
  }

  /** A number of the usual form. */
  predicate Plain(digits: string) { digits != "" && AllDigits(digits) && Value(digits) <= INT64_MAX }

  function PlainValue(s: string): nat
    requires Plain(s)
  {
    Value(s)
  }

  lemma {:induction false} AllAreLeading(digits: string)
    requires AllDigits(digits)
    ensures LeadingDigits(digits) == digits
  {
    if digits != "" {
      AllAreLeading(digits[1..]);
      assert digits == [digits[0]] + digits[1..];
    }
  }

  lemma {:induction false} PlainPart(digits: string)
    requires Plain(digits)
    ensures Part(digits) == Some(Value(digits))
  {
    AllAreLeading(digits);
    assert SkipSpaces(digits) == digits;
  }

  /** A version of up to three plain numbers is read as these numbers, with zeros for what is missing. */
  lemma {:induction false} PlainVersion(parts: seq<string>)
    requires 1 <= |parts| <= 3 && forall i | 0 <= i < |parts| :: Plain(parts[i])
    ensures ParseVersion(Join(parts, '.')) == Some(Version(
      PlainValue(parts[0]),
      if |parts| > 1 then PlainValue(parts[1]) else 0,
      if |parts| > 2 then PlainValue(parts[2]) else 0))
  {
    forall i | 0 <= i < |parts| ensures '.' !in parts[i] && parts[i] != "" && Part(parts[i]) == Some(Value(parts[i])) {
      PlainPart(parts[i]);
    }
    SplitJoin(parts, '.');
  }

  /** Asking for at least a version is an order on the versions that can be read: each allows itself, it is
      transitive, and of two versions one allows the other; both do only if they are the same numbers. */
  lemma {:induction false} VersionsAreOrdered(a: string, b: string, c: string)
    ensures CompareBrowserVersions(a, a) <==> ParseVersion(a).Some?
    ensures CompareBrowserVersions(a, b) && CompareBrowserVersions(b, c) ==> CompareBrowserVersions(a, c)
    ensures ParseVersion(a).Some? && ParseVersion(b).Some? ==>
      CompareBrowserVersions(a, b) || CompareBrowserVersions(b, a)
    ensures CompareBrowserVersions(a, b) && CompareBrowserVersions(b, a) ==> ParseVersion(a) == ParseVersion(b)
  {
  }

  /** A version as one number, of three digits to the base 2^64. */
  function Weight(v: Version): nat { (v.major * UINT64 + v.minor) * UINT64 + v.micro }

  /** One version will do for another exactly when both can be read and its number is not smaller. */
  lemma {:induction false} VersionsCompareAsNumbers(required: string, proposed: string)
    ensures CompareBrowserVersions(required, proposed) <==>
      && ParseVersion(required).Some? && ParseVersion(proposed).Some?
      && Weight(ParseVersion(required).value) <= Weight(ParseVersion(proposed).value)
  {
    if ParseVersion(required).Some? && ParseVersion(proposed).Some? {
      AtLeastIsWeight(ParseVersion(proposed).value, ParseVersion(required).value);
    }
  }

  lemma {:induction false} AtLeastIsWeight(v: Version, w: Version)
    requires v.minor < UINT64 && v.micro < UINT64 && w.minor < UINT64 && w.micro < UINT64
    ensures AtLeast(v, w) <==> Weight(w) <= Weight(v)
  {
    if v.major > w.major {
      assert v.major * UINT64 + v.minor > w.major * UINT64 + w.minor;
    } else if v.major < w.major {
      assert v.major * UINT64 + v.minor < w.major * UINT64 + w.minor;
    }
  }

  /** Version 2.24.1 will do for a client that asks for 2.0, but not the other way round. */
  lemma {:induction false} NewerWillDo()
    ensures CompareBrowserVersions("2.0", "2.24.1") && !CompareBrowserVersions("2.24.1", "2.0")
  {
    NumbersAre();
    PlainVersion(["2", "0"]);
    PlainVersion(["2", "24", "1"]);
  }

  lemma {:induction false} NumbersAre()
    ensures Plain("0") && Plain("1") && Plain("2") && Plain("24")
    ensures Value("0") == 0 && Value("1") == 1 && Value("2") == 2 && Value("24") == 24
    ensures Join(["2", "0"], '.') == "2.0" && Join(["2", "24", "1"], '.') == "2.24.1"
  {
    assert "24"[..1] == "2" && "2"[..0] == "" && "0"[..0] == "" && "1"[..0] == "";
    assert ["2", "0"][1..] == ["0"] && ["2", "24", "1"][1..] == ["24", "1"] && ["24", "1"][1..] == ["1"];
  }
}

/** Capability negotiation: validating, merging, matching and parsing what a client asks for. */
module Capabilities {
  import opened Options
  import opened Json
  import opened WebDriverTypes

  type Members = map<string, Json>

  datatype PageLoadStrategy = NoStrategy | Normal | Eager

  datatype Timeouts = Timeouts(script: Option<nat>, pageLoad: Option<nat>, implicit: Option<nat>)

  datatype Capabilities = Capabilities(
    browserName: Option<string>, browserVersion: Option<string>, platformName: Option<string>,
    acceptInsecureCerts: Option<bool>, setWindowRect: Option<bool>,
    timeouts: Option<Timeouts>, pageLoadStrategy: Option<PageLoadStrategy>, promptBehavior: Option<PromptBehavior>)

  const NONE := Capabilities(None, None, None, None, None, None, None, None)

  /** What differs between ports. */
  datatype Platform = Platform(
    capabilities: Capabilities,
    validates: (string, Json) -> bool,
    matches: (string, Json) -> bool,
    acceptsVersion: (string, string) -> bool)

  // ---------------------------------------------------------------- deserializing

  /** A member of a timeouts object: in the way, or a number of milliseconds. */
  predicate TimeoutOk(key: string, v: Json) {
    key == "sessionId" || (UnsignedValue(v).Some? && (key == "script" || key == "pageLoad" || key == "implicit"))
  }

  function TimeoutOf(o: Members, key: string): Option<nat> { if key in o then UnsignedValue(o[key]) else None }

  function DeserializeTimeouts(o: Members): Option<Timeouts> {
    if forall k | k in o :: TimeoutOk(k, o[k]) then
      Some(Timeouts(TimeoutOf(o, "script"), TimeoutOf(o, "pageLoad"), TimeoutOf(o, "implicit")))
    else None
  }

  function DeserializePageLoadStrategy(s: string): Option<PageLoadStrategy> {
    if s == "none" then Some(NoStrategy)
    else if s == "normal" then Some(Normal)
    else if s == "eager" then Some(Eager)
    else None
  }

  function DeserializePromptBehavior(s: string): Option<PromptBehavior> {
    if s == "dismiss" then Some(Dismiss)
    else if s == "accept" then Some(Accept)
    else if s == "dismiss and notify" then Some(DismissAndNotify)
    else if s == "accept and notify" then Some(AcceptAndNotify)
    else if s == "ignore" then Some(Ignore)
    else None
  }

  // ---------------------------------------------------------------- validating

  datatype Verdict = Drop | Keep | Reject

  function KeepIf(b: bool): Verdict { if b then Keep else Reject }

  /** What validation makes of one capability. */
  function Judge(p: Platform, key: string, v: Json): Verdict {
    if v.Null? then Drop
    else if key == "acceptInsecureCerts" then KeepIf(v.Bool?)
    else if key == "browserName" || key == "browserVersion" || key == "platformName" then KeepIf(v.Str?)
    else if key == "pageLoadStrategy" then KeepIf(v.Str? && DeserializePageLoadStrategy(v.s).Some?)
    else if key == "proxy" then Drop
    else if key == "timeouts" then KeepIf(v.Obj? && DeserializeTimeouts(v.members).Some?)
    else if key == "unhandledPromptBehavior" then KeepIf(v.Str? && DeserializePromptBehavior(v.s).Some?)
    else if ':' in key then KeepIf(p.validates(key, v))
    else Reject
  }

  function Validated(p: Platform, o: Members): Option<Members> {
    if exists k :: k in o && Judge(p, k, o[k]) == Reject then None
    else Some(map k | k in o && Judge(p, k, o[k]) == Keep :: o[k])
  }

  /** The loop, in whatever order the object yields its members. */
  method ValidateCapabilities(p: Platform, o: Members) returns (result: Option<Members>)
    ensures result == Validated(p, o)
  {
    var left, kept := o.Keys, map[];
    while left != {}
      invariant left <= o.Keys
      invariant forall k | k in o && k !in left :: Judge(p, k, o[k]) != Reject
      invariant kept == map k | k in o && k !in left && Judge(p, k, o[k]) == Keep :: o[k]
      decreases |left|
    {
      var k :| k in left;
      left := left - {k};
      match Judge(p, k, o[k])
      case Reject => return None;
      case Keep => kept := kept[k := o[k]];
      case Drop =>
    }
    assert kept == map k | k in o && Judge(p, k, o[k]) == Keep :: o[k];
    return Some(kept);
  }

  /** The type that the later steps take for granted. */
  predicate Typed(key: string, v: Json) {
    match key
    case "acceptInsecureCerts" => v.Bool?
    case "setWindowRect" => v.Bool?
    case "browserName" => v.Str?
    case "browserVersion" => v.Str?
    case "platformName" => v.Str?
    case "timeouts" => v.Obj? && DeserializeTimeouts(v.members).Some?
    case "pageLoadStrategy" => v.Str? && DeserializePageLoadStrategy(v.s).Some?
    case "unhandledPromptBehavior" => v.Str? && DeserializePromptBehavior(v.s).Some?
    case _ => true
  }

  predicate AllTyped(o: Members) { forall k | k in o :: Typed(k, o[k]) }

  /** What survives validation is what was asked for, with the types the later steps rely on, and
      without a key that only the platform may set. */
  lemma {:induction false} ValidatedIsTyped(p: Platform, o: Members)
    requires Validated(p, o).Some?
    ensures var v := Validated(p, o).value;
      AllTyped(v) && "setWindowRect" !in v && "proxy" !in v
      && forall k | k in v :: k in o && v[k] == o[k] && !v[k].Null?
  {
    assert ':' !in "setWindowRect";
    assert "setWindowRect" in o ==> Judge(p, "setWindowRect", o["setWindowRect"]) != Keep;
  }

  // ---------------------------------------------------------------- merging

  /** Required capabilities first, then the alternatives over them. */
  function Merged(required: Members, firstMatch: Members): Members { required + firstMatch }

  /** The two loops, each in whatever order its object yields its members. */
  method MergeCapabilities(required: Members, firstMatch: Members) returns (result: Members)
    ensures result == Merged(required, firstMatch)
  {
    result := CopyMembers(map[], required);
    result := CopyMembers(result, firstMatch);
  }

  method CopyMembers(into: Members, from: Members) returns (result: Members)
    ensures result == into + from
  {
    result := into;
    var left := from.Keys;
    NothingCopied(into, from);
    while left != {}
      invariant left <= from.Keys && result == Copied(into, from, left)
      decreases |left|
    {
      var k :| k in left;
      CopyOne(into, from, left, k);
      left := left - {k};
      result := result[k := from[k]];
    }
    AllCopied(into, from);
  }

  /** `into` after all members of `from` but those `left`. */
  function Copied(into: Members, from: Members, left: set<string>): Members { into + (from - left) }

  lemma {:induction false} NothingCopied(into: Members, from: Members)
    ensures Copied(into, from, from.Keys) == into
  {
    assert from - from.Keys == map[];
  }

  lemma {:induction false} AllCopied(into: Members, from: Members)
    ensures Copied(into, from, {}) == into + from
  {
    assert from - {} == from;
  }

  lemma {:induction false} CopyOne(into: Members, from: Members, left: set<string>, k: string)
    requires k in from && k in left
    ensures Copied(into, from, left - {k}) == Copied(into, from, left)[k := from[k]]
  {
    assert from - (left - {k}) == (from - left)[k := from[k]];
  }

  /** Without shadowing the merge is a disjoint union: nothing is lost and the order does not matter. */
  lemma {:induction false} MergeIsDisjointUnion(required: Members, firstMatch: Members)
    requires required.Keys !! firstMatch.Keys
    ensures Merged(required, firstMatch) == Merged(firstMatch, required)
    ensures |Merged(required, firstMatch)| == |required| + |firstMatch|
  {
    var m := Merged(required, firstMatch);
    assert m.Keys == required.Keys + firstMatch.Keys;
    assert |m.Keys| == |required.Keys| + |firstMatch.Keys|;
  }

  // ---------------------------------------------------------------- matching

  function LowerChar(c: char): char {
    if 'A' <= c <= 'Z' then ((c as int) - ('A' as int) + ('a' as int)) as char else c
  }

  function Lower(s: string): string { seq(|s|, i requires 0 <= i < |s| => LowerChar(s[i])) }

  function WriteString(s: Option<string>): Option<Json> { if s.Some? then Some(Str(s.value)) else None }

  function WriteBool(b: Option<bool>): Option<Json> { if b.Some? then Some(Bool(b.value)) else None }

  /** The platform's own values, as members. */
  function PlatformMembers(c: Capabilities): Members {
    var names := With(map[], "browserName", WriteString(c.browserName));
    var versions := With(names, "browserVersion", WriteString(c.browserVersion));
    var platforms := With(versions, "platformName", WriteString(c.platformName));
    var certs := With(platforms, "acceptInsecureCerts", WriteBool(c.acceptInsecureCerts));
    With(certs, "setWindowRect", WriteBool(c.setWindowRect))
  }

  /** Whether the platform can give what is asked for under one key. */
  predicate CanGive(p: Platform, key: string, v: Json)
    requires Typed(key, v)
  {
    var c := p.capabilities;
    if key == "browserName" && c.browserName.Some? then Lower(c.browserName.value) == Lower(v.s)
    else if key == "browserVersion" && c.browserVersion.Some? then p.acceptsVersion(v.s, c.browserVersion.value)
    else if key == "platformName" && c.platformName.Some? then Lower(v.s) == "any" || c.platformName.value == v.s
    else if key == "acceptInsecureCerts" && c.acceptInsecureCerts.Some? then v.b ==> c.acceptInsecureCerts.value
    else if key == "proxy" then true
    else p.matches(key, v)
  }

  function Matched(p: Platform, merged: Members): Option<Members>
    requires AllTyped(merged)
  {
    if forall k | k in merged :: CanGive(p, k, merged[k]) then Some(PlatformMembers(p.capabilities) + merged) else None
  }

  method MatchCapabilities(p: Platform, merged: Members) returns (matched: Option<Members>)
    requires AllTyped(merged)
    ensures matched == Matched(p, merged)
  {
    matched := MatchOver((k, v) => Typed(k, v) && CanGive(p, k, v), PlatformMembers(p.capabilities), merged);
  }

  /** The loop, over what the platform sets itself. */
  method MatchOver(gives: (string, Json) -> bool, own: Members, merged: Members) returns (matched: Option<Members>)
    ensures matched == if forall k | k in merged :: gives(k, merged[k]) then Some(own + merged) else None
  {
    var result, left := own, merged.Keys;
    NothingCopied(own, merged);
    while left != {}
      invariant left <= merged.Keys && result == Copied(own, merged, left)
      invariant forall k | k in merged && k !in left :: gives(k, merged[k])
      decreases |left|
    {
      var k :| k in left;
      if !gives(k, merged[k]) { return None; }
      CopyOne(own, merged, left, k);
      left := left - {k};
      result := result[k := merged[k]];
    }
    AllCopied(own, merged);
    return Some(result);
  }

  /** Requested values survive matching, and the types too; what is added comes from the platform. */
  lemma {:induction false} MatchKeepsRequest(p: Platform, merged: Members)
    requires AllTyped(merged) && Matched(p, merged).Some?
    ensures var m := Matched(p, merged).value;
      && AllTyped(m)
      && (forall k | k in merged :: k in m && m[k] == merged[k])
      && (forall k | k in m && k !in merged :: k in PlatformMembers(p.capabilities))
  {
    PlatformIsTyped(p.capabilities);
  }

  lemma {:induction false} PlatformIsTyped(c: Capabilities)
    ensures AllTyped(PlatformMembers(c))
  {
  }

  // ---------------------------------------------------------------- parsing

  function GetBool(o: Members, key: string): Option<bool> {
    if key in o && o[key].Bool? then Some(o[key].b) else None
  }

  function Parse(m: Members): Capabilities {
    var s, b := GetString(m, "pageLoadStrategy"), GetString(m, "unhandledPromptBehavior");
    Capabilities(
      GetString(m, "browserName"), GetString(m, "browserVersion"), GetString(m, "platformName"),
      GetBool(m, "acceptInsecureCerts"), GetBool(m, "setWindowRect"),
      if "timeouts" in m && m["timeouts"].Obj? then DeserializeTimeouts(m["timeouts"].members) else None,
      if s.Some? then DeserializePageLoadStrategy(s.value) else None,
      if b.Some? then DeserializePromptBehavior(b.value) else None)
  }

  /** On typed members parsing loses nothing: a capability is set exactly when its key is there. */
  lemma {:induction false} ParseIsComplete(m: Members)
    requires AllTyped(m)
    ensures var c := Parse(m);
      && (c.browserName.Some? <==> "browserName" in m) && (c.browserVersion.Some? <==> "browserVersion" in m)
      && (c.platformName.Some? <==> "platformName" in m)
      && (c.acceptInsecureCerts.Some? <==> "acceptInsecureCerts" in m)
      && (c.setWindowRect.Some? <==> "setWindowRect" in m) && (c.timeouts.Some? <==> "timeouts" in m)
      && (c.pageLoadStrategy.Some? <==> "pageLoadStrategy" in m)
      && (c.promptBehavior.Some? <==> "unhandledPromptBehavior" in m)
  {
    assert forall k | k in m :: Typed(k, m[k]);
  }

  // ---------------------------------------------------------------- the response

  const DEFAULT_SCRIPT_TIMEOUT := 30000
  const DEFAULT_PAGE_LOAD_TIMEOUT := 300000
  const DEFAULT_IMPLICIT_WAIT_TIMEOUT := 0
  const INT_MAX := 0x7FFF_FFFF

  /** Milliseconds are cut to the largest 32-bit integer on their way out. */
  function Clamp(n: nat): nat { if n <= INT_MAX then n else INT_MAX }

  function StrategyName(s: PageLoadStrategy): string {
    match s
    case NoStrategy => "none"
    case Normal => "normal"
    case Eager => "eager"
  }

  function BehaviorName(b: PromptBehavior): string {
    match b
    case Dismiss => "dismiss"
    case Accept => "accept"
    case DismissAndNotify => "dismiss and notify"
    case AcceptAndNotify => "accept and notify"
    case Ignore => "ignore"
  }

  /** The timeouts of a session that was asked for these. */
  function SessionTimeouts(t: Option<Timeouts>): Timeouts {
    var asked := ValueOr(t, Timeouts(None, None, None));
    Timeouts(Some(ValueOr(asked.script, DEFAULT_SCRIPT_TIMEOUT)),
      Some(ValueOr(asked.pageLoad, DEFAULT_PAGE_LOAD_TIMEOUT)),
             Some(ValueOr(asked.implicit, DEFAULT_IMPLICIT_WAIT_TIMEOUT)))
  }

  function TimeoutsObject(t: Timeouts): Members
    requires t.script.Some? && t.pageLoad.Some? && t.implicit.Some?
  {
    map["script" := Integer(Clamp(t.script.value)), "pageLoad" := Integer(Clamp(t.pageLoad.value)),
        "implicit" := Integer(Clamp(t.implicit.value))]
  }

  /** The "capabilities" of the response to New Session. */
  function Response(c: Capabilities): Members {
    map["browserName" := Str(ValueOr(c.browserName, "")),
        "browserVersion" := Str(ValueOr(c.browserVersion, "")),
        "platformName" := Str(ValueOr(c.platformName, "")),
        "acceptInsecureCerts" := Bool(ValueOr(c.acceptInsecureCerts, false)),
        "setWindowRect" := Bool(ValueOr(c.setWindowRect, true)),
        "unhandledPromptBehavior" := Str(BehaviorName(ValueOr(c.promptBehavior, DismissAndNotify))),
        "pageLoadStrategy" := Str(StrategyName(ValueOr(c.pageLoadStrategy, Normal))),
        "proxy" := Obj(map[]),
        "timeouts" := Obj(TimeoutsObject(SessionTimeouts(c.timeouts)))]
  }

  function ClampTimeouts(t: Timeouts): Timeouts {
    Timeouts(if t.script.Some? then Some(Clamp(t.script.value)) else None,
             if t.pageLoad.Some? then Some(Clamp(t.pageLoad.value)) else None,
             if t.implicit.Some? then Some(Clamp(t.implicit.value)) else None)
  }

  lemma {:induction false} TimeoutsRoundTrip(t: Timeouts)
    requires t.script.Some? && t.pageLoad.Some? && t.implicit.Some?
    ensures DeserializeTimeouts(TimeoutsObject(t)) == Some(ClampTimeouts(t))
  {
    assert |"script"| == 6 && |"pageLoad"| == 8 && "pageLoad"[0] == 'p' && |"implicit"| == 8 && "implicit"[0] == 'i';
  }

  lemma {:induction false} NamesRoundTrip(s: PageLoadStrategy, b: PromptBehavior)
    ensures DeserializePageLoadStrategy(StrategyName(s)) == Some(s)
      && DeserializePromptBehavior(BehaviorName(b)) == Some(b)
  {
    assert |"none"| == 4 && |"normal"| == 6 && |"eager"| == 5;
    assert |"dismiss"| == 7 && |"accept"| == 6 && "accept"[0] == 'a' && |"dismiss and notify"| == 18
      && |"accept and notify"| == 17;
    assert |"ignore"| == 6 && "ignore"[0] == 'i';
  }

  /** The members of the response, by name: the names differ. */
  lemma {:induction false} ResponseMembers(c: Capabilities)
    ensures var m := Response(c);
      && "browserName" in m && m["browserName"] == Str(ValueOr(c.browserName, ""))
      && "browserVersion" in m && m["browserVersion"] == Str(ValueOr(c.browserVersion, ""))
      && "platformName" in m && m["platformName"] == Str(ValueOr(c.platformName, ""))
      && "acceptInsecureCerts" in m && m["acceptInsecureCerts"] == Bool(ValueOr(c.acceptInsecureCerts, false))
      && "setWindowRect" in m && m["setWindowRect"] == Bool(ValueOr(c.setWindowRect, true))
      && "unhandledPromptBehavior" in m
      && m["unhandledPromptBehavior"] == Str(BehaviorName(ValueOr(c.promptBehavior, DismissAndNotify)))
      && "pageLoadStrategy" in m && m["pageLoadStrategy"] == Str(StrategyName(ValueOr(c.pageLoadStrategy, Normal)))
      && "timeouts" in m && m["timeouts"] == Obj(TimeoutsObject(SessionTimeouts(c.timeouts)))
  {
    assert |"browserName"| == 11 && |"browserVersion"| == 14 && |"platformName"| == 12 && |"acceptInsecureCerts"| == 19;
    assert |"setWindowRect"| == 13 && |"timeouts"| == 8 && |"pageLoadStrategy"| == 16
      && |"unhandledPromptBehavior"| == 23 && |"proxy"| == 5;
  }

  /** What the response says, read as capabilities: those of the session, with the defaults filled in and
      the timeouts cut to 32 bits. */
  lemma {:induction false} ResponseRoundTrip(c: Capabilities)
    ensures Parse(Response(c)) == Capabilities(
      Some(ValueOr(c.browserName, "")), Some(ValueOr(c.browserVersion, "")), Some(ValueOr(c.platformName, "")),
      Some(ValueOr(c.acceptInsecureCerts, false)), Some(ValueOr(c.setWindowRect, true)),
      Some(ClampTimeouts(SessionTimeouts(c.timeouts))),
      Some(ValueOr(c.pageLoadStrategy, Normal)), Some(ValueOr(c.promptBehavior, DismissAndNotify)))
  {
    ResponseMembers(c);
    TimeoutsRoundTrip(SessionTimeouts(c.timeouts));
    NamesRoundTrip(ValueOr(c.pageLoadStrategy, Normal), ValueOr(c.promptBehavior, DismissAndNotify));
  }

  /** What a client is told if it asked for nothing and the platform and the browser say nothing. */
  lemma {:induction false} DefaultResponse()
    ensures Parse(Response(NONE)) == Capabilities(
      Some(""), Some(""), Some(""), Some(false), Some(true), Some(Timeouts(Some(30000), Some(300000), Some(0))),
      Some(Normal), Some(DismissAndNotify))
  {
    ResponseRoundTrip(NONE);
  }

  /** Everything that is set in `o` is the same in `r`. */
  predicate Kept<T(==)>(o: Option<T>, r: Option<T>) { o.Some? ==> r == o }

  predicate KeptTimeouts(o: Option<Timeouts>, r: Option<Timeouts>) {
    o.Some? ==>
      && r.Some? && Kept(o.value.script, r.value.script)
      && Kept(o.value.pageLoad, r.value.pageLoad) && Kept(o.value.implicit, r.value.implicit)
  }

  predicate KeptAll(c: Capabilities, r: Capabilities) {
    && Kept(c.browserName, r.browserName) && Kept(c.browserVersion, r.browserVersion)
    && Kept(c.platformName, r.platformName)
    && Kept(c.acceptInsecureCerts, r.acceptInsecureCerts) && Kept(c.setWindowRect, r.setWindowRect)
    && KeptTimeouts(c.timeouts, r.timeouts)
    && Kept(c.pageLoadStrategy, r.pageLoadStrategy) && Kept(c.promptBehavior, r.promptBehavior)
  }

  predicate Short(t: Option<nat>) { t.Some? ==> t.value <= INT_MAX }

  predicate ShortTimeouts(t: Option<Timeouts>) {
    t.Some? ==> Short(t.value.script) && Short(t.value.pageLoad) && Short(t.value.implicit)
  }

  /** The response reports every capability of the session as it is exactly when no timeout is longer than
      the largest 32-bit integer of milliseconds. */
  lemma {:induction false} ResponseReportsIff(c: Capabilities)
    ensures KeptAll(c, Parse(Response(c))) <==> ShortTimeouts(c.timeouts)
  {
    ResponseRoundTrip(c);
  }

  /** A longer one is accepted, and reported wrong. */
  lemma {:induction false} LongTimeoutIsReportedShort(p: Platform)
    ensures var o := map["timeouts" := Obj(map["script" := Integer(0x8000_0000)])];
      && Validated(p, o) == Some(o)
      && Parse(o).timeouts == Some(Timeouts(Some(0x8000_0000), None, None))
      && Parse(Response(Parse(o))).timeouts
          == Some(Timeouts(Some(INT_MAX), Some(DEFAULT_PAGE_LOAD_TIMEOUT), Some(DEFAULT_IMPLICIT_WAIT_TIMEOUT)))
  {
    var t: Members := map["script" := Integer(0x8000_0000)];
    var o: Members := map["timeouts" := Obj(t)];
    assert |"script"| == 6 && |"pageLoad"| == 8 && |"implicit"| == 8 && |"sessionId"| == 9 && |"timeouts"| == 8;
    assert DeserializeTimeouts(t) == Some(Timeouts(Some(0x8000_0000), None, None));
    TimeoutsAreKept(p, t);
    ResponseRoundTrip(Parse(o));
  }

  lemma {:induction false} TimeoutsAreKept(p: Platform, t: Members)
    requires DeserializeTimeouts(t).Some?
    ensures var o := map["timeouts" := Obj(t)];
      Validated(p, o) == Some(o) && Parse(o).timeouts == DeserializeTimeouts(t)
  {
    var o: Members := map["timeouts" := Obj(t)];
    assert |"timeouts"| == 8 && |"acceptInsecureCerts"| == 19 && |"browserName"| == 11 && |"browserVersion"| == 14;
    assert |"platformName"| == 12 && |"pageLoadStrategy"| == 16 && |"proxy"| == 5;
    assert Judge(p, "timeouts", o["timeouts"]) == Keep;
    assert (map k | k in o && Judge(p, k, o[k]) == Keep :: o[k]) == o;
  }

  // ---------------------------------------------------------------- the whole request

  datatype ErrorCode = InvalidArgument | SessionNotCreated | UnknownError

  datatype Processed = Refused(error: ErrorCode) | Accepted(list: seq<Capabilities>)

  /** "alwaysMatch", validated; absent means empty. */
  function Required(p: Platform, request: Members): Option<Members> {
    if "alwaysMatch" !in request then Validated(p, map[])
    else if request["alwaysMatch"].Obj? then Validated(p, request["alwaysMatch"].members)
    else None
  }

  /** "firstMatch"; absent means one empty alternative. */
  function Alternatives(request: Members): Option<seq<Json>> {
    if "firstMatch" !in request then Some([Obj(map[])])
    else if request["firstMatch"].Arr? then Some(request["firstMatch"].items)
    else None
  }

  /** One alternative, validated, without a key that is already required. */
  function Alternative(p: Platform, required: Members, v: Json): Option<Members> {
    if !v.Obj? then None
    else
      var m := Validated(p, v.members);
      if m.Some? && m.value.Keys !! required.Keys then m else None
  }

  function ValidAlternatives(p: Platform, required: Members, items: seq<Json>): Option<seq<Members>> {
    if items == [] then Some([])
    else
      var front := ValidAlternatives(p, required, items[..|items| - 1]);
      var last := Alternative(p, required, items[|items| - 1]);
      if front.Some? && last.Some? then Some(front.value + [last.value]) else None
  }

  /** Merge, match and parse one alternative. */
  function MatchOne(p: Platform, required: Members, m: Members): Option<Capabilities>
    requires AllTyped(required) && AllTyped(m)
  {
    var r := Matched(p, Merged(required, m));
    if r.Some? then Some(Parse(r.value)) else None
  }

  /** The values that are there, in order. */
  function Collect<T>(os: seq<Option<T>>): seq<T> {
    if os == [] then []
    else Collect(os[..|os| - 1]) + if os[|os| - 1].Some? then [os[|os| - 1].value] else []
  }

  function MatchEach(p: Platform, required: Members, ms: seq<Members>): (os: seq<Option<Capabilities>>)
    requires AllTyped(required) && forall i | 0 <= i < |ms| :: AllTyped(ms[i])
    ensures |os| == |ms| && forall i | 0 <= i < |ms| :: os[i] == MatchOne(p, required, ms[i])
  {
    seq(|ms|, i requires 0 <= i < |ms| => MatchOne(p, required, ms[i]))
  }

  lemma {:induction false} AlternativesAreTyped(p: Platform, required: Members, items: seq<Json>)
    ensures var r := ValidAlternatives(p, required, items);
      r.Some? ==>
        && |r.value| == |items|
        && forall i | 0 <= i < |items| :: AllTyped(r.value[i]) && r.value[i].Keys !! required.Keys
  {
    if items != [] {
      AlternativesAreTyped(p, required, items[..|items| - 1]);
      var v := items[|items| - 1];
      if Alternative(p, required, v).Some? { ValidatedIsTyped(p, v.members); }
    }
  }

  lemma {:induction false} RequiredIsTyped(p: Platform, request: Members)
    ensures Required(p, request).Some? ==> AllTyped(Required(p, request).value)
  {
    if Required(p, request).Some? {
      ValidatedIsTyped(p, if "alwaysMatch" in request then request["alwaysMatch"].members else map[]);
    }
  }

  function Process(p: Platform, parameters: Members): Processed {
    if "capabilities" !in parameters || !parameters["capabilities"].Obj? then Refused(InvalidArgument)
    else
      var request := parameters["capabilities"].members;
      var required, items := Required(p, request), Alternatives(request);
      if required.None? || items.None? then Refused(InvalidArgument)
      else
        var ms := ValidAlternatives(p, required.value, items.value);
        if ms.None? then Refused(InvalidArgument)
        else
          RequiredIsTyped(p, request);
          AlternativesAreTyped(p, required.value, items.value);
          var list := Collect(MatchEach(p, required.value, ms.value));
          if list == [] then Refused(SessionNotCreated) else Accepted(list)
  }

  method ProcessCapabilities(p: Platform, parameters: Members) returns (r: Processed)
    ensures r == Process(p, parameters)
  {
    if "capabilities" !in parameters || !parameters["capabilities"].Obj? { return Refused(InvalidArgument); }
    var request := parameters["capabilities"].members;
    var required := Some(map[]);
    if "alwaysMatch" in request {
      if !request["alwaysMatch"].Obj? { return Refused(InvalidArgument); }
      required := Some(request["alwaysMatch"].members);
    }
    required := ValidateCapabilities(p, required.value);
    if required.None? { return Refused(InvalidArgument); }
    var items := Alternatives(request);
    if items.None? { return Refused(InvalidArgument); }
    RequiredIsTyped(p, request);
    AlternativesAreTyped(p, required.value, items.value);
    var ms := ValidateAlternatives(p, required.value, items.value);
    if ms.None? { return Refused(InvalidArgument); }
    var list := MatchAlternatives(p, required.value, ms.value);
    if list == [] { return Refused(SessionNotCreated); }
    return Accepted(list);
  }

  method ValidateAlternatives(p: Platform, required: Members, items: seq<Json>) returns (r: Option<seq<Members>>)
    ensures r == ValidAlternatives(p, required, items)
  {
    var ms: seq<Members> := [];
    var i := 0;
    while i < |items|
      invariant 0 <= i <= |items| && ValidAlternatives(p, required, items[..i]) == Some(ms)
    {
      assert items[..i + 1][..i] == items[..i];
      if !items[i].Obj? { RefusedFrom(p, required, items, i + 1); return None; }
      var m := ValidateCapabilities(p, items[i].members);
      if m.None? || !(m.value.Keys !! required.Keys) { RefusedFrom(p, required, items, i + 1); return None; }
      ms := ms + [m.value];
      i := i + 1;
    }
    assert items[..i] == items;
    return Some(ms);
  }

  lemma {:induction false} RefusedFrom(p: Platform, required: Members, items: seq<Json>, n: nat)
    requires n <= |items| && ValidAlternatives(p, required, items[..n]) == None
    ensures ValidAlternatives(p, required, items) == None
    decreases |items| - n
  {
    if n < |items| {
      assert items[..n + 1][..n] == items[..n];
      RefusedFrom(p, required, items, n + 1);
    } else {
      assert items[..n] == items;
    }
  }

  method MatchAlternatives(p: Platform, required: Members, ms: seq<Members>) returns (list: seq<Capabilities>)
    requires AllTyped(required) && forall i | 0 <= i < |ms| :: AllTyped(ms[i])
    ensures list == Collect(MatchEach(p, required, ms))
  {
    list := [];
    ghost var os := MatchEach(p, required, ms);
    var i := 0;
    while i < |ms|
      invariant 0 <= i <= |ms| && list == Collect(os[..i])
    {
      var one := MatchAlternative(p, required, ms[i]);
      CollectOneMore(os, i);
      if one.Some? { list := list + [one.value]; } else { assert list + [] == list; }
      i := i + 1;
    }
    assert os[..i] == os;
  }

  method MatchAlternative(p: Platform, required: Members, m: Members) returns (r: Option<Capabilities>)
    requires AllTyped(required) && AllTyped(m)
    ensures r == MatchOne(p, required, m)
  {
    var merged := MergeCapabilities(required, m);
    var matched := MatchCapabilities(p, merged);
    r := if matched.Some? then Some(Parse(matched.value)) else None;
  }

  lemma {:induction false} CollectOneMore<T>(os: seq<Option<T>>, i: nat)
    requires i < |os|
    ensures Collect(os[..i + 1]) == Collect(os[..i]) + if os[i].Some? then [os[i].value] else []
  {
    assert os[..i + 1][..i] == os[..i];
  }

  /** The capabilities say what the client asked for under a key. */
  predicate AsRequested(c: Capabilities, key: string, v: Json)
    requires Typed(key, v)
  {
    match key
    case "acceptInsecureCerts" => c.acceptInsecureCerts == Some(v.b)
    case "browserName" => c.browserName == Some(v.s)
    case "browserVersion" => c.browserVersion == Some(v.s)
    case "platformName" => c.platformName == Some(v.s)
    case "timeouts" =>
      c.timeouts == Some(Timeouts(
        TimeoutOf(v.members, "script"), TimeoutOf(v.members, "pageLoad"), TimeoutOf(v.members, "implicit")))
    case "pageLoadStrategy" => c.pageLoadStrategy.Some? &&
      (match c.pageLoadStrategy.value
       case NoStrategy => v.s == "none"
       case Normal => v.s == "normal"
       case Eager => v.s == "eager")
    case "unhandledPromptBehavior" => c.promptBehavior.Some? &&
      (match c.promptBehavior.value
       case Dismiss => v.s == "dismiss"
       case Accept => v.s == "accept"
       case DismissAndNotify => v.s == "dismiss and notify"
       case AcceptAndNotify => v.s == "accept and notify"
       case Ignore => v.s == "ignore")
    case _ => true
  }

  /** A matched alternative gives the client everything it required and everything the alternative
      adds, with each value parsed. */
  lemma {:induction false} MatchedGivesWhatWasAsked(p: Platform, required: Members, m: Members)
    requires AllTyped(required) && AllTyped(m) && required.Keys !! m.Keys && MatchOne(p, required, m).Some?
    ensures var c := MatchOne(p, required, m).value;
      (forall k | k in required :: AsRequested(c, k, required[k])) && forall k | k in m :: AsRequested(c, k, m[k])
  {
    MatchKeepsRequest(p, Merged(required, m));
    var r := Matched(p, Merged(required, m)).value;
    forall k | k in Merged(required, m) ensures AsRequested(Parse(r), k, r[k]) { ParsedAsRequested(r, k); }
    forall k | k in required ensures r[k] == required[k] { assert k !in m; }
  }

  lemma {:induction false} ParsedAsRequested(m: Members, k: string)
    requires k in m && Typed(k, m[k])
    ensures AsRequested(Parse(m), k, m[k])
  {
  }

  /** The positions of the values that are there. */
  function Origins<T>(os: seq<Option<T>>): (r: seq<nat>)
    ensures forall j | 0 <= j < |r| :: r[j] < |os|
    ensures forall j, k | 0 <= j < k < |r| :: r[j] < r[k]
  {
    if os == [] then []
    else Origins(os[..|os| - 1]) + if os[|os| - 1].Some? then [|os| - 1] else []
  }

  /** The accepted list keeps the order of the request: its entries are the matches at ascending
      positions. */
  lemma {:induction false} CollectKeepsOrder<T>(os: seq<Option<T>>)
    ensures |Origins(os)| == |Collect(os)|
    ensures forall j | 0 <= j < |Collect(os)| :: os[Origins(os)[j]] == Some(Collect(os)[j])
  {
    if os != [] {
      var n := |os| - 1;
      CollectKeepsOrder(os[..n]);
      forall j | 0 <= j < |Collect(os)| ensures os[Origins(os)[j]] == Some(Collect(os)[j]) {
        if j < |Collect(os[..n])| { assert os[..n][Origins(os[..n])[j]] == Some(Collect(os[..n])[j]); }
      }
    }
  }

  /** And it leaves out only what does not match. */
  lemma {:induction false} CollectDropsNothing<T>(os: seq<Option<T>>, i: nat)
    requires i < |os| && os[i].Some?
    ensures i in Origins(os)
  {
    if i < |os| - 1 { CollectDropsNothing(os[..|os| - 1], i); }
  }

  /** A member counts unless it is null or the proxy, which is ignored. */
  predicate Counts(key: string, v: Json) { !v.Null? && key != "proxy" }

  /** The members that count are given. */
  ghost predicate Gives(asked: Members, c: Capabilities) {
    forall k | k in asked && Counts(k, asked[k]) :: Typed(k, asked[k]) && AsRequested(c, k, asked[k])
  }

  /** What the client requires under "alwaysMatch". */
  function AlwaysMatch(request: Members): Members {
    if "alwaysMatch" in request && request["alwaysMatch"].Obj? then request["alwaysMatch"].members else map[]
  }

  /** Alternative `i` of the client, in the order of the request; without "firstMatch" there is one, which is
      empty. */
  function AlternativeAt(request: Members, i: nat): Option<Members> {
    if "firstMatch" !in request then if i == 0 then Some(map[]) else None
    else
      var first := request["firstMatch"];
      if first.Arr? && i < |first.items| && first.items[i].Obj? then Some(first.items[i].members) else None
  }

  lemma {:induction false} JudgedIsGiven(p: Platform, asked: Members, c: Capabilities)
    requires Validated(p, asked).Some? && AllTyped(Validated(p, asked).value)
    requires forall k | k in Validated(p, asked).value :: AsRequested(c, k, Validated(p, asked).value[k])
    ensures Gives(asked, c)
  {
    var kept := Validated(p, asked).value;
    forall k | k in asked && Counts(k, asked[k]) ensures Typed(k, asked[k]) && AsRequested(c, k, asked[k]) {
      assert Judge(p, k, asked[k]) == Keep;
      assert k in kept && kept[k] == asked[k];
    }
  }

  lemma {:induction false} AlternativesAreValidated(p: Platform, required: Members, items: seq<Json>, i: nat)
    requires ValidAlternatives(p, required, items).Some? && i < |items|
    ensures |ValidAlternatives(p, required, items).value| == |items|
    ensures items[i].Obj? && Validated(p, items[i].members) == Some(ValidAlternatives(p, required, items).value[i])
    ensures ValidAlternatives(p, required, items).value[i].Keys !! required.Keys
  {
    var n := |items| - 1;
    AlternativesAreTyped(p, required, items);
    if i < n {
      AlternativesAreValidated(p, required, items[..n], i);
    } else if n > 0 {
      AlternativesAreTyped(p, required, items[..n]);
    }
  }

  /** One alternative that matched gives all that was asked for in it and under "alwaysMatch". */
  lemma {:induction false} AlternativeGives(p: Platform, request: Members, items: seq<Json>, i: nat)
    requires Required(p, request).Some? && ValidAlternatives(p, Required(p, request).value, items).Some? && i < |items|
    ensures AllTyped(Required(p, request).value) && i < |ValidAlternatives(p, Required(p, request).value, items).value|
    ensures var required := Required(p, request).value;
      var m := ValidAlternatives(p, required, items).value[i];
      && items[i].Obj? && AllTyped(m)
      && (MatchOne(p, required, m).Some? ==>
            && Gives(AlwaysMatch(request), MatchOne(p, required, m).value)
            && Gives(items[i].members, MatchOne(p, required, m).value))
  {
    var required := Required(p, request).value;
    RequiredIsTyped(p, request);
    AlternativesAreTyped(p, required, items);
    AlternativesAreValidated(p, required, items, i);
    var m := ValidAlternatives(p, required, items).value[i];
    if MatchOne(p, required, m).Some? {
      MatchedGivesWhatWasAsked(p, required, m);
      JudgedIsGiven(p, AlwaysMatch(request), MatchOne(p, required, m).value);
      JudgedIsGiven(p, items[i].members, MatchOne(p, required, m).value);
    }
  }

  /** The outcome of every alternative of a request that is not malformed, in order. */
  function Outcomes(p: Platform, parameters: Members): (os: seq<Option<Capabilities>>)
    requires Process(p, parameters).Accepted?
    ensures Process(p, parameters).list == Collect(os)
  {
    var request := parameters["capabilities"].members;
    var required, items := Required(p, request).value, Alternatives(request).value;
    RequiredIsTyped(p, request);
    AlternativesAreTyped(p, required, items);
    MatchEach(p, required, ValidAlternatives(p, required, items).value)
  }

  /** `c` gives what the request requires and what its alternative `i` asks for. */
  ghost predicate GivesAlternative(parameters: Members, c: Capabilities, i: nat) {
    && "capabilities" in parameters && parameters["capabilities"].Obj?
    && var request := parameters["capabilities"].members;
    && Gives(AlwaysMatch(request), c)
    && AlternativeAt(request, i).Some? && Gives(AlternativeAt(request, i).value, c)
  }

  lemma {:induction false} OutcomeGives(p: Platform, parameters: Members, i: nat)
    requires Process(p, parameters).Accepted? && i < |Outcomes(p, parameters)|
    ensures Outcomes(p, parameters)[i].Some? ==> GivesAlternative(parameters, Outcomes(p, parameters)[i].value, i)
  {
    var request := parameters["capabilities"].members;
    AlternativesAreTyped(p, Required(p, request).value, Alternatives(request).value);
    AlternativeGives(p, request, Alternatives(request).value, i);
  }

  /** Over the whole request: entry `j` of an accepted list comes from the alternative at its place, which
      are ascending, and gives the client every kept member of "alwaysMatch" and of that alternative. */
  lemma {:induction false} AcceptedGivesWhatWasAsked(p: Platform, parameters: Members, j: nat)
    requires Process(p, parameters).Accepted? && j < |Process(p, parameters).list|
    ensures j < |Origins(Outcomes(p, parameters))|
    ensures GivesAlternative(parameters, Process(p, parameters).list[j], Origins(Outcomes(p, parameters))[j])
  {
    var os := Outcomes(p, parameters);
    CollectKeepsOrder(os);
    OutcomeGives(p, parameters, Origins(os)[j]);
  }

  /** An alternative is left out only for a member that the platform cannot give. */
  lemma {:induction false} LeftOutCannotBeGiven(p: Platform, required: Members, m: Members)
    requires AllTyped(required) && AllTyped(m) && required.Keys !! m.Keys && MatchOne(p, required, m).None?
    ensures exists k :: (k in required && !CanGive(p, k, required[k])) || (k in m && !CanGive(p, k, m[k]))
  {
    var merged := Merged(required, m);
    assert !(forall k | k in merged :: CanGive(p, k, merged[k]));
    var k :| k in merged && !CanGive(p, k, merged[k]);
    if k in m { assert merged[k] == m[k]; } else { assert merged[k] == required[k]; }
  }
}

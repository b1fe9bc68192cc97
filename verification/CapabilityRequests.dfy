/** What a capabilities request means, told from its members alone: which requests are refused, which
    alternatives are kept, and what each of them gives. */
module CapabilityRequests {
  import opened Options
  import opened Json
  import opened WebDriverTypes
  import opened Capabilities

  // ---------------------------------------------------------------- well-formed requests

  predicate IsMilliseconds(v: Json) { v.Integer? && 0 <= v.n <= MAX_SAFE_INTEGER }

  /** A member that may be asked for. */
  predicate MemberOk(p: Platform, key: string, v: Json) {
    v.Null? ||
    match key
    case "acceptInsecureCerts" => v.Bool?
    case "browserName" => v.Str?
    case "browserVersion" => v.Str?
    case "platformName" => v.Str?
    case "proxy" => true
    case "pageLoadStrategy" => v.Str? && v.s in ["none", "normal", "eager"]
    case "timeouts" =>
      v.Obj? && forall k | k in v.members ::
        k == "sessionId" || (k in ["script", "pageLoad", "implicit"] && IsMilliseconds(v.members[k]))
    case "unhandledPromptBehavior" =>
      v.Str? && v.s in ["dismiss", "accept", "dismiss and notify", "accept and notify", "ignore"]
    case _ => ':' in key && p.validates(key, v)
  }

  predicate ObjectOk(p: Platform, v: Json) { v.Obj? && forall k | k in v.members :: MemberOk(p, k, v.members[k]) }

  /** A member counts in both. */
  predicate Shadows(a: Members, b: Members) {
    exists k :: k in a && k in b && Counts(k, a[k]) && Counts(k, b[k])
  }

  predicate WellFormed(p: Platform, parameters: Members) {
    && "capabilities" in parameters && parameters["capabilities"].Obj?
    && var request := parameters["capabilities"].members;
    && ("alwaysMatch" in request ==> ObjectOk(p, request["alwaysMatch"]))
    && ("firstMatch" in request ==>
          && request["firstMatch"].Arr?
          && var items := request["firstMatch"].items;
             forall i | 0 <= i < |items| :: ObjectOk(p, items[i]) && !Shadows(AlwaysMatch(request), items[i].members))
  }

  lemma {:induction false} DeserializesIff(s: string)
    ensures DeserializePageLoadStrategy(s).Some? <==> s in ["none", "normal", "eager"]
    ensures DeserializePromptBehavior(s).Some? <==>
      s in ["dismiss", "accept", "dismiss and notify", "accept and notify", "ignore"]
  {
  }

  lemma {:induction false} JudgeIs(p: Platform, key: string, v: Json)
    ensures Judge(p, key, v) == Reject <==> !MemberOk(p, key, v)
    ensures Judge(p, key, v) == Keep <==> MemberOk(p, key, v) && Counts(key, v)
  {
    if v.Str? { DeserializesIff(v.s); }
    if key == "timeouts" && v.Obj? {
      assert forall k | k in v.members :: TimeoutOk(k, v.members[k]) <==>
        k == "sessionId" || (k in ["script", "pageLoad", "implicit"] && IsMilliseconds(v.members[k]));
    }
  }

  lemma {:induction false} ValidatedIff(p: Platform, o: Members)
    ensures Validated(p, o).Some? <==> ObjectOk(p, Obj(o))
    ensures Validated(p, o).Some? ==>
      forall k :: k in Validated(p, o).value <==> k in o && Counts(k, o[k])
  {
    forall k | k in o
      ensures Judge(p, k, o[k]) == Reject <==> !MemberOk(p, k, o[k])
      ensures Judge(p, k, o[k]) == Keep <==> MemberOk(p, k, o[k]) && Counts(k, o[k])
    {
      JudgeIs(p, k, o[k]);
    }
  }

  lemma {:induction false} RequiredIff(p: Platform, request: Members)
    ensures Required(p, request).Some? <==> ("alwaysMatch" in request ==> ObjectOk(p, request["alwaysMatch"]))
    ensures Required(p, request).Some? ==> Required(p, request) == Validated(p, AlwaysMatch(request))
  {
    ValidatedIff(p, AlwaysMatch(request));
  }

  lemma {:induction false} AlternativeIff(p: Platform, always: Members, v: Json)
    requires Validated(p, always).Some?
    ensures Alternative(p, Validated(p, always).value, v).Some? <==> ObjectOk(p, v) && !Shadows(always, v.members)
    ensures Alternative(p, Validated(p, always).value, v).Some? ==>
      Alternative(p, Validated(p, always).value, v) == Validated(p, v.members)
  {
    if v.Obj? {
      ValidatedIff(p, always);
      ValidatedIff(p, v.members);
      var required := Validated(p, always).value;
      if ObjectOk(p, v) {
        var m := Validated(p, v.members).value;
        if Shadows(always, v.members) {
          var k :| k in always && k in v.members && Counts(k, always[k]) && Counts(k, v.members[k]);
          assert k in required && k in m;
        }
        forall k | k in m && k in required ensures Shadows(always, v.members) {}
      }
    }
  }

  lemma {:induction false} ValidAlternativesIff(p: Platform, always: Members, items: seq<Json>)
    requires Validated(p, always).Some?
    ensures ValidAlternatives(p, Validated(p, always).value, items).Some? <==>
      forall i | 0 <= i < |items| :: ObjectOk(p, items[i]) && !Shadows(always, items[i].members)
  {
    if items != [] {
      var n := |items| - 1;
      ValidAlternativesIff(p, always, items[..n]);
      AlternativeIff(p, always, items[n]);
      assert forall i | 0 <= i < n :: items[i] == items[..n][i];
    }
  }

  // ---------------------------------------------------------------- compatible alternatives

  /** The same letters, upper or lower case. */
  predicate SameLetter(a: char, b: char) {
    || a == b
    || ('A' <= a <= 'Z' && b as int == a as int + 32)
    || ('A' <= b <= 'Z' && a as int == b as int + 32)
  }

  predicate EqualIgnoringCase(a: string, b: string) {
    |a| == |b| && forall i | 0 <= i < |a| :: SameLetter(a[i], b[i])
  }

  /** Whether the platform can give what is asked for: what it does not know in advance is left to the
      browser, and what it knows has to be what is asked for. */
  predicate Compatible(p: Platform, key: string, v: Json)
    requires MemberOk(p, key, v) && Counts(key, v)
  {
    var own := p.capabilities;
    match key
    case "browserName" =>
      if own.browserName.Some? then EqualIgnoringCase(v.s, own.browserName.value) else p.matches(key, v)
    case "browserVersion" =>
      if own.browserVersion.Some? then p.acceptsVersion(v.s, own.browserVersion.value) else p.matches(key, v)
    case "platformName" =>
      if own.platformName.Some? then v.s == own.platformName.value || EqualIgnoringCase(v.s, "any")
      else p.matches(key, v)
    case "acceptInsecureCerts" =>
      if own.acceptInsecureCerts.Some? then v.b == false || own.acceptInsecureCerts.value == true
      else p.matches(key, v)
    case _ => p.matches(key, v)
  }

  lemma {:induction false} SameLetterIff(a: char, b: char)
    ensures LowerChar(a) == LowerChar(b) <==> SameLetter(a, b)
  {
  }

  lemma {:induction false} LowerIff(a: string, b: string)
    ensures Lower(a) == Lower(b) <==> EqualIgnoringCase(a, b)
  {
    if |a| == |b| {
      forall i | 0 <= i < |a| ensures Lower(a)[i] == Lower(b)[i] <==> SameLetter(a[i], b[i]) {
        SameLetterIff(a[i], b[i]);
      }
    }
  }

  lemma {:induction false} AnyIff(s: string)
    ensures Lower(s) == "any" <==> EqualIgnoringCase(s, "any")
  {
    LowerIff(s, "any");
    assert Lower("any") == "any";
  }

  lemma {:induction false} CanGiveIff(p: Platform, key: string, v: Json)
    requires MemberOk(p, key, v) && Counts(key, v)
    ensures Typed(key, v) && (CanGive(p, key, v) <==> Compatible(p, key, v))
  {
    JudgeIs(p, key, v);
    assert ':' !in "setWindowRect";
    if v.Str? {
      AnyIff(v.s);
      if p.capabilities.browserName.Some? { LowerIff(p.capabilities.browserName.value, v.s); }
    }
  }

  predicate AllCompatible(p: Platform, asked: Members)
    requires ObjectOk(p, Obj(asked))
  {
    assert forall k | k in Obj(asked).members :: MemberOk(p, k, asked[k]);
    forall k | k in asked && Counts(k, asked[k]) :: Compatible(p, k, asked[k])
  }

  /** What was not asked for is the platform's own, if it has it. */
  predicate NothingElse(p: Platform, asked: set<string>, c: Capabilities) {
    var own := p.capabilities;
    && ("browserName" !in asked ==> c.browserName == own.browserName)
    && ("browserVersion" !in asked ==> c.browserVersion == own.browserVersion)
    && ("platformName" !in asked ==> c.platformName == own.platformName)
    && ("acceptInsecureCerts" !in asked ==> c.acceptInsecureCerts == own.acceptInsecureCerts)
    && ("setWindowRect" !in asked ==> c.setWindowRect == own.setWindowRect)
    && ("timeouts" !in asked ==> c.timeouts == None)
    && ("pageLoadStrategy" !in asked ==> c.pageLoadStrategy == None)
    && ("unhandledPromptBehavior" !in asked ==> c.promptBehavior == None)
  }

  function Asked(o: Members): set<string> { set k | k in o && Counts(k, o[k]) }

  /** `c` is what the client required and asked for in alternative `m`, and nothing else. */
  ghost predicate IsMeant(p: Platform, always: Members, m: Members, c: Capabilities) {
    Gives(always, c) && Gives(m, c) && NothingElse(p, Asked(always) + Asked(m), c)
  }

  lemma {:induction false} MatchOneIff(p: Platform, always: Members, m: Members)
    requires ObjectOk(p, Obj(always)) && ObjectOk(p, Obj(m)) && !Shadows(always, m)
    ensures Validated(p, always).Some? && Validated(p, m).Some?
    ensures AllTyped(Validated(p, always).value) && AllTyped(Validated(p, m).value)
    ensures MatchOne(p, Validated(p, always).value, Validated(p, m).value).Some? <==>
      AllCompatible(p, always) && AllCompatible(p, m)
  {
    ValidatedIff(p, always);
    ValidatedIff(p, m);
    ValidatedIsTyped(p, always);
    ValidatedIsTyped(p, m);
    var a, b := Validated(p, always).value, Validated(p, m).value;
    var merged := Merged(a, b);
    forall k | k in a ensures k in always && merged[k] == always[k] && k !in b {
      if k in b { assert false; }
    }
    forall k | k in always && Counts(k, always[k])
      ensures Typed(k, always[k]) && (CanGive(p, k, always[k]) <==> Compatible(p, k, always[k]))
    {
      assert MemberOk(p, k, Obj(always).members[k]);
      CanGiveIff(p, k, always[k]);
    }
    forall k | k in m && Counts(k, m[k])
      ensures Typed(k, m[k]) && (CanGive(p, k, m[k]) <==> Compatible(p, k, m[k]))
    {
      assert MemberOk(p, k, Obj(m).members[k]);
      CanGiveIff(p, k, m[k]);
    }
  }

  lemma {:induction false} ParsedIsNothingElse(p: Platform, merged: Members)
    requires AllTyped(merged) && Matched(p, merged).Some?
    ensures NothingElse(p, merged.Keys, Parse(Matched(p, merged).value))
  {
    var own := PlatformMembers(p.capabilities);
    var m := Matched(p, merged).value;
    PlatformMembersAre(p.capabilities);
    assert forall k | k !in merged :: k in m <==> k in own;
    assert forall k | k in m && k !in merged :: m[k] == own[k];
  }

  lemma {:induction false} PlatformMembersAre(c: Capabilities)
    ensures var m := PlatformMembers(c);
      && GetString(m, "browserName") == c.browserName && GetString(m, "browserVersion") == c.browserVersion
      && GetString(m, "platformName") == c.platformName
      && GetBool(m, "acceptInsecureCerts") == c.acceptInsecureCerts && GetBool(m, "setWindowRect") == c.setWindowRect
      && "timeouts" !in m && "pageLoadStrategy" !in m && "unhandledPromptBehavior" !in m
  {
    assert |"browserName"| == 11 && |"browserVersion"| == 14 && |"platformName"| == 12 && |"acceptInsecureCerts"| == 19;
    assert |"setWindowRect"| == 13 && |"timeouts"| == 8 && |"pageLoadStrategy"| == 16
      && |"unhandledPromptBehavior"| == 23;
  }

  lemma {:induction false} MatchOneIsMeant(p: Platform, always: Members, m: Members)
    requires ObjectOk(p, Obj(always)) && ObjectOk(p, Obj(m)) && !Shadows(always, m)
    requires Validated(p, always).Some? && Validated(p, m).Some?
    requires AllTyped(Validated(p, always).value) && AllTyped(Validated(p, m).value)
    requires MatchOne(p, Validated(p, always).value, Validated(p, m).value).Some?
    ensures IsMeant(p, always, m, MatchOne(p, Validated(p, always).value, Validated(p, m).value).value)
  {
    ValidatedIff(p, always);
    ValidatedIff(p, m);
    var a, b := Validated(p, always).value, Validated(p, m).value;
    assert a.Keys !! b.Keys by {
      forall k | k in a ensures k !in b { if k in b { assert false; } }
    }
    MatchedGivesWhatWasAsked(p, a, b);
    var c := MatchOne(p, a, b).value;
    JudgedIsGiven(p, always, c);
    JudgedIsGiven(p, m, c);
    ParsedIsNothingElse(p, Merged(a, b));
    assert Merged(a, b).Keys == Asked(always) + Asked(m);
  }

  // ---------------------------------------------------------------- the whole request

  /** Alternative `i` is there, and the platform can give everything in it and under "alwaysMatch". */
  predicate IsKept(p: Platform, parameters: Members, i: nat)
    requires WellFormed(p, parameters)
  {
    var request := parameters["capabilities"].members;
    && AlternativeAt(request, i).Some?
    && (AlternativeOk(p, parameters, i); AllCompatible(p, AlwaysMatch(request)))
    && (AlternativeOk(p, parameters, i); AllCompatible(p, AlternativeAt(request, i).value))
  }

  lemma {:induction false} AlternativeOk(p: Platform, parameters: Members, i: nat)
    requires WellFormed(p, parameters)
    requires AlternativeAt(parameters["capabilities"].members, i).Some?
    ensures var request := parameters["capabilities"].members;
      && ObjectOk(p, Obj(AlwaysMatch(request))) && ObjectOk(p, Obj(AlternativeAt(request, i).value))
      && !Shadows(AlwaysMatch(request), AlternativeAt(request, i).value)
  {
    var request := parameters["capabilities"].members;
    if "firstMatch" in request {
      var items := request["firstMatch"].items;
      assert ObjectOk(p, items[i]) && !Shadows(AlwaysMatch(request), items[i].members);
      assert items[i] == Obj(items[i].members);
    }
  }

  /** `at` are the kept alternatives, in the order of the request. */
  ghost predicate AreKept(p: Platform, parameters: Members, at: seq<nat>)
    requires WellFormed(p, parameters)
  {
    && (forall j, k | 0 <= j < k < |at| :: at[j] < at[k])
    && (forall i :: i in at <==> IsKept(p, parameters, i))
  }

  /** A request is refused as invalid exactly when it is not well-formed. Otherwise the accepted list has
      one entry for each alternative whose members are all compatible, in the order of the request; the entry
      is what the client asked for there and under "alwaysMatch", and nothing else; and if there is none, no
      session is created. */
  lemma {:induction false} ProcessIs(p: Platform, parameters: Members) returns (at: seq<nat>)
    ensures Process(p, parameters) == Refused(InvalidArgument) <==> !WellFormed(p, parameters)
    ensures WellFormed(p, parameters) ==> AreKept(p, parameters, at)
    ensures WellFormed(p, parameters) ==>
      if at == [] then Process(p, parameters) == Refused(SessionNotCreated)
      else
        var request := parameters["capabilities"].members;
        && Process(p, parameters).Accepted? && |Process(p, parameters).list| == |at|
        && forall j | 0 <= j < |at| ::
             && AlternativeAt(request, at[j]).Some?
             && IsMeant(p, AlwaysMatch(request), AlternativeAt(request, at[j]).value, Process(p, parameters).list[j])
  {
    at := [];
    RefusedIff(p, parameters);
    if WellFormed(p, parameters) {
      var request := parameters["capabilities"].members;
      var required, items := Required(p, request).value, Alternatives(request).value;
      RequiredIsTyped(p, request);
      AlternativesAreTyped(p, required, items);
      var os := MatchEach(p, required, ValidAlternatives(p, required, items).value);
      at := Origins(os);
      CollectKeepsOrder(os);
      forall i: nat ensures i in at <==> IsKept(p, parameters, i) {
        if i < |os| { OutcomeIff(p, parameters, os, i); OriginsIff(os, i); }
        if i >= |os| { NoSuchAlternative(request, i); }
      }
      forall j | 0 <= j < |at|
        ensures AlternativeAt(request, at[j]).Some?
        ensures IsMeant(p, AlwaysMatch(request), AlternativeAt(request, at[j]).value, Collect(os)[j])
      {
        OutcomeIff(p, parameters, os, at[j]);
      }
    }
  }

  lemma {:induction false} NoSuchAlternative(request: Members, i: nat)
    requires Alternatives(request).Some? && i >= |Alternatives(request).value|
    ensures AlternativeAt(request, i) == None
  {
  }

  lemma {:induction false} OriginsIff<T>(os: seq<Option<T>>, i: nat)
    requires i < |os|
    ensures i in Origins(os) <==> os[i].Some?
  {
    CollectKeepsOrder(os);
    if os[i].Some? { CollectDropsNothing(os, i); }
  }

  lemma {:induction false} RefusedIff(p: Platform, parameters: Members)
    ensures Process(p, parameters) == Refused(InvalidArgument) <==> !WellFormed(p, parameters)
    ensures WellFormed(p, parameters) ==>
      var request := parameters["capabilities"].members;
      && Required(p, request).Some? && Alternatives(request).Some?
      && ValidAlternatives(p, Required(p, request).value, Alternatives(request).value).Some?
  {
    if "capabilities" in parameters && parameters["capabilities"].Obj? {
      var request := parameters["capabilities"].members;
      RequiredIff(p, request);
      if Required(p, request).Some? && Alternatives(request).Some? {
        ValidAlternativesIff(p, AlwaysMatch(request), Alternatives(request).value);
      }
    }
  }

  lemma {:induction false} OutcomeIff(p: Platform, parameters: Members, os: seq<Option<Capabilities>>, i: nat)
    requires WellFormed(p, parameters)
    requires var request := parameters["capabilities"].members;
      && Required(p, request).Some? && Alternatives(request).Some?
      && AllTyped(Required(p, request).value)
      && var ms := ValidAlternatives(p, Required(p, request).value, Alternatives(request).value);
      && ms.Some? && (forall i | 0 <= i < |ms.value| :: AllTyped(ms.value[i]))
      && os == MatchEach(p, Required(p, request).value, ms.value) && i < |os|
    ensures os[i].Some? <==> IsKept(p, parameters, i)
    ensures var request := parameters["capabilities"].members;
      os[i].Some? ==>
        && AlternativeAt(request, i).Some?
        && IsMeant(p, AlwaysMatch(request), AlternativeAt(request, i).value, os[i].value)
  {
    var request := parameters["capabilities"].members;
    var required, items := Required(p, request).value, Alternatives(request).value;
    RequiredIff(p, request);
    AlternativesAreTyped(p, required, items);
    AlternativesAreValidated(p, required, items, i);
    var always, m := AlwaysMatch(request), items[i].members;
    assert AlternativeAt(request, i) == Some(m);
    AlternativeOk(p, parameters, i);
    MatchOneIff(p, always, m);
    if os[i].Some? { MatchOneIsMeant(p, always, m); }
  }
}

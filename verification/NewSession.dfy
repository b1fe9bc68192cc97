/** New Session: trying the matched sets of capabilities one after the other. */
module NewSession {
  import opened Options
  import opened Json
  import opened WebDriverTypes
  import opened BrowserVersions
  import opened Capabilities
  import opened CapabilityRequests

  /** What happens with one set of capabilities: whether the browser can be reached, whether automation
      starts, which browser it then is, and whether it gives a window. */
  datatype Answers = Answers(connectError: bool, startError: bool, browserName: string, browserVersion: string,
      windowError: bool)

  /** Whether the browser that started is one that was asked for. */
  predicate MatchesBrowser(p: Platform, c: Capabilities, a: Answers) {
    && (c.browserName.Some? ==> c.browserName.value == a.browserName)
    && (c.browserVersion.Some? ==> p.acceptsVersion(c.browserVersion.value, a.browserVersion))
  }

  /** The host takes over the name and the version of the browser that started. */
  function Started(c: Capabilities, a: Answers): Capabilities {
    c.(browserName := Some(a.browserName), browserVersion := Some(a.browserVersion))
  }

  /** How the set fares: the first thing that goes wrong decides. */
  datatype Attempt = ConnectError | StartError | NoMatch | ContextError | Works

  function Fate(p: Platform, c: Capabilities, a: Answers): Attempt {
    if a.connectError then ConnectError
    else if a.startError then StartError
    else if !MatchesBrowser(p, c, a) then NoMatch
    else if a.windowError then ContextError
    else Works
  }

  /** The kept members are given by a session: a version asked for is one that the browser's will do for,
      and everything else is as asked. */
  ghost predicate SessionGives(p: Platform, asked: Members, c: Capabilities) {
    forall k | k in asked && Counts(k, asked[k]) :: Typed(k, asked[k]) &&
      if k == "browserVersion" then c.browserVersion.Some? && p.acceptsVersion(asked[k].s, c.browserVersion.value)
      else AsRequested(c, k, asked[k])
  }

  /** A version is asked for, and is not the one given. */
  predicate OtherVersion(asked: Members, version: string) {
    "browserVersion" in asked && !asked["browserVersion"].Null? && asked["browserVersion"] != Str(version)
  }

  lemma {:induction false} StartedKeeps(c: Capabilities, a: Answers, k: string, v: Json)
    requires Typed(k, v) && k != "browserName" && k != "browserVersion"
    ensures AsRequested(Started(c, a), k, v) == AsRequested(c, k, v)
  {
  }

  /** The session of a browser that matches gives what was asked for, and with the version asked for exactly
      when that is the browser's own string. */
  lemma {:induction false} StartedGives(p: Platform, asked: Members, c: Capabilities, a: Answers)
    requires Gives(asked, c) && MatchesBrowser(p, c, a)
    ensures SessionGives(p, asked, Started(c, a))
    ensures Gives(asked, Started(c, a)) <==> !OtherVersion(asked, a.browserVersion)
  {
    forall k | k in asked && Counts(k, asked[k]) && k != "browserVersion"
      ensures Typed(k, asked[k]) && AsRequested(Started(c, a), k, asked[k])
    {
      if k != "browserName" { StartedKeeps(c, a, k, asked[k]); }
    }
    if "browserVersion" in asked && Counts("browserVersion", asked["browserVersion"]) {
      assert c.browserVersion == Some(asked["browserVersion"].s);
      assert AsRequested(Started(c, a), "browserVersion", asked["browserVersion"]) <==>
        a.browserVersion == asked["browserVersion"].s;
    }
  }

  /** A session gives what the request requires and what its alternative `i` asks for. */
  ghost predicate SessionGivesAlternative(p: Platform, parameters: Members, c: Capabilities, i: nat) {
    && "capabilities" in parameters && parameters["capabilities"].Obj?
    && var request := parameters["capabilities"].members;
    && SessionGives(p, AlwaysMatch(request), c)
    && AlternativeAt(request, i).Some? && SessionGives(p, AlternativeAt(request, i).value, c)
  }

  lemma {:induction false} SessionGivesWhatWasAsked(p: Platform, parameters: Members, j: nat, a: Answers)
    requires Process(p, parameters).Accepted? && j < |Process(p, parameters).list|
    requires MatchesBrowser(p, Process(p, parameters).list[j], a)
    ensures exists i :: SessionGivesAlternative(p, parameters, Started(Process(p, parameters).list[j], a), i)
  {
    AcceptedGivesWhatWasAsked(p, parameters, j);
    var c, i := Process(p, parameters).list[j], Origins(Outcomes(p, parameters))[j];
    var request := parameters["capabilities"].members;
    StartedGives(p, AlwaysMatch(request), c, a);
    StartedGives(p, AlternativeAt(request, i).value, c, a);
    assert SessionGivesAlternative(p, parameters, Started(c, a), i);
  }

  datatype Reply = Created(response: Members) | Error(error: ErrorCode)

  /** The first attempt that is not a mismatch, or the number of sets. */
  function Decisive(p: Platform, list: seq<Capabilities>, answers: nat -> Answers, from: nat): (k: nat)
    requires from <= |list|
    ensures from <= k <= |list| && (forall i | from <= i < k :: Fate(p, list[i], answers(i)) == NoMatch)
    ensures k < |list| ==> Fate(p, list[k], answers(k)) != NoMatch
    decreases |list| - from
  {
    if from == |list| || Fate(p, list[from], answers(from)) != NoMatch then from
    else Decisive(p, list, answers, from + 1)
  }

  /** The sets that are tried, from `from` on. */
  function Attempted(p: Platform, list: seq<Capabilities>, answers: nat -> Answers, from: nat): seq<Capabilities>
    requires from <= |list|
  {
    var k := Decisive(p, list, answers, from);
    list[from..if k < |list| then k + 1 else k]
  }

  lemma {:induction false} DecisiveStep(p: Platform, list: seq<Capabilities>, answers: nat -> Answers, from: nat)
    requires from < |list|
    ensures var goesOn := Fate(p, list[from], answers(from)) == NoMatch;
      && Decisive(p, list, answers, from) == (if goesOn then Decisive(p, list, answers, from + 1) else from)
      && Attempted(p, list, answers, from)
           == [list[from]] + if goesOn then Attempted(p, list, answers, from + 1) else []
  {
  }

  /** What is left of the reversed list once the sets before `from` are taken from its end. */
  predicate Remaining(list: seq<Capabilities>, from: nat, rest: seq<Capabilities>) {
    from + |rest| == |list| && forall i | 0 <= i < |rest| :: rest[i] == list[|list| - 1 - i]
  }

  lemma {:induction false} RemainingStep(list: seq<Capabilities>, from: nat, rest: seq<Capabilities>)
    requires Remaining(list, from, rest) && rest != []
    ensures from < |list| && rest[|rest| - 1] == list[from] && Remaining(list, from + 1, rest[..|rest| - 1])
  {
  }

  lemma {:induction false} Associate<T>(a: seq<T>, b: seq<T>, c: seq<T>)
    ensures a + b + c == a + (b + c)
  {
  }

  function ReplyTo(p: Platform, list: seq<Capabilities>, answers: nat -> Answers, k: nat): Reply
    requires k <= |list|
  {
    if k == |list| then Error(SessionNotCreated)
    else match Fate(p, list[k], answers(k))
      case Works => Created(Response(Started(list[k], answers(k))))
      case StartError => Error(UnknownError)
      case _ => Error(SessionNotCreated)
  }

  /** The session that the sets lead to. */
  function SessionOf(p: Platform, list: seq<Capabilities>, answers: nat -> Answers, k: nat): Option<Capabilities>
    requires k <= |list|
  {
    if k < |list| && Fate(p, list[k], answers(k)) == Works then Some(Started(list[k], answers(k))) else None
  }

  /** Automation starts in a browser that has the name asked for and a version that will do. */
  predicate RightBrowser(p: Platform, c: Capabilities, a: Answers) {
    && !a.connectError && !a.startError
    && (c.browserName == None || c.browserName == Some(a.browserName))
    && (c.browserVersion == None || p.acceptsVersion(c.browserVersion.value, a.browserVersion))
  }

  /** Automation starts, in another browser. */
  predicate WrongBrowser(p: Platform, c: Capabilities, a: Answers) {
    !a.connectError && !a.startError && !RightBrowser(p, c, a)
  }

  /** How one set fares: another browser means that the next set is tried, anything else decides. */
  lemma {:induction false} SetFares(p: Platform, list: seq<Capabilities>, answers: nat -> Answers, k: nat)
    requires k < |list|
    ensures Fate(p, list[k], answers(k)) == NoMatch <==> WrongBrowser(p, list[k], answers(k))
    ensures answers(k).connectError ==> ReplyTo(p, list, answers, k) == Error(SessionNotCreated)
    ensures !answers(k).connectError && answers(k).startError ==> ReplyTo(p, list, answers, k) == Error(UnknownError)
    ensures RightBrowser(p, list[k], answers(k)) ==>
      if answers(k).windowError then ReplyTo(p, list, answers, k) == Error(SessionNotCreated)
      else
        exists c: Capabilities ::
          && c.browserName == Some(answers(k).browserName) && c.browserVersion == Some(answers(k).browserVersion)
          && c.(browserName := None, browserVersion := None) == list[k].(browserName := None, browserVersion := None)
          && SessionOf(p, list, answers, k) == Some(c) && ReplyTo(p, list, answers, k) == Created(Response(c))
  {
    if RightBrowser(p, list[k], answers(k)) && !answers(k).windowError {
      assert SessionOf(p, list, answers, k) == Some(Started(list[k], answers(k)));
    }
  }

  /** The alternatives at `at` are those the platform can give, in the order of the request, and the sets are
      what the client asked for there and under "alwaysMatch". */
  ghost predicate AreSets(p: Platform, parameters: Members, at: seq<nat>, sets: seq<Capabilities>)
    requires WellFormed(p, parameters)
  {
    var request := parameters["capabilities"].members;
    && AreKept(p, parameters, at) && |sets| == |at|
    && forall j | 0 <= j < |at| ::
         && AlternativeAt(request, at[j]).Some?
         && IsMeant(p, AlwaysMatch(request), AlternativeAt(request, at[j]).value, sets[j])
  }

  /** The browsers of the first `k` sets are other ones, that of set `k` is not; and there is a session
      exactly if that browser is right and gives a window, with its name and version. */
  predicate FirstThatWorks(p: Platform, sets: seq<Capabilities>, answers: nat -> Answers,
                           session: Option<Capabilities>, k: nat)
  {
    && k <= |sets| && (forall j | 0 <= j < k :: WrongBrowser(p, sets[j], answers(j)))
    && (k < |sets| ==> !WrongBrowser(p, sets[k], answers(k)))
    && session == if k < |sets| && RightBrowser(p, sets[k], answers(k)) && !answers(k).windowError
                  then Some(sets[k].(browserName := Some(answers(k).browserName),
                                     browserVersion := Some(answers(k).browserVersion)))
                  else None
  }

  lemma {:induction false} DecisiveIsFirst(p: Platform, list: seq<Capabilities>, answers: nat -> Answers)
    ensures var k := Decisive(p, list, answers, 0); FirstThatWorks(p, list, answers, SessionOf(p, list, answers, k), k)
  {
    var k := Decisive(p, list, answers, 0);
    forall j | 0 <= j < k ensures WrongBrowser(p, list[j], answers(j)) { SetFares(p, list, answers, j); }
    if k < |list| { SetFares(p, list, answers, k); }
  }

  lemma {:induction false} AcceptedAreSets(p: Platform, parameters: Members)
    requires Process(p, parameters).Accepted?
    ensures WellFormed(p, parameters) && exists at :: AreSets(p, parameters, at, Process(p, parameters).list)
  {
    var at := ProcessIs(p, parameters);
    assert AreSets(p, parameters, at, Process(p, parameters).list);
  }

  /** The session of a well-formed request is that of its first alternative that works. */
  ghost predicate ComesFromRequest(p: Platform, parameters: Members, answers: nat -> Answers,
                                   session: Option<Capabilities>)
  {
    WellFormed(p, parameters) ==>
      exists at, sets, k :: AreSets(p, parameters, at, sets) && FirstThatWorks(p, sets, answers, session, k)
  }

  lemma {:induction false} AcceptedComesFromRequest(p: Platform, parameters: Members, answers: nat -> Answers)
    requires Process(p, parameters).Accepted?
    ensures WellFormed(p, parameters)
    ensures var list := Process(p, parameters).list;
      ComesFromRequest(p, parameters, answers, SessionOf(p, list, answers, Decisive(p, list, answers, 0)))
  {
    AcceptedAreSets(p, parameters);
    DecisiveIsFirst(p, Process(p, parameters).list, answers);
  }

  lemma {:induction false} RefusedComesFromRequest(p: Platform, parameters: Members, answers: nat -> Answers)
    requires Process(p, parameters).Refused?
    ensures !WellFormed(p, parameters) ==> Process(p, parameters) == Refused(InvalidArgument)
    ensures ComesFromRequest(p, parameters, answers, None)
  {
    var at := ProcessIs(p, parameters);
    if WellFormed(p, parameters) {
      assert AreSets(p, parameters, at, []) && FirstThatWorks(p, [], answers, None, 0);
    }
  }

  /** The outcome of a request without a session: a session exactly if one is reported, which is what the
      response says and gives what the client asked for; and the error of a request that is not well-formed. */
  ghost predicate Reported(p: Platform, parameters: Members, answers: nat -> Answers, session: Option<Capabilities>,
                           r: Reply)
  {
    && (session.Some? <==> r.Created?)
    && (session.Some? ==>
          r.response == Response(session.value) && exists i :: SessionGivesAlternative(p, parameters, session.value, i))
    && (!WellFormed(p, parameters) ==> r == Error(InvalidArgument))
    && ComesFromRequest(p, parameters, answers, session)
    && match Process(p, parameters)
       case Refused(error) => r == Error(error) && session == None
       case Accepted(list) =>
         var k := Decisive(p, list, answers, 0);
         r == ReplyTo(p, list, answers, k) && session == SessionOf(p, list, answers, k)
  }

  /** The sets that are tried for a request. */
  function TriedFor(p: Platform, parameters: Members, answers: nat -> Answers): seq<Capabilities> {
    match Process(p, parameters)
    case Refused(_) => []
    case Accepted(list) => Attempted(p, list, answers, 0)
  }

  lemma {:induction false} RefusedIsReported(p: Platform, parameters: Members, answers: nat -> Answers)
    requires Process(p, parameters).Refused?
    ensures Reported(p, parameters, answers, None, Error(Process(p, parameters).error))
  {
    RefusedComesFromRequest(p, parameters, answers);
  }

  lemma {:induction false} AcceptedIsReported(p: Platform, parameters: Members, answers: nat -> Answers)
    requires Process(p, parameters).Accepted?
    ensures var list := Process(p, parameters).list;
      var k := Decisive(p, list, answers, 0);
      Reported(p, parameters, answers, SessionOf(p, list, answers, k), ReplyTo(p, list, answers, k))
  {
    AcceptedComesFromRequest(p, parameters, answers);
    var list := Process(p, parameters).list;
    var k := Decisive(p, list, answers, 0);
    if SessionOf(p, list, answers, k).Some? { SessionGivesWhatWasAsked(p, parameters, k, answers(k)); }
  }

  function Reversed<T>(s: seq<T>): (r: seq<T>)
    ensures |r| == |s| && forall i | 0 <= i < |s| :: r[i] == s[|s| - 1 - i]
  {
    seq(|s|, i requires 0 <= i < |s| => s[|s| - 1 - i])
  }

  class Service {
    const platform: Platform
    var session: Option<Capabilities>
    ghost var replies: seq<Reply>
    ghost var tried: seq<Capabilities>

    constructor (platform: Platform)
      ensures this.platform == platform && session == None && replies == [] && tried == []
    {
      this.platform := platform;
      session, replies, tried := None, [], [];
    }

    /** The completion handler. */
    method Complete(r: Reply)
      modifies this`replies
      ensures replies == old(replies) + [r]
    {
      replies := replies + [r];
    }

    /** New Session answers exactly once. It tries the matched sets in the order of the request, up to the
        first one that is decided, and has a session afterwards exactly if the answer says so; that session
        gives what the client asked for, names the browser that started, and is what the answer reports. */
    method NewSession(parameters: Members, answers: nat -> Answers)
      modifies this
      ensures |replies| == |old(replies)| + 1 && replies[..|old(replies)|] == old(replies)
      ensures var r := replies[|old(replies)|];
        if old(session).Some? then r == Error(SessionNotCreated) && session == old(session) && tried == old(tried)
        else
          && Reported(platform, parameters, answers, session, r)
          && tried == old(tried) + TriedFor(platform, parameters, answers)
    {
      if session.Some? {
        Complete(Error(SessionNotCreated));
        return;
      }
      var processed := ProcessCapabilities(platform, parameters);
      if processed.Refused? {
        RefusedIsReported(platform, parameters, answers);
        Complete(Error(processed.error));
        return;
      }
      var list := processed.list;
      AcceptedIsReported(platform, parameters, answers);
      ConnectToBrowser(Reversed(list), answers, 0, list);
    }

    /** Take the last of the remaining sets and connect to a browser for it. */
    method ConnectToBrowser(rest: seq<Capabilities>, answers: nat -> Answers, from: nat, ghost list: seq<Capabilities>)
      requires session.None? && Remaining(list, from, rest)
      modifies this
      ensures Tried(list, answers, from, old(tried), old(replies))
      decreases |rest|, 1
    {
      if rest == [] {
        Complete(Error(SessionNotCreated));
        return;
      }
      var capabilities, remaining := rest[|rest| - 1], rest[..|rest| - 1];
      RemainingStep(list, from, rest);
      DecisiveStep(platform, list, answers, from);
      tried := tried + [capabilities];
      if answers(from).connectError {
        Complete(Error(SessionNotCreated));
        return;
      }
      CreateSession(capabilities, remaining, answers, from, list);
      if Fate(platform, list[from], answers(from)) == NoMatch {
        Associate(old(tried), [capabilities], Attempted(platform, list, answers, from + 1));
      }
    }

    /** Start automation, go on with the remaining sets if the browser does not match, and ask for a window. */
    method CreateSession(capabilities: Capabilities, remaining: seq<Capabilities>, answers: nat -> Answers, from: nat,
                         ghost list: seq<Capabilities>)
      requires session.None? && from < |list| && Remaining(list, from + 1, remaining)
      requires capabilities == list[from] && !answers(from).connectError
      modifies this
      ensures if Fate(platform, list[from], answers(from)) == NoMatch
        then Tried(list, answers, from + 1, old(tried), old(replies))
        else
          && replies == old(replies) + [ReplyTo(platform, list, answers, from)] && tried == old(tried)
          && session == SessionOf(platform, list, answers, from)
      decreases |remaining| + 1, 0
    {
      if answers(from).startError {
        Complete(Error(UnknownError));
        return;
      }
      var capabilitiesDidMatch := MatchesBrowser(platform, capabilities, answers(from));
      var hosted := capabilities.(
        browserName := Some(answers(from).browserName), browserVersion := Some(answers(from).browserVersion));
      if !capabilitiesDidMatch {
        ConnectToBrowser(remaining, answers, from + 1, list);
        return;
      }
      if answers(from).windowError {
        Complete(Error(SessionNotCreated));
        return;
      }
      session := Some(hosted);
      Complete(Created(Response(hosted)));
    }

    /** The sets from `from` on were tried, up to the first that is decided, and the outcome reported. */
    ghost predicate Tried(list: seq<Capabilities>, answers: nat -> Answers, from: nat,
                          triedBefore: seq<Capabilities>, repliesBefore: seq<Reply>)
      requires from <= |list|
      reads this
    {
      var k := Decisive(platform, list, answers, from);
      && replies == repliesBefore + [ReplyTo(platform, list, answers, k)]
      && tried == triedBefore + Attempted(platform, list, answers, from)
      && session == SessionOf(platform, list, answers, k)
    }
  }

  // ---------------------------------------------------------------- a version that is not the one asked for

  /** The GTK port, with any validation of its own options. */
  function GtkPlatform(validates: (string, Json) -> bool): Platform {
    Platform(NONE.(platformName := Some("linux"), setWindowRect := Some(true)), validates, (_, _) => true,
      CompareBrowserVersions)
  }

  /** A client that requires version 2.0 gets a session of version 2.24.1, and is told so. */
  lemma {:induction false} NewerVersionIsReported(validates: (string, Json) -> bool)
    ensures var p, a := GtkPlatform(validates), Answers(false, false, "MiniBrowser", "2.24.1", false);
      var parameters := map["capabilities" := Obj(map["alwaysMatch" := Obj(map["browserVersion" := Str("2.0")])])];
      && Process(p, parameters).Accepted? && |Process(p, parameters).list| == 1
      && var c := Process(p, parameters).list[0];
      && c.browserVersion == Some("2.0") && Fate(p, c, a) == Works
      && Started(c, a).browserVersion == Some("2.24.1")
      && !AsRequested(Started(c, a), "browserVersion", Str("2.0"))
  {
    var p := GtkPlatform(validates);
    var asked: Members := map["browserVersion" := Str("2.0")];
    var request: Members := map["alwaysMatch" := Obj(asked)];
    var parameters: Members := map["capabilities" := Obj(request)];
    VersionRequest(p, request, asked);
    NewerStarts(p, Process(p, parameters).list[0], Answers(false, false, "MiniBrowser", "2.24.1", false));
  }

  lemma {:induction false} NewerStarts(p: Platform, c: Capabilities, a: Answers)
    requires c.browserVersion == Some("2.0") && c.browserName == None && p.acceptsVersion == CompareBrowserVersions
    requires a == Answers(false, false, "MiniBrowser", "2.24.1", false)
    ensures Fate(p, c, a) == Works && !AsRequested(Started(c, a), "browserVersion", Str("2.0"))
  {
    NewerWillDo();
    assert |"2.0"| == 3 && |"2.24.1"| == 6 && |"browserVersion"| == 14 && |"acceptInsecureCerts"| == 19
      && |"browserName"| == 11;
  }

  lemma {:induction false} VersionRequest(p: Platform, request: Members, asked: Members)
    requires asked == map["browserVersion" := Str("2.0")] && request == map["alwaysMatch" := Obj(asked)]
    requires p.capabilities == NONE.(platformName := Some("linux"), setWindowRect := Some(true))
      && forall k, v :: p.matches(k, v)
    ensures var parameters := map["capabilities" := Obj(request)];
      && Process(p, parameters).Accepted? && |Process(p, parameters).list| == 1
      && Process(p, parameters).list[0].browserVersion == Some("2.0")
      && Process(p, parameters).list[0].browserName == None
  {
    KeptVersion(p, asked);
    assert Required(p, request) == Some(asked);
    assert "firstMatch" !in request by { assert |"firstMatch"| == 10 && |"alwaysMatch"| == 11; }
    OneEmptyAlternative(p, asked);
    var one := MatchedVersion(p, asked);
    var os := MatchEach(p, asked, [map[]]);
    assert os == [Some(one)] && os[..0] == [];
    assert Collect(os) == [one];
  }

  lemma {:induction false} OneEmptyAlternative(p: Platform, required: Members)
    ensures ValidAlternatives(p, required, [Obj(map[])]) == Some([map[]])
  {
    var none: Members := map[];
    var items := [Obj(none)];
    assert Validated(p, none).Some? && Validated(p, none).value == none;
    assert Alternative(p, required, Obj(none)) == Some(none);
    assert items[..0] == [] && ValidAlternatives(p, required, items[..0]) == Some([]);
    assert [] + [none] == [none];
    assert ValidAlternatives(p, required, items) == Some([none]);
  }

  lemma {:induction false} KeptVersion(p: Platform, asked: Members)
    requires asked == map["browserVersion" := Str("2.0")]
    ensures Validated(p, asked) == Some(asked)
  {
    assert |"browserVersion"| == 14 && |"acceptInsecureCerts"| == 19 && |"browserName"| == 11;
    assert Judge(p, "browserVersion", asked["browserVersion"]) == Keep;
    assert (map k | k in asked && Judge(p, k, asked[k]) == Keep :: asked[k]) == asked;
  }

  lemma {:induction false} MatchedVersion(p: Platform, asked: Members) returns (one: Capabilities)
    requires asked == map["browserVersion" := Str("2.0")]
    requires p.capabilities == NONE.(platformName := Some("linux"), setWindowRect := Some(true))
      && forall k, v :: p.matches(k, v)
    ensures AllTyped(asked) && AllTyped(map[]) && MatchOne(p, asked, map[]) == Some(one)
    ensures one.browserVersion == Some("2.0") && one.browserName == None
  {
    assert |"browserVersion"| == 14 && |"acceptInsecureCerts"| == 19 && |"browserName"| == 11 && |"platformName"| == 12;
    assert |"setWindowRect"| == 13 && |"proxy"| == 5;
    assert Merged(asked, map[]) == asked;
    var matched := PlatformMembers(p.capabilities) + asked;
    assert Matched(p, asked) == Some(matched);
    one := Parse(matched);
    assert "browserVersion" in matched && matched["browserVersion"] == Str("2.0");
    assert "browserName" !in matched;
  }
}

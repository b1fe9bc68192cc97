/** The browsing contexts of a WebDriver session: the current window and the current frame, and the
    messages a session sends about them. Commands run one at a time; what the browser answers is
    arbitrary. */
module BrowsingContexts {
  import opened Options
  import opened WebDriverTypes

  datatype ErrorCode =
    | NoSuchWindow | NoSuchFrame | UnexpectedAlertOpen | ElementClickIntercepted | ElementNotInteractable
    | UnknownError | OtherError

  /** What the browser answers: an error, or a result of some type. */
  datatype Reply = Failure(code: ErrorCode) | Success(payload: Payload)

  datatype Payload =
    | Nothing
    | Flag(flag: bool)
    | Handle(handle: string)
    | Handles(handles: seq<string>)
    | Layout(isObscured: bool, hasInViewCenter: bool)
    | Text(text: string)
    | Anything

  /** What a frame lookup asks for. */
  datatype Target = Parent | Ordinal(index: int) | NodeHandle(id: string) | FrameName(name: string)

  /** A message to the browser with the window and the frame it is about. The empty frame handle is
      the window's main frame. */
  datatype Message =
    // resolveChildFrameHandle, resolveParentFrameHandle
    | Resolve(top: Option<string>, frame: Option<string>, target: Target)
    | Talk(name: string, top: Option<string>, frame: Option<string>)

  datatype Exchange = Exchange(message: Message, reply: Reply)

  datatype Result = Ok(payload: Payload) | Fail(error: ErrorCode) {
    predicate IsError() { Fail? }
  }

  /** What a command reports for a reply; most commands cannot do with an empty one. */
  function Outcome(reply: Reply, needsAnswer: bool): (r: Result)
    ensures reply.Failure? ==> r == Fail(reply.code)
    ensures r.Ok? <==> reply.Success? && (needsAnswer ==> reply.payload != Nothing)
    ensures r.Ok? ==> r.payload == reply.payload
  {
    match reply
    case Failure(code) => Fail(code)
    case Success(payload) => if needsAnswer && payload.Nothing? then Fail(UnknownError) else Ok(payload)
  }

  /** What a client may name as a frame. */
  datatype FrameId = Null | Index(index: int) | Element(id: string) | Name(name: string) | Invalid

  /** An index must fit 16 bits and an element must have an id. */
  function TargetOf(id: FrameId): Option<Target> {
    match id
    case Index(i) => if 0 <= i <= 0xFFFF then Some(Ordinal(i)) else None
    case Element(e) => if e != "" then Some(NodeHandle(e)) else None
    case Name(n) => Some(FrameName(n))
    case _ => None
  }

  /** Which lookup a client's frame leads to: an index of 16 bits, an element with an id, or any name. */
  lemma {:induction false} TargetIff(id: FrameId, i: int, text: string)
    ensures TargetOf(id) == Some(Ordinal(i)) <==> id == Index(i) && 0 <= i < 65536
    ensures TargetOf(id) == Some(NodeHandle(text)) <==> id == Element(text) && text != ""
    ensures TargetOf(id) == Some(FrameName(text)) <==> id == Name(text)
    ensures TargetOf(id) != Some(Parent)
  {
  }

  // ---------------------------------------------------------------- what must hold of a conversation

  /** The browser gave out frame `f` as the answer to a lookup in window `t`. */
  ghost predicate Resolved(talk: seq<Exchange>, t: string, f: string) {
    exists j :: 0 <= j < |talk| && GivesOut(talk[j], t, f)
  }

  predicate GivesOut(e: Exchange, t: string, f: string) {
    e.message.Resolve? && e.message.top == Some(t) && e.reply == Success(Handle(f))
  }

  /** A message that names a frame names the window in which that frame was looked up before. */
  ghost predicate FrameFits(earlier: seq<Exchange>, m: Message) {
    m.frame.Some? && m.frame.value != "" ==> m.top.Some? && Resolved(earlier, m.top.value, m.frame.value)
  }

  ghost predicate FramesFit(talk: seq<Exchange>) {
    forall i | 0 <= i < |talk| :: FrameFits(talk[..i], talk[i].message)
  }

  lemma {:induction false} FramesFitGrows(talk: seq<Exchange>, e: Exchange)
    requires FramesFit(talk) && FrameFits(talk, e.message)
    ensures FramesFit(talk + [e])
  {
    forall i | 0 <= i <= |talk| ensures FrameFits((talk + [e])[..i], (talk + [e])[i].message) {
      assert (talk + [e])[..i] == talk[..i];
      if i == |talk| { assert talk[..i] == talk; } else { assert FrameFits(talk[..i], talk[i].message); }
    }
  }

  lemma {:induction false} ResolvedGrows(talk: seq<Exchange>, e: Exchange, t: string, f: string)
    ensures Resolved(talk, t, f) ==> Resolved(talk + [e], t, f)
    ensures GivesOut(e, t, f) ==> Resolved(talk + [e], t, f)
  {
    if j :| 0 <= j < |talk| && GivesOut(talk[j], t, f) { assert (talk + [e])[j] == talk[j]; }
    if GivesOut(e, t, f) { assert (talk + [e])[|talk|] == e; }
  }

  /** `now` is `was` and one message more. */
  ghost predicate Said(was: seq<Exchange>, now: seq<Exchange>, m: Message) {
    |now| == |was| + 1 && now[..|was|] == was && now[|was|].message == m
  }

  predicate AsksAboutPrompt(m: Message, top: string) {
    m == Talk("isShowingJavaScriptDialog", Some(top), None)
  }

  predicate ClosesPrompt(m: Message, top: string, behavior: Option<PromptBehavior>) {
    || (behavior == Some(Dismiss) && m == Talk("dismissCurrentJavaScriptDialog", Some(top), None))
    || (behavior == Some(Accept) && m == Talk("acceptCurrentJavaScriptDialog", Some(top), None))
  }

  /** No prompt is in the way: none was showing, or it was closed silently as the client asked. */
  ghost predicate Cleared(behavior: Option<PromptBehavior>, top: string, said: seq<Exchange>) {
    && said != [] && AsksAboutPrompt(said[0].message, top)
    && ( || (|said| == 1 && said[0].reply == Success(Flag(false)))
         || (|said| == 2 && said[0].reply == Success(Flag(true)) && ClosesPrompt(said[1].message, top, behavior)
             && said[1].reply.Success?))
  }

  /** What is said to the browser about an alert that is in the way. */
  function AlertMessages(behavior: Option<PromptBehavior>): seq<string> {
    match behavior
    case Some(Dismiss) => ["dismissCurrentJavaScriptDialog"]
    case Some(Accept) => ["acceptCurrentJavaScriptDialog"]
    case Some(AcceptAndNotify) => ["messageOfCurrentJavaScriptDialog", "acceptCurrentJavaScriptDialog"]
    case Some(Ignore) => ["messageOfCurrentJavaScriptDialog"]
    case _ => ["messageOfCurrentJavaScriptDialog", "dismissCurrentJavaScriptDialog"]
  }

  /** Whether the client is told about an alert that could be closed. */
  predicate Silent(behavior: Option<PromptBehavior>) { behavior == Some(Dismiss) || behavior == Some(Accept) }

  /** An alert was dealt with as the client wishes, with outcome `r`: an error, unless it was closed silently. */
  ghost predicate Alerted(behavior: Option<PromptBehavior>, top: string, said: seq<Exchange>, r: Result) {
    && |said| == |AlertMessages(behavior)|
    && (forall i | 0 <= i < |said| :: said[i].message == Talk(AlertMessages(behavior)[i], Some(top), None))
    && var last := said[|said| - 1].reply;
       if last.Failure? && behavior != Some(Ignore) then r == Fail(last.code)
       else if Silent(behavior) then r.Ok?
       else r == Fail(UnexpectedAlertOpen)
  }

  /** The browser was asked about a prompt, and any alert was dealt with, with outcome `r`. */
  ghost predicate Prompted(behavior: Option<PromptBehavior>, top: string, said: seq<Exchange>, r: Result) {
    && said != [] && AsksAboutPrompt(said[0].message, top)
    && match said[0].reply
       case Failure(code) => |said| == 1 && r == Fail(code)
       case Success(Flag(showing)) =>
         if showing then Alerted(behavior, top, said[1..], r) else |said| == 1 && r.Ok?
       case _ => |said| == 1 && r == Fail(UnknownError)
  }

  lemma {:induction false} PromptedClears(behavior: Option<PromptBehavior>, top: string, said: seq<Exchange>, r: Result)
    requires Prompted(behavior, top, said, r)
    ensures r.Ok? <==> Cleared(behavior, top, said)
  {
    if said[0].reply == Success(Flag(true)) {
      assert |said[1..]| == |said| - 1;
      if Silent(behavior) { assert said[1..][0] == said[1]; }
    }
  }

  /** A prompt that stays, or a browser that does not answer, stops a command with an error. */
  ghost predicate Stopped(behavior: Option<PromptBehavior>, top: string, said: seq<Exchange>, r: Result) {
    Prompted(behavior, top, said, r) && r.IsError()
  }

  /** Prompts were cleared, and then one more message was sent. */
  ghost predicate ClearedThen(behavior: Option<PromptBehavior>, top: string, said: seq<Exchange>, last: Exchange) {
    && |said| >= 2 && Cleared(behavior, top, said[..|said| - 1]) && said[|said| - 1] == last
  }

  lemma {:induction false} ClearedAndOneMore(behavior: Option<PromptBehavior>, top: string, before: seq<Exchange>,
      cleared: seq<Exchange>, talk: seq<Exchange>)
    requires before <= cleared <= talk && |talk| == |cleared| + 1 && Cleared(behavior, top, cleared[|before|..])
    ensures ClearedThen(behavior, top, talk[|before|..], talk[|cleared|])
  {
    var said := talk[|before|..];
    assert said[..|said| - 1] == cleared[|before|..];
  }

  /** A command was carried out: prompts out of the way, then `m`, whose reply is the result. */
  ghost predicate Ran(behavior: Option<PromptBehavior>, top: string, said: seq<Exchange>, m: Message, needsAnswer: bool,
    r: Result)
  {
    && |said| >= 2 && ClearedThen(behavior, top, said, said[|said| - 1])
    && said[|said| - 1].message == m && r == Outcome(said[|said| - 1].reply, needsAnswer)
  }

  /** What the list of windows is, for a reply that has one. */
  predicate IsHandles(reply: Reply, r: Result) {
    match reply
    case Failure(code) => r == Fail(code)
    case Success(Handles(handles)) => r == Ok(Handles(handles))
    case _ => r == Fail(UnknownError)
  }

  /** A window was closed: if the browser is gone then, there is no window left; otherwise it says which
      windows are left. */
  ghost predicate Closed(handle: string, said: seq<Exchange>, connected: bool, r: Result) {
    && 1 <= |said| <= 2 && said[0].message == Talk("closeBrowsingContext", Some(handle), None)
    && (|said| == 1 ==>
          if connected then said[0].reply.Failure? && r == Fail(said[0].reply.code) else r == Ok(Handles([])))
    && (|said| == 2 ==>
          && said[0].reply.Success? && said[1].message == Talk("getBrowsingContexts", None, None)
          && if connected then IsHandles(said[1].reply, r) else r == Ok(Handles([])))
  }

  /** From `from` on, whatever window was closed is the first one the browser had just named. */
  ghost predicate ClosesFirst(talk: seq<Exchange>, from: nat) {
    forall i | from <= i < |talk| ::
      || talk[i].message == Talk("getBrowsingContexts", None, None)
      || (&& i > from && talk[i - 1].message == Talk("getBrowsingContexts", None, None)
          && talk[i - 1].reply.Success? && talk[i - 1].reply.payload.Handles?
          && talk[i - 1].reply.payload.handles != []
          && talk[i].message == Talk("closeBrowsingContext", Some(talk[i - 1].reply.payload.handles[0]), None))
  }

  lemma {:induction false} ClosedGoesOn(before: seq<Exchange>, talk: seq<Exchange>, from: nat, handle: string,
      connected: bool, r: Result)
    requires before <= talk && Closed(handle, talk[|before|..], connected, r)
    requires from < |before| && ClosesFirst(before, from)
    requires before[|before| - 1].message == Talk("getBrowsingContexts", None, None)
    requires var reply := before[|before| - 1].reply;
      reply.Success? && reply.payload.Handles? && reply.payload.handles != [] && reply.payload.handles[0] == handle
    ensures ClosesFirst(talk, from)
  {
    var said := talk[|before|..];
    forall i | from <= i < |talk| && i >= |before| ensures talk[i] == said[i - |before|] {}
    assert talk[|before| - 1] == before[|before| - 1];
  }

  /** The browser said that an element is in view and not obscured. */
  predicate ClearLayout(e: Exchange, top: Option<string>, frame: Option<string>) {
    e == Exchange(Talk("computeElementLayout", top, frame), Success(Layout(false, true)))
  }

  /** What a click makes of the layout: only an element in view that nothing obscures will do. */
  predicate IsLayoutResult(reply: Reply, r: Result) {
    match reply
    case Failure(code) => r == Fail(code)
    case Success(Layout(isObscured, hasInViewCenter)) =>
      if isObscured then r == Fail(ElementClickIntercepted)
      else if !hasInViewCenter then r == Fail(ElementNotInteractable)
      else r.Ok?
    case _ => r == Fail(UnknownError)
  }

  /** Waiting for a navigation fails only for an error other than that its window or frame is gone. */
  predicate WaitFails(reply: Reply) { reply.Failure? && !reply.code.NoSuchWindow? && !reply.code.NoSuchFrame? }

  /** How a click ends: the selection of an option or a mouse click, and if the browser carried that out, the
      wait for a navigation. */
  ghost predicate ClickedAs(isOption: bool, top: string, frame: Option<string>, said: seq<Exchange>, r: Result) {
    && 1 <= |said| <= 2
    && said[0].message ==
         (if isOption then Talk("selectOptionElement", Some(top), if frame.Some? then frame else Some(""))
          else Talk("performMouseInteraction", Some(top), None))
    && (|said| == 1 ==> said[0].reply.Failure? && r == Fail(said[0].reply.code))
    && (|said| == 2 ==>
          && said[0].reply.Success? && said[1].message == Talk("waitForNavigationToComplete", Some(top), frame)
          && r == if WaitFails(said[1].reply) then Fail(said[1].reply.code) else Ok(Nothing))
  }

  /** The first `n` messages ask for the tag name, which is `tag`; what follows selects an option and clicks
      anything else. */
  ghost predicate TagDecides(behavior: Option<PromptBehavior>, top: string, frame: Option<string>,
                             said: seq<Exchange>, n: nat, tag: Result, r: Result)
  {
    && n <= |said|
    && (|| Ran(behavior, top, said[..n], Talk("evaluateJavaScriptFunction", Some(top), frame), true, tag)
        || Stopped(behavior, top, said[..n], tag))
    && ClickedAs(tag == Ok(Text("option")), top, frame, said[n..], r)
  }

  ghost predicate ClickedByTag(behavior: Option<PromptBehavior>, top: string, frame: Option<string>,
                               said: seq<Exchange>, r: Result)
  {
    exists n, tag :: TagDecides(behavior, top, frame, said, n, tag, r)
  }

  /** Prompts were cleared by the first `n` messages, then the layout was asked for; only an element that is in
      view and not obscured is clicked. */
  ghost predicate LaidOut(behavior: Option<PromptBehavior>, top: string, frame: Option<string>, said: seq<Exchange>,
                          n: nat, r: Result)
  {
    var frameOrMain := if frame.Some? then frame else Some("");
    && n < |said| && Cleared(behavior, top, said[..n])
    && said[n].message == Talk("computeElementLayout", Some(top), frameOrMain)
    && if ClearLayout(said[n], Some(top), frameOrMain) then ClickedByTag(behavior, top, frame, said[n + 1..], r)
       else |said| == n + 1 && IsLayoutResult(said[n].reply, r)
  }

  lemma {:induction false} LayoutDecides(behavior: Option<PromptBehavior>, top: string, frame: Option<string>,
      before: seq<Exchange>, cleared: seq<Exchange>, layout: seq<Exchange>, talk: seq<Exchange>, r: Result)
    requires before <= cleared <= layout <= talk && |layout| == |cleared| + 1
    requires Cleared(behavior, top, cleared[|before|..])
    requires var frameOrMain := if frame.Some? then frame else Some("");
      && layout[|cleared|].message == Talk("computeElementLayout", Some(top), frameOrMain)
      && if ClearLayout(layout[|cleared|], Some(top), frameOrMain)
         then ClickedByTag(behavior, top, frame, talk[|layout|..], r)
         else talk == layout && IsLayoutResult(layout[|cleared|].reply, r)
    ensures LaidOut(behavior, top, frame, talk[|before|..], |cleared| - |before|, r)
  {
    var said, n := talk[|before|..], |cleared| - |before|;
    assert said[..n] == cleared[|before|..] && said[n] == layout[|cleared|];
    assert said[n + 1..] == talk[|layout|..];
  }

  datatype NavigationKind = Go | Back | Forward | Refresh

  function NavigationName(kind: NavigationKind): (name: string)
    ensures name == "navigateBrowsingContext" <==> kind.Go?
    ensures name == "goBackInBrowsingContext" <==> kind.Back?
    ensures name == "goForwardInBrowsingContext" <==> kind.Forward?
    ensures name == "reloadBrowsingContext" <==> kind.Refresh?
  {
    match kind
    case Go => "navigateBrowsingContext"
    case Back => "goBackInBrowsingContext"
    case Forward => "goForwardInBrowsingContext"
    case Refresh => "reloadBrowsingContext"
  }

  predicate IsNavigation(m: Message, kind: NavigationKind, top: string) {
    && m.Talk? && m.top == Some(top) && m.frame == None
    && (m.name == "navigateBrowsingContext" <==> kind.Go?)
    && (m.name == "goBackInBrowsingContext" <==> kind.Back?)
    && (m.name == "goForwardInBrowsingContext" <==> kind.Forward?)
    && (m.name == "reloadBrowsingContext" <==> kind.Refresh?)
  }

  /** Prompts were cleared and the one message of this navigation sent, whose reply decides. */
  ghost predicate Navigated(behavior: Option<PromptBehavior>, top: string, said: seq<Exchange>, kind: NavigationKind,
                            r: Result)
  {
    && |said| >= 2
    && var last := said[|said| - 1];
    && ClearedThen(behavior, top, said, last) && IsNavigation(last.message, kind, top)
    && r == if last.reply.Success? then Ok(Nothing) else Fail(last.reply.code)
  }

  /** The browser: the answers it is going to give, each with whether it is still connected then, and
      the conversation so far. */
  class Browser {
    var answers: seq<(Reply, bool)>
    var connected: bool
    ghost var talk: seq<Exchange>

    constructor (answers: seq<(Reply, bool)>)
      ensures this.answers == answers && connected && talk == []
    {
      this.answers, connected, talk := answers, true, [];
    }

    method Ask(m: Message) returns (reply: Reply)
      modifies this
      ensures talk == old(talk) + [Exchange(m, reply)]
      ensures |answers| <= |old(answers)| && (|answers| < |old(answers)| || !connected)
    {
      if answers != [] {
        reply, connected, answers := answers[0].0, connected && answers[0].1, answers[1..];
      } else {
        reply, connected := Failure(UnknownError), false;
      }
      talk := talk + [Exchange(m, reply)];
    }
  }

  class Session {
    const host: Browser
    const unhandledPromptBehavior: Option<PromptBehavior>
    var toplevelBrowsingContext: Option<string>
    var currentBrowsingContext: Option<string>

    /** The current frame was looked up in the current window, if there is one, and so were all frames
        in the conversation. */
    ghost predicate Valid()
      reads this, host
    {
      && FramesFit(host.talk)
      && (toplevelBrowsingContext.Some? && currentBrowsingContext.Some? ==>
            Resolved(host.talk, toplevelBrowsingContext.value, currentBrowsingContext.value))
    }

    constructor (host: Browser, behavior: Option<PromptBehavior>)
      requires FramesFit(host.talk)
      ensures Valid() && this.host == host && toplevelBrowsingContext == None && currentBrowsingContext == None
    {
      this.host, unhandledPromptBehavior := host, behavior;
      toplevelBrowsingContext, currentBrowsingContext := None, None;
    }

    /** Send a message; every message about a frame takes both handles from the session. */
    method Send(m: Message) returns (reply: Reply)
      requires Valid()
      requires m.frame.Some? && m.frame.value != "" ==>
        toplevelBrowsingContext.Some? && m.top == toplevelBrowsingContext && m.frame == currentBrowsingContext
      modifies host
      ensures Valid() && host.talk == old(host.talk) + [Exchange(m, reply)]
      ensures |host.answers| <= |old(host.answers)| && (|host.answers| < |old(host.answers)| || !host.connected)
    {
      reply := host.Ask(m);
      FramesFitGrows(old(host.talk), Exchange(m, reply));
      if toplevelBrowsingContext.Some? && currentBrowsingContext.Some? {
        ResolvedGrows(old(host.talk), Exchange(m, reply), toplevelBrowsingContext.value, currentBrowsingContext.value);
      }
    }

    method SwitchToTopLevelBrowsingContext(handle: Option<string>)
      requires Valid()
      modifies this
      ensures Valid() && toplevelBrowsingContext == handle && currentBrowsingContext == None
    {
      toplevelBrowsingContext := handle;
      currentBrowsingContext := None;
    }

    /** The empty handle is the main frame. */
    method SwitchToBrowsingContext(frame: Option<string>)
      requires Valid()
      requires frame.Some? && toplevelBrowsingContext.Some? ==>
        Resolved(host.talk, toplevelBrowsingContext.value, frame.value)
      modifies this
      ensures Valid() && toplevelBrowsingContext == old(toplevelBrowsingContext)
      ensures currentBrowsingContext == if frame == Some("") then None else frame
    {
      currentBrowsingContext := if frame.None? || frame.value == "" then None else frame;
    }

    method CreateTopLevelBrowsingContext() returns (r: Result)
      requires Valid() && toplevelBrowsingContext.None?
      modifies this, host
      ensures Valid() && (r.Ok? <==> toplevelBrowsingContext.Some?)
      ensures r.Ok? ==> currentBrowsingContext == None
      ensures Said(old(host.talk), host.talk, Talk("createBrowsingContext", None, None))
      ensures var reply := host.talk[|old(host.talk)|].reply;
        match reply
        case Failure(code) => r == Fail(code)
        case Success(Handle(handle)) => r.Ok? && toplevelBrowsingContext == Some(handle)
        case _ => r == Fail(UnknownError)
    {
      var reply := Send(Talk("createBrowsingContext", None, None));
      if reply.Failure? { return Fail(reply.code); }
      if !reply.payload.Handle? { return Fail(UnknownError); }
      SwitchToTopLevelBrowsingContext(Some(reply.payload.handle));
      return Ok(Nothing);
    }

    // ---- prompts

    /** A message about the current window only. */
    method TalkToWindow(name: string, needsAnswer: bool) returns (r: Result)
      requires Valid()
      modifies host
      ensures Valid()
      ensures toplevelBrowsingContext.None? ==> r == Fail(NoSuchWindow) && host.talk == old(host.talk)
      ensures toplevelBrowsingContext.Some? ==>
        && Said(old(host.talk), host.talk, Talk(name, toplevelBrowsingContext, None))
        && r == Outcome(host.talk[|old(host.talk)|].reply, needsAnswer)
    {
      if toplevelBrowsingContext.None? { return Fail(NoSuchWindow); }
      var reply := Send(Talk(name, Some(toplevelBrowsingContext.value), None));
      return Outcome(reply, needsAnswer);
    }

    /** Succeeds exactly when no prompt is in the way any more. */
    method HandleUserPrompts() returns (r: Result)
      requires Valid() && toplevelBrowsingContext.Some?
      modifies host
      ensures Valid() && old(host.talk) <= host.talk
      ensures Prompted(unhandledPromptBehavior, toplevelBrowsingContext.value, host.talk[|old(host.talk)|..], r)
      ensures r.Ok? <==> Cleared(unhandledPromptBehavior, toplevelBrowsingContext.value, host.talk[|old(host.talk)|..])
    {
      r := AskAndHandle();
      PromptedClears(unhandledPromptBehavior, toplevelBrowsingContext.value, host.talk[|old(host.talk)|..], r);
    }

    method AskAndHandle() returns (r: Result)
      requires Valid() && toplevelBrowsingContext.Some?
      modifies host
      ensures Valid() && old(host.talk) <= host.talk
      ensures Prompted(unhandledPromptBehavior, toplevelBrowsingContext.value, host.talk[|old(host.talk)|..], r)
    {
      var reply := Send(Talk("isShowingJavaScriptDialog", Some(toplevelBrowsingContext.value), None));
      if reply.Failure? { return Fail(reply.code); }
      if !reply.payload.Flag? { return Fail(UnknownError); }
      if !reply.payload.flag { return Ok(Nothing); }
      ghost var asked := host.talk;
      r := HandleUnexpectedAlertOpen();
      assert host.talk[|old(host.talk)|..][1..] == host.talk[|asked|..];
    }

    /** Without a wish of the client the alert is dismissed and reported. */
    method HandleUnexpectedAlertOpen() returns (r: Result)
      requires Valid() && toplevelBrowsingContext.Some?
      modifies host
      ensures Valid() && old(host.talk) <= host.talk
      ensures Alerted(unhandledPromptBehavior, toplevelBrowsingContext.value, host.talk[|old(host.talk)|..], r)
    {
      match if unhandledPromptBehavior.Some? then unhandledPromptBehavior.value else DismissAndNotify
      case Dismiss => r := TalkToWindow("dismissCurrentJavaScriptDialog", false);
      case Accept => r := TalkToWindow("acceptCurrentJavaScriptDialog", false);
      case DismissAndNotify => r := NotifyAnd("dismissCurrentJavaScriptDialog");
      case AcceptAndNotify => r := NotifyAnd("acceptCurrentJavaScriptDialog");
      case Ignore =>
        var _ := TalkToWindow("messageOfCurrentJavaScriptDialog", true);
        r := Fail(UnexpectedAlertOpen);
    }

    /** Report the alert and then get rid of it. */
    method NotifyAnd(name: string) returns (r: Result)
      requires Valid() && toplevelBrowsingContext.Some?
      modifies host
      ensures Valid() && r.IsError() && |host.talk| == |old(host.talk)| + 2
        && host.talk[..|old(host.talk)|] == old(host.talk)
      ensures host.talk[|old(host.talk)|].message
        == Talk("messageOfCurrentJavaScriptDialog", toplevelBrowsingContext, None)
      ensures host.talk[|old(host.talk)| + 1].message == Talk(name, toplevelBrowsingContext, None)
      ensures var last := host.talk[|old(host.talk)| + 1].reply;
        r == if last.Success? then Fail(UnexpectedAlertOpen) else Fail(last.code)
    {
      var _ := TalkToWindow("messageOfCurrentJavaScriptDialog", true);
      r := TalkToWindow(name, false);
      if !r.IsError() { r := Fail(UnexpectedAlertOpen); }
    }

    // ---- commands

    /** Most commands: refuse without a window, deal with prompts, then one message, with or without
        the current frame. A prompt that stays stops the command before its message is sent. */
    method Command(name: string, framed: bool, needsAnswer: bool) returns (r: Result)
      requires Valid()
      modifies host
      ensures Valid() && old(host.talk) <= host.talk
      ensures toplevelBrowsingContext.None? ==> r == Fail(NoSuchWindow) && host.talk == old(host.talk)
      ensures toplevelBrowsingContext.Some? ==>
        var top, said := toplevelBrowsingContext.value, host.talk[|old(host.talk)|..];
        || Ran(unhandledPromptBehavior, top, said,
            Talk(name, Some(top), if framed then currentBrowsingContext else None), needsAnswer, r)
        || Stopped(unhandledPromptBehavior, top, said, r)
    {
      if toplevelBrowsingContext.None? { return Fail(NoSuchWindow); }
      r := HandleUserPrompts();
      if r.IsError() { return; }
      ghost var cleared := host.talk;
      r := TalkFramed(name, if framed then currentBrowsingContext else None, needsAnswer);
      ClearedAndOneMore(unhandledPromptBehavior, toplevelBrowsingContext.value, old(host.talk), cleared, host.talk);
    }

    method TalkFramed(name: string, frame: Option<string>, needsAnswer: bool) returns (r: Result)
      requires Valid() && toplevelBrowsingContext.Some?
      requires frame.Some? && frame.value != "" ==> frame == currentBrowsingContext
      modifies host
      ensures Valid() && Said(old(host.talk), host.talk, Talk(name, toplevelBrowsingContext, frame))
      ensures r == Outcome(host.talk[|old(host.talk)|].reply, needsAnswer)
    {
      var reply := Send(Talk(name, Some(toplevelBrowsingContext.value), frame));
      return Outcome(reply, needsAnswer);
    }

    /** Some messages name the main frame outright. */
    function FrameOrMain(): Option<string>
      reads this
    {
      if currentBrowsingContext.Some? then currentBrowsingContext else Some("")
    }

    /** go, back, forward and refresh: the main frame becomes current again. */
    method Navigate(kind: NavigationKind) returns (r: Result)
      requires Valid()
      modifies this, host
      ensures Valid() && toplevelBrowsingContext == old(toplevelBrowsingContext) && old(host.talk) <= host.talk
      ensures currentBrowsingContext == if r.Ok? then None else old(currentBrowsingContext)
      ensures toplevelBrowsingContext.None? ==> r == Fail(NoSuchWindow) && host.talk == old(host.talk)
      ensures toplevelBrowsingContext.Some? ==>
        var top, said := toplevelBrowsingContext.value, host.talk[|old(host.talk)|..];
        || Stopped(unhandledPromptBehavior, top, said, r)
        || Navigated(unhandledPromptBehavior, top, said, kind, r)
    {
      var name := NavigationName(kind);
      r := Command(name, false, false);
      if r.Ok? {
        SwitchToBrowsingContext(None);
        r := Ok(Nothing);
      }
    }

    /** setWindowRect, maximizeWindow and the like end with a query of the window's rectangle, whose reply is
        the result. */
    method ChangeWindow(name: string, needsAnswer: bool) returns (r: Result)
      requires Valid()
      modifies host
      ensures Valid() && old(host.talk) <= host.talk
      ensures toplevelBrowsingContext.None? ==> r == Fail(NoSuchWindow) && host.talk == old(host.talk)
      ensures toplevelBrowsingContext.Some? ==>
        var top, said := toplevelBrowsingContext.value, host.talk[|old(host.talk)|..];
        || Stopped(unhandledPromptBehavior, top, said, r)
        || (&& r.IsError()
            && Ran(unhandledPromptBehavior, top, said, Talk(name, Some(top), None), needsAnswer, r))
        || (&& |said| >= 2 && said[|said| - 1].message == Talk("getBrowsingContext", Some(top), None)
            && r == Outcome(said[|said| - 1].reply, true)
            && exists changed: Result :: changed.Ok? && Ran(unhandledPromptBehavior, top, said[..|said| - 1],
                 Talk(name, Some(top), None), needsAnswer, changed))
    {
      r := Command(name, false, needsAnswer);
      if r.Ok? {
        ghost var changed, before := r, host.talk;
        r := TalkFramed("getBrowsingContext", None, true);
        ghost var said := host.talk[|old(host.talk)|..];
        assert said[..|said| - 1] == before[|old(host.talk)|..];
        assert Ran(unhandledPromptBehavior, toplevelBrowsingContext.value, said[..|said| - 1],
          Talk(name, toplevelBrowsingContext, None), needsAnswer, changed);
      }
    }

    /** A browser that quit with its last window has no windows. */
    method CloseTopLevelBrowsingContext(handle: string) returns (r: Result)
      requires Valid()
      modifies host
      ensures Valid() && |host.answers| <= |old(host.answers)| && old(host.talk) < host.talk
      ensures |host.answers| < |old(host.answers)| || r == Ok(Handles([]))
      ensures Closed(handle, host.talk[|old(host.talk)|..], host.connected, r)
      ensures host.connected && r.Ok? ==>
        host.talk[|host.talk| - 1] == Exchange(Talk("getBrowsingContexts", None, None), Success(r.payload))
      ensures r.Ok? ==> r.payload.Handles?
    {
      var reply := Send(Talk("closeBrowsingContext", Some(handle), None));
      if !host.connected { return Ok(Handles([])); }
      if reply.Failure? { return Fail(reply.code); }
      r := GetWindowHandles();
      if !host.connected { r := Ok(Handles([])); }
    }

    method GetWindowHandles() returns (r: Result)
      requires Valid()
      modifies host
      ensures Valid() && |host.answers| <= |old(host.answers)|
      ensures Said(old(host.talk), host.talk, Talk("getBrowsingContexts", None, None))
      ensures IsHandles(host.talk[|old(host.talk)|].reply, r)
    {
      var reply := Send(Talk("getBrowsingContexts", None, None));
      if reply.Failure? { return Fail(reply.code); }
      return if reply.payload.Handles? then Ok(reply.payload) else Fail(UnknownError);
    }

    /** Closing a window forgets it but leaves the frame handle behind; the result is the windows left. */
    method CloseWindow() returns (r: Result)
      requires Valid()
      modifies this, host
      ensures Valid() && currentBrowsingContext == old(currentBrowsingContext) && old(host.talk) <= host.talk
      ensures old(toplevelBrowsingContext).None? ==>
        r == Fail(NoSuchWindow) && host.talk == old(host.talk) && toplevelBrowsingContext == None
      ensures old(toplevelBrowsingContext).Some? ==>
        var top, said := old(toplevelBrowsingContext).value, host.talk[|old(host.talk)|..];
        || (Stopped(unhandledPromptBehavior, top, said, r) && toplevelBrowsingContext == Some(top))
        || (&& toplevelBrowsingContext == None
            && exists n :: 0 <= n <= |said| && Cleared(unhandledPromptBehavior, top, said[..n])
                 && Closed(top, said[n..], host.connected, r))
      ensures r.Ok? && host.connected ==>
        host.talk[|host.talk| - 1] == Exchange(Talk("getBrowsingContexts", None, None), Success(r.payload))
    {
      if toplevelBrowsingContext.None? { return Fail(NoSuchWindow); }
      r := HandleUserPrompts();
      if r.IsError() { return; }
      var handle := toplevelBrowsingContext.value;
      toplevelBrowsingContext := None;
      ghost var cleared := host.talk;
      r := CloseTopLevelBrowsingContext(handle);
      ghost var said, n := host.talk[|old(host.talk)|..], |cleared| - |old(host.talk)|;
      assert said[..n] == cleared[|old(host.talk)|..] && said[n..] == host.talk[|cleared|..];
    }

    method SwitchToWindow(handle: string) returns (r: Result)
      requires Valid()
      modifies this, host
      ensures Valid()
      ensures Said(old(host.talk), host.talk, Talk("switchToBrowsingContext", Some(handle), None))
      ensures var reply := host.talk[|old(host.talk)|].reply;
        r == if reply.Success? then Ok(Nothing) else Fail(reply.code)
      ensures if r.Ok? then toplevelBrowsingContext == Some(handle) && currentBrowsingContext == None
              else
                && toplevelBrowsingContext == old(toplevelBrowsingContext)
                && currentBrowsingContext == old(currentBrowsingContext)
    {
      var reply := Send(Talk("switchToBrowsingContext", Some(handle), None));
      if reply.Failure? { return Fail(reply.code); }
      SwitchToTopLevelBrowsingContext(Some(handle));
      return Ok(Nothing);
    }

    /** One lookup in the current window, from the frame that was current: the frame that the reply gives out
        is current now. */
    ghost predicate LookedUp(was: Option<string>, target: Target, said: Exchange, r: Result)
      reads this
    {
      && said.message == Resolve(toplevelBrowsingContext, was, target)
      && match said.reply
         case Failure(code) => r == Fail(code) && currentBrowsingContext == was
         case Success(Handle(handle)) =>
           r == Ok(Nothing) && currentBrowsingContext == if handle == "" then None else Some(handle)
         case _ => r == Fail(UnknownError) && currentBrowsingContext == was
    }

    method SwitchToFrame(id: FrameId) returns (r: Result)
      requires Valid()
      modifies this, host
      ensures Valid() && toplevelBrowsingContext == old(toplevelBrowsingContext) && old(host.talk) <= host.talk
      ensures r.IsError() ==> currentBrowsingContext == old(currentBrowsingContext)
      ensures toplevelBrowsingContext.None? ==> r == Fail(NoSuchWindow) && host.talk == old(host.talk)
      ensures toplevelBrowsingContext.Some? && id.Null? ==>
        r == Ok(Nothing) && currentBrowsingContext == None && host.talk == old(host.talk)
      ensures toplevelBrowsingContext.Some? && !id.Null? ==>
        var top, said := toplevelBrowsingContext.value, host.talk[|old(host.talk)|..];
        || Stopped(unhandledPromptBehavior, top, said, r)
        || (TargetOf(id) == None && Cleared(unhandledPromptBehavior, top, said) && r == Fail(NoSuchFrame))
        || (&& TargetOf(id).Some? && |said| >= 2 && ClearedThen(unhandledPromptBehavior, top, said, said[|said| - 1])
            && LookedUp(old(currentBrowsingContext), TargetOf(id).value, said[|said| - 1], r))
    {
      if toplevelBrowsingContext.None? { return Fail(NoSuchWindow); }
      if id.Null? {
        SwitchToBrowsingContext(None);
        return Ok(Nothing);
      }
      r := HandleUserPrompts();
      if r.IsError() { return; }
      var target := TargetOf(id);
      if target.None? { return Fail(NoSuchFrame); }
      ghost var cleared := host.talk;
      r := Lookup(target.value);
      ClearedAndOneMore(unhandledPromptBehavior, toplevelBrowsingContext.value, old(host.talk), cleared, host.talk);
    }

    method SwitchToParentFrame() returns (r: Result)
      requires Valid()
      modifies this, host
      ensures Valid() && toplevelBrowsingContext == old(toplevelBrowsingContext) && old(host.talk) <= host.talk
      ensures r.IsError() ==> currentBrowsingContext == old(currentBrowsingContext)
      ensures toplevelBrowsingContext.None? ==> r == Fail(NoSuchWindow) && host.talk == old(host.talk)
      ensures toplevelBrowsingContext.Some? && old(currentBrowsingContext).None? ==>
        r == Ok(Nothing) && currentBrowsingContext == None && host.talk == old(host.talk)
      ensures toplevelBrowsingContext.Some? && old(currentBrowsingContext).Some? ==>
        var top, said := toplevelBrowsingContext.value, host.talk[|old(host.talk)|..];
        || Stopped(unhandledPromptBehavior, top, said, r)
        || (&& |said| >= 2 && ClearedThen(unhandledPromptBehavior, top, said, said[|said| - 1])
            && LookedUp(old(currentBrowsingContext), Parent, said[|said| - 1], r))
    {
      if toplevelBrowsingContext.None? { return Fail(NoSuchWindow); }
      if currentBrowsingContext.None? { return Ok(Nothing); }
      r := HandleUserPrompts();
      if r.IsError() { return; }
      ghost var cleared := host.talk;
      r := Lookup(Parent);
      ClearedAndOneMore(unhandledPromptBehavior, toplevelBrowsingContext.value, old(host.talk), cleared, host.talk);
    }

    /** Ask the browser for a frame in the current window and make it current. */
    method Lookup(target: Target) returns (r: Result)
      requires Valid() && toplevelBrowsingContext.Some?
      modifies this, host
      ensures Valid() && toplevelBrowsingContext == old(toplevelBrowsingContext)
      ensures old(host.talk) <= host.talk && |host.talk| == |old(host.talk)| + 1
      ensures LookedUp(old(currentBrowsingContext), target, host.talk[|old(host.talk)|], r)
    {
      ghost var before := host.talk;
      var top := toplevelBrowsingContext.value;
      var m := Resolve(Some(top), currentBrowsingContext, target);
      var reply := Send(m);
      if reply.Failure? { return Fail(reply.code); }
      if !reply.payload.Handle? { return Fail(UnknownError); }
      ResolvedGrows(before, Exchange(m, reply), top, reply.payload.handle);
      SwitchToBrowsingContext(Some(reply.payload.handle));
      return Ok(Nothing);
    }

    /** A window or frame that navigation destroyed is forgotten and the error ignored. */
    method WaitForNavigationToComplete() returns (r: Result)
      requires Valid()
      modifies this, host
      ensures Valid()
      ensures old(toplevelBrowsingContext).None? ==> r == Fail(NoSuchWindow) && host.talk == old(host.talk)
      ensures old(toplevelBrowsingContext).Some? ==>
        && Said(old(host.talk), host.talk,
            Talk("waitForNavigationToComplete", old(toplevelBrowsingContext), old(currentBrowsingContext)))
        && var reply := host.talk[|old(host.talk)|].reply;
        && toplevelBrowsingContext == (if reply == Failure(NoSuchWindow) then None else old(toplevelBrowsingContext))
        && currentBrowsingContext == (if reply == Failure(NoSuchFrame) then None else old(currentBrowsingContext))
        && r == if WaitFails(reply) then Fail(reply.code) else Ok(Nothing)
    {
      if toplevelBrowsingContext.None? { return Fail(NoSuchWindow); }
      var reply := Send(Talk("waitForNavigationToComplete", Some(toplevelBrowsingContext.value),
        currentBrowsingContext));
      if reply.Failure? {
        if reply.code.NoSuchWindow? {
          toplevelBrowsingContext := None;
        } else if reply.code.NoSuchFrame? {
          SwitchToBrowsingContext(None);
        } else {
          return Fail(reply.code);
        }
      }
      return Ok(Nothing);
    }

    /** An element that is obscured or out of view is not clicked; an option is selected, and anything else
        gets a mouse click; then navigation is waited for. */
    method ElementClick() returns (r: Result)
      requires Valid()
      modifies this, host
      ensures Valid() && old(host.talk) <= host.talk
      ensures old(toplevelBrowsingContext).None? ==> r == Fail(NoSuchWindow) && host.talk == old(host.talk)
      ensures old(toplevelBrowsingContext).Some? ==>
        var top, frame := old(toplevelBrowsingContext).value, old(currentBrowsingContext);
        var said := host.talk[|old(host.talk)|..];
        || Stopped(unhandledPromptBehavior, top, said, r)
        || (exists n :: LaidOut(unhandledPromptBehavior, top, frame, said, n, r))
    {
      if toplevelBrowsingContext.None? { return Fail(NoSuchWindow); }
      r := HandleUserPrompts();
      if r.IsError() { return; }
      ghost var cleared := host.talk;
      r := CheckLayout();
      ghost var layout := host.talk;
      if r.Ok? { r := ClickOrSelect(); }
      LayoutDecides(unhandledPromptBehavior, old(toplevelBrowsingContext).value, old(currentBrowsingContext),
        old(host.talk), cleared, layout, host.talk, r);
    }

    method CheckLayout() returns (r: Result)
      requires Valid() && toplevelBrowsingContext.Some?
      modifies host
      ensures Valid()
      ensures Said(old(host.talk), host.talk, Talk("computeElementLayout", toplevelBrowsingContext, FrameOrMain()))
      ensures IsLayoutResult(host.talk[|old(host.talk)|].reply, r)
      ensures r.Ok? <==> ClearLayout(host.talk[|old(host.talk)|], toplevelBrowsingContext, FrameOrMain())
    {
      r := TalkFramed("computeElementLayout", FrameOrMain(), true);
      if r.IsError() { return; }
      if !r.payload.Layout? { return Fail(UnknownError); }
      if r.payload.isObscured { return Fail(ElementClickIntercepted); }
      if !r.payload.hasInViewCenter { return Fail(ElementNotInteractable); }
    }

    /** The tag name decides, where it can be had; an error there means it is no option. */
    method ClickOrSelect() returns (r: Result)
      requires Valid() && toplevelBrowsingContext.Some?
      modifies this, host
      ensures Valid() && old(host.talk) <= host.talk
      ensures ClickedByTag(unhandledPromptBehavior, old(toplevelBrowsingContext).value, old(currentBrowsingContext),
        host.talk[|old(host.talk)|..], r)
    {
      r := Command("evaluateJavaScriptFunction", true, true);
      ghost var tag, asked, n := r, host.talk, |host.talk| - |old(host.talk)|;
      r := ClickAs(r == Ok(Text("option")));
      ghost var said := host.talk[|old(host.talk)|..];
      assert said[..n] == asked[|old(host.talk)|..] && said[n..] == host.talk[|asked|..];
      assert TagDecides(unhandledPromptBehavior, old(toplevelBrowsingContext).value, old(currentBrowsingContext), said,
        n, tag, r);
    }

    /** Select or click, and wait. */
    method ClickAs(isOption: bool) returns (r: Result)
      requires Valid() && toplevelBrowsingContext.Some?
      modifies this, host
      ensures Valid() && old(host.talk) <= host.talk
      ensures ClickedAs(isOption, old(toplevelBrowsingContext).value, old(currentBrowsingContext),
        host.talk[|old(host.talk)|..], r)
    {
      if isOption {
        r := TalkFramed("selectOptionElement", FrameOrMain(), false);
      } else {
        r := TalkFramed("performMouseInteraction", None, false);
      }
      if r.IsError() { return; }
      ghost var click := host.talk[|old(host.talk)|];
      r := WaitForNavigationToComplete();
      assert host.talk[|old(host.talk)|..][0] == click;
    }

    /** Focus the element in its frame, then type into the window. */
    method ElementSendKeys() returns (r: Result)
      requires Valid()
      modifies host
      ensures Valid() && old(host.talk) <= host.talk
      ensures toplevelBrowsingContext.None? ==> r == Fail(NoSuchWindow) && host.talk == old(host.talk)
      ensures toplevelBrowsingContext.Some? ==>
        var top, said := toplevelBrowsingContext.value, host.talk[|old(host.talk)|..];
        var focus := Talk("evaluateJavaScriptFunction", Some(top), currentBrowsingContext);
        || Stopped(unhandledPromptBehavior, top, said, r)
        || (r.IsError() && Ran(unhandledPromptBehavior, top, said, focus, true, r))
        || (&& |said| >= 2 && said[|said| - 1].message == Talk("performKeyboardInteractions", Some(top), None)
            && r == Outcome(said[|said| - 1].reply, false)
            && exists focused: Result ::
                 focused.Ok? && Ran(unhandledPromptBehavior, top, said[..|said| - 1], focus, true, focused))
    {
      r := Command("evaluateJavaScriptFunction", true, true);
      if r.Ok? {
        ghost var focused, before := r, host.talk;
        r := TalkFramed("performKeyboardInteractions", None, false);
        ghost var said := host.talk[|old(host.talk)|..];
        assert said[..|said| - 1] == before[|old(host.talk)|..];
        assert Ran(unhandledPromptBehavior, toplevelBrowsingContext.value, said[..|said| - 1],
          Talk("evaluateJavaScriptFunction", toplevelBrowsingContext, currentBrowsingContext), true, focused);
      }
    }

    /** Delete Session: close the first window that the browser names until it names none or is gone. */
    method Close() returns (r: Result)
      requires Valid()
      modifies this, host
      ensures Valid() && toplevelBrowsingContext == None && old(host.talk) < host.talk
      ensures ClosesFirst(host.talk, |old(host.talk)|)
      ensures r.Ok? ==> r.payload == Handles([])
      ensures r.Ok? && host.connected ==>
        host.talk[|host.talk| - 1] == Exchange(Talk("getBrowsingContexts", None, None), Success(Handles([])))
      ensures r.IsError() && host.talk[|host.talk| - 1].reply.Failure? ==>
        r == Fail(host.talk[|host.talk| - 1].reply.code)
    {
      toplevelBrowsingContext := None;
      r := GetWindowHandles();
      while r.Ok? && r.payload.handles != []
        invariant Valid() && toplevelBrowsingContext == None && (r.Ok? ==> r.payload.Handles?)
        invariant old(host.talk) < host.talk && ClosesFirst(host.talk, |old(host.talk)|)
        invariant r.Ok? && (host.connected || r.payload.handles != []) ==>
          host.talk[|host.talk| - 1] == Exchange(Talk("getBrowsingContexts", None, None), Success(r.payload))
        invariant r.IsError() && host.talk[|host.talk| - 1].reply.Failure? ==>
          r == Fail(host.talk[|host.talk| - 1].reply.code)
        decreases |host.answers|, if r.Ok? && r.payload.handles != [] then 1 else 0
      {
        ghost var before := host.talk;
        ghost var handle := r.payload.handles[0];
        r := CloseTopLevelBrowsingContext(r.payload.handles[0]);
        ClosedGoesOn(before, host.talk, |old(host.talk)|, handle, host.connected, r);
      }
    }

    /** One client command; most of them wait for a navigation in progress first. */
    method Execute(c: ClientCommand, waits: bool) returns (r: Result)
      requires Valid()
      modifies this, host
      ensures Valid()
    {
      if waits {
        r := WaitForNavigationToComplete();
        if r.IsError() { return; }
      }
      match c
      case Query(name, framed, needsAnswer) => r := Command(name, framed, needsAnswer);
      case Direct(name, needsAnswer) => r := TalkToWindow(name, needsAnswer);
      case Navigation(kind) => r := Navigate(kind);
      case WindowChange(name, needsAnswer) => r := ChangeWindow(name, needsAnswer);
      case CloseWindow => r := CloseWindow();
      case ToWindow(handle) => r := SwitchToWindow(handle);
      case ToFrame(id) => r := SwitchToFrame(id);
      case ToParentFrame => r := SwitchToParentFrame();
      case Click => r := ElementClick();
      case SendKeys => r := ElementSendKeys();
    }
  }

  datatype ClientCommand =
    | Query(name: string, framed: bool, needsAnswer: bool)
    | Direct(name: string, needsAnswer: bool)  // the window's handle, alerts
    | Navigation(kind: NavigationKind)
    | WindowChange(name: string, needsAnswer: bool)
    | CloseWindow
    | ToWindow(handle: string)
    | ToFrame(id: FrameId)
    | ToParentFrame
    | Click
    | SendKeys

  /** A whole session, from its first window to its end, with any commands and any answers: every
      message that names a frame names the window in which the browser gave that frame out. */
  method WholeSession(browser: Browser, behavior: Option<PromptBehavior>, commands: seq<(ClientCommand, bool)>)
    requires browser.talk == []
    modifies browser
    ensures FramesFit(browser.talk)
  {
    var session := new Session(browser, behavior);
    var r := session.CreateTopLevelBrowsingContext();
    if r.IsError() { return; }
    var i := 0;
    while i < |commands|
      invariant 0 <= i <= |commands| && session.Valid() && session.host == browser && fresh(session)
    {
      r := session.Execute(commands[i].0, commands[i].1);
      i := i + 1;
    }
    r := session.Close();
  }
}

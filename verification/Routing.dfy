/** Dispatch of WebDriver requests: matching a method and a path against the table of URI templates. */
module Routing {
  import opened Options
  import opened Text

  datatype HttpMethod = Get | Post | Delete

  /** The literal tokens of the templates. */
  datatype Word =
    WAccept | WActions | WActive | WAlert | WAsync | WAttribute | WBack | WClear | WClick | WCookie | WCss |
    WDismiss | WDisplayed | WElement | WElements | WEnabled | WExecute | WForward | WFrame | WFullscreen |
    WHandles | WMaximize | WMinimize | WName | WParent | WProperty | WRect | WRefresh | WScreenshot |
    WSelected | WSession | WStatus | WSync | WText | WTimeouts | WTitle | WUrl | WValue | WWindow

  datatype Param = SessionId | ElementId | Name

  /** A token of a template: a word, or a parameter, written with a leading '$' in the table. */
  datatype Token = Lit(word: Word) | Var(param: Param)

  /** The commands, named after their handlers, in the order of the table. */
  datatype Command =
    NewSession | DeleteSession | Status | GetTimeouts | SetTimeouts | Go | GetCurrentURL | Back | Forward |
    Refresh | GetTitle | GetWindowHandle | CloseWindow | SwitchToWindow | GetWindowHandles | SwitchToFrame |
    SwitchToParentFrame | GetWindowRect | SetWindowRect | MaximizeWindow | MinimizeWindow | FullscreenWindow |
    FindElement | FindElements | FindElementFromElement | FindElementsFromElement | GetActiveElement |
    IsElementSelected | GetElementAttribute | GetElementProperty | GetElementCSSValue | GetElementText |
    GetElementTagName | GetElementRect | IsElementEnabled | ElementClick | ElementClear | ElementSendKeys |
    ExecuteScript | ExecuteAsyncScript | GetAllCookies | GetNamedCookie | AddCookie | DeleteCookie |
    DeleteAllCookies | PerformActions | ReleaseActions | DismissAlert | AcceptAlert | GetAlertText |
    SendAlertText | TakeScreenshot | TakeElementScreenshot | IsElementDisplayed

  function Spell(w: Word): string {
    match w
    case WAccept => "accept"
    case WActions => "actions"
    case WActive => "active"
    case WAlert => "alert"
    case WAsync => "async"
    case WAttribute => "attribute"
    case WBack => "back"
    case WClear => "clear"
    case WClick => "click"
    case WCookie => "cookie"
    case WCss => "css"
    case WDismiss => "dismiss"
    case WDisplayed => "displayed"
    case WElement => "element"
    case WElements => "elements"
    case WEnabled => "enabled"
    case WExecute => "execute"
    case WForward => "forward"
    case WFrame => "frame"
    case WFullscreen => "fullscreen"
    case WHandles => "handles"
    case WMaximize => "maximize"
    case WMinimize => "minimize"
    case WName => "name"
    case WParent => "parent"
    case WProperty => "property"
    case WRect => "rect"
    case WRefresh => "refresh"
    case WScreenshot => "screenshot"
    case WSelected => "selected"
    case WSession => "session"
    case WStatus => "status"
    case WSync => "sync"
    case WText => "text"
    case WTimeouts => "timeouts"
    case WTitle => "title"
    case WUrl => "url"
    case WValue => "value"
    case WWindow => "window"
  }

  function MethodOf(c: Command): HttpMethod {
    match c
    case Status => Get
    case GetTimeouts => Get
    case GetCurrentURL => Get
    case GetTitle => Get
    case GetWindowHandle => Get
    case GetWindowHandles => Get
    case GetWindowRect => Get
    case GetActiveElement => Get
    case IsElementSelected => Get
    case GetElementAttribute => Get
    case GetElementProperty => Get
    case GetElementCSSValue => Get
    case GetElementText => Get
    case GetElementTagName => Get
    case GetElementRect => Get
    case IsElementEnabled => Get
    case GetAllCookies => Get
    case GetNamedCookie => Get
    case GetAlertText => Get
    case TakeScreenshot => Get
    case TakeElementScreenshot => Get
    case IsElementDisplayed => Get
    case DeleteSession => Delete
    case CloseWindow => Delete
    case DeleteCookie => Delete
    case DeleteAllCookies => Delete
    case ReleaseActions => Delete
    case _ => Post
  }

  /** The table of URI templates, split at the slashes. */
  function Template(c: Command): seq<Token> {
    match c
    case NewSession => [Lit(WSession)]
    case DeleteSession => [Lit(WSession), Var(SessionId)]
    case Status => [Lit(WStatus)]
    case GetTimeouts => [Lit(WSession), Var(SessionId), Lit(WTimeouts)]
    case SetTimeouts => [Lit(WSession), Var(SessionId), Lit(WTimeouts)]
    case Go => [Lit(WSession), Var(SessionId), Lit(WUrl)]
    case GetCurrentURL => [Lit(WSession), Var(SessionId), Lit(WUrl)]
    case Back => [Lit(WSession), Var(SessionId), Lit(WBack)]
    case Forward => [Lit(WSession), Var(SessionId), Lit(WForward)]
    case Refresh => [Lit(WSession), Var(SessionId), Lit(WRefresh)]
    case GetTitle => [Lit(WSession), Var(SessionId), Lit(WTitle)]
    case GetWindowHandle => [Lit(WSession), Var(SessionId), Lit(WWindow)]
    case CloseWindow => [Lit(WSession), Var(SessionId), Lit(WWindow)]
    case SwitchToWindow => [Lit(WSession), Var(SessionId), Lit(WWindow)]
    case GetWindowHandles => [Lit(WSession), Var(SessionId), Lit(WWindow), Lit(WHandles)]
    case SwitchToFrame => [Lit(WSession), Var(SessionId), Lit(WFrame)]
    case SwitchToParentFrame => [Lit(WSession), Var(SessionId), Lit(WFrame), Lit(WParent)]
    case GetWindowRect => [Lit(WSession), Var(SessionId), Lit(WWindow), Lit(WRect)]
    case SetWindowRect => [Lit(WSession), Var(SessionId), Lit(WWindow), Lit(WRect)]
    case MaximizeWindow => [Lit(WSession), Var(SessionId), Lit(WWindow), Lit(WMaximize)]
    case MinimizeWindow => [Lit(WSession), Var(SessionId), Lit(WWindow), Lit(WMinimize)]
    case FullscreenWindow => [Lit(WSession), Var(SessionId), Lit(WWindow), Lit(WFullscreen)]
    case FindElement => [Lit(WSession), Var(SessionId), Lit(WElement)]
    case FindElements => [Lit(WSession), Var(SessionId), Lit(WElements)]
    case FindElementFromElement => [Lit(WSession), Var(SessionId), Lit(WElement), Var(ElementId), Lit(WElement)]
    case FindElementsFromElement => [Lit(WSession), Var(SessionId), Lit(WElement), Var(ElementId), Lit(WElements)]
    case GetActiveElement => [Lit(WSession), Var(SessionId), Lit(WElement), Lit(WActive)]
    case IsElementSelected => [Lit(WSession), Var(SessionId), Lit(WElement), Var(ElementId), Lit(WSelected)]
    case GetElementAttribute =>
      [Lit(WSession), Var(SessionId), Lit(WElement), Var(ElementId), Lit(WAttribute), Var(Name)]
    case GetElementProperty => [Lit(WSession), Var(SessionId), Lit(WElement), Var(ElementId), Lit(WProperty), Var(Name)]
    case GetElementCSSValue => [Lit(WSession), Var(SessionId), Lit(WElement), Var(ElementId), Lit(WCss), Var(Name)]
    case GetElementText => [Lit(WSession), Var(SessionId), Lit(WElement), Var(ElementId), Lit(WText)]
    case GetElementTagName => [Lit(WSession), Var(SessionId), Lit(WElement), Var(ElementId), Lit(WName)]
    case GetElementRect => [Lit(WSession), Var(SessionId), Lit(WElement), Var(ElementId), Lit(WRect)]
    case IsElementEnabled => [Lit(WSession), Var(SessionId), Lit(WElement), Var(ElementId), Lit(WEnabled)]
    case ElementClick => [Lit(WSession), Var(SessionId), Lit(WElement), Var(ElementId), Lit(WClick)]
    case ElementClear => [Lit(WSession), Var(SessionId), Lit(WElement), Var(ElementId), Lit(WClear)]
    case ElementSendKeys => [Lit(WSession), Var(SessionId), Lit(WElement), Var(ElementId), Lit(WValue)]
    case ExecuteScript => [Lit(WSession), Var(SessionId), Lit(WExecute), Lit(WSync)]
    case ExecuteAsyncScript => [Lit(WSession), Var(SessionId), Lit(WExecute), Lit(WAsync)]
    case GetAllCookies => [Lit(WSession), Var(SessionId), Lit(WCookie)]
    case GetNamedCookie => [Lit(WSession), Var(SessionId), Lit(WCookie), Var(Name)]
    case AddCookie => [Lit(WSession), Var(SessionId), Lit(WCookie)]
    case DeleteCookie => [Lit(WSession), Var(SessionId), Lit(WCookie), Var(Name)]
    case DeleteAllCookies => [Lit(WSession), Var(SessionId), Lit(WCookie)]
    case PerformActions => [Lit(WSession), Var(SessionId), Lit(WActions)]
    case ReleaseActions => [Lit(WSession), Var(SessionId), Lit(WActions)]
    case DismissAlert => [Lit(WSession), Var(SessionId), Lit(WAlert), Lit(WDismiss)]
    case AcceptAlert => [Lit(WSession), Var(SessionId), Lit(WAlert), Lit(WAccept)]
    case GetAlertText => [Lit(WSession), Var(SessionId), Lit(WAlert), Lit(WText)]
    case SendAlertText => [Lit(WSession), Var(SessionId), Lit(WAlert), Lit(WText)]
    case TakeScreenshot => [Lit(WSession), Var(SessionId), Lit(WScreenshot)]
    case TakeElementScreenshot => [Lit(WSession), Var(SessionId), Lit(WElement), Var(ElementId), Lit(WScreenshot)]
    case IsElementDisplayed => [Lit(WSession), Var(SessionId), Lit(WElement), Var(ElementId), Lit(WDisplayed)]
  }

  // ---------------------------------------------------------------- recognising words

  /** The only word that can have this length and begin with these characters. */
  function WordByKey(length: nat, c0: char, c1: char, c2: char): Option<Word> {
    match length
    case 3 =>
      if c0 == 'c' then Some(WCss)
      else if c0 == 'u' then Some(WUrl) else None
    case 4 =>
      if c0 == 'b' then Some(WBack)
      else if c0 == 'n' then Some(WName)
      else if c0 == 'r' then Some(WRect)
      else if c0 == 's' then Some(WSync)
      else if c0 == 't' then Some(WText) else None
    case 5 =>
      if c0 == 'a' && c1 == 'l' then Some(WAlert)
      else if c0 == 'a' && c1 == 's' then Some(WAsync)
      else if c0 == 'c' && c1 == 'l' && c2 == 'e' then Some(WClear)
      else if c0 == 'c' && c1 == 'l' && c2 == 'i' then Some(WClick)
      else if c0 == 'f' then Some(WFrame)
      else if c0 == 't' then Some(WTitle)
      else if c0 == 'v' then Some(WValue) else None
    case 6 =>
      if c0 == 'a' && c1 == 'c' && c2 == 'c' then Some(WAccept)
      else if c0 == 'a' && c1 == 'c' && c2 == 't' then Some(WActive)
      else if c0 == 'c' then Some(WCookie)
      else if c0 == 'p' then Some(WParent)
      else if c0 == 's' then Some(WStatus)
      else if c0 == 'w' then Some(WWindow) else None
    case 7 =>
      if c0 == 'a' then Some(WActions)
      else if c0 == 'd' then Some(WDismiss)
      else if c0 == 'e' && c1 == 'l' then Some(WElement)
      else if c0 == 'e' && c1 == 'n' then Some(WEnabled)
      else if c0 == 'e' && c1 == 'x' then Some(WExecute)
      else if c0 == 'f' then Some(WForward)
      else if c0 == 'h' then Some(WHandles)
      else if c0 == 'r' then Some(WRefresh)
      else if c0 == 's' then Some(WSession) else None
    case 8 =>
      if c0 == 'e' then Some(WElements)
      else if c0 == 'm' && c1 == 'a' then Some(WMaximize)
      else if c0 == 'm' && c1 == 'i' then Some(WMinimize)
      else if c0 == 'p' then Some(WProperty)
      else if c0 == 's' then Some(WSelected)
      else if c0 == 't' then Some(WTimeouts) else None
    case 9 =>
      if c0 == 'a' then Some(WAttribute)
      else if c0 == 'd' then Some(WDisplayed) else None
    case 10 =>
      if c0 == 'f' then Some(WFullscreen)
      else if c0 == 's' then Some(WScreenshot) else None
    case _ => None
  }

  /** The word that a token spells. */
  function Read(s: string): Option<Word> {
    if |s| < 3 then None
    else
      var w := WordByKey(|s|, s[0], s[1], s[2]);
      if w.Some? && Spell(w.value) == s then w else None
  }

  lemma {:induction false} ReadSpells(w: Word)
    ensures Read(Spell(w)) == Some(w)
  {
  }

  lemma {:induction false} WordIsFree(w: Word)
    ensures '/' !in Spell(w) && Spell(w) != "" && Spell(w)[0] != '$'
  {
    if |Spell(w)| <= 6 { ShortWordIsFree(w); } else { LongWordIsFree(w); }
  }

  lemma {:induction false} ShortWordIsFree(w: Word)
    requires |Spell(w)| <= 6
    ensures '/' !in Spell(w) && Spell(w) != "" && Spell(w)[0] != '$'
  {
  }

  lemma {:induction false} LongWordIsFree(w: Word)
    requires |Spell(w)| > 6
    ensures '/' !in Spell(w) && Spell(w)[0] != '$'
  {
  }

  // ---------------------------------------------------------------- matching

  predicate TokenMatches(t: Token, s: string) { t.Lit? ==> s == Spell(t.word) }

  /** The path tokens fit the template. */
  predicate Matches(c: Command, tokens: seq<string>) { Fits(Template(c), tokens) }

  predicate Fits(template: seq<Token>, tokens: seq<string>) {
    |tokens| == |template| && forall j | 0 <= j < |tokens| :: TokenMatches(template[j], tokens[j])
  }

  function ParamName(p: Param): string {
    match p
    case SessionId => "sessionId"
    case ElementId => "elementId"
    case Name => "name"
  }

  /** The parameters that a path gives to a template. */
  function Bindings(template: seq<Token>, tokens: seq<string>): map<string, string>
    requires |template| == |tokens|
  {
    if template == [] then map[]
    else
      var n := |template| - 1;
      var before := Bindings(template[..n], tokens[..n]);
      if template[n].Var? then before[ParamName(template[n].param) := tokens[n]] else before
  }

  /** The command for the words of a path, decided word by word. */
  function Decide(m: HttpMethod, ws: seq<Option<Word>>): Option<Command> {
    match |ws|
    case 1 => if m.Post? then Some(NewSession) else if m.Get? then Some(Status) else None
    case 2 => if m.Delete? then Some(DeleteSession) else None
    case 3 => if ws[2].None? then None else Decide3(m, ws[2].value)
    case 4 =>
      if ws[2].None? then None
      else if ws[2].value.WCookie? then
        (if m.Get? then Some(GetNamedCookie) else if m.Delete? then Some(DeleteCookie) else None)
      else if ws[3].None? then None
      else Decide4(m, ws[2].value, ws[3].value)
    case 5 => if ws[4].None? then None else Decide5(m, ws[4].value)
    case 6 =>
      if !m.Get? then None
      else if ws[4] == Some(WAttribute) then Some(GetElementAttribute)
      else if ws[4] == Some(WProperty) then Some(GetElementProperty)
      else if ws[4] == Some(WCss) then Some(GetElementCSSValue)
      else None
    case _ => None
  }

  function Decide3(m: HttpMethod, w: Word): Option<Command> {
    match (m, w)
    case (Get, WTimeouts) => Some(GetTimeouts)
    case (Get, WUrl) => Some(GetCurrentURL)
    case (Get, WTitle) => Some(GetTitle)
    case (Get, WWindow) => Some(GetWindowHandle)
    case (Get, WCookie) => Some(GetAllCookies)
    case (Get, WScreenshot) => Some(TakeScreenshot)
    case (Delete, WWindow) => Some(CloseWindow)
    case (Delete, WCookie) => Some(DeleteAllCookies)
    case (Delete, WActions) => Some(ReleaseActions)
    case (Post, WTimeouts) => Some(SetTimeouts)
    case (Post, WUrl) => Some(Go)
    case (Post, WBack) => Some(Back)
    case (Post, WForward) => Some(Forward)
    case (Post, WRefresh) => Some(Refresh)
    case (Post, WWindow) => Some(SwitchToWindow)
    case (Post, WFrame) => Some(SwitchToFrame)
    case (Post, WElement) => Some(FindElement)
    case (Post, WElements) => Some(FindElements)
    case (Post, WCookie) => Some(AddCookie)
    case (Post, WActions) => Some(PerformActions)
    case _ => None
  }

  function Decide4(m: HttpMethod, w: Word, last: Word): Option<Command> {
    match w
    case WElement => if m.Get? && last.WActive? then Some(GetActiveElement) else None
    case WFrame => if m.Post? && last.WParent? then Some(SwitchToParentFrame) else None
    case WExecute =>
      if !m.Post? then None
      else if last.WSync? then Some(ExecuteScript) else if last.WAsync? then Some(ExecuteAsyncScript) else None
    case WAlert =>
      if m.Get? && last.WText? then Some(GetAlertText)
      else if !m.Post? then None
      else if last.WText? then Some(SendAlertText)
      else if last.WDismiss? then Some(DismissAlert) else if last.WAccept? then Some(AcceptAlert) else None
    case WWindow =>
      if m.Get? then
        (if last.WHandles? then Some(GetWindowHandles) else if last.WRect? then Some(GetWindowRect) else None)
      else if !m.Post? then None
      else if last.WRect? then Some(SetWindowRect)
      else if last.WMaximize? then Some(MaximizeWindow)
      else if last.WMinimize? then Some(MinimizeWindow)
      else if last.WFullscreen? then Some(FullscreenWindow) else None
    case _ => None
  }

  function Decide5(m: HttpMethod, last: Word): Option<Command> {
    match (m, last)
    case (Get, WSelected) => Some(IsElementSelected)
    case (Get, WText) => Some(GetElementText)
    case (Get, WName) => Some(GetElementTagName)
    case (Get, WRect) => Some(GetElementRect)
    case (Get, WEnabled) => Some(IsElementEnabled)
    case (Get, WScreenshot) => Some(TakeElementScreenshot)
    case (Get, WDisplayed) => Some(IsElementDisplayed)
    case (Post, WElement) => Some(FindElementFromElement)
    case (Post, WElements) => Some(FindElementsFromElement)
    case (Post, WClick) => Some(ElementClick)
    case (Post, WClear) => Some(ElementClear)
    case (Post, WValue) => Some(ElementSendKeys)
    case _ => None
  }

  /** The word that tells commands with three tokens apart is the last one, and so on. */
  lemma {:induction false} Telling3(c: Command)
    requires |Template(c)| == 3
    ensures Template(c)[2].Lit? && Decide3(MethodOf(c), Template(c)[2].word) == Some(c)
  {
    if MethodOf(c).Post? { TellingPost3(c); } else { TellingOther3(c); }
  }

  lemma {:induction false} TellingPost3(c: Command)
    requires |Template(c)| == 3 && MethodOf(c).Post?
    ensures Template(c)[2].Lit? && Decide3(Post, Template(c)[2].word) == Some(c)
  {
  }

  lemma {:induction false} TellingOther3(c: Command)
    requires |Template(c)| == 3 && !MethodOf(c).Post?
    ensures Template(c)[2].Lit? && Decide3(MethodOf(c), Template(c)[2].word) == Some(c)
  {
  }

  lemma {:induction false} Telling4(c: Command)
    requires |Template(c)| == 4
    ensures Template(c)[2].Lit?
    ensures if Template(c)[2].word.WCookie?
      then c == GetNamedCookie || c == DeleteCookie
      else Template(c)[3].Lit? && Decide4(MethodOf(c), Template(c)[2].word, Template(c)[3].word) == Some(c)
  {
    if MethodOf(c).Post? { TellingPost4(c); } else { TellingOther4(c); }
  }

  lemma {:induction false} TellingPost4(c: Command)
    requires |Template(c)| == 4 && MethodOf(c).Post?
    ensures Template(c)[2].Lit? && !Template(c)[2].word.WCookie? && Template(c)[3].Lit?
    ensures Decide4(Post, Template(c)[2].word, Template(c)[3].word) == Some(c)
  {
  }

  lemma {:induction false} TellingOther4(c: Command)
    requires |Template(c)| == 4 && !MethodOf(c).Post?
    ensures Template(c)[2].Lit?
    ensures if Template(c)[2].word.WCookie?
      then c == GetNamedCookie || c == DeleteCookie
      else Template(c)[3].Lit? && Decide4(MethodOf(c), Template(c)[2].word, Template(c)[3].word) == Some(c)
  {
  }

  lemma {:induction false} Telling5(c: Command)
    requires |Template(c)| == 5
    ensures Template(c)[4].Lit? && Decide5(MethodOf(c), Template(c)[4].word) == Some(c)
  {
  }

  lemma {:induction false} Telling6(c: Command)
    requires |Template(c)| == 6
    ensures Template(c)[4].Lit? && MethodOf(c) == Get
    ensures match Template(c)[4].word
      case WAttribute => c == GetElementAttribute
      case WProperty => c == GetElementProperty
      case WCss => c == GetElementCSSValue
      case _ => false
  {
  }

  lemma {:induction false} Telling(c: Command)
    ensures 1 <= |Template(c)| <= 6
    ensures |Template(c)| == 1 ==> c == if MethodOf(c) == Post then NewSession else Status
    ensures |Template(c)| == 2 ==> c == DeleteSession
  {
  }

  lemma {:induction false} DecideIsComplete(c: Command, ws: seq<Option<Word>>)
    requires |ws| == |Template(c)|
    requires forall j | 0 <= j < |ws| && Template(c)[j].Lit? :: ws[j] == Some(Template(c)[j].word)
    ensures Decide(MethodOf(c), ws) == Some(c)
  {
    Telling(c);
    match |ws|
    case 3 => Telling3(c);
    case 4 => Telling4(c);
    case 5 => Telling5(c);
    case 6 => Telling6(c);
    case _ =>
  }

  function ReadAll(tokens: seq<string>): (ws: seq<Option<Word>>)
    ensures |ws| == |tokens| && forall j | 0 <= j < |ws| :: ws[j] == Read(tokens[j])
  {
    seq(|tokens|, j requires 0 <= j < |tokens| => Read(tokens[j]))
  }

  lemma {:induction false} MatchDecides(c: Command, tokens: seq<string>)
    requires Matches(c, tokens)
    ensures Decide(MethodOf(c), ReadAll(tokens)) == Some(c)
  {
    forall j | 0 <= j < |tokens| && Template(c)[j].Lit? ensures Read(tokens[j]) == Some(Template(c)[j].word) {
      assert TokenMatches(Template(c)[j], tokens[j]);
      ReadSpells(Template(c)[j].word);
    }
    DecideIsComplete(c, ReadAll(tokens));
  }

  /** Routing is unambiguous: no method and path fit two templates. */
  lemma {:induction false} AtMostOneMatches(c: Command, d: Command, tokens: seq<string>)
    requires MethodOf(c) == MethodOf(d) && Matches(c, tokens) && Matches(d, tokens)
    ensures c == d
  {
    MatchDecides(c, tokens);
    MatchDecides(d, tokens);
  }

  // ---------------------------------------------------------------- the text of a template

  /** A parameter is written with a leading '$'. */
  function SpellToken(t: Token): string {
    if t.Lit? then Spell(t.word) else "$" + ParamName(t.param)
  }

  function SpellTokens(ts: seq<Token>): (r: seq<string>)
    ensures |r| == |ts| && forall j | 0 <= j < |r| :: r[j] == SpellToken(ts[j])
  {
    seq(|ts|, j requires 0 <= j < |ts| => SpellToken(ts[j]))
  }

  function UriTemplate(ts: seq<Token>): string {
    "/" + Join(SpellTokens(ts), '/')
  }

  lemma {:induction false} SpelledIsFree(t: Token)
    ensures SpellToken(t) != "" && '/' !in SpellToken(t)
    ensures SpellToken(t)[0] == '$' <==> t.Var?
    ensures t.Var? ==> SpellToken(t)[1..] == ParamName(t.param)
  {
    if t.Lit? { WordIsFree(t.word); }
  }

  lemma {:induction false} UriTemplateSplits(ts: seq<Token>)
    ensures Split(UriTemplate(ts), '/') == SpellTokens(ts) && NoneEmpty(SpellTokens(ts))
  {
    var tokens := SpellTokens(ts);
    forall j | 0 <= j < |tokens| ensures tokens[j] != "" && '/' !in tokens[j] {
      SpelledIsFree(ts[j]);
    }
    AbsolutePathSplits(tokens);
  }

  /** A token of the path fits a token of the template's text. */
  predicate TextFits(t: string, s: string) { t == s || (t != "" && t[0] == '$') }

  predicate AllTextFits(texts: seq<string>, tokens: seq<string>) {
    |texts| == |tokens| && forall j | 0 <= j < |tokens| :: TextFits(texts[j], tokens[j])
  }

  function TextBindings(texts: seq<string>, tokens: seq<string>): map<string, string>
    requires |texts| == |tokens|
  {
    if texts == [] then map[]
    else
      var n := |texts| - 1;
      var before := TextBindings(texts[..n], tokens[..n]);
      if texts[n] != "" && texts[n][0] == '$' then before[texts[n][1..] := tokens[n]] else before
  }

  /** Comparing with the text of a template is matching the template. */
  lemma {:induction false} TextIsTemplate(ts: seq<Token>, tokens: seq<string>)
    ensures AllTextFits(SpellTokens(ts), tokens) <==> Fits(ts, tokens)
    ensures |ts| == |tokens| ==> TextBindings(SpellTokens(ts), tokens) == Bindings(ts, tokens)
  {
    forall j | 0 <= j < |ts| && |ts| == |tokens|
      ensures TextFits(SpellTokens(ts)[j], tokens[j]) <==> TokenMatches(ts[j], tokens[j])
    {
      SpelledIsFree(ts[j]);
    }
    if |ts| == |tokens| { TextBindsTemplate(ts, tokens); }
  }

  lemma {:induction false} TextBindsTemplate(ts: seq<Token>, tokens: seq<string>)
    requires |ts| == |tokens|
    ensures TextBindings(SpellTokens(ts), tokens) == Bindings(ts, tokens)
  {
    if ts != [] {
      var n := |ts| - 1;
      TextBindsTemplate(ts[..n], tokens[..n]);
      assert SpellTokens(ts)[..n] == SpellTokens(ts[..n]);
      SpelledIsFree(ts[n]);
    }
  }

  // ---------------------------------------------------------------- the search

  predicate Serves(c: Command, m: HttpMethod, tokens: seq<string>) {
    MethodOf(c) == m && Matches(c, tokens)
  }

  ghost predicate NoneServes(table: seq<Command>, m: HttpMethod, tokens: seq<string>) {
    forall i | 0 <= i < |table| :: !Serves(table[i], m, tokens)
  }

  /** What a search of the table must answer. */
  ghost predicate Answers(table: seq<Command>, m: HttpMethod, tokens: seq<string>, handler: Option<Command>,
    parameters: map<string, string>)
  {
    match handler
    case Some(c) => c in table && Serves(c, m, tokens) && parameters == Bindings(Template(c), tokens)
    case None => parameters == map[] && NoneServes(table, m, tokens)
  }

  /** `findCommand`: the first entry of the table that fits, and the parameters it binds. One map serves
      all entries; nothing of a failed entry is left in it. */
  method FindCommand(table: seq<Command>, m: HttpMethod, path: string)
      returns (handler: Option<Command>, parameters: map<string, string>)
    ensures Answers(table, m, Split(path, '/'), handler, parameters)
  {
    parameters := map[];
    var i := 0;
    while i < |table|
      invariant 0 <= i <= |table| && parameters == map[]
      invariant NoneServes(table[..i], m, Split(path, '/'))
    {
      var allMatched;
      allMatched, parameters := TryEntry(table[i], m, path, parameters);
      if allMatched {
        assert map[] + Bindings(Template(table[i]), Split(path, '/')) == Bindings(Template(table[i]), Split(path, '/'));
        return Some(table[i]), parameters;
      }
      assert table[..i + 1] == table[..i] + [table[i]];
      i := i + 1;
    }
    assert table[..i] == table;
    return None, parameters;
  }

  /** One entry: it adds its bindings to the shared parameters, and clears them when it fails half-way. */
  method TryEntry(c: Command, m: HttpMethod, path: string, parameters: map<string, string>)
    returns (allMatched: bool, bound: map<string, string>)
    ensures allMatched <==> Serves(c, m, Split(path, '/'))
    ensures if allMatched then bound == parameters + Bindings(Template(c), Split(path, '/'))
            else bound == parameters || bound == map[]
  {
    if MethodOf(c) != m { return false, parameters; }
    allMatched, bound := TryTemplate(Template(c), path, parameters);
  }

  method TryTemplate(ts: seq<Token>, path: string, parameters: map<string, string>)
    returns (allMatched: bool, bound: map<string, string>)
    ensures allMatched <==> Fits(ts, Split(path, '/'))
    ensures if allMatched then bound == parameters + Bindings(ts, Split(path, '/'))
            else bound == parameters || bound == map[]
  {
    var pathTokens := SplitInternal(path, '/', false);
    var commandTokens := SplitInternal(UriTemplate(ts), '/', false);
    UriTemplateSplits(ts);
    TextIsTemplate(ts, pathTokens);
    if |pathTokens| != |commandTokens| { return false, parameters; }
    allMatched, bound := MatchEntry(commandTokens, pathTokens, parameters);
    if !allMatched { bound := map[]; }
  }

  /** One entry of the table against the tokens of the path, adding to the parameters. */
  method MatchEntry(commandTokens: seq<string>, pathTokens: seq<string>, parameters: map<string, string>)
    returns (allMatched: bool, bound: map<string, string>)
    requires |commandTokens| == |pathTokens| && NoneEmpty(commandTokens)
    ensures allMatched <==> AllTextFits(commandTokens, pathTokens)
    ensures allMatched ==> bound == parameters + TextBindings(commandTokens, pathTokens)
  {
    bound, allMatched := parameters, true;
    var j := 0;
    while j < |pathTokens| && allMatched
      invariant 0 <= j <= |pathTokens|
      invariant allMatched ==> bound == parameters + TextBindings(commandTokens[..j], pathTokens[..j])
      invariant allMatched <==> forall k | 0 <= k < j :: TextFits(commandTokens[k], pathTokens[k])
    {
      assert commandTokens[..j + 1][..j] == commandTokens[..j] && pathTokens[..j + 1][..j] == pathTokens[..j];
      if commandTokens[j][0] == '$' {
        bound := bound[commandTokens[j][1..] := pathTokens[j]];
      } else if commandTokens[j] != pathTokens[j] {
        allMatched := false;
      }
      assert allMatched <==> TextFits(commandTokens[j], pathTokens[j]);
      j := j + 1;
    }
    if allMatched { assert commandTokens[..j] == commandTokens && pathTokens[..j] == pathTokens; }
  }

  /** The order of the table is irrelevant: any two tables with the same commands give the same answer. */
  lemma {:induction false} OrderIsIrrelevant(m: HttpMethod, tokens: seq<string>, table: seq<Command>,
    other: seq<Command>, handler: Option<Command>, parameters: map<string, string>,
    handler': Option<Command>, parameters': map<string, string>)
    requires forall c :: c in table <==> c in other
    requires Answers(table, m, tokens, handler, parameters) && Answers(other, m, tokens, handler', parameters')
    ensures handler == handler' && parameters == parameters'
  {
    if handler.Some? && handler'.Some? { AtMostOneMatches(handler.value, handler'.value, tokens); }
  }

  // ---------------------------------------------------------------- filling templates

  function Spelled(t: Token, values: map<string, string>): string
    requires t.Var? ==> ParamName(t.param) in values
  {
    if t.Lit? then Spell(t.word) else values[ParamName(t.param)]
  }

  /** Every parameter has a value that is not empty and holds no slash. */
  predicate Fillable(ts: seq<Token>, values: map<string, string>) {
    forall j | 0 <= j < |ts| && ts[j].Var? ::
      && ParamName(ts[j].param) in values
      && values[ParamName(ts[j].param)] != "" && '/' !in values[ParamName(ts[j].param)]
  }

  function FilledTokens(ts: seq<Token>, values: map<string, string>): (tokens: seq<string>)
    requires Fillable(ts, values)
    ensures |tokens| == |ts| && forall j | 0 <= j < |tokens| :: tokens[j] == Spelled(ts[j], values)
  {
    seq(|ts|, j requires 0 <= j < |ts| => Spelled(ts[j], values))
  }

  /** The path of a template with the given parameter values. */
  function Fill(ts: seq<Token>, values: map<string, string>): string
    requires Fillable(ts, values)
  {
    "/" + Join(FilledTokens(ts, values), '/')
  }

  lemma {:induction false} AbsolutePathSplits(tokens: seq<string>)
    requires NoneEmpty(tokens) && Free(tokens, '/')
    ensures Split("/" + Join(tokens, '/'), '/') == tokens
  {
    var rest := Join(tokens, '/');
    assert "/" + rest == "" + ['/'] + rest;
    SplitFirst("", rest, '/');
    assert ([""] + SplitAll(rest, '/'))[1..] == SplitAll(rest, '/');
    SplitJoin(tokens, '/');
  }

  predicate HasParam(template: seq<Token>, name: string) {
    exists j :: 0 <= j < |template| && template[j].Var? && ParamName(template[j].param) == name
  }

  /** The values of the parameters that a command has. */
  function Used(template: seq<Token>, values: map<string, string>): map<string, string> {
    map n | n in values && HasParam(template, n) :: values[n]
  }

  lemma {:induction false} FilledBindings(template: seq<Token>, tokens: seq<string>, values: map<string, string>)
    requires |template| == |tokens|
    requires forall j | 0 <= j < |template| && template[j].Var? ::
      ParamName(template[j].param) in values && tokens[j] == values[ParamName(template[j].param)]
    ensures Bindings(template, tokens) == Used(template, values)
  {
    if template != [] {
      var n := |template| - 1;
      FilledBindings(template[..n], tokens[..n], values);
      forall name
        ensures HasParam(template, name) <==>
          HasParam(template[..n], name) || (template[n].Var? && ParamName(template[n].param) == name)
      {
        assert forall j | 0 <= j < n :: template[..n][j] == template[j];
      }
    }
  }

  lemma {:induction false} FillFits(ts: seq<Token>, values: map<string, string>)
    requires Fillable(ts, values)
    ensures var tokens := Split(Fill(ts, values), '/'); Fits(ts, tokens) && Bindings(ts, tokens) == Used(ts, values)
  {
    var tokens := FilledTokens(ts, values);
    forall j | 0 <= j < |tokens| ensures tokens[j] != "" && '/' !in tokens[j] {
      if ts[j].Lit? { WordIsFree(ts[j].word); }
    }
    AbsolutePathSplits(tokens);
    FilledBindings(ts, tokens, values);
  }

  /** Filling a template with non-empty, slash-free values and looking the path up returns that command,
      with exactly those values. */
  lemma {:induction false} FillRoundTrip(c: Command, values: map<string, string>, table: seq<Command>,
    handler: Option<Command>, parameters: map<string, string>)
    requires Fillable(Template(c), values) && c in table
    requires Answers(table, MethodOf(c), Split(Fill(Template(c), values), '/'), handler, parameters)
    ensures handler == Some(c) && parameters == Used(Template(c), values)
  {
    var tokens := Split(Fill(Template(c), values), '/');
    FillFits(Template(c), values);
    OrderIsIrrelevant(MethodOf(c), tokens, table, table, handler, parameters, Some(c), Bindings(Template(c), tokens));
  }
}

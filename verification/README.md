# WebKit: keyword generator, shell agents, WebDriver session, API ownership

A Dafny model of the parts of this WebKit tree whose behaviour is hardest to see from the code, with
proofs of what they promise.

- The generator of the lexer's keyword table (`KeywordTrie`, `WideCompare`, `KeywordProgram`,
  `KeywordSpacing`, `IdentEscapes`, `KeywordGenerator`): a trie is built, compressed, weighted, sorted
  and printed as nested comparisons. The printed lines are modelled as lines and run by an interpreter
  that matches braces; the main theorem says what running them returns on any text.
- The agents of the `jsc` shell (`Agents`): threads with one lock, one shared condition, a queue per
  worker and the start handshake, as a step system over all interleavings; `AgentHistory` reads what a
  run amounts to off its schedule, `AgentProgress` shows that nobody gets stuck.
- Module path resolution in the shell (`Text`, `ModulePaths`).
- WebDriver: the table of pending commands (`SessionHost`), browsing contexts and prompts
  (`BrowsingContexts`), script results (`ScriptResults`), typing (`SendKeys`), routing (`Routing`),
  capability negotiation (`Capabilities`, and told from the request alone `CapabilityRequests`),
  New Session (`NewSession`, `BrowserVersions`), Perform Actions from the request (`Actions`) to the input
  states that are sent (`InputStates`, and told from the request alone `ActionRequests`). `Json` and
  `WebDriverTypes` hold what they work on.
- Ownership in the C API: the weak cache of class prototypes (`PrototypeCache`) and the smart pointer
  `JSRetainPtr` (`RetainPtr`). `Options` is shared by all.

Code that updates objects is modelled by classes and loops proved against functions on values; the
properties are lemmas about those functions, or hold of whole runs.

Seven promises hold only under a condition. Each has an example where it fails and its exact condition:

- The generated program needs macros for labels of at most eight characters and keywords that can be the
  names of identifiers. `LoneKeyword` shows tables that do not compile, `CompilesIffSpaced` says which
  do; besides, each keyword's member has to be declared in `CommonIdentifiers.h` and its token in the
  parser. Then the lexer is exact on every text: `GeneratedLexerIsExact`.
- A pointer move may come without coordinates, which are then read: `MoveWithoutCoordinates` is the
  example, `AcceptedIsReadableIff` the condition.
- Durations and buttons are cut to 32 bits: `LargeButtonIsLeft`, `KeepsNumbersIff`.
- A key-up may release another key than its own: `KeyUpCanDropAnotherKey` are the examples,
  `KeyUpReleasesIff` the condition for one action, `RepresentsIff` for whole sequences.
- A long timeout is reported cut to 32 bits: `LongTimeoutIsReportedShort`, `ResponseReportsIff`.
- A session may have another browser version than the one asked for: `NewerVersionIsReported`,
  `StartedGives`.
- A script result passed back as an argument may reach the browser changed: `ListsOfElementsStay`,
  `PassedBackIff`.

Check with `dafny verify dfyconfig.toml`.

## Model

| member | source | states |
|---|---|---|
| `KeywordTrie.FindInAnyOrder` | Source/JavaScriptCore/KeywordLookupGenerator.py:128-138 | siblings never backtrack, and still any sibling order gives the same lookup: only the entry whose label starts the word can answer |
| `KeywordTrie.InsertIsUpdate` | Source/JavaScriptCore/KeywordLookupGenerator.py:103-109 | for every trie, key and value, insertion is a map update on the stored table and keeps one character per edge, distinct siblings and no dead branch |
| `KeywordTrie.CoalesceNode` | Source/JavaScriptCore/KeywordLookupGenerator.py:111-126 | compressing a node keeps every answer below it and leaves a node that stores a value or has two children |
| `KeywordTrie.CoalesceKids` | Source/JavaScriptCore/KeywordLookupGenerator.py:111-126 | re-keying the children never collides: the new dictionary has one compressed entry per old entry, in order |
| `KeywordTrie.CoalesceKeepsTable` | Source/JavaScriptCore/KeywordLookupGenerator.py:111-126 | compressing a whole trie keeps the table; no inner node is a mere link; siblings still differ in their first character |
| `KeywordTrie.OrderIsStableSort` | Source/JavaScriptCore/KeywordLookupGenerator.py:128-138 | the reversed sort by weight is a permutation in descending weight with ties in the old order |
| `KeywordTrie.PickKeepsAnswers` | Source/JavaScriptCore/KeywordLookupGenerator.py:128-138 | every permutation of the children answers every word alike |
| `KeywordTrie.FillOutWeight` | Source/JavaScriptCore/KeywordLookupGenerator.py:128-138 | the weight attached to a node is the sum of the frequencies over its subtree |
| `KeywordTrie.FillOutKeepsTable` | Source/JavaScriptCore/KeywordLookupGenerator.py:128-138 | filling out keeps the table, spells the full prefixes and leaves siblings in descending weight |
| `KeywordTrie.BuildStoresTable` | Source/JavaScriptCore/KeywordLookupGenerator.py:214-219 | after any list of insertions the trie stores exactly the table of the list, the last token winning |
| `KeywordTrie.CompileStoresTable` | Source/JavaScriptCore/KeywordLookupGenerator.py:214-219 | insert all, compress, fill out: the trie handed to the printer stores exactly the keyword table |
| `WideCompare.CompareIsText` | Source/JavaScriptCore/KeywordLookupGenerator.py:222-302 | for both code unit types and every target, COMPARE_2 to COMPARE_8 hold exactly when the characters are there one by one, including the packed constants and the overlapping seven-character form |
| `WideCompare.CompareQuadIsText` | Source/JavaScriptCore/KeywordLookupGenerator.py:226-277 | a quad load equals the packed constant exactly when four characters match |
| `WideCompare.ComparePairIsText` | Source/JavaScriptCore/KeywordLookupGenerator.py:224-264 | the same for pairs, little and big endian |
| `KeywordProgram.EdgeTestDecides` | Source/JavaScriptCore/KeywordLookupGenerator.py:150-168 | the printed test of an edge, one back for three characters or not, reads inside the text and decides whether the label follows |
| `KeywordProgram.EmitRuns` | Source/JavaScriptCore/KeywordLookupGenerator.py:140-174 | running the printed lines of a node, with braces matched line by line, is walking the trie from that node |
| `KeywordProgram.WalkFindsShortest` | Source/JavaScriptCore/KeywordLookupGenerator.py:140-174 | the walk returns the shortest accepted keyword below a node, if there is one |
| `KeywordProgram.CompilesIffShortAndNamed` | Source/JavaScriptCore/KeywordLookupGenerator.py:140-168 | the printed lines of a trie, with their macros, character literals and identifier names, are C++ exactly when no compressed edge label is longer than eight characters and every stored word can be the name of an identifier |
| `KeywordProgram.ParseKeywordIsShortestMatch` | Source/JavaScriptCore/KeywordLookupGenerator.py:97-219 | for every keyword list whose program compiles, frequencies, target and long enough text, the emitted program returns the token of the shortest keyword that starts the text with no identifier part after it, shifts by it and sets it as identifier if asked to; otherwise IDENT |
| `KeywordProgram.ParseKeywordReturnsIff` | Source/JavaScriptCore/KeywordLookupGenerator.py:97-219 | an accepted keyword is returned exactly when after every keyword that is a proper prefix of it an identifier part follows in the text |
| `KeywordProgram.ParseKeywordIsUnique` | Source/JavaScriptCore/KeywordLookupGenerator.py:97-219 | on a text, whatever keyword is accepted is returned, and at most one is accepted, exactly when no accepted keyword has a prefix in the table without an identifier part after it |
| `KeywordProgram.IdentifierKeywordsAreUnique` | Source/JavaScriptCore/KeywordLookupGenerator.py:97-219 | if the character after a keyword inside a longer one is always an identifier part, the accepted keyword is unique and returned on every text |
| `KeywordProgram.ParseKeywordIsExact` | Source/JavaScriptCore/KeywordLookupGenerator.py:97-219 | end to end: if the program compiles and letters, digits, "_" and "$" are identifier parts, at most one keyword is accepted on a text and it is returned; without one the program returns IDENT |
| `KeywordProgram.MaxTokenLengthIsTight` | Source/JavaScriptCore/KeywordLookupGenerator.py:176-190 | maxTokenLength is the longest keyword plus one, and no test of the program reads at or beyond it |
| `KeywordSpacing.CompilesIffSpaced` | Source/JavaScriptCore/KeywordLookupGenerator.py:140-168 | told from the table alone: the program compiles exactly when no nine characters in a row of a keyword go without a stop, a prefix that is a keyword or after which keywords part, and every keyword can be the name of an identifier |
| `KeywordSpacing.LoneKeyword` | Source/JavaScriptCore/KeywordLookupGenerator.py:140-168 | a table of one keyword compiles exactly when the keyword has at most eight characters and can be the name of an identifier |
| `KeywordSpacing.GeneratedLexerIsExact` | Source/JavaScriptCore/KeywordLookupGenerator.py:97-219 | the whole result, told from the table and the text: for a spaced table of names and a text longer than any keyword, the token of the one keyword that stands there, with no identifier part after it in any spelling, is returned, with the shift and the identifier; or IDENT |
| `KeywordSpacing.NoStopInside` | Source/JavaScriptCore/KeywordLookupGenerator.py:111-126 | inside an edge label no keyword ends and no two keywords part |
| `IdentEscapes.IdentPartIff` | Source/JavaScriptCore/parser/Lexer.cpp:785-818 | exactly when the text at a place goes on with an identifier part: the character there, or the number spelled by an escape that starts there, in braces or of four digits |
| `IdentEscapes.BracedEscapeInText` | Source/JavaScriptCore/parser/Lexer.cpp:794-806 | a braced escape at a place of the text is an identifier part exactly when the number that all digits between the braces spell is a code point that is one |
| `IdentEscapes.HexValueIsPosition` | Source/JavaScriptCore/parser/Lexer.cpp:800-803 | the sixteen hexadecimal digits have their values, in either case, and nothing else is a digit |
| `IdentEscapes.IsIdentPartIncludingEscape` | Source/JavaScriptCore/parser/Lexer.cpp:785-818 | the checks and the loop over braced digits decide that |
| `IdentEscapes.BracedEscapeIsItsValue` | Source/JavaScriptCore/parser/Lexer.cpp:794-806 | a braced escape of any number of digits is an identifier part exactly when the number they spell is a code point that is one |
| `IdentEscapes.FourDigitEscapeIsItsValue` | Source/JavaScriptCore/parser/Lexer.cpp:808-818 | an escape of four digits is an identifier part exactly when the number they spell is one |
| `KeywordGenerator.Trie.Insert` | Source/JavaScriptCore/KeywordLookupGenerator.py:103-109 | the objects updated in place represent the inserted value trie; new nodes are fresh |
| `KeywordGenerator.Trie.Coalesce` | Source/JavaScriptCore/KeywordLookupGenerator.py:111-126 | in-place compression: the receiver keeps its label, the returned object represents the compressed node |
| `KeywordGenerator.Trie.CoalesceKeys` | Source/JavaScriptCore/KeywordLookupGenerator.py:111-120 | the loop over the children rebuilds the dictionary of compressed nodes |
| `KeywordGenerator.Trie.FillOut` | Source/JavaScriptCore/KeywordLookupGenerator.py:128-138 | in-place weights, full prefixes and sorted children are those of the value trie |
| `KeywordGenerator.Trie.FillKeys` | Source/JavaScriptCore/KeywordLookupGenerator.py:128-136 | the loop fills every child out and adds up their weights |
| `KeywordGenerator.Trie.PrintSubTree` | Source/JavaScriptCore/KeywordLookupGenerator.py:140-174 | the printer appends exactly the lines of the value trie |
| `KeywordGenerator.Trie.MaxLength` | Source/JavaScriptCore/KeywordLookupGenerator.py:176-182 | the longest full prefix |
| `KeywordGenerator.GenerateKeywordLookup` | Source/JavaScriptCore/KeywordLookupGenerator.py:184-219 | the driver prints the program and the length of the keyword list with the built-in frequencies |
| `Agents.StepKeeps` | Source/JavaScriptCore/jsc.cpp:1586-1673 | every step of every thread keeps the protocol invariant: lock, queues, condition, list and handshake |
| `Agents.Reachable` | Source/JavaScriptCore/jsc.cpp:1586-1673 | the invariant holds after every schedule, spurious wakeups included |
| `Agents.NeverUndefined` | Source/JavaScriptCore/jsc.cpp:1595-1650 | no reachable step dequeues from a missing worker, destroys a worker that is not on the list, or walks off the list |
| `Agents.EveryEnabledStepRuns` | Source/JavaScriptCore/jsc.cpp:1586-1673 | over whole runs: whatever step is enabled after a schedule is defined there and can be scheduled next |
| `Agents.EveryWorkerGetsTheLog` | Source/JavaScriptCore/jsc.cpp:1586-1650 | in every interleaving, what a registered worker received followed by its queue is the broadcast log since it registered without its own broadcasts, each once and in order |
| `Agents.SameOrderForAll` | Source/JavaScriptCore/jsc.cpp:1641-1650 | any two workers see common broadcasts in the same order |
| `Agents.StartedAgentMissesNothing` | Source/JavaScriptCore/jsc.cpp:1720-1765 | every broadcast after start returned is in the stream of the agent as long as it is registered |
| `Agents.NoLostWakeup` | Source/JavaScriptCore/jsc.cpp:1607-1673 | a parked, unsignalled thread waits for something that is not there, although messages and reports share one condition |
| `Agents.NoLostStart` | Source/JavaScriptCore/jsc.cpp:1727-1762 | the starter sleeps only while the agent has not announced itself |
| `Agents.ReportsAreFifo` | Source/JavaScriptCore/jsc.cpp:1652-1673 | each report goes to exactly one reader, first in first out |
| `Agents.MutualExclusion` | Source/JavaScriptCore/jsc.cpp:1586-1673 | at most one thread is in a critical section |
| `AgentHistory.LogIsWhatWasBroadcast` | Source/JavaScriptCore/jsc.cpp:1641-1657 | read off any schedule: the log is the broadcasts, by whom and what, in the order in which they entered, and so are the reports |
| `AgentHistory.RunIsAtomic` | Source/JavaScriptCore/jsc.cpp:1586-1673 | every interleaving amounts to its operations done at once, one after the other, in the order in which they entered: members, log, who received what, reports made and taken |
| `AgentProgress.LockIsLetGo` | Source/JavaScriptCore/jsc.cpp:1641-1657 | after any schedule the steps of the thread that holds the lock, alone, let it go; if it was in a broadcast or a report, everybody who was parked is then signalled |
| `AgentProgress.EveryThreadGetsOn` | Source/JavaScriptCore/jsc.cpp:1586-1765 | no deadlock: after any schedule there are steps that bring any thread out of the protocol or to wait for a message or report that is not there, through the handshake too |
| `AgentProgress.HandshakeHolds` | Source/JavaScriptCore/jsc.cpp:1720-1765 | a thread that waits for an agent waits for one that has announced itself or is on its way |
| `Text.SplitInternal` | Source/WTF/wtf/text/WTFString.cpp:717-772 | both split forms, with and without empty entries, return the pieces between separators |
| `Text.JoinSplitAll` | Source/WTF/wtf/text/WTFString.cpp:759-772 | joining the pieces gives the string back |
| `Text.SplitAllJoin` | Source/WTF/wtf/text/WTFString.cpp:759-772 | splitting joined separator-free pieces gives the pieces back |
| `Text.SplitJoin` | Source/WTF/wtf/text/WTFString.cpp:744-757 | the same without empty entries, for pieces that are not empty |
| `Text.SplitAllConcat` | Source/WTF/wtf/text/WTFString.cpp:759-772 | splitting a concatenation at a separator splits both parts |
| `ModulePaths.ResolvePath` | Source/JavaScriptCore/jsc.cpp:763-787 | the loops compute the root followed by the joined pieces of the walk |
| `ModulePaths.WalkIsEffect` | Source/JavaScriptCore/jsc.cpp:772-778 | a module name goes up some levels, stopping at the root, and then down some pieces, whatever the directory |
| `ModulePaths.ResolveIsNormal` | Source/JavaScriptCore/jsc.cpp:763-787 | the result has no empty, "." or ".." piece exactly when the surviving directory pieces have none; for a normal directory always |
| `ModulePaths.ExtractDropsLast` | Source/JavaScriptCore/jsc.cpp:705-723 | the directory of a path is its root and all but its last piece |
| `ModulePaths.ResolveNormalIsIdentity` | Source/JavaScriptCore/jsc.cpp:763-787 | resolving a normal absolute path is the identity |
| `ModulePaths.ResolveComposes` | Source/JavaScriptCore/jsc.cpp:763-787 | resolving "a/b" is resolving b in the directory that a resolves to |
| `ModulePaths.LastPieceDecides` | Source/JavaScriptCore/jsc.cpp:763-787 | a normal last piece goes down, "." and an empty one stay, ".." undoes the piece before it, and nothing leads above the root |
| `ModulePaths.ImportIsRelativeToReferrer` | Source/JavaScriptCore/jsc.cpp:831-871 | an import in a module is resolved relative to the directory its own name was resolved in |
| `SessionHost.FireAllFiresThePending` | Source/WebDriver/SessionHost.cpp:32-39 | a disconnection fires every handler pending at its start exactly once with an error; commands its handlers send get larger numbers and stay pending |
| `SessionHost.FireKeeps` | Source/WebDriver/SessionHost.cpp:62-90 | a reply fires its handler once and leaves the other pending handlers alone |
| `SessionHost.RunPartitionsCommands` | Source/WebDriver/SessionHost.cpp:32-90 | over every run of sends, replies and disconnections the issued numbers are split into pending and answered, and no handler fires twice |
| `SessionHost.ReplyIsHandled` | Source/WebDriver/SessionHost.cpp:62-90 | after any run, a reply ends in its own handler with its error, or its non-empty result, or nothing; the commands of that handler for this case get the next numbers, and nothing else changes |
| `SessionHost.SessionHost.SendCommandToBackend` | Source/WebDriver/SessionHost.cpp:41-60 | the next number of the shared counter is issued and its handler stored |
| `SessionHost.SessionHost.DispatchMessage` | Source/WebDriver/SessionHost.cpp:62-90 | a reply takes its handler out and calls it with the error, the non-empty result or nothing; anything else changes nothing; a reply to a command that is not pending has no handler to call, which the source asserts never happens |
| `SessionHost.SessionHost.InspectorDisconnected` | Source/WebDriver/SessionHost.cpp:32-39 | the loop over the copied keys is the value-level disconnection |
| `BrowsingContexts.WholeSession` | Source/WebDriver/Session.cpp:95-683 | for any commands and any browser answers, every message with a frame handle carries the window under which the browser gave that frame out |
| `BrowsingContexts.Session.CreateTopLevelBrowsingContext` | Source/WebDriver/Session.cpp:178-194 | one message; exactly a reply with a handle makes that window current with no frame |
| `BrowsingContexts.Session.HandleUserPrompts` | Source/WebDriver/Session.cpp:196-218 | the browser is asked about a prompt and any alert is dealt with as the client wishes; it succeeds exactly when no prompt was showing or it was closed silently |
| `BrowsingContexts.Session.HandleUnexpectedAlertOpen` | Source/WebDriver/Session.cpp:220-284 | for each behaviour exactly its messages are sent, and the outcome is success only for a silent close that worked, the error of the close, or the report of the alert |
| `BrowsingContexts.Session.NotifyAnd` | Source/WebDriver/Session.cpp:241-284 | the text is asked for, then the alert is closed, and the outcome is the error of the close or the report of the alert |
| `BrowsingContexts.Session.Command` | Source/WebDriver/Session.cpp:316-349 | without a window nothing is sent; otherwise prompts are cleared and then exactly the one message goes out with the current window and frame and its reply is the result, or a prompt stops the command |
| `BrowsingContexts.Session.Navigate` | Source/WebDriver/Session.cpp:286-430 | each of the four navigations sends its own message after the prompts, and its reply decides; on success the main frame is current again, on failure nothing changes |
| `BrowsingContexts.Session.CloseTopLevelBrowsingContext` | Source/WebDriver/Session.cpp:499-523 | the close message comes first; the windows reported are those the browser names then, and none exactly if it says so or is gone; errors are passed on |
| `BrowsingContexts.Session.CloseWindow` | Source/WebDriver/Session.cpp:525-540 | after the prompts the window is forgotten and closed, the frame handle stays behind, and the result is the windows the browser names then |
| `BrowsingContexts.Session.SwitchToWindow` | Source/WebDriver/Session.cpp:542-554 | the reply decides: success makes the named window current with no frame; failure is passed on and changes nothing |
| `BrowsingContexts.Session.SwitchToFrame` | Source/WebDriver/Session.cpp:589-647 | after the prompts the asked target is looked up in the current window and frame, and the frame in the reply is current then; errors are passed on and change nothing |
| `BrowsingContexts.TargetIff` | Source/WebDriver/Session.cpp:614-632 | which lookup a frame id leads to: an index of 16 bits, an element with an id, a name, and nothing else |
| `BrowsingContexts.Session.SwitchToParentFrame` | Source/WebDriver/Session.cpp:649-683 | the same for the parent; the main frame stays |
| `BrowsingContexts.Session.WaitForNavigationToComplete` | Source/WebDriver/Session.cpp:1466-1499 | a vanished window or frame is forgotten and the error ignored; any other error is passed on |
| `BrowsingContexts.Session.ElementClick` | Source/WebDriver/Session.cpp:1516-1566 | the whole conversation of a click: prompts, layout, and only for an element in view that nothing obscures the tag name, the selection or the click, and the wait; each failure ends it with its error |
| `BrowsingContexts.Session.CheckLayout` | Source/WebDriver/Session.cpp:908-977 | one message in the current window and frame; it succeeds exactly when the element is in view and not obscured, and says which of the two failed |
| `BrowsingContexts.Session.ClickAs` | Source/WebDriver/Session.cpp:1551-1562 | an option is selected in its frame, anything else is clicked in the window, and then navigation is waited for |
| `BrowsingContexts.Session.ElementSendKeys` | Source/WebDriver/Session.cpp:1738-1778 | typing happens exactly after the element was focused in the current frame, and its reply is the result |
| `BrowsingContexts.Session.ChangeWindow` | Source/WebDriver/Session.cpp:740-825 | exactly a window change that worked is followed by a query of the rectangle, whose reply is the result |
| `BrowsingContexts.Session.Close` | Source/WebDriver/Session.cpp:95-124 | whatever window is closed is the first one the browser had just named, and it succeeds only when the browser itself named no window any more or is gone; it ends because the browser of the model has finitely many answers to give |
| `ScriptResults.ResultIsClean` | Source/WebDriver/Session.cpp:1820-1844 | no session-node object is left at any depth of a rewritten result |
| `ScriptResults.RewritingIsIdempotent` | Source/WebDriver/Session.cpp:1820-1844 | rewriting twice is rewriting once |
| `ScriptResults.RewritingIsLocal` | Source/WebDriver/Session.cpp:1820-1844 | array lengths and object keys are kept: outside element objects every place has the rewritten value of the same place |
| `ScriptResults.ElementRoundTrip` | Source/WebDriver/Session.cpp:867-906 | an element passed back as an argument is the object the browser returned exactly when its id is not empty |
| `ScriptResults.PassedBackIff` | Source/WebDriver/Session.cpp:1820-1865 | for every script result: passed back as an argument it is the browser's own value exactly when it was an element object with a name and nothing else, or held no element at any depth and is not one to the client |
| `ScriptResults.ListsOfElementsStay` | Source/WebDriver/Session.cpp:1858-1865 | the example: a list of elements passed back reaches the browser as a list of the client's objects |
| `SendKeys.ElementSendKeys` | Source/WebDriver/Session.cpp:1780-1815 | for every text the output is the text plus one release per modifier still set; after each prefix the keyboard holds exactly the toggled modifiers, presses and releases alternate, the page sees every character and key with the modifiers held then, and nothing is held at the end |
| `SendKeys.TypeText` | Source/WebDriver/Session.cpp:1780-1815 | the same for any layout whose modifier keys carry the modifier names |
| `SendKeys.TypeKeys` | Source/WebDriver/Session.cpp:1780-1801 | the exclusive-or bit mask is the set of held modifiers |
| `SendKeys.HeldAfterIsParity` | Source/WebDriver/Session.cpp:1785-1792 | a modifier is held exactly when the text named it an odd number of times |
| `SendKeys.FollowsPlays` | Source/WebDriver/Session.cpp:1780-1801 | playing the interactions never presses a held key or releases a free one |
| `SendKeys.FollowsStrokes` | Source/WebDriver/Session.cpp:1780-1801 | the page sees the characters and keys of the text in order, each with the modifiers that are held then, and nothing else |
| `SendKeys.KeyTable` | Source/WebDriver/Session.cpp:1600-1736 | which code units are keys, and that the second set of keys repeats the first |
| `SendKeys.KeypadDigits` | Source/WebDriver/Session.cpp:1671-1690 | the digits of the keypad are named in a row |
| `SendKeys.ReleasesEmpty` | Source/WebDriver/Session.cpp:1803-1813 | the final releases leave nothing held, one per modifier |
| `SendKeys.VirtualKeysNameModifiers` | Source/WebDriver/Session.cpp:1600-1736 | in the table of keys, with its literal names, every modifier key is named after its modifier |
| `Routing.AtMostOneMatches` | Source/WebDriver/WebDriverService.cpp:111-178 | no method and path fit two templates of the table |
| `Routing.OrderIsIrrelevant` | Source/WebDriver/WebDriverService.cpp:111-222 | any two tables with the same commands give the same command and parameters for every request |
| `Routing.FillRoundTrip` | Source/WebDriver/WebDriverService.cpp:194-222 | filling a template with non-empty, slash-free values and looking it up returns that command with exactly those values |
| `Routing.FindCommand` | Source/WebDriver/WebDriverService.cpp:194-222 | the search returns an entry that fits with exactly its bindings, or nothing; one parameter map serves all entries and nothing of a failed entry is left in it |
| `Routing.MatchEntry` | Source/WebDriver/WebDriverService.cpp:205-213 | the token loop accepts exactly the fitting paths and adds their bindings |
| `Capabilities.ValidateCapabilities` | Source/WebDriver/WebDriverService.cpp:420-464 | the loop, in any member order, refuses or keeps exactly what each member deserves |
| `Capabilities.ValidatedIsTyped` | Source/WebDriver/WebDriverService.cpp:420-464 | what survives has the value types the later steps take for granted |
| `Capabilities.MergeCapabilities` | Source/WebDriver/WebDriverService.cpp:466-480 | the two copy loops, in any member order, give the required members with the alternative over them |
| `Capabilities.MergeIsDisjointUnion` | Source/WebDriver/WebDriverService.cpp:466-480 | without shadowing the merge loses nothing and does not depend on the order |
| `Capabilities.MatchCapabilities` | Source/WebDriver/WebDriverService.cpp:482-532 | matching succeeds exactly when the platform can give every member, and then adds its own values under the requested ones |
| `Capabilities.MatchKeepsRequest` | Source/WebDriver/WebDriverService.cpp:482-532 | requested values and types survive matching |
| `Capabilities.ParseIsComplete` | Source/WebDriver/WebDriverService.cpp:374-402 | a capability is set exactly when its key is there |
| `Capabilities.ResponseRoundTrip` | Source/WebDriver/WebDriverService.cpp:696-739 | the response to New Session, read as capabilities, is the session with its defaults filled in and the timeouts cut to 32 bits: no value is mixed up or lost |
| `Capabilities.ResponseReportsIff` | Source/WebDriver/WebDriverService.cpp:696-739 | everything set in the session is reported as it is exactly when no timeout exceeds the largest 32-bit integer of milliseconds |
| `Capabilities.LongTimeoutIsReportedShort` | Source/WebDriver/WebDriverService.cpp:321-346 | the example: a script timeout of 2147483648 is accepted and reported as 2147483647 |
| `Capabilities.TimeoutsRoundTrip` | Source/WebDriver/WebDriverService.cpp:733-737 | the timeouts of the response are read back as they are, cut to 32 bits |
| `Capabilities.MatchedGivesWhatWasAsked` | Source/WebDriver/WebDriverService.cpp:374-632 | a matched set gives the client every required and alternative value, each parsed |
| `Capabilities.AcceptedGivesWhatWasAsked` | Source/WebDriver/WebDriverService.cpp:374-632 | over the whole request: every entry of an accepted list comes from the item at its place, in request order, and gives the client every member of "alwaysMatch" and of that item that is neither null nor the proxy |
| `Capabilities.LeftOutCannotBeGiven` | Source/WebDriver/WebDriverService.cpp:482-632 | an alternative is left out only for a member that the platform cannot give |
| `Capabilities.ProcessCapabilities` | Source/WebDriver/WebDriverService.cpp:534-632 | the loops over the alternatives compute the accepted list or the error |
| `Capabilities.CollectKeepsOrder` | Source/WebDriver/WebDriverService.cpp:611-632 | the accepted list keeps the order of the request |
| `Capabilities.CollectDropsNothing` | Source/WebDriver/WebDriverService.cpp:611-632 | and leaves out only what does not match |
| `CapabilityRequests.ProcessIs` | Source/WebDriver/WebDriverService.cpp:420-632 | told from the members of the request alone: it is refused as invalid exactly when it is not well-formed; otherwise the list has one entry for each alternative whose members are all compatible with the platform, in the order of the request, and the entry is what was asked for there and under "alwaysMatch" and nothing else |
| `CapabilityRequests.JudgeIs` | Source/WebDriver/WebDriverService.cpp:420-464 | which members may be asked for, by name, type and value, and which are ignored |
| `CapabilityRequests.CanGiveIff` | Source/WebDriver/WebDriverService.cpp:482-532 | when the platform can give a member: names without regard to case, versions in the order of the port, the platform or any, certificates |
| `Capabilities.DefaultResponse` | Source/WebDriver/WebDriverService.cpp:696-739 | the defaults that a client is told |
| `NewSession.StartedGives` | Source/WebDriver/glib/SessionHostGlib.cpp:240-265 | the session of a browser that matches gives every asked member, with a version the asked one allows; and the asked version itself exactly when that is the browser's own string |
| `NewSession.SessionGivesWhatWasAsked` | Source/WebDriver/glib/SessionHostGlib.cpp:240-265 | over the whole request: the session of any accepted set whose browser matches gives what "alwaysMatch" and some alternative ask for |
| `NewSession.NewerVersionIsReported` | Source/WebDriver/glib/SessionHostGlib.cpp:252-265 | the example: version 2.0 is asked for, a browser of version 2.24.1 matches, and the session has 2.24.1 |
| `BrowserVersions.PlainVersion` | Source/WebDriver/glib/WebDriverServiceGLib.cpp:30-58 | versions of one to three plain numbers are read as those numbers, with zeros for the missing ones |
| `BrowserVersions.VersionsAreOrdered` | Source/WebDriver/glib/WebDriverServiceGLib.cpp:60-74 | asking for at least a version is a total order on the versions that can be read, up to equal numbers |
| `BrowserVersions.VersionsCompareAsNumbers` | Source/WebDriver/glib/WebDriverServiceGLib.cpp:60-74 | one version will do for another exactly when both can be read and, as numbers of three digits to the base 2^64, it is not smaller |
| `BrowserVersions.NewerWillDo` | Source/WebDriver/glib/WebDriverServiceGLib.cpp:60-74 | 2.24.1 will do for 2.0, but not the other way round |
| `NewSession.Service.NewSession` | Source/WebDriver/WebDriverService.cpp:635-743 | the handler is called exactly once; over the items of the request, the sets are those of the compatible alternatives in their order, they are tried up to the first whose browser is not another one, and a session exists afterwards exactly if that browser works; it has what was asked for with the name and version of the browser, and is what the response reports |
| `NewSession.SetFares` | Source/WebDriver/WebDriverService.cpp:653-743 | another browser means that the next set is tried; a connection, start or window error ends with its error; otherwise the session is reported |
| `NewSession.Service.ConnectToBrowser` | Source/WebDriver/WebDriverService.cpp:653-670 | taking the last of the reversed rest terminates and stops at the first connection error |
| `NewSession.Service.CreateSession` | Source/WebDriver/WebDriverService.cpp:672-743 | a start error or a missing window ends with an error, a browser that does not match goes on with the rest, and otherwise the session with the browser's name and version is set and reported |
| `Actions.AcceptedIsWellFormed` | Source/WebDriver/WebDriverService.cpp:1600-1808 | an accepted action carries its source id and type and every part its subtype needs |
| `Actions.ActionRoundTrip` | Source/WebDriver/WebDriverService.cpp:1600-1808 | every canonical action, of any source type and subtype, is what its form in the WebDriver specification is read as |
| `Actions.MoveWithoutCoordinates` | Source/WebDriver/WebDriverService.cpp:1743-1800 | a move without coordinates is accepted although they are read later |
| `Actions.KeepsNumbersIff` | Source/WebDriver/WebDriverService.cpp:1600-1745 | an accepted action keeps the duration the client sent exactly when it is below 2^32, and the button exactly when its number is below 2^32 or stands for no button even after the cut |
| `Actions.LargeButtonIsLeft` | Source/WebDriver/WebDriverService.cpp:1722-1741 | the example: button 4294967296 is accepted as the left one |
| `Actions.CoordinatesPresentIff` | Source/WebDriver/WebDriverService.cpp:1743-1800 | the coordinates of all moves of an accepted sequence are there exactly when the client sent both with every move |
| `Actions.AcceptedFitTheTable` | Source/WebDriver/WebDriverService.cpp:1841-1919 | every accepted sequence fits the source the table has for its id, and a source keeps its type |
| `Actions.AddSource` | Source/WebDriver/WebDriverService.cpp:1945-1949 | one turn of the regrouping loop extends the transpose by one source |
| `Actions.TickKeepsOrder` | Source/WebDriver/WebDriverService.cpp:1945-1949 | a tick holds the actions of exactly the sources that are that long, in the order of the request |
| `Actions.TicksAreNotEmpty` | Source/WebDriver/WebDriverService.cpp:1945-1949 | no tick is empty; there are as many as the longest sequence |
| `Actions.TransposeConserves` | Source/WebDriver/WebDriverService.cpp:1945-1949 | the number of actions is conserved |
| `Actions.ProjectionReturnsTheSource` | Source/WebDriver/WebDriverService.cpp:1945-1949 | with distinct ids, the ticks projected on an id are its sequence, in order |
| `Actions.InputSources.ProcessInputActionSequence` | Source/WebDriver/WebDriverService.cpp:1841-1919 | the sequence is parsed against the table, and the source registered |
| `Actions.InputSources.PerformActions` | Source/WebDriver/WebDriverService.cpp:1922-1953 | all sequences are accepted and transposed, or the request is refused; known sources never change |
| `Actions.InputSources.GetOrCreateInputSource` | Source/WebDriver/Session.cpp:2197-2203 | a source is created once and returned unchanged ever after |
| `InputStates.SourcesAreIndependent` | Source/WebDriver/Session.cpp:2271-2357 | whatever the interleaving, each source goes through the states of its own actions alone, and exactly those are sent for it |
| `InputStates.TicksPlayEachSource` | Source/WebDriver/Session.cpp:2271-2357 | a request played tick by tick is, for every source, its own sequence played alone |
| `InputStates.AcceptedIsReadableIff` | Source/WebDriver/Session.cpp:2271-2351 | everything read from the actions of an accepted request is there exactly when all its moves have both coordinates |
| `InputStates.KeyUpReleasesIff` | Source/WebDriver/Session.cpp:2314-2330 | a key-up lets its own key go and no other exactly when its key is the one let go first, or nothing is held |
| `InputStates.KeyUpCanDropAnotherKey` | Source/WebDriver/Session.cpp:2314-2330 | the examples, from nothing held: after Shift down, Control down, Shift up nothing is held while Control is down, and a key-up of "b" lets "a" go |
| `InputStates.RepresentsIff` | Source/WebDriver/Session.cpp:2314-2349 | after every prefix of any actions a source holds the keys pressed and not yet released exactly when each action is one it can follow, told by the keyboard alone: one key of each sort at a time, and no character let go under a key without one |
| `InputStates.SentKeysAreAKeyboardIff` | Source/WebDriver/Session.cpp:2314-2349 | the same for what is sent to the browser after every action of a key source |
| `InputStates.RequestKeysAreAKeyboardIff` | Source/WebDriver/Session.cpp:2271-2357 | and for every key source of a whole request played tick by tick from any table |
| `ActionRequests.RequestIsSent` | Source/WebDriver/Session.cpp:2271-2357 | a whole request, from its JSON to the message: for every source the states sent are those of its items one by one, with the place, origin and duration the client wrote, the button of the last press not let go, and, exactly when the source can follow, the keys that are down |
| `ActionRequests.RequestIff` | Source/WebDriver/WebDriverService.cpp:1841-1953 | a request is accepted exactly when every sequence declares the source that the table has for its id and all its items are acceptable |
| `ActionRequests.ItemIff` | Source/WebDriver/WebDriverService.cpp:1600-1808 | which items are acceptable for a source of which kind, by their members |
| `ActionRequests.HeaderIff` | Source/WebDriver/WebDriverService.cpp:1810-1880 | which source a sequence declares: its id, type and pointer type |
| `ActionRequests.FirstDeclares` | Source/WebDriver/Session.cpp:2197-2203 | a source is what the table had, or what the first sequence with its id declares |
| `ActionRequests.ItemIsShown` | Source/WebDriver/Session.cpp:2273-2351 | the state sent for an accepted item has its duration cut to 32 bits, and for a move its origin and both coordinates, in this order |
| `InputStates.InputStateTable.PerformAction` | Source/WebDriver/Session.cpp:2273-2351 | one action updates only its source and is shown with the resulting state; the unreachable cases are unreachable |
| `InputStates.InputStateTable.PerformActions` | Source/WebDriver/Session.cpp:2249-2357 | the nested loops send one state per action, tick by tick, unless the 32-bit count of actions is zero |
| `PrototypeCache.ChainsAreParallel` | Source/JavaScriptCore/API/JSClassRef.cpp:176-203 | the prototype chain of a cached prototype runs through the cached prototypes of the class chain |
| `PrototypeCache.CollectionKeepsMirror` | Source/JavaScriptCore/API/JSClassRef.cpp:176-203 | any garbage collection keeps cached prototypes linked like their classes |
| `PrototypeCache.AdditionKeepsMirror` | Source/JavaScriptCore/API/JSClassRef.cpp:176-203 | a class without cached prototype has no cached descendant, so adding its prototype breaks nothing |
| `PrototypeCache.Context.Prototype` | Source/JavaScriptCore/API/JSClassRef.cpp:176-203 | the cached prototype is returned, or made, linked to the live parent prototype and cached, with collections at every allocation |
| `PrototypeCache.WholeRun` | Source/JavaScriptCore/API/JSClassRef.cpp:152-203 | over every run of requests and collections the cache mirrors the class chain, and a class keeps its prototype until that is collected |
| `RetainPtr.Redirect` | Source/JavaScriptCore/API/JSRetainPtr.h:125-143 | pointing one pointer elsewhere moves exactly one reference |
| `RetainPtr.HeldIsAlive` | Source/JavaScriptCore/API/JSRetainPtr.h:42-148 | whatever a pointer holds is alive |
| `RetainPtr.JSRetainPtr.Retaining` | Source/JavaScriptCore/API/JSRetainPtr.h:44-45 | construction from a raw pointer adds one reference |
| `RetainPtr.JSRetainPtr.Adopting` | Source/JavaScriptCore/API/JSRetainPtr.h:80-93 | adoption takes over an existing reference |
| `RetainPtr.JSRetainPtr.Copying` | Source/JavaScriptCore/API/JSRetainPtr.h:95-100 | copying adds one reference |
| `RetainPtr.JSRetainPtr.Moving` | Source/JavaScriptCore/API/JSRetainPtr.h:102-105 | moving changes no count and empties the other pointer |
| `RetainPtr.JSRetainPtr.Destroy` | Source/JavaScriptCore/API/JSRetainPtr.h:107-111 | the destructor gives up the one reference held |
| `RetainPtr.JSRetainPtr.Clear` | Source/JavaScriptCore/API/JSRetainPtr.h:113-117 | the reference is given up and nothing is held |
| `RetainPtr.JSRetainPtr.LeakRef` | Source/JavaScriptCore/API/JSRetainPtr.h:119-122 | the reference passes to the caller |
| `RetainPtr.JSRetainPtr.AssignRaw` | Source/JavaScriptCore/API/JSRetainPtr.h:136-143 | counts stay exact, also for the object already held, which is never freed on the way |
| `RetainPtr.JSRetainPtr.AssignCopy` | Source/JavaScriptCore/API/JSRetainPtr.h:124-127 | the same for copies, also of the pointer itself |
| `RetainPtr.JSRetainPtr.AssignMove` | Source/JavaScriptCore/API/JSRetainPtr.h:129-134 | the same for moves; moving a pointer to itself changes nothing |
| `RetainPtr.JSRetainPtr.Swap` | Source/JavaScriptCore/API/JSRetainPtr.h:145-148 | no count changes |
| `RetainPtr.Program.Run` | Source/JavaScriptCore/API/JSRetainPtr.h:42-148 | for any program of these operations over aliased pointers and objects, every count is the number of owners and holders, nothing owned or held is freed, and what nobody owns is freed |

## Left out

- Windows path separators and the current working directory: the separator is `/`, directories are given.
- Keyword weights are kept in hundredths, as natural numbers, instead of floating point.
- KeywordSpacing.CompilesIffSpaced: the names the program uses are taken as declared, the tokens as well as the members `<keyword>Keyword` of the property names, which `Source/JavaScriptCore/runtime/CommonIdentifiers.h:225-313` declares for its own list of keywords; names are of ASCII letters, digits, `_` and `$`.
- The big-endian 64-bit quad macro, which no comparison uses.
- The slow path of the lexer near the end of the text and the tables of identifier characters: the latter are a parameter.
- JavaScript evaluation, the virtual machine and timers of the agents: script is any sequence of protocol operations; message contents are strings.
- Fair schedulers: what is proved of the agents is that everybody can get on after any schedule, not that a scheduler lets it.
- The file of keywords: the generator starts from the list of pairs that it holds.
- HTTP, JSON text, the transport to the browser and process launch: requests and replies are values.
- The width of sequence numbers: the counter does not wrap around.
- Routing.FindCommand: takes templates as lists of tokens, spells them as text and splits the text again as the source does; the mapping of HTTP method names is left out.
- The JavaScript of the individual element commands, cookies, screenshots and timeouts: they are one guarded command with or without a frame.
- BrowsingContexts.Session.Command: messages carry their name, window and frame, not the other parameters.
- BrowsingContexts.Session.Close: that it ends rests on the finite list of answers; a browser that opens a window for every one it closes is not excluded by the source.
- Error names, messages and HTTP status codes of the driver.
- Fractions in JSON numbers are represented by their whole part, and the platform hooks of capability matching are parameters.
- NewSession.Service.NewSession: what the browser answers for a set of capabilities at each step is a parameter, and the session id is left out.
- BrowserVersions.PlainVersion: spaces around the numbers are skipped only if they are ASCII, because the tables of Unicode are not part of the model.
- Floating-point seconds: timeouts are whole milliseconds.
- Actions.ActionRoundTrip: the source only reads actions; the written form is that of the WebDriver specification.
- The static value and function tables of API classes, and callbacks of API objects.
- RetainPtr.Program.Run: counts are natural numbers and operations happen one at a time.

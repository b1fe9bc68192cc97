/** The program printed for a keyword trie, line by line, and what running it returns. */
module KeywordProgram {
  import opened Options
  import opened KeywordTrie
  import opened WideCompare

  // ---------------------------------------------------------------- the printed lines

  /** A condition of the generated code: "no identifier part follows at", or the characters at
      `at`, tested with `code[at] == 'c'` for one and with COMPARE_n for more. */
  datatype Cond = NoIdentPart(at: nat) | Chars(at: nat, chars: string)

  /** One printed line (the guarded identifier assignment is one line here). `If` and `ElseIf` open
      a brace; `ElseIf` and `Close` begin with the brace that ends the block before them. */
  datatype Line =
    | If(cond: Cond)
    | ElseIf(cond: Cond)
    | Close
    | Shift(n: nat)
    | SetIdent(name: string)
    | Return(token: string)
    | ReturnIdent

  /** The test printed for the edge to `k`. Three characters below the root are tested together with
      the character before them, so that one quad load does. */
  function EdgeTest(full: string, k: Node): Cond
    requires k.fullPrefix == full + k.prefix
  {
    if |full| > 0 && |k.prefix| == 3 then Chars(|full| - 1, [k.fullPrefix[|full| - 1]] + k.prefix)
    else Chars(|full|, k.prefix)
  }

  ghost predicate FilledBelow(full: string, ks: seq<Node>) {
    forall i | 0 <= i < |ks| :: ks[i].fullPrefix == full + ks[i].prefix && Filled(ks[i])
  }

  /** The lines printed for the value of a node. */
  function EmitValue(n: Node): seq<Line> {
    if n.value.None? then []
    else [If(NoIdentPart(|n.fullPrefix|)), Shift(|n.fullPrefix|), SetIdent(n.fullPrefix), Return(n.value.value), Close]
  }

  function Emit(n: Node): seq<Line>
    requires Filled(n)
    decreases n, 1
  {
    EmitValue(n) + EmitArms(n.fullPrefix, n.kids, true)
  }

  /** The if/else-if chain over the edges `ks`; `first` says that nothing was printed before them. */
  function EmitArms(full: string, ks: seq<Node>, first: bool): seq<Line>
    requires FilledBelow(full, ks)
    decreases ks, 0
  {
    if ks == [] then (if first then [] else [Close])
    else
      var test := EdgeTest(full, ks[0]);
      [if first then If(test) else ElseIf(test)] + Emit(ks[0]) + EmitArms(full, ks[1..], false)
  }

  /** The body of parseKeyword. */
  function Program(n: Node): seq<Line>
    requires Filled(n)
  {
    Emit(n) + [ReturnIdent]
  }

  function MaxLength(n: Node): nat
    decreases n, 1
  {
    var m := MaxLengths(n.kids);
    if m > |n.fullPrefix| then m else |n.fullPrefix|
  }

  function MaxLengths(ks: seq<Node>): nat
    decreases ks, 0
  {
    if ks == [] then 0
    else
      var l, m := MaxLength(ks[0]), MaxLengths(ks[1..]);
      if l > m then l else m
  }

  // ---------------------------------------------------------------- running the lines

  /** The lexer at the start of a token: the remaining text, its code unit, the target the macros
      are expanded for, the identifier-part table, and `shouldCreateIdentifier`. */
  datatype Lexer = Lexer(input: seq<nat>, u: CodeUnit, t: Target, isPart: nat -> bool, create: bool)

  function HexValue(c: nat): (v: int)
    ensures -1 <= v < 16
  {
    if '0' as int <= c <= '9' as int then c - '0' as int
    else if 'a' as int <= c <= 'f' as int then c - 'a' as int + 10
    else if 'A' as int <= c <= 'F' as int then c - 'A' as int + 10
    else -1
  }

  predicate IdentPartIncludingEscape(lx: Lexer, at: nat)
    requires at < |lx.input|
  {
    var s := lx.input[at..];
    || lx.isPart(s[0])
    || (s[0] == '\\' as int && |s| >= 5 && s[1] == 'u' as int &&
        if s[2] == '{' as int then BracedEscape(lx, s[3..], 0)
        else
          && |s| >= 6
          && HexValue(s[2]) >= 0 && HexValue(s[3]) >= 0 && HexValue(s[4]) >= 0 && HexValue(s[5]) >= 0
          && lx.isPart(((HexValue(s[2]) * 16 + HexValue(s[3])) * 16 + HexValue(s[4])) * 16 + HexValue(s[5])))
  }

  /** The digits of `\u{...}` from the first of `s` on, with `codePoint` read so far. */
  predicate BracedEscape(lx: Lexer, s: seq<nat>, codePoint: nat) {
    if s != [] && HexValue(s[0]) >= 0 then
      codePoint * 16 + HexValue(s[0]) <= 0x10FFFF && BracedEscape(lx, s[1..], codePoint * 16 + HexValue(s[0]))
    else lx.isPart(codePoint) && s != [] && s[0] == '}' as int
  }

  /** What parseKeyword returns, how far it shifted and the identifier it set; no token is IDENT.
      A crash is a read past the text, a macro that does not exist, or unbalanced braces. */
  datatype Outcome = Done(token: Option<string>, shift: nat, ident: Option<string>) | Crash

  /** The value of a condition, or None for a crash. */
  function Eval(lx: Lexer, c: Cond): Option<bool> {
    match c
    case NoIdentPart(at) => if at < |lx.input| then Some(!IdentPartIncludingEscape(lx, at)) else None
    case Chars(at, cs) =>
      if at + |cs| > |lx.input| then None
      else if |cs| == 1 then Some(lx.input[at] == cs[0] as int)
      else if 2 <= |cs| <= 8 then Some(Compare(lx.t, lx.u, lx.input, at, cs))
      else None
  }

  /** The lines from the brace on that ends the block the first line stands in. */
  function Skip(ls: seq<Line>, depth: nat): (r: seq<Line>)
    ensures |r| <= |ls|
  {
    if ls == [] then []
    else match ls[0]
      case If(_) => Skip(ls[1..], depth + 1)
      case ElseIf(_) => if depth == 0 then ls else Skip(ls[1..], depth)
      case Close => if depth == 0 then ls else Skip(ls[1..], depth - 1)
      case _ => Skip(ls[1..], depth)
  }

  /** The lines after the whole chain whose current arm the first line stands in. */
  function SkipChain(ls: seq<Line>): (r: seq<Line>)
    ensures |r| <= |ls|
    decreases |ls|
  {
    var r := Skip(ls, 0);
    if r == [] then [] else if r[0].ElseIf? then SkipChain(r[1..]) else r[1..]
  }

  function Exec(lx: Lexer, ls: seq<Line>, shift: nat, ident: Option<string>): Outcome
    decreases |ls|, 0
  {
    if ls == [] then Crash
    else match ls[0]
      case If(c) => Branch(lx, c, ls[1..], shift, ident)
      case ElseIf(_) => Exec(lx, SkipChain(ls[1..]), shift, ident)
      case Close => Exec(lx, ls[1..], shift, ident)
      case Shift(n) => Exec(lx, ls[1..], shift + n, ident)
      case SetIdent(name) => Exec(lx, ls[1..], shift, if lx.create then Some(name) else ident)
      case Return(token) => Done(Some(token), shift, ident)
      case ReturnIdent => Done(None, shift, ident)
  }

  /** A condition in front of a block: into the block, or to what follows it. */
  function Branch(lx: Lexer, c: Cond, ls: seq<Line>, shift: nat, ident: Option<string>): Outcome
    decreases |ls|, 2
  {
    match Eval(lx, c)
    case None => Crash
    case Some(b) => if b then Exec(lx, ls, shift, ident) else Else(lx, Skip(ls, 0), shift, ident)
  }

  /** At the brace that ends a block which was not entered. */
  function Else(lx: Lexer, ls: seq<Line>, shift: nat, ident: Option<string>): Outcome
    decreases |ls|, 1
  {
    if ls == [] then Crash
    else match ls[0]
      case ElseIf(c) => Branch(lx, c, ls[1..], shift, ident)
      case _ => Exec(lx, ls[1..], shift, ident)
  }

  // ---------------------------------------------------------------- the decision the trie makes

  /** The keyword stands at the start of the text and no identifier part follows. */
  predicate Accepted(lx: Lexer, w: string) {
    TextAt(lx.input, 0, w) && |w| < |lx.input| && !IdentPartIncludingEscape(lx, |w|)
  }

  function Keyword(lx: Lexer, w: string, token: string): Outcome {
    Done(Some(token), |w|, if lx.create then Some(w) else None)
  }

  /** The walk down the trie from a node whose full prefix has been matched. */
  function Walk(lx: Lexer, n: Node): Option<Outcome>
    decreases n, 1
  {
    if n.value.Some? && Accepted(lx, n.fullPrefix) then Some(Keyword(lx, n.fullPrefix, n.value.value))
    else WalkArms(lx, n.fullPrefix, n.kids)
  }

  function WalkArms(lx: Lexer, full: string, ks: seq<Node>): Option<Outcome>
    decreases ks, 0
  {
    if ks == [] then None
    else if TextAt(lx.input, |full|, ks[0].prefix) then Walk(lx, ks[0])
    else WalkArms(lx, full, ks[1..])
  }

  // ---------------------------------------------------------------- braces balance

  lemma {:induction false} SkipStep(l: Line, ls: seq<Line>, depth: nat)
    ensures Skip([l] + ls, depth) == match l
      case If(_) => Skip(ls, depth + 1)
      case ElseIf(_) => if depth == 0 then [l] + ls else Skip(ls, depth)
      case Close => if depth == 0 then [l] + ls else Skip(ls, depth - 1)
      case _ => Skip(ls, depth)
  {
    assert ([l] + ls)[1..] == ls;
  }

  lemma {:induction false} SkipValue(n: Node, rest: seq<Line>, depth: nat)
    requires n.value.Some?
    ensures Skip(EmitValue(n) + rest, depth) == Skip(rest, depth)
  {
    var ls := EmitValue(n) + rest;
    assert Skip(ls, depth) == Skip(ls[1..], depth + 1);
    assert Skip(ls[1..], depth + 1) == Skip(ls[2..], depth + 1) by { assert ls[1..][1..] == ls[2..]; }
    assert Skip(ls[2..], depth + 1) == Skip(ls[3..], depth + 1) by { assert ls[2..][1..] == ls[3..]; }
    assert Skip(ls[3..], depth + 1) == Skip(ls[4..], depth + 1) by { assert ls[3..][1..] == ls[4..]; }
    assert Skip(ls[4..], depth + 1) == Skip(ls[5..], depth) by { assert ls[4..][1..] == ls[5..]; }
    assert ls[5..] == rest;
  }

  lemma {:induction false} SkipEmit(n: Node, rest: seq<Line>, depth: nat)
    requires Filled(n)
    ensures Skip(Emit(n) + rest, depth) == Skip(rest, depth)
    decreases n, 1
  {
    var tail := EmitArms(n.fullPrefix, n.kids, true) + rest;
    SkipArms(n.fullPrefix, n.kids, true, rest, depth);
    if n.value.Some? {
      SkipValue(n, tail, depth);
      assert Emit(n) + rest == EmitValue(n) + tail;
    } else {
      assert Emit(n) + rest == tail;
    }
  }

  lemma {:induction false} SkipArms(full: string, ks: seq<Node>, first: bool, rest: seq<Line>, depth: nat)
    requires FilledBelow(full, ks)
    ensures Skip(EmitArms(full, ks, first) + rest, if first then depth else depth + 1) == Skip(rest, depth)
    decreases ks, 0
  {
    var d := if first then depth else depth + 1;
    if ks == [] {
      if first { assert EmitArms(full, ks, first) + rest == rest; } else { SkipStep(Close, rest, d); }
    } else {
      var tail := EmitArms(full, ks[1..], false) + rest;
      var l := if first then If(EdgeTest(full, ks[0])) else ElseIf(EdgeTest(full, ks[0]));
      assert EmitArms(full, ks, first) + rest == [l] + (Emit(ks[0]) + tail);
      SkipStep(l, Emit(ks[0]) + tail, d);
      SkipEmit(ks[0], tail, depth + 1);
      SkipArms(full, ks[1..], false, rest, depth);
    }
  }

  // ---------------------------------------------------------------- the lines compute the walk

  /** Every edge label is short enough for a macro to exist. */
  predicate ShortLabels(n: Node) {
    forall i | 0 <= i < |n.kids| :: |n.kids[i].prefix| <= 8 && ShortLabels(n.kids[i])
  }

  /** Every edge label can be spelled with character literals. */
  predicate Spellable(n: Node) {
    forall i | 0 <= i < |n.kids| :: IsLiteral(n.kids[i].prefix) && Spellable(n.kids[i])
  }

  /** What a node must satisfy for its lines to run: the trie is filled, the macros it uses exist, and
      the text is longer than any full prefix below. */
  ghost predicate Runs(lx: Lexer, n: Node) {
    && WellFormed(n) && Filled(n) && ShortLabels(n) && Spellable(n)
    && IsText(lx.input, lx.u) && MaxLength(n) < |lx.input|
    && TextAt(lx.input, 0, n.fullPrefix) && IsLiteral(n.fullPrefix)
  }

  /** The same for the edges below a node with full prefix `full`. */
  ghost predicate RunsBelow(lx: Lexer, full: string, ks: seq<Node>) {
    && FilledBelow(full, ks)
    && (forall i | 0 <= i < |ks| ::
          ks[i].prefix != "" && |ks[i].prefix| <= 8 && IsLiteral(ks[i].prefix)
          && WellFormed(ks[i]) && ShortLabels(ks[i]) && Spellable(ks[i]))
    && IsText(lx.input, lx.u) && MaxLengths(ks) < |lx.input|
    && TextAt(lx.input, 0, full) && IsLiteral(full)
  }

  lemma {:induction false} FullPrefixFits(n: Node)
    ensures |n.fullPrefix| <= MaxLength(n)
  {
  }

  /** The printed test of an edge, one back or not, reads inside the text and decides whether the
      label follows. */
  lemma {:induction false} EdgeTestDecides(lx: Lexer, full: string, k: Node)
    requires RunsBelow(lx, full, [k])
    ensures Eval(lx, EdgeTest(full, k)) == Some(TextAt(lx.input, |full|, k.prefix))
  {
    assert [k][0] == k;
    assert k.fullPrefix == full + k.prefix;
    FullPrefixFits(k);
    var c := EdgeTest(full, k);
    if |full| > 0 && |k.prefix| == 3 {
      assert [full[|full| - 1]] + k.prefix == c.chars;
      OneBack(lx.input, full, k.prefix);
    }
    assert IsLiteral(c.chars);
    if |c.chars| > 1 { CompareIsText(lx.t, lx.u, lx.input, c.at, c.chars); }
  }

  /** Testing one character more, the last one matched, makes no difference. */
  lemma {:induction false} OneBack(input: seq<nat>, full: string, p: string)
    requires full != "" && TextAt(input, 0, full)
    ensures TextAt(input, |full| - 1, [full[|full| - 1]] + p) <==> TextAt(input, |full|, p)
  {
    var c, at := [full[|full| - 1]] + p, |full| - 1;
    assert input[0 + at] == full[at] as int;
    if TextAt(input, |full|, p) {
      forall i | 0 <= i < |c| ensures input[at + i] == c[i] as int {
        if i > 0 { assert input[|full| + (i - 1)] == p[i - 1] as int; }
      }
    }
    if TextAt(input, at, c) {
      forall i | 0 <= i < |p| ensures input[|full| + i] == p[i] as int {
        assert input[at + (i + 1)] == c[i + 1] as int;
      }
    }
  }

  /** The lines of a chain after its first arm begin with the brace that ends that arm. */
  lemma {:induction false} SkipToNextArm(full: string, k: Node, ks: seq<Node>, rest: seq<Line>)
    requires Filled(k) && FilledBelow(full, ks)
    ensures Skip(Emit(k) + (EmitArms(full, ks, false) + rest), 0) == EmitArms(full, ks, false) + rest
  {
    var tail := EmitArms(full, ks, false) + rest;
    SkipEmit(k, tail, 0);
    assert tail[0].Close? || tail[0].ElseIf?;
  }

  /** The line that ends an arm, and what follows it. */
  lemma {:induction false} ArmEnd(full: string, ks: seq<Node>, rest: seq<Line>)
    requires FilledBelow(full, ks)
    ensures var tail := EmitArms(full, ks, false) + rest;
      && tail != []
      && if ks == [] then tail[0] == Close && tail[1..] == rest
         else tail[0].ElseIf? && tail[1..] == Emit(ks[0]) + (EmitArms(full, ks[1..], false) + rest)
  {
    if ks != [] {
      var head, arm, more := ElseIf(EdgeTest(full, ks[0])), Emit(ks[0]), EmitArms(full, ks[1..], false);
      assert EmitArms(full, ks, false) == [head] + arm + more;
      assert [head] + arm + more + rest == [head] + (arm + (more + rest));
    }
  }

  lemma {:induction false} SkipChainFrom(ls: seq<Line>, r: seq<Line>)
    requires Skip(ls, 0) == r && r != []
    ensures SkipChain(ls) == if r[0].ElseIf? then SkipChain(r[1..]) else r[1..]
  {
  }

  /** Falling off the end of an arm leaves the whole chain. */
  lemma {:induction false} SkipChainArms(full: string, k: Node, ks: seq<Node>, rest: seq<Line>)
    requires Filled(k) && FilledBelow(full, ks)
    ensures SkipChain(Emit(k) + (EmitArms(full, ks, false) + rest)) == rest
    decreases |ks|
  {
    var tail := EmitArms(full, ks, false) + rest;
    SkipToNextArm(full, k, ks, rest);
    ArmEnd(full, ks, rest);
    SkipChainFrom(Emit(k) + tail, tail);
    if ks != [] { SkipChainArms(full, ks[0], ks[1..], rest); }
  }

  lemma {:induction false} ChainEnds(lx: Lexer, full: string, ks: seq<Node>, rest: seq<Line>)
    requires FilledBelow(full, ks)
    ensures Exec(lx, EmitArms(full, ks, false) + rest, 0, None) == Exec(lx, rest, 0, None)
  {
    ArmEnd(full, ks, rest);
    if ks != [] { SkipChainArms(full, ks[0], ks[1..], rest); }
  }

  lemma {:induction false} ValueRuns(lx: Lexer, n: Node, rest: seq<Line>)
    requires n.value.Some? && TextAt(lx.input, 0, n.fullPrefix) && |n.fullPrefix| < |lx.input|
    ensures Exec(lx, EmitValue(n) + rest, 0, None)
         == if Accepted(lx, n.fullPrefix) then Keyword(lx, n.fullPrefix, n.value.value) else Exec(lx, rest, 0, None)
  {
    var ls := EmitValue(n) + rest;
    var l := |n.fullPrefix|;
    assert Exec(lx, ls, 0, None) == Branch(lx, NoIdentPart(l), ls[1..], 0, None);
    assert ls[1..][1..] == ls[2..] && ls[2..][1..] == ls[3..] && ls[3..][1..] == ls[4..] && ls[4..][1..] == ls[5..];
    assert ls[5..] == rest;
    if Accepted(lx, n.fullPrefix) {
      var id := if lx.create then Some(n.fullPrefix) else None;
      assert Exec(lx, ls[3..], l, id) == Done(Some(n.value.value), l, id);
      assert Exec(lx, ls[2..], l, None) == Exec(lx, ls[3..], l, id);
      assert Exec(lx, ls[1..], 0, None) == Exec(lx, ls[2..], l, None);
    } else {
      assert Skip(ls[4..], 0) == ls[4..];
      assert Skip(ls[3..], 0) == Skip(ls[4..], 0);
      assert Skip(ls[2..], 0) == Skip(ls[3..], 0);
      assert Skip(ls[1..], 0) == Skip(ls[2..], 0);
      assert Else(lx, ls[4..], 0, None) == Exec(lx, ls[5..], 0, None);
    }
  }

  function OrElse(o: Option<Outcome>, other: Outcome): Outcome { if o.Some? then o.value else other }

  lemma {:induction false} RunsGoesDown(lx: Lexer, n: Node)
    requires Runs(lx, n)
    ensures |n.fullPrefix| < |lx.input| && RunsBelow(lx, n.fullPrefix, n.kids)
  {
    FullPrefixFits(n);
  }

  /** Running the lines of a node walks the trie from it, and runs on if the walk finds nothing. */
  lemma {:induction false} EmitRuns(lx: Lexer, n: Node, rest: seq<Line>)
    requires Runs(lx, n)
    ensures Exec(lx, Emit(n) + rest, 0, None) == OrElse(Walk(lx, n), Exec(lx, rest, 0, None))
    decreases n, 1
  {
    RunsGoesDown(lx, n);
    ArmsRun(lx, n.fullPrefix, n.kids, true, rest);
    EmitSplits(n, rest);
    if n.value.Some? { ValueRuns(lx, n, EmitArms(n.fullPrefix, n.kids, true) + rest); }
    WalkSplits(lx, n);
  }

  lemma {:induction false} EmitSplits(n: Node, rest: seq<Line>)
    requires Filled(n)
    ensures var tail := EmitArms(n.fullPrefix, n.kids, true) + rest;
      Emit(n) + rest == if n.value.Some? then EmitValue(n) + tail else tail
  {
    var value, arms := EmitValue(n), EmitArms(n.fullPrefix, n.kids, true);
    assert value + arms + rest == value + (arms + rest);
    if n.value.None? { assert value + (arms + rest) == arms + rest; }
  }

  lemma {:induction false} WalkSplits(lx: Lexer, n: Node)
    ensures Walk(lx, n) == if n.value.Some? && Accepted(lx, n.fullPrefix)
      then Some(Keyword(lx, n.fullPrefix, n.value.value))
                           else WalkArms(lx, n.fullPrefix, n.kids)
  {
  }

  /** The head of a chain and what follows it. */
  lemma {:induction false} ArmHead(full: string, ks: seq<Node>, first: bool, rest: seq<Line>)
    requires FilledBelow(full, ks) && ks != []
    ensures var ls, test := EmitArms(full, ks, first) + rest, EdgeTest(full, ks[0]);
      && ls != [] && ls[0] == (if first then If(test) else ElseIf(test))
      && ls[1..] == Emit(ks[0]) + (EmitArms(full, ks[1..], false) + rest)
  {
    var head := if first then If(EdgeTest(full, ks[0])) else ElseIf(EdgeTest(full, ks[0]));
    var arm, more := Emit(ks[0]), EmitArms(full, ks[1..], false);
    assert EmitArms(full, ks, first) == [head] + arm + more;
    assert [head] + arm + more + rest == [head] + (arm + (more + rest));
  }

  /** Arriving at a head is deciding its test. */
  lemma {:induction false} HeadBranches(lx: Lexer, ls: seq<Line>, c: Cond, first: bool)
    requires ls != [] && ls[0] == if first then If(c) else ElseIf(c)
    ensures (if first then Exec(lx, ls, 0, None) else Else(lx, ls, 0, None)) == Branch(lx, c, ls[1..], 0, None)
  {
  }

  lemma {:induction false} ArmsRun(lx: Lexer, full: string, ks: seq<Node>, first: bool, rest: seq<Line>)
    requires RunsBelow(lx, full, ks)
    ensures var ls := EmitArms(full, ks, first) + rest;
      (if first then Exec(lx, ls, 0, None) else Else(lx, ls, 0, None))
      == OrElse(WalkArms(lx, full, ks), Exec(lx, rest, 0, None))
    decreases ks, 0
  {
    var ls := EmitArms(full, ks, first) + rest;
    if ks == [] {
      if first { assert ls == rest; } else { assert ls[1..] == rest; }
    } else {
      var k, ks' := ks[0], ks[1..];
      var tail := EmitArms(full, ks', false) + rest;
      ArmHead(full, ks, first, rest);
      HeadBranches(lx, ls, EdgeTest(full, k), first);
      OneArm(lx, full, ks);
      EdgeTestDecides(lx, full, k);
      if TextAt(lx.input, |full|, k.prefix) {
        EmitRuns(lx, k, tail);
        ChainEnds(lx, full, ks', rest);
      } else {
        SkipToNextArm(full, k, ks', rest);
        ArmsRun(lx, full, ks', false, rest);
      }
    }
  }

  /** The conditions on a chain, for its first edge, the node below it, and the other edges. */
  lemma {:induction false} OneArm(lx: Lexer, full: string, ks: seq<Node>)
    requires RunsBelow(lx, full, ks) && ks != []
    ensures RunsBelow(lx, full, [ks[0]]) && RunsBelow(lx, full, ks[1..])
    ensures TextAt(lx.input, |full|, ks[0].prefix) ==> Runs(lx, ks[0])
  {
    var k := ks[0];
    assert k.fullPrefix == full + k.prefix;
    assert MaxLengths([k]) == MaxLength(k) by { assert [k][1..] == []; }
    if TextAt(lx.input, |full|, k.prefix) {
      forall i | 0 <= i < |k.fullPrefix| ensures lx.input[i] == k.fullPrefix[i] as int {
        if i >= |full| { assert lx.input[|full| + (i - |full|)] == k.prefix[i - |full|] as int; }
      }
    }
  }

  // ---------------------------------------------------------------- the walk finds the shortest keyword

  lemma {:induction false} WalkArmsPicks(lx: Lexer, full: string, ks: seq<Node>, i: nat)
    requires Forked(ks) && i < |ks| && TextAt(lx.input, |full|, ks[i].prefix)
    ensures WalkArms(lx, full, ks) == Walk(lx, ks[i])
  {
    if i > 0 {
      assert !TextAt(lx.input, |full|, ks[0].prefix);
      assert ks[1..][i - 1] == ks[i];
      WalkArmsPicks(lx, full, ks[1..], i - 1);
    }
  }

  lemma {:induction false} WalkArmsNone(lx: Lexer, full: string, ks: seq<Node>)
    requires forall i | 0 <= i < |ks| :: !TextAt(lx.input, |full|, ks[i].prefix)
    ensures WalkArms(lx, full, ks) == None
  {
    if ks != [] { WalkArmsNone(lx, full, ks[1..]); }
  }

  /** The word below an edge and the word that starts with the edge. */
  lemma {:induction false} EdgeWord(n: Node, i: nat, u: string)
    requires WellFormed(n) && i < |n.kids|
    ensures Find(n, n.kids[i].prefix + u) == Find(n.kids[i], u)
  {
    var p := n.kids[i].prefix;
    FindInAnyOrder(n.kids, p + u, i);
    assert (p + u)[|p|..] == u;
  }

  /** An accepted word that does not end at `n` continues along an edge whose label is in the text. */
  lemma {:induction false} NextEdge(lx: Lexer, n: Node, u: string) returns (j: nat)
    requires WellFormed(n) && Filled(n) && u != "" && Find(n, u).Some? && Accepted(lx, n.fullPrefix + u)
    ensures j < |n.kids| && n.kids[j].prefix <= u && TextAt(lx.input, |n.fullPrefix|, n.kids[j].prefix)
    ensures var v := u[|n.kids[j].prefix|..];
      Find(n.kids[j], v).Some? && n.kids[j].fullPrefix + v == n.fullPrefix + u
  {
    FindInByFirst(n.kids, u);
    j :| 0 <= j < |n.kids| && n.kids[j].prefix[0] == u[0];
    LabelInText(lx.input, n.fullPrefix, n.kids[j].prefix, u);
  }

  lemma {:induction false} LabelInText(input: seq<nat>, full: string, p: string, u: string)
    requires TextAt(input, 0, full + u) && p <= u
    ensures TextAt(input, |full|, p) && (full + p) + u[|p|..] == full + u
  {
    forall k | 0 <= k < |p| ensures input[|full| + k] == p[k] as int {
      assert (full + u)[|full| + k] == u[k] == p[k];
      assert input[0 + (|full| + k)] == (full + u)[|full| + k] as int;
    }
  }

  /** The walk from `n` returned `w`, or there is nothing to return. */
  ghost predicate WalkReturns(lx: Lexer, n: Node, w: string) {
    Walk(lx, n).Some? ==>
      Find(n, w).Some? && Accepted(lx, n.fullPrefix + w)
        && Walk(lx, n).value == Keyword(lx, n.fullPrefix + w, Find(n, w).value)
  }

  /** The walk finds something if any keyword below is accepted, and `w` is no longer than any of these. */
  ghost predicate WalkIsShortest(lx: Lexer, n: Node, w: string) {
    forall u :: Find(n, u).Some? && Accepted(lx, n.fullPrefix + u) ==> Walk(lx, n).Some? && |w| <= |u|
  }

  /** The walk from a matched node returns the shortest accepted keyword below it, if there is one. */
  lemma {:induction false} WalkFindsShortest(lx: Lexer, n: Node) returns (w: string)
    requires WellFormed(n) && Filled(n) && TextAt(lx.input, 0, n.fullPrefix)
    ensures WalkReturns(lx, n, w) && WalkIsShortest(lx, n, w)
    decreases n
  {
    assert n.fullPrefix + "" == n.fullPrefix;
    w := "";
    if n.value.Some? && Accepted(lx, n.fullPrefix) {
    } else if i :| 0 <= i < |n.kids| && TextAt(lx.input, |n.fullPrefix|, n.kids[i].prefix) {
      var k := n.kids[i];
      TextAtConcat(lx.input, n.fullPrefix, k.prefix);
      var w' := WalkFindsShortest(lx, k);
      w := k.prefix + w';
      WalkThroughEdge(lx, n, i, w');
    } else {
      WalkArmsNone(lx, n.fullPrefix, n.kids);
      forall u | Find(n, u).Some? && Accepted(lx, n.fullPrefix + u) ensures false { var j := NextEdge(lx, n, u); }
    }
  }

  lemma {:induction false} WalkThroughEdge(lx: Lexer, n: Node, i: nat, w: string)
    requires WellFormed(n) && Filled(n) && !(n.value.Some? && Accepted(lx, n.fullPrefix))
    requires i < |n.kids| && TextAt(lx.input, |n.fullPrefix|, n.kids[i].prefix)
    requires WalkReturns(lx, n.kids[i], w) && WalkIsShortest(lx, n.kids[i], w)
    ensures WalkReturns(lx, n, n.kids[i].prefix + w) && WalkIsShortest(lx, n, n.kids[i].prefix + w)
  {
    var k := n.kids[i];
    WalkSplits(lx, n);
    WalkArmsPicks(lx, n.fullPrefix, n.kids, i);
    EdgeWord(n, i, w);
    assert n.fullPrefix + (k.prefix + w) == k.fullPrefix + w;
    forall u | Find(n, u).Some? && Accepted(lx, n.fullPrefix + u) ensures Walk(lx, n).Some? && |k.prefix + w| <= |u| {
      var v := WordThroughEdge(lx, n, i, u);
    }
  }

  /** An accepted word below `n` goes along the edge in the text. */
  lemma {:induction false} WordThroughEdge(lx: Lexer, n: Node, i: nat, u: string) returns (v: string)
    requires WellFormed(n) && Filled(n) && !(n.value.Some? && Accepted(lx, n.fullPrefix))
    requires i < |n.kids| && TextAt(lx.input, |n.fullPrefix|, n.kids[i].prefix)
    requires Find(n, u).Some? && Accepted(lx, n.fullPrefix + u)
    ensures u == n.kids[i].prefix + v && Find(n.kids[i], v).Some? && Accepted(lx, n.kids[i].fullPrefix + v)
  {
    assert n.fullPrefix + "" == n.fullPrefix;
    var j := NextEdge(lx, n, u);
    SameEdge(lx, n, i, j);
    v := u[|n.kids[i].prefix|..];
  }

  lemma {:induction false} TextAtConcat(input: seq<nat>, a: string, b: string)
    requires TextAt(input, 0, a) && TextAt(input, |a|, b)
    ensures TextAt(input, 0, a + b)
  {
    forall i | 0 <= i < |a + b| ensures input[0 + i] == (a + b)[i] as int {
      if i >= |a| { assert input[|a| + (i - |a|)] == b[i - |a|] as int; }
    }
  }

  /** The text can follow one edge only. */
  lemma {:induction false} SameEdge(lx: Lexer, n: Node, i: nat, j: nat)
    requires WellFormed(n) && i < |n.kids| && j < |n.kids|
    requires TextAt(lx.input, |n.fullPrefix|, n.kids[i].prefix) && TextAt(lx.input, |n.fullPrefix|, n.kids[j].prefix)
    ensures i == j
  {
    assert lx.input[|n.fullPrefix| + 0] == n.kids[i].prefix[0] as int
      && lx.input[|n.fullPrefix| + 0] == n.kids[j].prefix[0] as int;
  }

  // ---------------------------------------------------------------- labels, macros and bounds

  /** A node that stores or branches leads to a stored word. */
  lemma {:induction false} SomeWord(n: Node) returns (w: string)
    requires Tight(n)
    ensures Find(n, w).Some?
    decreases n
  {
    if n.value.Some? { return ""; }
    var u := SomeWord(n.kids[0]);
    EdgeWord(n, 0, u);
    return n.kids[0].prefix + u;
  }

  /** Labels are spelled like the keywords they lead to. */
  lemma {:induction false} LabelsAreLiterals(n: Node)
    requires WellFormed(n) && Compact(n) && forall w :: Find(n, w).Some? ==> IsLiteral(w)
    ensures Spellable(n)
    decreases n
  {
    forall i | 0 <= i < |n.kids| ensures IsLiteral(n.kids[i].prefix) && Spellable(n.kids[i]) {
      var k := n.kids[i];
      forall u | Find(k, u).Some? ensures IsLiteral(u) && IsLiteral(k.prefix) {
        EdgeWord(n, i, u);
        assert forall j | 0 <= j < |u| :: u[j] == (k.prefix + u)[|k.prefix| + j];
        assert forall j | 0 <= j < |k.prefix| :: k.prefix[j] == (k.prefix + u)[j];
      }
      var w := SomeWord(k);
      LabelsAreLiterals(k);
    }
  }

  /** No keyword is longer than the longest full prefix. */
  lemma {:induction false} MaxLengthIsBound(n: Node, u: string)
    requires WellFormed(n) && Filled(n) && Find(n, u).Some?
    ensures |n.fullPrefix| + |u| <= MaxLength(n)
    decreases n
  {
    if u != "" {
      FindInByFirst(n.kids, u);
      var j :| 0 <= j < |n.kids| && n.kids[j].prefix[0] == u[0];
      MaxLengthIsBound(n.kids[j], u[|n.kids[j].prefix|..]);
      var _ := MaxLengthsAt(n.kids, j);
    }
  }

  /** The longest full prefix belongs to a keyword. */
  lemma {:induction false} MaxLengthIsReached(n: Node) returns (w: string)
    requires WellFormed(n) && Filled(n) && Compact(n)
    ensures n.value.Some? || n.kids != [] ==> Find(n, w).Some? && |n.fullPrefix| + |w| == MaxLength(n)
    decreases n
  {
    w := "";
    if n.kids != [] {
      var i := MaxLengthsAt(n.kids, 0);
      var u := MaxLengthIsReached(n.kids[i]);
      EdgeWord(n, i, u);
      w := n.kids[i].prefix + u;
    }
  }

  lemma {:induction false} MaxLengthsAt(ks: seq<Node>, j: nat) returns (i: nat)
    requires j < |ks|
    ensures MaxLength(ks[j]) <= MaxLengths(ks)
    ensures i < |ks| && MaxLength(ks[i]) == MaxLengths(ks)
    decreases ks
  {
    if |ks| == 1 { return 0; }
    var i' := MaxLengthsAt(ks[1..], if j == 0 then 0 else j - 1);
    return if MaxLength(ks[0]) > MaxLengths(ks[1..]) then 0 else i' + 1;
  }

  /** A character that may stand in a C++ identifier, as the compilers for WebKit take them. */
  predicate NameChar(c: char) { 'a' <= c <= 'z' || 'A' <= c <= 'Z' || '0' <= c <= '9' || c == '_' || c == '$' }

  /** With "Keyword" after it, `w` is a C++ identifier. */
  predicate Names(w: string) { (forall i | 0 <= i < |w| :: NameChar(w[i])) && (w != "" ==> !('0' <= w[0] <= '9')) }

  /** A character that stands for itself between single quotes. */
  predicate QuotesItself(c: char) { 32 <= c as int < 127 && c != '\'' && c != '\\' }

  /** A macro for the test exists, and its characters can be written as literals. */
  predicate CondCompiles(c: Cond) {
    c.Chars? ==> 1 <= |c.chars| <= 8 && forall i | 0 <= i < |c.chars| :: QuotesItself(c.chars[i])
  }

  predicate LineCompiles(l: Line) {
    match l
    case If(c) => CondCompiles(c)
    case ElseIf(c) => CondCompiles(c)
    case SetIdent(name) => Names(name)
    case _ => true
  }

  /** The lines are C++, given that the names they use are declared. */
  predicate Compiles(ls: seq<Line>) { forall i | 0 <= i < |ls| :: LineCompiles(ls[i]) }

  /** Every test reads below `limit`: an identifier-part check starts there, characters end there. */
  predicate ReadsBelow(ls: seq<Line>, limit: nat) {
    forall i | 0 <= i < |ls| && (ls[i].If? || ls[i].ElseIf?) ::
      if ls[i].cond.NoIdentPart? then ls[i].cond.at < limit else ls[i].cond.at + |ls[i].cond.chars| < limit
  }

  lemma {:induction false} CompilesConcat(a: seq<Line>, b: seq<Line>)
    ensures Compiles(a + b) <==> Compiles(a) && Compiles(b)
  {
    forall i | 0 <= i < |b| ensures b[i] == (a + b)[|a| + i] {}
    assert forall i | 0 <= i < |a| :: a[i] == (a + b)[i];
  }

  /** The value and every edge below `n` can be printed. */
  predicate Printable(n: Node)
    requires Filled(n)
  {
    && (n.value.Some? ==> Names(n.fullPrefix))
    && forall i | 0 <= i < |n.kids| :: CondCompiles(EdgeTest(n.fullPrefix, n.kids[i])) && Printable(n.kids[i])
  }

  lemma {:induction false} CompilesIffPrintable(n: Node)
    requires Filled(n)
    ensures Compiles(Emit(n)) <==> Printable(n)
    decreases n, 1
  {
    CompilesConcat(EmitValue(n), EmitArms(n.fullPrefix, n.kids, true));
    ValueCompiles(n);
    ArmsCompile(n.fullPrefix, n.kids, true);
  }

  lemma {:induction false} ValueCompiles(n: Node)
    ensures Compiles(EmitValue(n)) <==> (n.value.Some? ==> Names(n.fullPrefix))
  {
    if n.value.Some? { assert EmitValue(n)[2] == SetIdent(n.fullPrefix); }
  }

  lemma {:induction false} ArmsCompile(full: string, ks: seq<Node>, first: bool)
    requires FilledBelow(full, ks)
    ensures Compiles(EmitArms(full, ks, first)) <==>
      forall i | 0 <= i < |ks| :: CondCompiles(EdgeTest(full, ks[i])) && Printable(ks[i])
    decreases ks, 0
  {
    if ks != [] {
      var head := [if first then If(EdgeTest(full, ks[0])) else ElseIf(EdgeTest(full, ks[0]))];
      CompilesConcat(head + Emit(ks[0]), EmitArms(full, ks[1..], false));
      CompilesConcat(head, Emit(ks[0]));
      CompilesIffPrintable(ks[0]);
      ArmsCompile(full, ks[1..], false);
      assert Compiles(head) <==> CondCompiles(EdgeTest(full, ks[0])) by {
        assert LineCompiles(head[0]) <==> CondCompiles(EdgeTest(full, ks[0]));
      }
      assert forall i | 1 <= i < |ks| :: ks[i] == ks[1..][i - 1];
    }
  }

  /** Every word below `n` can be named. */
  ghost predicate AllNamed(n: Node) { forall u :: Find(n, u).Some? ==> Names(n.fullPrefix + u) }

  /** The edge a word takes. */
  lemma {:induction false} TakesEdge(n: Node, w: string) returns (i: nat)
    requires WellFormed(n) && Find(n, w).Some? && w != ""
    ensures i < |n.kids| && n.kids[i].prefix <= w && Find(n.kids[i], w[|n.kids[i].prefix|..]).Some?
  {
    if forall j | 0 <= j < |n.kids| :: !(n.kids[j].prefix <= w) {
      FindInNowhere(n.kids, w);
      assert false;
    }
    i :| 0 <= i < |n.kids| && n.kids[i].prefix <= w;
    EdgeWord(n, i, w[|n.kids[i].prefix|..]);
    assert w == n.kids[i].prefix + w[|n.kids[i].prefix|..];
  }

  /** A label has a macro exactly when it has at most eight characters; those of a name can be quoted. */
  lemma {:induction false} EdgeCompilesIff(full: string, k: Node, w: string)
    requires k.fullPrefix == full + k.prefix && k.prefix != "" && k.fullPrefix <= w && Names(w)
    ensures CondCompiles(EdgeTest(full, k)) <==> |k.prefix| <= 8
  {
    var chars := EdgeTest(full, k).chars;
    forall i | 0 <= i < |chars| ensures QuotesItself(chars[i]) { assert NameChar(w[EdgeTest(full, k).at + i]); }
  }

  lemma {:induction false} LabelIsShort(full: string, k: Node)
    requires k.fullPrefix == full + k.prefix && CondCompiles(EdgeTest(full, k))
    ensures |k.prefix| <= 8
  {
  }

  lemma {:induction false} NamedBelow(n: Node, i: nat)
    requires WellFormed(n) && Filled(n) && i < |n.kids| && AllNamed(n)
    ensures AllNamed(n.kids[i])
  {
    var k := n.kids[i];
    forall u | Find(k, u).Some? ensures Names(k.fullPrefix + u) {
      EdgeWord(n, i, u);
      assert n.fullPrefix + (k.prefix + u) == k.fullPrefix + u;
    }
  }

  lemma {:induction false} NamedIsPrintable(n: Node)
    requires WellFormed(n) && Compact(n) && Filled(n) && ShortLabels(n) && AllNamed(n)
    ensures Printable(n)
    decreases n
  {
    assert n.fullPrefix + "" == n.fullPrefix;
    forall i | 0 <= i < |n.kids| ensures CondCompiles(EdgeTest(n.fullPrefix, n.kids[i])) && Printable(n.kids[i]) {
      NamedBelow(n, i);
      var u := SomeWord(n.kids[i]);
      EdgeCompilesIff(n.fullPrefix, n.kids[i], n.kids[i].fullPrefix + u);
      NamedIsPrintable(n.kids[i]);
    }
  }

  lemma {:induction false} PrintableIsShort(n: Node)
    requires Filled(n) && Printable(n)
    ensures ShortLabels(n)
    decreases n
  {
    forall i | 0 <= i < |n.kids| ensures |n.kids[i].prefix| <= 8 && ShortLabels(n.kids[i]) {
      LabelIsShort(n.fullPrefix, n.kids[i]);
      PrintableIsShort(n.kids[i]);
    }
  }

  lemma {:induction false} PrintableIsNamed(n: Node, u: string)
    requires WellFormed(n) && Filled(n) && Printable(n) && Find(n, u).Some?
    ensures Names(n.fullPrefix + u)
    decreases n
  {
    if u == "" {
      assert n.fullPrefix + "" == n.fullPrefix;
    } else {
      var i := TakesEdge(n, u);
      var k, v := n.kids[i], u[|n.kids[i].prefix|..];
      PrintableIsNamed(k, v);
      assert n.fullPrefix + u == k.fullPrefix + v;
    }
  }

  /** The lines of a node compile exactly when no label below is longer than eight characters and every word
      can be the name of an identifier. */
  lemma {:induction false} CompilesIffShortAndNamed(n: Node)
    requires WellFormed(n) && Compact(n) && Filled(n)
    ensures Compiles(Program(n)) <==> ShortLabels(n) && AllNamed(n)
  {
    CompilesConcat(Emit(n), [ReturnIdent]);
    CompilesIffPrintable(n);
    if Printable(n) {
      PrintableIsShort(n);
      forall u | Find(n, u).Some? ensures Names(n.fullPrefix + u) { PrintableIsNamed(n, u); }
    } else if ShortLabels(n) && AllNamed(n) {
      NamedIsPrintable(n);
    }
  }

  lemma {:induction false} ReadsBelowConcat(a: seq<Line>, b: seq<Line>, limit: nat)
    requires ReadsBelow(a, limit) && ReadsBelow(b, limit)
    ensures ReadsBelow(a + b, limit)
  {
  }

  /** The lines of a node read below any limit above the longest full prefix. */
  lemma {:induction false} EmitReadsBelow(n: Node, limit: nat)
    requires Filled(n) && MaxLength(n) < limit
    ensures ReadsBelow(Emit(n), limit)
    decreases n, 1
  {
    FullPrefixFits(n);
    ArmsReadBelow(n.fullPrefix, n.kids, true, limit);
    ReadsBelowConcat(EmitValue(n), EmitArms(n.fullPrefix, n.kids, true), limit);
  }

  lemma {:induction false} ArmsReadBelow(full: string, ks: seq<Node>, first: bool, limit: nat)
    requires FilledBelow(full, ks) && MaxLengths(ks) < limit
    ensures ReadsBelow(EmitArms(full, ks, first), limit)
    decreases ks, 0
  {
    if ks != [] {
      var head := [if first then If(EdgeTest(full, ks[0])) else ElseIf(EdgeTest(full, ks[0]))];
      FullPrefixFits(ks[0]);
      EmitReadsBelow(ks[0], limit);
      ArmsReadBelow(full, ks[1..], false, limit);
      ReadsBelowConcat(head, Emit(ks[0]), limit);
      ReadsBelowConcat(head + Emit(ks[0]), EmitArms(full, ks[1..], false), limit);
    }
  }

  // ---------------------------------------------------------------- end to end

  /** The body of parseKeyword that the generator prints for a keyword list. */
  function Generate(keywords: seq<(string, string)>, freq: map<string, nat>): seq<Line> {
    CompileStoresTable(keywords, freq);
    Program(Compile(keywords, freq))
  }

  function MaxTokenLength(n: Node): nat { MaxLength(n) + 1 }

  /** Running the lines of a root is walking its trie. */
  lemma {:induction false} ProgramWalks(n: Node, lx: Lexer)
    requires n.fullPrefix == "" && WellFormed(n) && Compact(n) && Filled(n)
    requires Compiles(Program(n)) && IsText(lx.input, lx.u) && |lx.input| >= MaxTokenLength(n)
    ensures Exec(lx, Program(n), 0, None) == OrElse(Walk(lx, n), Done(None, 0, None))
  {
    CompilesIffShortAndNamed(n);
    forall w | Find(n, w).Some? ensures IsLiteral(w) { assert "" + w == w; }
    LabelsAreLiterals(n);
    assert Runs(lx, n);
    EmitRuns(lx, n, [ReturnIdent]);
    assert Exec(lx, [ReturnIdent], 0, None) == Done(None, 0, None);
  }

  lemma {:induction false} SameText(input: seq<nat>, w: string, v: string)
    requires TextAt(input, 0, w) && TextAt(input, 0, v) && |w| == |v|
    ensures w == v
  {
    forall i | 0 <= i < |w| ensures w[i] == v[i] { assert input[0 + i] == w[i] as int; }
  }

  /** An accepted keyword of the table than which no accepted keyword is shorter. */
  ghost predicate ShortestAccepted(lx: Lexer, table: map<string, string>, w: string) {
    w in table && Accepted(lx, w) && forall v :: v in table && Accepted(lx, v) ==> |w| <= |v|
  }

  /** What a table answers: the shortest accepted keyword, or nothing. */
  ghost predicate Answers(lx: Lexer, table: map<string, string>, r: Outcome) {
    && (forall w :: ShortestAccepted(lx, table, w) ==> r == Keyword(lx, w, table[w]))
    && ((forall w :: w in table ==> !Accepted(lx, w)) ==> r == Done(None, 0, None))
  }

  /** What is needed to run the program: it compiles, and the text is long enough. */
  ghost predicate CanRun(keywords: seq<(string, string)>, freq: map<string, nat>, lx: Lexer) {
    && Compiles(Generate(keywords, freq))
    && IsText(lx.input, lx.u) && |lx.input| >= MaxTokenLength(Compile(keywords, freq))
  }

  /** parseKeyword, generated from any keyword list for which it compiles, on any text of at least
      maxTokenLength units: it returns the token of the shortest keyword that starts the text with no
      identifier part after it, shifts by that keyword and sets it as identifier if asked to; without such
      a keyword it returns IDENT and does nothing. */
  lemma {:induction false} ParseKeywordIsShortestMatch(keywords: seq<(string, string)>, freq: map<string, nat>,
      lx: Lexer)
    requires CanRun(keywords, freq, lx)
    ensures Answers(lx, Table(keywords), Exec(lx, Generate(keywords, freq), 0, None))
  {
    var n := Compile(keywords, freq);
    CompileStoresTable(keywords, freq);
    ProgramWalks(n, lx);
    WalkAnswers(n, Table(keywords), lx);
  }

  lemma {:induction false} WalkAnswers(n: Node, table: map<string, string>, lx: Lexer)
    requires n.fullPrefix == "" && WellFormed(n) && Filled(n) && Stores(n, table)
    ensures Answers(lx, table, OrElse(Walk(lx, n), Done(None, 0, None)))
  {
    var shortest := WalkFindsShortest(lx, n);
    assert forall w :: n.fullPrefix + w == w;
    forall w | ShortestAccepted(lx, table, w) ensures Walk(lx, n) == Some(Keyword(lx, w, table[w])) {
      assert Find(n, w).Some?;
      SameText(lx.input, w, shortest);
    }
    if Walk(lx, n).Some? { assert Find(n, shortest).Some?; }
  }

  /** If some keyword is accepted, one is shortest. */
  lemma {:induction false} ShortestExists(lx: Lexer, table: map<string, string>, w: string) returns (s: string)
    requires w in table && Accepted(lx, w)
    ensures ShortestAccepted(lx, table, s)
    decreases |w|
  {
    if v :| v in table && Accepted(lx, v) && |v| < |w| { s := ShortestExists(lx, table, v); } else { s := w; }
  }

  /** Accepted keywords are prefixes of each other, and a prefix of the text is accepted exactly when no
      identifier part follows it. */
  lemma {:induction false} PrefixesOfText(lx: Lexer, v: string, w: string)
    requires TextAt(lx.input, 0, w) && |w| < |lx.input| && |v| <= |w|
    ensures TextAt(lx.input, 0, v) <==> v <= w
    ensures v <= w ==> (Accepted(lx, v) <==> !IdentPartIncludingEscape(lx, |v|))
  {
    forall i | 0 <= i < |w| ensures lx.input[i] == w[i] as int { assert lx.input[0 + i] == w[i] as int; }
    if TextAt(lx.input, 0, v) {
      assert v == w[..|v|] by {
        forall i | 0 <= i < |v| ensures v[i] == w[i] { assert lx.input[0 + i] == v[i] as int; }
      }
    }
  }

  /** `v` does not stand in front of `w`. */
  predicate Clears(lx: Lexer, v: string, w: string)
    requires |w| < |lx.input|
  {
    v < w ==> IdentPartIncludingEscape(lx, |v|)
  }

  /** An accepted keyword is returned exactly when after every keyword that is a proper prefix of it an
      identifier part follows in the text. */
  lemma {:induction false} ParseKeywordReturnsIff(keywords: seq<(string, string)>, freq: map<string, nat>, lx: Lexer,
      w: string)
    requires CanRun(keywords, freq, lx) && w in Table(keywords) && Accepted(lx, w)
    ensures Exec(lx, Generate(keywords, freq), 0, None) == Keyword(lx, w, Table(keywords)[w]) <==>
      forall v :: v in Table(keywords) ==> Clears(lx, v, w)
  {
    ParseKeywordIsShortestMatch(keywords, freq, lx);
    ReturnsIff(lx, Table(keywords), Exec(lx, Generate(keywords, freq), 0, None), w);
  }

  lemma {:induction false} ReturnsIff(lx: Lexer, table: map<string, string>, r: Outcome, w: string)
    requires Answers(lx, table, r) && w in table && Accepted(lx, w)
    ensures r == Keyword(lx, w, table[w]) <==> forall v :: v in table ==> Clears(lx, v, w)
  {
    var s := ShortestExists(lx, table, w);
    PrefixesOfText(lx, s, w);
    if s == w {
      forall v | v in table ensures Clears(lx, v, w) { if v < w { PrefixesOfText(lx, v, w); } }
    } else {
      assert |s| < |w| by { if |s| == |w| { SameText(lx.input, s, w); assert false; } }
      assert !Clears(lx, s, w);
    }
  }

  /** Whatever keyword is accepted is returned, and is the only accepted one, exactly when no accepted
      keyword has a proper prefix in the table without an identifier part after it. */
  lemma {:induction false} ParseKeywordIsUnique(keywords: seq<(string, string)>, freq: map<string, nat>, lx: Lexer)
    requires CanRun(keywords, freq, lx)
    ensures (forall w :: w in Table(keywords) && Accepted(lx, w) ==>
               Exec(lx, Generate(keywords, freq), 0, None) == Keyword(lx, w, Table(keywords)[w])) <==>
            (forall v, w :: v in Table(keywords) && w in Table(keywords) && Accepted(lx, w) ==> Clears(lx, v, w))
    ensures (forall v, w :: v in Table(keywords) && w in Table(keywords) && Accepted(lx, v) && Accepted(lx, w) ==>
               v == w) <==>
            (forall v, w :: v in Table(keywords) && w in Table(keywords) && Accepted(lx, w) ==> Clears(lx, v, w))
  {
    var table := Table(keywords);
    forall w | w in table && Accepted(lx, w)
      ensures Exec(lx, Generate(keywords, freq), 0, None) == Keyword(lx, w, table[w]) <==>
        forall v :: v in table ==> Clears(lx, v, w)
    {
      ParseKeywordReturnsIff(keywords, freq, lx, w);
    }
    UniqueIffClear(lx, table);
  }

  lemma {:induction false} UniqueIffClear(lx: Lexer, table: map<string, string>)
    ensures (forall v, w :: v in table && w in table && Accepted(lx, v) && Accepted(lx, w) ==> v == w) <==>
            (forall v, w :: v in table && w in table && Accepted(lx, w) ==> Clears(lx, v, w))
  {
    if forall v, w :: v in table && w in table && Accepted(lx, v) && Accepted(lx, w) ==> v == w {
      forall v, w | v in table && w in table && Accepted(lx, w) ensures Clears(lx, v, w) {
        if v < w { PrefixesOfText(lx, v, w); }
      }
    }
    if forall v, w :: v in table && w in table && Accepted(lx, w) ==> Clears(lx, v, w) {
      forall v, w | v in table && w in table && Accepted(lx, v) && Accepted(lx, w) ensures v == w {
        if |v| <= |w| { OneOfTwo(lx, v, w); } else { OneOfTwo(lx, w, v); }
      }
    }
  }

  lemma {:induction false} OneOfTwo(lx: Lexer, v: string, w: string)
    requires Accepted(lx, v) && Accepted(lx, w) && |v| <= |w| && Clears(lx, v, w)
    ensures v == w
  {
    PrefixesOfText(lx, v, w);
  }

  /** Told from the table alone: when the character after a keyword in a longer one is always an identifier
      part, the accepted keyword is unique on every text. */
  lemma {:induction false} IdentifierKeywordsAreUnique(keywords: seq<(string, string)>, freq: map<string, nat>,
      lx: Lexer, w: string)
    requires CanRun(keywords, freq, lx)
    requires forall u, v :: u in Table(keywords) && v in Table(keywords) && v < u ==> lx.isPart(u[|v|] as int)
    requires w in Table(keywords) && Accepted(lx, w)
    ensures Exec(lx, Generate(keywords, freq), 0, None) == Keyword(lx, w, Table(keywords)[w])
    ensures forall v :: v in Table(keywords) && Accepted(lx, v) ==> v == w
  {
    forall u, v | u in Table(keywords) && v in Table(keywords) && Accepted(lx, u) ensures Clears(lx, v, u) {
      if v < u { assert lx.input[0 + |v|] == u[|v|] as int; }
    }
    ParseKeywordIsUnique(keywords, freq, lx);
  }

  /** What can stand in the name of a keyword is an identifier part. */
  ghost predicate CoversNames(isPart: nat -> bool) { forall c: char :: NameChar(c) ==> isPart(c as int) }

  /** End to end: a keyword stands at the start of the text, with no identifier part after it, for at most
      one keyword, and then its token is returned; without one, IDENT. */
  lemma {:induction false} ParseKeywordIsExact(keywords: seq<(string, string)>, freq: map<string, nat>, lx: Lexer)
    requires CanRun(keywords, freq, lx) && CoversNames(lx.isPart)
    ensures forall w :: w in Table(keywords) && Accepted(lx, w) ==>
      Exec(lx, Generate(keywords, freq), 0, None) == Keyword(lx, w, Table(keywords)[w])
    ensures forall v, w :: v in Table(keywords) && w in Table(keywords) && Accepted(lx, v) && Accepted(lx, w) ==> v == w
    ensures (forall w :: w in Table(keywords) ==> !Accepted(lx, w)) ==>
      Exec(lx, Generate(keywords, freq), 0, None) == Done(None, 0, None)
  {
    var table := Table(keywords);
    KeywordsAreNamed(keywords, freq);
    ParseKeywordIsShortestMatch(keywords, freq, lx);
    forall u, v | u in table && v in table && v < u ensures lx.isPart(u[|v|] as int) { assert NameChar(u[|v|]); }
    forall w | w in table && Accepted(lx, w)
      ensures Exec(lx, Generate(keywords, freq), 0, None) == Keyword(lx, w, table[w])
      ensures forall v :: v in table && Accepted(lx, v) ==> v == w
    {
      IdentifierKeywordsAreUnique(keywords, freq, lx, w);
    }
  }

  lemma {:induction false} KeywordsAreNamed(keywords: seq<(string, string)>, freq: map<string, nat>)
    requires Compiles(Generate(keywords, freq))
    ensures forall w :: w in Table(keywords) ==> Names(w)
  {
    CompileStoresTable(keywords, freq);
    CompilesIffShortAndNamed(Compile(keywords, freq));
    forall w | w in Table(keywords) ensures Names(w) {
      assert Find(Compile(keywords, freq), w).Some?;
      assert "" + w == w;
    }
  }

  /** maxTokenLength is one more than the longest keyword, and no test of the program reads at or
      beyond it. */
  lemma {:induction false} MaxTokenLengthIsTight(keywords: seq<(string, string)>, freq: map<string, nat>)
    ensures ReadsBelow(Generate(keywords, freq), MaxTokenLength(Compile(keywords, freq)))
    ensures forall w :: w in Table(keywords) ==> |w| < MaxTokenLength(Compile(keywords, freq))
    ensures Table(keywords) != map[] ==>
      exists w :: w in Table(keywords) && |w| + 1 == MaxTokenLength(Compile(keywords, freq))
  {
    CompileStoresTable(keywords, freq);
    ProgramReadsBelow(Compile(keywords, freq));
    LongestKeyword(Compile(keywords, freq), Table(keywords));
  }

  lemma {:induction false} ProgramReadsBelow(n: Node)
    requires WellFormed(n) && Filled(n)
    ensures ReadsBelow(Program(n), MaxTokenLength(n))
  {
    EmitReadsBelow(n, MaxTokenLength(n));
    ReadsBelowConcat(Emit(n), [ReturnIdent], MaxTokenLength(n));
  }

  lemma {:induction false} LongestKeyword(n: Node, table: map<string, string>)
    requires n.fullPrefix == "" && WellFormed(n) && Filled(n) && Compact(n) && Stores(n, table)
    ensures forall w :: w in table ==> |w| <= MaxLength(n)
    ensures table != map[] ==> exists w :: w in table && |w| == MaxLength(n)
  {
    var longest := MaxLengthIsReached(n);
    forall w | w in table ensures |w| <= MaxLength(n) { MaxLengthIsBound(n, w); }
    if w :| w in table {
      assert Find(n, w).Some?;
      assert n.kids == [] ==> FindIn(n.kids, w) == None;
      assert longest in table;
    }
  }
}

/** Which keyword tables the generator can print: the macros compare up to eight characters, and edges
    of the compressed trie may be longer. */
module KeywordSpacing {
  import opened Options
  import opened KeywordTrie
  import opened WideCompare
  import opened KeywordProgram
  import opened IdentEscapes

  type Language = iset<string>

  ghost function Words(n: Node): Language { iset w | Find(n, w).Some? }

  /** Two words go on differently after `p`. */
  ghost predicate Splits(l: Language, p: string, u: string, v: string) {
    u in l && v in l && p < u && p < v && u[|p|] != v[|p|]
  }

  /** A word ends at `p`, or words part there. */
  ghost predicate Stop(l: Language, p: string) {
    p in l || exists u, v :: Splits(l, p, u, v)
  }

  ghost predicate StopWithin(l: Language, w: string, i: nat)
    requires i + 9 <= |w|
  {
    exists k :: i < k <= i + 8 && Stop(l, w[..k])
  }

  /** No nine characters in a row of a word go without a stop. */
  ghost predicate Spaced(l: Language) {
    forall w, i: nat :: w in l && i + 9 <= |w| ==> StopWithin(l, w, i)
  }

  /** Below an edge the stops are those of the node. */
  lemma {:induction false} StopBelow(n: Node, i: nat, p: string)
    requires WellFormed(n) && i < |n.kids|
    ensures Stop(Words(n), n.kids[i].prefix + p) <==> Stop(Words(n.kids[i]), p)
  {
    var q, k := n.kids[i].prefix, n.kids[i];
    EdgeWord(n, i, p);
    if u, v :| Splits(Words(n), q + p, u, v) {
      assert u == q + u[|q|..] && v == q + v[|q|..];
      EdgeWord(n, i, u[|q|..]);
      EdgeWord(n, i, v[|q|..]);
      assert Splits(Words(k), p, u[|q|..], v[|q|..]);
    }
    if u, v :| Splits(Words(k), p, u, v) {
      EdgeWord(n, i, u);
      EdgeWord(n, i, v);
      assert Splits(Words(n), q + p, q + u, q + v);
    }
  }

  /** A node that stores or branches is a stop. */
  lemma {:induction false} NodeIsStop(n: Node)
    requires Tight(n)
    ensures Stop(Words(n), "")
  {
    if n.value.None? {
      var u := SomeWord(n.kids[0]);
      var v := SomeWord(n.kids[1]);
      EdgeWord(n, 0, u);
      EdgeWord(n, 1, v);
      assert Splits(Words(n), "", n.kids[0].prefix + u, n.kids[1].prefix + v);
    }
  }

  /** Inside an edge label there is no stop. */
  lemma {:induction false} NoStopInside(n: Node, i: nat, r: string)
    requires WellFormed(n) && i < |n.kids| && r != "" && r < n.kids[i].prefix
    ensures !Stop(Words(n), r)
  {
    var q := n.kids[i].prefix;
    forall w | w in Words(n) && r <= w ensures q <= w {
      var j := TakesEdge(n, w);
      assert w[0] == r[0] == q[0] && n.kids[j].prefix[0] == w[0];
      assert i == j;
    }
    assert !(q <= r);
    forall u, v | u in Words(n) && v in Words(n) && r < u && r < v ensures u[|r|] == v[|r|] {
      assert u[|r|] == q[|r|] && v[|r|] == q[|r|];
    }
  }

  lemma {:induction false} ShortIsSpaced(n: Node)
    requires WellFormed(n) && Compact(n) && ShortLabels(n)
    ensures Spaced(Words(n))
    decreases n
  {
    forall w, i: nat | w in Words(n) && i + 9 <= |w| ensures StopWithin(Words(n), w, i) {
      var j := TakesEdge(n, w);
      var k, u := n.kids[j], w[|n.kids[j].prefix|..];
      if i < |k.prefix| {
        NodeIsStop(k);
        StopBelow(n, j, "");
        assert k.prefix + "" == k.prefix == w[..|k.prefix|];
      } else {
        ShortIsSpaced(k);
        assert StopWithin(Words(k), u, i - |k.prefix|);
        var m :| i - |k.prefix| < m <= i - |k.prefix| + 8 && Stop(Words(k), u[..m]);
        StopBelow(n, j, u[..m]);
        assert w[..|k.prefix| + m] == k.prefix + u[..m];
      }
    }
  }

  lemma {:induction false} SpacedIsShort(n: Node)
    requires WellFormed(n) && Compact(n) && Spaced(Words(n))
    ensures ShortLabels(n)
    decreases n
  {
    forall j | 0 <= j < |n.kids| ensures |n.kids[j].prefix| <= 8 && ShortLabels(n.kids[j]) {
      ShortEdge(n, j);
      SpacedBelow(n, j);
      SpacedIsShort(n.kids[j]);
    }
  }

  lemma {:induction false} ShortEdge(n: Node, j: nat)
    requires WellFormed(n) && Compact(n) && Spaced(Words(n)) && j < |n.kids|
    ensures |n.kids[j].prefix| <= 8
  {
    var q := n.kids[j].prefix;
    if |q| > 8 {
      var u := SomeWord(n.kids[j]);
      EdgeWord(n, j, u);
      assert StopWithin(Words(n), q + u, 0);
      var m :| 0 < m <= 8 && Stop(Words(n), (q + u)[..m]);
      assert (q + u)[..m] == q[..m];
      NoStopInside(n, j, q[..m]);
      assert false;
    }
  }

  lemma {:induction false} SpacedBelow(n: Node, j: nat)
    requires WellFormed(n) && Spaced(Words(n)) && j < |n.kids|
    ensures Spaced(Words(n.kids[j]))
  {
    var q, k := n.kids[j].prefix, n.kids[j];
    forall u, i: nat | u in Words(k) && i + 9 <= |u| ensures StopWithin(Words(k), u, i) {
      EdgeWord(n, j, u);
      assert StopWithin(Words(n), q + u, |q| + i);
      var m :| |q| + i < m <= |q| + i + 8 && Stop(Words(n), (q + u)[..m]);
      assert (q + u)[..m] == q + u[..m - |q|];
      StopBelow(n, j, u[..m - |q|]);
    }
  }

  ghost function WordsOf(table: map<string, string>): Language { iset w | w in table }

  lemma {:induction false} SpacedIffShort(n: Node, table: map<string, string>)
    requires WellFormed(n) && Compact(n) && Stores(n, table)
    ensures ShortLabels(n) <==> Spaced(WordsOf(table))
  {
    assert forall w :: w in Words(n) <==> w in WordsOf(table);
    assert Words(n) == WordsOf(table);
    if ShortLabels(n) { ShortIsSpaced(n); } else if Spaced(Words(n)) { SpacedIsShort(n); }
  }

  /** The printed program compiles exactly when no nine characters in a row of a keyword go without a
      stop, a prefix that is itself a keyword or after which keywords differ, and every keyword can be the
      name of an identifier. */
  lemma {:induction false} CompilesIffSpaced(keywords: seq<(string, string)>, freq: map<string, nat>)
    ensures Compiles(Generate(keywords, freq)) <==>
      Spaced(WordsOf(Table(keywords))) && forall w :: w in Table(keywords) ==> Names(w)
  {
    var n, table := Compile(keywords, freq), Table(keywords);
    CompileStoresTable(keywords, freq);
    CompilesIffShortAndNamed(n);
    SpacedIffShort(n, table);
    NamedIff(n, table);
  }

  lemma {:induction false} NamedIff(n: Node, table: map<string, string>)
    requires n.fullPrefix == "" && Stores(n, table)
    ensures AllNamed(n) <==> forall w :: w in table ==> Names(w)
  {
    forall w ensures "" + w == w && (Find(n, w).Some? <==> w in table) {}
  }

  /** So a single keyword compiles exactly when it has at most eight characters and is a name: "a-b" and a
      quote are not. */
  lemma {:induction false} LoneKeyword(w: string, token: string, freq: map<string, nat>)
    ensures Compiles(Generate([(w, token)], freq)) <==> |w| <= 8 && Names(w)
    ensures !Names("a-b") && !Names("'") && !Names("1")
  {
    var keywords := [(w, token)];
    assert Table(keywords) == map[w := token] by { assert keywords[..0] == []; }
    CompilesIffSpaced(keywords, freq);
    if |w| > 8 {
      forall k | 0 < k <= 8 ensures !Stop(WordsOf(Table(keywords)), w[..k]) {}
      assert !StopWithin(WordsOf(Table(keywords)), w, 0);
    }
    assert "a-b"[1] == '-' && "'"[0] == '\'' && "1"[0] == '1';
  }

  /** The word stands at the start of the text, and the text does not go on with an identifier part. */
  ghost predicate StandsAlone(lx: Lexer, w: string) {
    TextAt(lx.input, 0, w) && |w| < |lx.input| && !GoesOn(lx, lx.input[|w|..])
  }

  /** The whole result, told from the table and the text alone: for a table of names that is spaced, and a
      text longer than any keyword, the generated program returns the token of the one keyword that stands
      alone at the start of the text, shifts by it and sets it as identifier if asked to; if there is none, it
      returns IDENT and does nothing. */
  lemma {:induction false} GeneratedLexerIsExact(keywords: seq<(string, string)>, freq: map<string, nat>, lx: Lexer)
    requires Spaced(WordsOf(Table(keywords))) && forall w :: w in Table(keywords) ==> Names(w) && |w| < |lx.input|
    requires lx.input != [] && IsText(lx.input, lx.u) && CoversNames(lx.isPart)
    ensures forall w :: w in Table(keywords) && StandsAlone(lx, w) ==>
      Exec(lx, Generate(keywords, freq), 0, None)
        == Done(Some(Table(keywords)[w]), |w|, if lx.create then Some(w) else None)
    ensures forall v, w ::
      v in Table(keywords) && w in Table(keywords) && StandsAlone(lx, v) && StandsAlone(lx, w) ==> v == w
    ensures (forall w :: w in Table(keywords) ==> !StandsAlone(lx, w)) ==>
      Exec(lx, Generate(keywords, freq), 0, None) == Done(None, 0, None)
  {
    CompilesIffSpaced(keywords, freq);
    TextIsLongEnough(keywords, freq, |lx.input|);
    ParseKeywordIsExact(keywords, freq, lx);
    forall w | w in Table(keywords) ensures StandsAlone(lx, w) <==> Accepted(lx, w) { IdentPartIff(lx, |w|); }
  }

  lemma {:induction false} TextIsLongEnough(keywords: seq<(string, string)>, freq: map<string, nat>, length: nat)
    requires length > 0 && forall w :: w in Table(keywords) ==> |w| < length
    ensures MaxTokenLength(Compile(keywords, freq)) <= length
  {
    MaxTokenLengthIsTight(keywords, freq);
    CompileStoresTable(keywords, freq);
    if Table(keywords) == map[] { EmptyIsShort(Compile(keywords, freq)); }
  }

  lemma {:induction false} EmptyIsShort(n: Node)
    requires WellFormed(n) && Compact(n) && n.fullPrefix == "" && forall w :: Find(n, w) == None
    ensures MaxLength(n) == 0
  {
    if n.kids != [] {
      var w := SomeWord(n.kids[0]);
      EdgeWord(n, 0, w);
      assert false;
    }
  }
}

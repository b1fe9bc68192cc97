/** The keyword trie of the lexer generator as a value: insertion, path compression, weighting
    and sibling ordering, and what each of these does to the table of keywords it stores. */
module KeywordTrie {
  import opened Options

  /** One trie node. `fullPrefix` and `weight` are the attributes that filling out attaches; they
      are "" and 0 before. `kids` is the node's dictionary in insertion order; the key of an entry
      is always the entry's own prefix. */
  datatype Node = Node(prefix: string, value: Option<string>, kids: seq<Node>, fullPrefix: string, weight: nat)

  /** A node as the constructor makes it. */
  function Fresh(prefix: string): Node { Node(prefix, None, [], "", 0) }

  // ---------------------------------------------------------------- lookup, the meaning of a trie

  /** What the trie below `n` stores under `w`: siblings are tried in order, without backtracking. */
  function Find(n: Node, w: string): Option<string>
    decreases n, 1
  {
    if w == "" then n.value else FindIn(n.kids, w)
  }

  function FindIn(ks: seq<Node>, w: string): Option<string>
    decreases ks, 0
  {
    if ks == [] then None
    else if ks[0].prefix <= w then Find(ks[0], w[|ks[0].prefix|..])
    else FindIn(ks[1..], w)
  }

  /** Edge labels are non-empty and siblings differ in their first character. */
  predicate Forked(ks: seq<Node>) {
    && (forall i | 0 <= i < |ks| :: ks[i].prefix != "")
    && (forall i, j | 0 <= i < j < |ks| :: ks[i].prefix[0] != ks[j].prefix[0])
  }

  predicate WellFormed(n: Node) {
    Forked(n.kids) && forall i | 0 <= i < |n.kids| :: WellFormed(n.kids[i])
  }

  /** Every node below `n` leads to a stored value. */
  predicate Alive(n: Node) {
    forall i | 0 <= i < |n.kids| ::
      (n.kids[i].value.Some? || n.kids[i].kids != []) && Alive(n.kids[i])
  }

  /** No node below `n` is a mere link: it stores a value or it branches. */
  predicate Compact(n: Node) {
    forall i | 0 <= i < |n.kids| ::
      (n.kids[i].value.Some? || |n.kids[i].kids| >= 2) && Compact(n.kids[i])
  }

  /** Before compression every edge carries one character. */
  predicate SingleStep(n: Node) {
    forall i | 0 <= i < |n.kids| :: |n.kids[i].prefix| == 1 && SingleStep(n.kids[i])
  }

  /** The sibling order is irrelevant: the only entry that can answer is the one whose label
      starts the word, wherever it stands. */
  lemma {:induction false} FindInAnyOrder(ks: seq<Node>, w: string, i: nat)
    requires Forked(ks) && i < |ks| && ks[i].prefix <= w
    ensures FindIn(ks, w) == Find(ks[i], w[|ks[i].prefix|..])
  {
    if i > 0 {
      assert ks[0].prefix[0] != ks[i].prefix[0];
      assert ks[1..][i - 1] == ks[i];
      FindInAnyOrder(ks[1..], w, i - 1);
    }
  }

  lemma {:induction false} FindInNowhere(ks: seq<Node>, w: string)
    requires forall i | 0 <= i < |ks| :: !(ks[i].prefix <= w)
    ensures FindIn(ks, w) == None
  {
    if ks != [] { FindInNowhere(ks[1..], w); }
  }

  // ---------------------------------------------------------------- insertion

  /** The entry of a dictionary stored under `key`, or the number of entries. */
  function IndexOf(ks: seq<Node>, key: string): (i: nat)
    ensures i <= |ks|
    ensures i < |ks| ==> ks[i].prefix == key
    ensures forall j | 0 <= j < i :: ks[j].prefix != key
  {
    if ks == [] then 0 else if ks[0].prefix == key then 0 else 1 + IndexOf(ks[1..], key)
  }

  /** `keys[t.prefix] = t` on a dictionary that remembers insertion order. */
  function Put(ks: seq<Node>, t: Node): seq<Node> {
    var i := IndexOf(ks, t.prefix);
    if i < |ks| then ks[i := t] else ks + [t]
  }

  function Insert(n: Node, key: string, v: string): Node
    decreases |key|
  {
    if key == "" then n.(value := Some(v))
    else
      var i := IndexOf(n.kids, key[..1]);
      if i < |n.kids| then n.(kids := n.kids[i := Insert(n.kids[i], key[1..], v)])
      else n.(kids := n.kids + [Insert(Fresh(key[..1]), key[1..], v)])
  }

  /** Setting one dictionary entry changes the answer for exactly the words its label starts. */
  lemma {:induction false} FindInAfterSet(ks: seq<Node>, i: nat, t: Node, w: string)
    requires i <= |ks| && Forked(ks)
    requires i < |ks| ==> ks[i].prefix == t.prefix
    requires Forked(if i < |ks| then ks[i := t] else ks + [t])
    ensures FindIn(if i < |ks| then ks[i := t] else ks + [t], w)
         == if t.prefix <= w then Find(t, w[|t.prefix|..]) else FindIn(ks, w)
  {
    var m := if i < |ks| then ks[i := t] else ks + [t];
    if t.prefix <= w {
      FindInAnyOrder(m, w, i);
    } else if j :| 0 <= j < |m| && m[j].prefix <= w {
      FindInAnyOrder(m, w, j);
      FindInAnyOrder(ks, w, j);
    } else {
      forall j | 0 <= j < |ks| ensures !(ks[j].prefix <= w) { assert m[j].prefix == ks[j].prefix; }
      FindInNowhere(m, w);
      FindInNowhere(ks, w);
    }
  }

  /** Insertion is a map update and keeps the shape of an uncompressed trie. */
  lemma {:induction false} InsertIsUpdate(n: Node, key: string, v: string)
    requires WellFormed(n) && SingleStep(n) && Alive(n)
    ensures var m := Insert(n, key, v);
      && m.prefix == n.prefix
      && WellFormed(m) && SingleStep(m) && Alive(m)
      && (m.value.Some? || m.kids != [])
      && forall w :: Find(m, w) == if w == key then Some(v) else Find(n, w)
    decreases |key|
  {
    if key != "" {
      var i := IndexOf(n.kids, key[..1]);
      var before := if i < |n.kids| then n.kids[i] else Fresh(key[..1]);
      InsertIsUpdate(before, key[1..], v);
      var m := Insert(n, key, v);
      assert m.kids[i] == Insert(before, key[1..], v);
      InsertShape(n, i, before, m.kids[i], m);
      forall w ensures Find(m, w) == if w == key then Some(v) else Find(n, w) {
        if w != "" { InsertFind(n.kids, i, before, m.kids[i], key, v, w); }
      }
    }
  }

  /** Setting one entry to a trie with the same label keeps the shape. */
  lemma {:induction false} InsertShape(n: Node, i: nat, before: Node, after: Node, m: Node)
    requires WellFormed(n) && SingleStep(n) && Alive(n) && i <= |n.kids| && |before.prefix| == 1
      && after.prefix == before.prefix
    requires if i < |n.kids| then before == n.kids[i]
      else forall j | 0 <= j < |n.kids| :: n.kids[j].prefix != before.prefix
    requires WellFormed(after) && SingleStep(after) && Alive(after) && (after.value.Some? || after.kids != [])
    requires m.kids == if i < |n.kids| then n.kids[i := after] else n.kids + [after]
    ensures WellFormed(m) && SingleStep(m) && Alive(m)
  {
    forall j | 0 <= j < |m.kids| && j != i ensures m.kids[j] == n.kids[j] {}
    forall j | 0 <= j < |n.kids| && j != i ensures n.kids[j].prefix[0] != before.prefix[0] {
      assert n.kids[j].prefix == [n.kids[j].prefix[0]] && before.prefix == [before.prefix[0]];
    }
  }

  /** One word of InsertIsUpdate, at the dictionary that insertion updates. */
  lemma {:induction false} InsertFind(ks: seq<Node>, i: nat, before: Node, after: Node, key: string, v: string,
      w: string)
    requires key != "" && i <= |ks| && Forked(ks)
    requires before.prefix == after.prefix == key[..1]
    requires if i < |ks| then before == ks[i]
             else before == Fresh(key[..1]) && forall j | 0 <= j < |ks| :: ks[j].prefix[0] != key[0]
    requires Forked(if i < |ks| then ks[i := after] else ks + [after])
    requires forall u :: Find(after, u) == if u == key[1..] then Some(v) else Find(before, u)
    requires w != ""
    ensures FindIn(if i < |ks| then ks[i := after] else ks + [after], w)
         == if w == key then Some(v) else FindIn(ks, w)
  {
    FindInAfterSet(ks, i, after, w);
    assert key == key[..1] + key[1..];
    if key[..1] <= w {
      assert w == key[..1] + w[1..];
      if i < |ks| {
        FindInAnyOrder(ks, w, i);
      } else {
        FindInNowhere(ks, w);
        assert FindIn(before.kids, w[1..]) == None;
      }
    }
  }

  // ---------------------------------------------------------------- path compression

  function Coalesce(n: Node): Node
    decreases n, 1
  {
    var ks := CoalesceAll(n.kids);
    if n.value.Some? || |ks| != 1 then n.(kids := ks)
    else Fresh(n.prefix + ks[0].prefix).(value := ks[0].value, kids := ks[0].kids)
  }

  /** The rebuilt dictionary: every compressed child is stored under its new, longer label. */
  function CoalesceAll(ks: seq<Node>): seq<Node>
    decreases ks, 0
  {
    if ks == [] then [] else Put(CoalesceAll(ks[..|ks| - 1]), Coalesce(ks[|ks| - 1]))
  }

  /** The driver compresses the root in place and drops what the call returns, so the root itself
      is never merged into its only child. */
  function CoalesceRoot(n: Node): Node { n.(kids := CoalesceAll(n.kids)) }

  /** What a single edge and the node below it answer. */
  function Via(k: Node, w: string): Option<string> {
    if k.prefix <= w then Find(k, w[|k.prefix|..]) else None
  }

  ghost predicate SameAnswers(c: Node, n: Node) { forall w :: Via(c, w) == Via(n, w) }

  /** Siblings are told apart by the first character alone. */
  lemma {:induction false} FindInByFirst(ks: seq<Node>, w: string)
    requires Forked(ks) && w != ""
    ensures forall i | 0 <= i < |ks| && ks[i].prefix[0] == w[0] :: FindIn(ks, w) == Via(ks[i], w)
    ensures (forall i | 0 <= i < |ks| :: ks[i].prefix[0] != w[0]) ==> FindIn(ks, w) == None
  {
    if i :| 0 <= i < |ks| && ks[i].prefix <= w {
      FindInAnyOrder(ks, w, i);
    } else {
      FindInNowhere(ks, w);
    }
  }

  /** A node of the uncompressed trie, below the root. */
  ghost predicate Live(n: Node) { WellFormed(n) && Alive(n) && (n.value.Some? || n.kids != []) }

  /** A node of the compressed trie, below the root. */
  ghost predicate Tight(n: Node) { WellFormed(n) && Compact(n) && (n.value.Some? || |n.kids| >= 2) }

  /** `c` can stand for `n` in a dictionary: it is reached by the same first character and answers alike. */
  ghost predicate Shrunk(n: Node, c: Node) { n.prefix <= c.prefix && Tight(c) && SameAnswers(c, n) }

  /** Compression of one node keeps its answers and leaves no mere link. */
  lemma {:induction false} CoalesceNode(n: Node)
    requires n.prefix != "" && Live(n)
    ensures Shrunk(n, Coalesce(n))
    decreases n, 1
  {
    CoalesceKids(n.kids);
    var c := Coalesce(n);
    var ks := CoalesceAll(n.kids);
    DictionaryKept(n.kids, ks);
    forall w ensures Via(c, w) == Via(n, w) {
      if n.value.Some? || |ks| != 1 {
        assert c == n.(kids := ks);
        if n.prefix <= w { assert Find(c, w[|n.prefix|..]) == Find(n, w[|n.prefix|..]); }
      } else if n.prefix <= w {
        MergedEdge(n.prefix, ks[0], c, w);
        assert ks == [ks[0]];
        assert Via(n, w) == Find(n, w[|n.prefix|..]);
      } else {
        assert !(n.prefix + ks[0].prefix <= w);
      }
    }
  }

  /** Two edges in a row answer like the one edge that carries both labels. */
  lemma {:induction false} MergedEdge(p: string, k: Node, c: Node, w: string)
    requires p <= w && k.prefix != ""
    requires c.prefix == p + k.prefix && c.value == k.value && c.kids == k.kids
    ensures Via(c, w) == if w[|p|..] == "" then None else FindIn([k], w[|p|..])
  {
    var u := w[|p|..];
    assert w == p + u;
    assert c.prefix <= w <==> k.prefix <= u;
    if k.prefix <= u { assert w[|c.prefix|..] == u[|k.prefix|..]; }
  }

  /** Compression of a dictionary: re-keying never collides, so no entry is lost. */
  lemma {:induction false} CoalesceKids(ks: seq<Node>)
    requires Forked(ks) && forall i | 0 <= i < |ks| :: Live(ks[i])
    ensures var cs := CoalesceAll(ks);
      |cs| == |ks| && forall i | 0 <= i < |ks| :: cs[i] == Coalesce(ks[i]) && Shrunk(ks[i], cs[i])
    decreases ks, 0
  {
    if ks != [] {
      var last := |ks| - 1;
      CoalesceKids(ks[..last]);
      CoalesceNode(ks[last]);
      var cs := CoalesceAll(ks[..last]);
      forall j | 0 <= j < last ensures cs[j].prefix != Coalesce(ks[last]).prefix {
        assert ks[..last][j] == ks[j];
        assert cs[j].prefix[0] == ks[j].prefix[0] != ks[last].prefix[0];
      }
      assert CoalesceAll(ks) == cs + [Coalesce(ks[last])];
    }
  }

  lemma {:induction false} DictionaryKept(ks: seq<Node>, cs: seq<Node>)
    requires Forked(ks) && |cs| == |ks| && forall i | 0 <= i < |ks| :: Shrunk(ks[i], cs[i])
    ensures Forked(cs)
    ensures forall w :: w != "" ==> FindIn(cs, w) == FindIn(ks, w)
  {
    assert forall i | 0 <= i < |ks| :: cs[i].prefix[0] == ks[i].prefix[0];
    forall w | w != "" ensures FindIn(cs, w) == FindIn(ks, w) {
      FindInByFirst(ks, w);
      FindInByFirst(cs, w);
      if i :| 0 <= i < |ks| && ks[i].prefix[0] == w[0] {
        assert Via(cs[i], w) == Via(ks[i], w);
      }
    }
  }

  /** Compressing the root keeps the stored table and leaves only nodes that store or branch. */
  lemma {:induction false} CoalesceKeepsTable(n: Node)
    requires WellFormed(n) && Alive(n)
    ensures var c := CoalesceRoot(n);
      WellFormed(c) && Compact(c) && c.prefix == n.prefix && forall w :: Find(c, w) == Find(n, w)
  {
    CoalesceKids(n.kids);
    DictionaryKept(n.kids, CoalesceAll(n.kids));
  }

  // ---------------------------------------------------------------- weights and sibling order

  /** The observed keyword frequencies, in hundredths. */
  const KEYWORD_WEIGHTS: map<string, nat> := map[
    "catch" := 1, "try" := 1, "while" := 1, "case" := 1, "break" := 1, "new" := 1, "in" := 1,
    "typeof" := 2, "true" := 2, "false" := 2, "for" := 3, "null" := 3, "else" := 3,
    "return" := 13, "var" := 13, "if" := 16, "function" := 18, "this" := 18]

  /** The weight of a path in a table of frequencies. */
  function KeywordWeight(freq: map<string, nat>, s: string): nat { if s in freq then freq[s] else 0 }

  /** Whether position `a` comes before position `b` in the reversed stable sort by weight. */
  predicate Before(ws: seq<nat>, a: nat, b: nat)
    requires a < |ws| && b < |ws|
  {
    ws[a] > ws[b] || (ws[a] == ws[b] && a < b)
  }

  /** `ord` lists positions of `ws`, each strictly before the next ones: descending weights, ties in
      the original order, nothing twice. */
  predicate Ranked(ord: seq<nat>, ws: seq<nat>) {
    && (forall k | 0 <= k < |ord| :: ord[k] < |ws|)
    && forall k, l | 0 <= k < l < |ord| :: Before(ws, ord[k], ord[l])
  }

  /** The positions of `ws` as Python's `sorted(..., reverse=True)` leaves them. */
  function Order(ws: seq<nat>): (ord: seq<nat>)
    ensures |ord| == |ws| && forall k | 0 <= k < |ord| :: ord[k] < |ws|
  {
    if ws == [] then []
    else
      var rest := Order(ws[..|ws| - 1]);
      Place(rest, ws, |ws| - 1)
  }

  function Place(ord: seq<nat>, ws: seq<nat>, i: nat): (r: seq<nat>)
    requires i < |ws| && forall k | 0 <= k < |ord| :: ord[k] < |ws|
    ensures |r| == |ord| + 1 && forall k | 0 <= k < |r| :: r[k] == i || r[k] in ord
  {
    if ord == [] || ws[ord[0]] < ws[i] then [i] + ord else [ord[0]] + Place(ord[1..], ws, i)
  }

  lemma {:induction false} PlaceRanks(ord: seq<nat>, ws: seq<nat>, i: nat)
    requires i < |ws| && Ranked(ord, ws) && forall k | 0 <= k < |ord| :: ord[k] < i
    ensures Ranked(Place(ord, ws, i), ws)
    ensures forall x :: x in Place(ord, ws, i) <==> x == i || x in ord
  {
    if ord == [] || ws[ord[0]] < ws[i] {
    } else {
      var rest := Place(ord[1..], ws, i);
      PlaceRanks(ord[1..], ws, i);
      forall l | 0 <= l < |rest| ensures Before(ws, ord[0], rest[l]) {
        if rest[l] != i {
          var q :| 0 <= q < |ord[1..]| && ord[1..][q] == rest[l];
          assert ord[q + 1] == rest[l];
        }
      }
    }
  }

  /** Every position below `n` is listed exactly once. */
  predicate Permutes(ord: seq<nat>, n: nat) {
    && |ord| == n
    && (forall k | 0 <= k < n :: ord[k] < n)
    && (forall k, l | 0 <= k < l < n :: ord[k] != ord[l])
    && (forall x | 0 <= x < n :: x in ord)
  }

  /** The sort is a permutation of the positions, in descending weight, stable. */
  lemma {:induction false} OrderIsStableSort(ws: seq<nat>)
    ensures Permutes(Order(ws), |ws|) && Ranked(Order(ws), ws)
  {
    if ws != [] {
      var n := |ws| - 1;
      OrderIsStableSort(ws[..n]);
      var rest := Order(ws[..n]);
      forall k, l | 0 <= k < l < |rest| ensures Before(ws, rest[k], rest[l]) {
        assert Before(ws[..n], rest[k], rest[l]);
      }
      PlaceRanks(rest, ws, n);
      forall x | 0 <= x < |ws| ensures x in Order(ws) { assert x < n ==> x in rest; }
      forall k, l | 0 <= k < l < |ws| ensures Order(ws)[k] != Order(ws)[l] {
        assert Before(ws, Order(ws)[k], Order(ws)[l]);
      }
    }
  }

  /** The elements of `s` at the listed positions. */
  function Pick<T>(s: seq<T>, ord: seq<nat>): (r: seq<T>)
    requires forall k | 0 <= k < |ord| :: ord[k] < |s|
    ensures |r| == |ord| && forall k | 0 <= k < |r| :: r[k] == s[ord[k]]
  {
    seq(|ord|, k requires 0 <= k < |ord| => s[ord[k]])
  }

  function Weights(ks: seq<Node>): (ws: seq<nat>)
    ensures |ws| == |ks| && forall i | 0 <= i < |ks| :: ws[i] == ks[i].weight
  {
    seq(|ks|, i requires 0 <= i < |ks| => ks[i].weight)
  }

  function Sum(ws: seq<nat>): nat { if ws == [] then 0 else Sum(ws[..|ws| - 1]) + ws[|ws| - 1] }

  function FillOut(freq: map<string, nat>, n: Node, above: string): Node
    decreases n, 1
  {
    var full := above + n.prefix;
    var ks := FillAll(freq, n.kids, full);
    Node(n.prefix, n.value, Pick(ks, Order(Weights(ks))), full, KeywordWeight(freq, full) + Sum(Weights(ks)))
  }

  function FillAll(freq: map<string, nat>, ks: seq<Node>, above: string): (fs: seq<Node>)
    ensures |fs| == |ks|
    decreases ks, 0
  {
    if ks == [] then [] else FillAll(freq, ks[..|ks| - 1], above) + [FillOut(freq, ks[|ks| - 1], above)]
  }

  lemma {:induction false} FillAllAt(freq: map<string, nat>, ks: seq<Node>, above: string, i: nat)
    requires i < |ks|
    ensures FillAll(freq, ks, above)[i] == FillOut(freq, ks[i], above)
  {
    if i < |ks| - 1 { FillAllAt(freq, ks[..|ks| - 1], above, i); }
  }

  /** The weight a subtree deserves: the frequencies of all paths that end in it. */
  function TotalWeight(freq: map<string, nat>, n: Node, above: string): nat
    decreases n, 1
  {
    KeywordWeight(freq, above + n.prefix) + TotalWeights(freq, n.kids, above + n.prefix)
  }

  function TotalWeights(freq: map<string, nat>, ks: seq<Node>, above: string): nat
    decreases ks, 0
  {
    if ks == [] then 0 else TotalWeights(freq, ks[..|ks| - 1], above) + TotalWeight(freq, ks[|ks| - 1], above)
  }

  lemma {:induction false} FillOutWeight(freq: map<string, nat>, n: Node, above: string)
    ensures FillOut(freq, n, above).weight == TotalWeight(freq, n, above)
    decreases n, 1
  {
    FillAllWeight(freq, n.kids, above + n.prefix);
  }

  lemma {:induction false} FillAllWeight(freq: map<string, nat>, ks: seq<Node>, above: string)
    ensures Sum(Weights(FillAll(freq, ks, above))) == TotalWeights(freq, ks, above)
    decreases ks, 0
  {
    if ks != [] {
      var last := |ks| - 1;
      FillAllWeight(freq, ks[..last], above);
      FillOutWeight(freq, ks[last], above);
      assert Weights(FillAll(freq, ks, above))[..last] == Weights(FillAll(freq, ks[..last], above));
    }
  }

  /** The labels on the way down spell the full prefix, and siblings stand in descending weight. */
  predicate Filled(n: Node) {
    && (forall i | 0 <= i < |n.kids| :: n.kids[i].fullPrefix == n.fullPrefix + n.kids[i].prefix && Filled(n.kids[i]))
    && (forall i, j | 0 <= i < j < |n.kids| :: n.kids[i].weight >= n.kids[j].weight)
  }

  /** `f` is `n` filled out below `above`: same edge, same answers, filled. */
  ghost predicate FilledFrom(n: Node, above: string, f: Node) {
    && f.prefix == n.prefix && f.value == n.value && |f.kids| == |n.kids| && f.fullPrefix == above + n.prefix
    && WellFormed(f) && Compact(f) && Filled(f)
    && forall w :: Find(f, w) == Find(n, w)
  }

  /** Filling out keeps the stored table and the shape, whatever order the sort chooses. */
  lemma {:induction false} FillOutKeepsTable(freq: map<string, nat>, n: Node, above: string)
    requires WellFormed(n) && Compact(n)
    ensures FilledFrom(n, above, FillOut(freq, n, above))
    decreases n
  {
    var full := above + n.prefix;
    var fs := FillAll(freq, n.kids, full);
    forall i | 0 <= i < |n.kids| ensures FilledFrom(n.kids[i], full, fs[i]) {
      FillAllAt(freq, n.kids, full, i);
      FillOutKeepsTable(freq, n.kids[i], full);
    }
    SortKeepsTable(freq, n, above, fs);
  }

  lemma {:induction false} SortKeepsTable(freq: map<string, nat>, n: Node, above: string, fs: seq<Node>)
    requires WellFormed(n) && Compact(n) && |fs| == |n.kids| && fs == FillAll(freq, n.kids, above + n.prefix)
    requires forall i | 0 <= i < |fs| :: FilledFrom(n.kids[i], above + n.prefix, fs[i])
    ensures FilledFrom(n, above, FillOut(freq, n, above))
  {
    var ord := Order(Weights(fs));
    var f := FillOut(freq, n, above);
    OrderIsStableSort(Weights(fs));
    assert f.kids == Pick(fs, ord);
    forall i | 0 <= i < |fs| ensures SameAnswers(fs[i], n.kids[i]) {
      assert FilledFrom(n.kids[i], above + n.prefix, fs[i]);
    }
    PickKeepsAnswers(n.kids, fs, ord);
    forall i, j | 0 <= i < j < |f.kids| ensures f.kids[i].weight >= f.kids[j].weight {
      assert Before(Weights(fs), ord[i], ord[j]);
    }
    forall i | 0 <= i < |f.kids|
      ensures f.kids[i].fullPrefix == f.fullPrefix + f.kids[i].prefix && Filled(f.kids[i])
      ensures WellFormed(f.kids[i]) && Compact(f.kids[i]) && (f.kids[i].value.Some? || |f.kids[i].kids| >= 2)
    {
      assert FilledFrom(n.kids[ord[i]], above + n.prefix, fs[ord[i]]);
    }
    forall w ensures Find(f, w) == Find(n, w) {}
  }

  /** Any permutation of a dictionary gives the same lookup. */
  lemma {:induction false} PickKeepsAnswers(ks: seq<Node>, fs: seq<Node>, ord: seq<nat>)
    requires Forked(ks) && |fs| == |ks| && Permutes(ord, |ks|)
    requires forall i | 0 <= i < |ks| :: fs[i].prefix == ks[i].prefix && SameAnswers(fs[i], ks[i])
    ensures Forked(Pick(fs, ord))
    ensures forall w :: w != "" ==> FindIn(Pick(fs, ord), w) == FindIn(ks, w)
  {
    var ps := Pick(fs, ord);
    forall i, j | 0 <= i < j < |ps| ensures ps[i].prefix[0] != ps[j].prefix[0] {
      assert ord[i] != ord[j];
    }
    forall w | w != "" ensures FindIn(ps, w) == FindIn(ks, w) {
      FindInByFirst(ks, w);
      FindInByFirst(ps, w);
      if i :| 0 <= i < |ks| && ks[i].prefix[0] == w[0] {
        assert i in ord;
        var k :| 0 <= k < |ord| && ord[k] == i;
        assert ps[k].prefix[0] == w[0];
        assert Via(fs[i], w) == Via(ks[i], w);
      }
    }
  }

  // ---------------------------------------------------------------- the driver

  /** The keyword table as a map; a keyword listed twice keeps its last token. */
  function Table(keywords: seq<(string, string)>): map<string, string> {
    if keywords == [] then map[]
    else Table(keywords[..|keywords| - 1])[keywords[|keywords| - 1].0 := keywords[|keywords| - 1].1]
  }

  function Build(keywords: seq<(string, string)>): Node {
    if keywords == [] then Fresh("")
    else Insert(Build(keywords[..|keywords| - 1]), keywords[|keywords| - 1].0, keywords[|keywords| - 1].1)
  }

  /** Insert all keywords, compress, fill out. */
  function Compile(keywords: seq<(string, string)>, freq: map<string, nat>): Node {
    FillOut(freq, CoalesceRoot(Build(keywords)), "")
  }

  ghost predicate Stores(n: Node, table: map<string, string>) {
    forall w :: Find(n, w) == if w in table then Some(table[w]) else None
  }

  lemma {:induction false} BuildStoresTable(keywords: seq<(string, string)>)
    ensures var n := Build(keywords);
      n.prefix == "" && WellFormed(n) && SingleStep(n) && Alive(n) && Stores(n, Table(keywords))
  {
    if keywords == [] {
      forall w ensures Find(Fresh(""), w) == None {}
    } else {
      var last := |keywords| - 1;
      BuildStoresTable(keywords[..last]);
      InsertIsUpdate(Build(keywords[..last]), keywords[last].0, keywords[last].1);
    }
  }

  /** The trie handed to the printer stores exactly the keyword table; every inner node stores or
      branches; labels spell the full prefixes; siblings stand in descending total weight. */
  lemma {:induction false} CompileStoresTable(keywords: seq<(string, string)>, freq: map<string, nat>)
    ensures var n := Compile(keywords, freq);
      && n.fullPrefix == "" && WellFormed(n) && Compact(n) && Filled(n)
      && Stores(n, Table(keywords))
      && n.weight == TotalWeight(freq, CoalesceRoot(Build(keywords)), "")
  {
    BuildStoresTable(keywords);
    CoalesceKeepsTable(Build(keywords));
    FillOutKeepsTable(freq, CoalesceRoot(Build(keywords)), "");
    FillOutWeight(freq, CoalesceRoot(Build(keywords)), "");
  }
}

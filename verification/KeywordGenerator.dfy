/** The generator as it runs: a trie of objects that insertion, compression and filling out update
    in place, and the printer that walks it. Each method is tied to the function on trie values. */
module KeywordGenerator {
  import opened Options
  import opened KeywordTrie
  import opened KeywordProgram

  const NoHole: int := -1

  class Trie {
    var prefix: string
    var keys: seq<Trie>  // the dictionary in insertion order, later the sorted list
    var value: Option<string>
    var fullPrefix: string
    var weight: nat

    ghost var node: Node  // the trie below this object, as a value
    ghost var Repr: set<Trie>

    ghost predicate Valid()
      reads this, Repr
      ensures Valid() ==> this in Repr
      decreases Repr, 0
    {
      && this in Repr
      && Kids(keys, node.kids, Repr - {this}, NoHole)
      && prefix == node.prefix && value == node.value && fullPrefix == node.fullPrefix && weight == node.weight
    }

    constructor (prefix: string)
      ensures Valid() && fresh(Repr) && Repr == {this} && node == Fresh(prefix)
    {
      this.prefix, keys, value, fullPrefix, weight := prefix, [], None, "", 0;
      node := Fresh(prefix);
      Repr := {this};
    }

    /** A node that takes over the value and the children of `suffix` under a longer label. */
    constructor Merged(prefix: string, suffix: Trie)
      requires suffix.Valid()
      ensures Valid() && fresh(this) && Repr == {this} + suffix.Repr
      ensures node == Fresh(prefix + suffix.node.prefix).(value := suffix.node.value, kids := suffix.node.kids)
    {
      this.prefix, keys, value, fullPrefix, weight := prefix + suffix.prefix, suffix.keys, suffix.value, "", 0;
      node := Fresh(prefix + suffix.node.prefix).(value := suffix.node.value, kids := suffix.node.kids);
      Repr := {this} + suffix.Repr;
      new;
      KidsGrow(keys, node.kids, suffix.Repr - {suffix}, Repr - {this});
    }

    /** The dictionary lookup: the entry stored under `key`, or the number of entries. */
    method Lookup(key: string) returns (i: nat)
      requires Valid()
      ensures i == IndexOf(node.kids, key) && i <= |keys|
    {
      i := 0;
      while i < |keys| && keys[i].prefix != key
        invariant i <= |keys| == |node.kids| && forall j | 0 <= j < i :: node.kids[j].prefix != key
      {
        assert keys[i].Valid();
        i := i + 1;
      }
      assert i < |keys| ==> keys[i].Valid();
    }

    method Insert(key: string, v: string)
      requires Valid()
      modifies Repr
      ensures Valid() && fresh(Repr - old(Repr))
      ensures node == KeywordTrie.Insert(old(node), key, v)
      decreases |key|, 1
    {
      if |key| == 0 {
        value := Some(v);
        node := node.(value := Some(v));
        return;
      }
      var i := Lookup(key[..1]);
      if i == |keys| {
        var t := new Trie(key[..1]);
        AddKey(t);
      }
      InsertBelow(i, key, v);
    }

    method InsertBelow(i: nat, key: string, v: string)
      requires Valid() && i < |keys| == |node.kids| && key != ""
      modifies Repr
      ensures Valid() && fresh(Repr - old(Repr))
      ensures node == old(node).(kids := old(node).kids[i := KeywordTrie.Insert(old(node).kids[i], key[1..], v)])
      decreases |key|, 0
    {
      var kid := keys[i];
      ghost var others := Repr - {this} - kid.Repr;
      OpenHole(keys, node.kids, Repr - {this}, i);
      kid.Insert(key[1..], v);
      CloseHole(keys, node.kids, others, i);
      Repr := Repr + kid.Repr;
      node := node.(kids := node.kids[i := kid.node]);
      KidsGrow(keys, node.kids, others + kid.Repr, Repr - {this});
    }

    method AddKey(t: Trie)
      requires Valid() && t.Valid() && t.Repr !! Repr
      modifies this
      ensures Valid() && Repr == old(Repr) + t.Repr && keys == old(keys) + [t]
      ensures node == old(node).(kids := old(node).kids + [t.node])
    {
      ghost var region := Repr - {this};
      KidsPut(keys, node.kids, region, t, |keys|);
      keys := keys + [t];
      node := node.(kids := node.kids + [t.node]);
      Repr := Repr + t.Repr;
      assert Repr - {this} == region + t.Repr;
    }

    /** Compression in place. The object itself keeps its label; the result is the object to store in
        the parent's dictionary, which is a new one exactly when this one was a mere link. */
    method Coalesce() returns (res: Trie)
      requires Valid()
      modifies Repr
      ensures Valid() && fresh(Repr - old(Repr)) && node == CoalesceRoot(old(node))
      ensures res.Valid() && fresh(res.Repr - old(Repr)) && res.node == KeywordTrie.Coalesce(old(node))
      decreases Repr, 1
    {
      CoalesceKeys();
      if value.Some? || |keys| != 1 { return this; }
      res := new Trie.Merged(prefix, keys[0]);
    }

    method CoalesceKeys()
      requires Valid()
      modifies Repr
      ensures Valid() && fresh(Repr - old(Repr)) && node == CoalesceRoot(old(node))
      decreases Repr, 0
    {
      var ts, ks: seq<Trie> := keys, [];
      ghost var ns, todo, made: set<Trie> := node.kids, Repr - {this}, {};
      var i := 0;
      assert ts[i..] == ts && ns[i..] == ns;
      while i < |ts|
        invariant 0 <= i <= |ts| == |ns| && unchanged(this)
        invariant todo <= old(Repr) && todo !! made && this !in todo + made && fresh(made - old(Repr))
        invariant Kids(ts[i..], ns[i..], todo, NoHole)
        invariant Kids(ks, CoalesceAll(ns[..i]), made, NoHole)
      {
        ks, todo, made := CoalesceKey(ts[i..], ks, todo, made, ns[i..], CoalesceAll(ns[..i]));
        assert ns[..i + 1][..i] == ns[..i];
        assert ts[i..][1..] == ts[i + 1..] && ns[i..][1..] == ns[i + 1..];
        i := i + 1;
      }
      assert ns[..i] == ns;
      TakeKeys(ks, made, CoalesceAll(ns));
    }

    /** Replace the dictionary by another one. */
    method TakeKeys(ks: seq<Trie>, ghost made: set<Trie>, ghost cs: seq<Node>)
      requires Kids(ks, cs, made, NoHole) && this !in made && node.prefix == prefix && node.value == value
      requires node.fullPrefix == fullPrefix && node.weight == weight
      modifies this
      ensures Valid() && Repr == {this} + made && node == old(node).(kids := cs)
    {
      keys := ks;
      Repr := {this} + made;
      node := node.(kids := cs);
      assert Repr - {this} == made;
    }

    /** One turn of the loop over the children: compress the first of `ts` and store it in `ks`. */
    method CoalesceKey(ts: seq<Trie>, ks: seq<Trie>, ghost todo: set<Trie>, ghost made: set<Trie>,
                       ghost ns: seq<Node>, ghost cs: seq<Node>)
      returns (ks': seq<Trie>, ghost todo': set<Trie>, ghost made': set<Trie>)
      requires ts != [] && Kids(ts, ns, todo, NoHole) && Kids(ks, cs, made, NoHole)
      requires todo !! made && this !in todo + made && todo < Repr
      modifies todo
      ensures |ns| == |ts| && Kids(ts[1..], ns[1..], todo', NoHole)
        && Kids(ks', Put(cs, KeywordTrie.Coalesce(ns[0])), made', NoHole)
      ensures todo' <= todo && todo' !! made' && this !in todo' + made' && fresh(made' - todo - made)
      decreases todo, 2
    {
      var k := ts[0];
      KidsTail(ts, ns, todo);
      todo' := todo - k.Repr;
      var t := k.Coalesce();
      var j := 0;
      while j < |ks| && ks[j].prefix != t.prefix
        invariant j <= |ks| && forall l | 0 <= l < j :: cs[l].prefix != t.prefix
      {
        assert ks[j].Valid();
        j := j + 1;
      }
      assert j < |ks| ==> ks[j].Valid();
      assert j == IndexOf(cs, t.prefix);
      KidsPut(ks, cs, made, t, j);
      ks' := if j < |ks| then ks[j := t] else ks + [t];
      made' := made + t.Repr;
    }

    /** Attach full prefixes and weights, and sort the children by descending weight. */
    method FillOut(freq: map<string, nat>, above: string)
      requires Valid()
      modifies Repr
      ensures Valid() && Repr == old(Repr) && node == KeywordTrie.FillOut(freq, old(node), above)
      decreases node, 2
    {
      var full := above + prefix;
      var total, weights := FillKeys(freq, full);
      ghost var filled := FillAll(freq, node.kids, full);
      SortKeys(full, total, weights, filled);
    }

    /** Sort the filled children and set the attributes. */
    method SortKeys(full: string, total: nat, weights: seq<nat>, ghost filled: seq<Node>)
      requires this in Repr && Kids(keys, filled, Repr - {this}, NoHole) && weights == Weights(filled)
      requires node.prefix == prefix && node.value == value
      modifies this
      ensures Valid() && Repr == old(Repr)
      ensures node == Node(old(node).prefix, old(node).value, Pick(filled, Order(weights)), full, total)
    {
      OrderIsStableSort(weights);
      KidsPick(keys, filled, Repr - {this}, Order(weights));
      ghost var region := Repr - {this};
      fullPrefix, weight := full, total;
      node := Node(prefix, value, [], full, total);
      TakeKeys(Pick(keys, Order(weights)), region, Pick(filled, Order(weights)));
      assert {this} + region == Repr;
    }

    /** The loop over the children: fill each of them out and add up the weights. */
    method FillKeys(freq: map<string, nat>, full: string) returns (total: nat, weights: seq<nat>)
      requires Valid()
      modifies Repr - {this}
      ensures Kids(keys, FillAll(freq, node.kids, full), Repr - {this}, NoHole)
      ensures weights == Weights(FillAll(freq, node.kids, full)) && total == KeywordWeight(freq, full) + Sum(weights)
      decreases node, 1
    {
      total, weights := KeywordWeight(freq, full), [];
      var i := 0;
      ghost var ns := node.kids;
      while i < |keys|
        invariant 0 <= i <= |keys| == |node.kids| && FilledUpTo(freq, node.kids, full, i, ns)
        invariant weights == Weights(ns[..i]) && total == KeywordWeight(freq, full) + Sum(weights)
        invariant Kids(keys, ns, Repr - {this}, NoHole)
      {
        FillStep(freq, node.kids, full, i, ns);
        FillKey(freq, i, full, ns);
        ns := ns[i := keys[i].node];
        total := total + keys[i].weight;
        weights := weights + [keys[i].weight];
        i := i + 1;
      }
      assert node.kids[..i] == node.kids && ns[..i] == ns;
    }

    method FillKey(freq: map<string, nat>, i: nat, full: string, ghost ns: seq<Node>)
      requires this in Repr && i < |keys| && Kids(keys, ns, Repr - {this}, NoHole) && |node.kids| == |ns|
        && ns[i] == node.kids[i]
      modifies keys[i].Repr
      ensures Kids(keys, ns[i := KeywordTrie.FillOut(freq, ns[i], full)], Repr - {this}, NoHole)
      ensures keys[i].node == KeywordTrie.FillOut(freq, ns[i], full) && keys[i].weight == keys[i].node.weight
      decreases node, 0
    {
      ghost var others := Repr - {this} - keys[i].Repr;
      OpenHole(keys, ns, Repr - {this}, i);
      keys[i].FillOut(freq, full);
      CloseHole(keys, ns, others, i);
      assert others + keys[i].Repr == Repr - {this};
    }

    /** The test printed for the edge to this node from a node with full prefix `full`. */
    method PrintTest(full: string) returns (test: Cond)
      requires Valid() && node.fullPrefix == full + node.prefix
      ensures test == EdgeTest(full, node)
    {
      var baseIndex, k := |full|, prefix;
      if baseIndex > 0 && |k| == 3 {
        baseIndex := baseIndex - 1;
        k := [fullPrefix[baseIndex]] + k;
      }
      test := Chars(baseIndex, k);
    }

    /** Print the decision lines of this node and everything below it. */
    method PrintSubTree(out: seq<Line>) returns (r: seq<Line>)
      requires Valid() && Filled(node)
      ensures r == out + Emit(node)
      decreases node
    {
      r := out;
      if value.Some? {
        r := r + [If(NoIdentPart(|fullPrefix|)), Shift(|fullPrefix|), SetIdent(fullPrefix), Return(value.value), Close];
      }
      ghost var done := out + EmitValue(node);
      var itemCount := 0;
      assert node.kids[itemCount..] == node.kids;
      while itemCount < |keys|
        invariant 0 <= itemCount <= |keys| == |node.kids|
        invariant if itemCount < |keys| || itemCount == 0
                  then r + EmitArms(fullPrefix, node.kids[itemCount..], itemCount == 0)
                       == done + EmitArms(fullPrefix, node.kids, true)
                  else r == done + EmitArms(fullPrefix, node.kids, true)
      {
        ghost var before, rest := r, node.kids[itemCount..];
        var trie := keys[itemCount];
        assert rest[0] == trie.node && rest[1..] == node.kids[itemCount + 1..];
        var test := trie.PrintTest(fullPrefix);
        var head := if itemCount == 0 then If(test) else ElseIf(test);
        r := trie.PrintSubTree(r + [head]);
        Reassociate(before, head, Emit(trie.node), EmitArms(fullPrefix, rest[1..], false));
        itemCount := itemCount + 1;
        if itemCount == |keys| { r := r + [Close]; }
      }
      Reassociate2(out, EmitValue(node), EmitArms(fullPrefix, node.kids, true));
    }

    method MaxLength() returns (max: nat)
      requires Valid()
      ensures max == KeywordProgram.MaxLength(node)
      decreases node
    {
      max := |fullPrefix|;
      var i := 0;
      assert node.kids[i..] == node.kids;
      while i < |keys|
        invariant 0 <= i <= |keys| == |node.kids|
        invariant KeywordProgram.MaxLength(node) == var m := MaxLengths(node.kids[i..]); if m > max then m else max
      {
        var l := keys[i].MaxLength();
        if l > max { max := l; }
        assert node.kids[i..][0] == keys[i].node && node.kids[i..][1..] == node.kids[i + 1..];
        i := i + 1;
      }
    }
  }

  /** The objects `ts`, except the one at `hole`, represent the nodes `ns`, in disjoint parts of `region`. */
  ghost predicate Kids(ts: seq<Trie>, ns: seq<Node>, region: set<Trie>, hole: int)
    reads region
    decreases region, 1
  {
    && |ts| == |ns|
    && (forall i | 0 <= i < |ts| && i != hole ::
          ts[i] in region && ts[i].Repr <= region && ts[i].Valid() && ts[i].node == ns[i])
    && (forall i, j | 0 <= i < j < |ts| && i != hole && j != hole :: ts[i].Repr !! ts[j].Repr)
  }

  lemma {:induction false} KidsGrow(ts: seq<Trie>, ns: seq<Node>, region: set<Trie>, wider: set<Trie>)
    requires Kids(ts, ns, region, NoHole) && region <= wider
    ensures Kids(ts, ns, wider, NoHole)
  {
  }

  lemma {:induction false} OpenHole(ts: seq<Trie>, ns: seq<Node>, region: set<Trie>, i: nat)
    requires Kids(ts, ns, region, NoHole) && i < |ts|
    ensures Kids(ts, ns, region - ts[i].Repr, i)
  {
    forall j | 0 <= j < |ts| && j != i ensures ts[j].Repr !! ts[i].Repr {
      assert if i < j then ts[i].Repr !! ts[j].Repr else ts[j].Repr !! ts[i].Repr;
    }
    assert forall j | 0 <= j < |ts| && j != i :: ts[j] in ts[j].Repr;
  }

  lemma {:induction false} CloseHole(ts: seq<Trie>, ns: seq<Node>, region: set<Trie>, i: nat)
    requires i < |ts| && Kids(ts, ns, region, i) && ts[i].Valid() && ts[i].Repr !! region
    ensures Kids(ts, ns[i := ts[i].node], region + ts[i].Repr, NoHole)
  {
  }

  lemma {:induction false} KidsTail(ts: seq<Trie>, ns: seq<Node>, region: set<Trie>)
    requires ts != [] && Kids(ts, ns, region, NoHole)
    ensures |ns| == |ts| && Kids(ts[1..], ns[1..], region - ts[0].Repr, NoHole)
  {
    OpenHole(ts, ns, region, 0);
  }

  lemma {:induction false} KidsPut(ts: seq<Trie>, ns: seq<Node>, region: set<Trie>, t: Trie, j: nat)
    requires Kids(ts, ns, region, NoHole) && t.Valid() && t.Repr !! region && j <= |ts|
    ensures Kids(if j < |ts| then ts[j := t] else ts + [t],
                 if j < |ns| then ns[j := t.node] else ns + [t.node], region + t.Repr, NoHole)
  {
  }

  /** The loop over the children has filled out the first `i` of them. */
  ghost predicate FilledUpTo(freq: map<string, nat>, ks: seq<Node>, full: string, i: nat, ns: seq<Node>) {
    i <= |ks| == |ns| && ns[..i] == FillAll(freq, ks[..i], full) && ns[i..] == ks[i..]
  }

  lemma {:induction false} FillStep(freq: map<string, nat>, ks: seq<Node>, full: string, i: nat, ns: seq<Node>)
    requires FilledUpTo(freq, ks, full, i, ns) && i < |ks|
    ensures ns[i] == ks[i]
    ensures var f := KeywordTrie.FillOut(freq, ks[i], full);
      && FilledUpTo(freq, ks, full, i + 1, ns[i := f])
      && Weights(ns[i := f][..i + 1]) == Weights(ns[..i]) + [f.weight]
      && Sum(Weights(ns[..i]) + [f.weight]) == Sum(Weights(ns[..i])) + f.weight
  {
    assert ns[i] == ns[i..][0] == ks[i..][0] == ks[i];
    assert ks[..i + 1][..i] == ks[..i];
    var f := KeywordTrie.FillOut(freq, ks[i], full);
    var ns' := ns[i := f];
    assert ns'[..i + 1] == ns[..i] + [f];
    forall j | i + 1 <= j < |ks| ensures ns'[j] == ks[j] { assert ns[i..][j - i] == ks[i..][j - i]; }
    assert (Weights(ns[..i]) + [f.weight])[..i] == Weights(ns[..i]);
  }

  lemma {:induction false} Reassociate(a: seq<Line>, l: Line, b: seq<Line>, c: seq<Line>)
    ensures a + [l] + b + c == a + ([l] + b + c)
  {
  }

  lemma {:induction false} Reassociate2(a: seq<Line>, b: seq<Line>, c: seq<Line>)
    ensures a + b + c == a + (b + c)
  {
  }

  lemma {:induction false} KidsPick(ts: seq<Trie>, ns: seq<Node>, region: set<Trie>, ord: seq<nat>)
    requires Kids(ts, ns, region, NoHole) && Permutes(ord, |ts|)
    ensures Kids(Pick(ts, ord), Pick(ns, ord), region, NoHole)
  {
    forall i, j | 0 <= i < j < |ord| ensures Pick(ts, ord)[i].Repr !! Pick(ts, ord)[j].Repr {
      assert if ord[i] < ord[j] then ts[ord[i]].Repr !! ts[ord[j]].Repr else ts[ord[j]].Repr !! ts[ord[i]].Repr;
    }
  }

  /** The driver: insert every keyword, compress, fill out, print. It prints the program of the
      keyword list and the length that lets it go without bounds checks. */
  method GenerateKeywordLookup(keywords: seq<(string, string)>) returns (lines: seq<Line>, maxTokenLength: nat)
    ensures lines == Generate(keywords, KEYWORD_WEIGHTS)
      && maxTokenLength == MaxTokenLength(Compile(keywords, KEYWORD_WEIGHTS))
  {
    lines, maxTokenLength := GenerateWeighted(keywords, KEYWORD_WEIGHTS);
  }

  method GenerateWeighted(keywords: seq<(string, string)>, freq: map<string, nat>)
      returns (lines: seq<Line>, maxTokenLength: nat)
    ensures lines == Generate(keywords, freq) && maxTokenLength == MaxTokenLength(Compile(keywords, freq))
  {
    var trie := CompileTrie(keywords, freq);
    CompileStoresTable(keywords, freq);
    lines := trie.PrintSubTree([]);
    assert [] + Emit(trie.node) == Emit(trie.node);
    lines := lines + [ReturnIdent];
    var max := trie.MaxLength();
    maxTokenLength := max + 1;
  }

  method CompileTrie(keywords: seq<(string, string)>, freq: map<string, nat>) returns (trie: Trie)
    ensures trie.Valid() && trie.node == Compile(keywords, freq)
  {
    trie := BuildTrie(keywords);
    var _ := trie.Coalesce();
    trie.FillOut(freq, "");
  }

  method BuildTrie(keywords: seq<(string, string)>) returns (trie: Trie)
    ensures trie.Valid() && fresh(trie.Repr) && trie.node == Build(keywords)
  {
    trie := new Trie("");
    var i := 0;
    while i < |keywords|
      invariant 0 <= i <= |keywords| && trie.Valid() && fresh(trie.Repr) && trie.node == Build(keywords[..i])
    {
      trie.Insert(keywords[i].0, keywords[i].1);
      assert keywords[..i + 1][..i] == keywords[..i];
      i := i + 1;
    }
    assert keywords[..i] == keywords;
  }
}

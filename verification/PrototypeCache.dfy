/** The prototypes of API classes: one JavaScript object per class and context, held weakly, linked
    like the classes they belong to, while garbage collection may take any of them. */
module PrototypeCache {
  import opened Options

  /** A class: its parent, a class made before it, and whether it has a prototype class. */
  datatype ClassDef = ClassDef(parent: Option<nat>, hasPrototypeClass: bool)

  type Classes = cs: seq<ClassDef> | forall i | 0 <= i < |cs| :: cs[i].parent.Some? ==> cs[i].parent.value < i

  type Object = nat

  /** The class whose prototype the prototype of `c` inherits from: the parent, if it has one. */
  function ProtoParent(cs: Classes, c: nat): Option<nat>
    requires c < |cs|
  {
    if cs[c].parent.Some? && cs[cs[c].parent.value].hasPrototypeClass then cs[c].parent else None
  }

  /** Live objects with the object they inherit from, if it is a class prototype. */
  type Heap = map<Object, Option<Object>>

  /** Every live object keeps alive what it inherits from. */
  predicate Closed(heap: Heap) { forall o | o in heap && heap[o].Some? :: heap[o].value in heap }

  /** The cached prototype of a class is alive and inherits from the cached prototype of the parent. */
  predicate Mirrors(cs: Classes, heap: Heap, cache: map<nat, Object>, c: nat)
    requires c in cache
  {
    && c < |cs| && cs[c].hasPrototypeClass
    && cache[c] in heap
    && match ProtoParent(cs, c)
       case None => heap[cache[c]] == None
       case Some(p) => p in cache && heap[cache[c]] == Some(cache[p])
  }

  predicate AllMirror(cs: Classes, heap: Heap, cache: map<nat, Object>) {
    forall c | c in cache :: Mirrors(cs, heap, cache, c)
  }

  // ---------------------------------------------------------------- the chains

  /** The classes from `c` upwards as far as prototypes go. */
  function ClassChain(cs: Classes, c: nat): seq<nat>
    requires c < |cs|
  {
    match ProtoParent(cs, c)
    case None => [c]
    case Some(p) => [c] + ClassChain(cs, p)
  }

  /** The first `n` objects of a prototype chain. */
  function ObjectChain(heap: Heap, o: Object, n: nat): seq<Object>
    decreases n
  {
    if n == 0 then []
    else if o in heap && heap[o].Some? then [o] + ObjectChain(heap, heap[o].value, n - 1)
    else [o]
  }

  /** Class inheritance and prototype inheritance are parallel: the prototype chain of a cached
      prototype goes through the cached prototypes of the class chain and ends with it. */
  lemma {:induction false} ChainsAreParallel(cs: Classes, heap: Heap, cache: map<nat, Object>, c: nat, n: nat)
    requires AllMirror(cs, heap, cache) && c in cache && c < |cs| && n >= |ClassChain(cs, c)|
    ensures var classes, objects := ClassChain(cs, c), ObjectChain(heap, cache[c], n);
      |objects| == |classes| && forall i | 0 <= i < |classes| :: classes[i] in cache && objects[i] == cache[classes[i]]
    decreases c
  {
    assert Mirrors(cs, heap, cache, c);
    var p := ProtoParent(cs, c);
    if p.Some? {
      ChainsAreParallel(cs, heap, cache, p.value, n - 1);
      assert heap[cache[c]] == Some(cache[p.value]);
    }
  }

  // ---------------------------------------------------------------- what keeps the mirror

  function Live(cache: map<nat, Object>, heap: Heap): map<nat, Object> {
    map c | c in cache && cache[c] in heap :: cache[c]
  }

  /** A collection that keeps what live objects inherit from keeps the mirror. */
  lemma {:induction false} CollectionKeepsMirror(cs: Classes, heap: Heap, cache: map<nat, Object>, dead: set<Object>)
    requires AllMirror(cs, heap, cache) && Closed(heap - dead)
    ensures AllMirror(cs, heap - dead, Live(cache, heap - dead))
  {
    forall c | c in Live(cache, heap - dead) ensures Mirrors(cs, heap - dead, Live(cache, heap - dead), c) {
      assert Mirrors(cs, heap, cache, c);
    }
  }

  /** Objects that are not cached may come and change without harm. */
  lemma {:induction false} StrangerKeepsMirror(cs: Classes, heap: Heap, cache: map<nat, Object>, o: Object,
      link: Option<Object>)
    requires AllMirror(cs, heap, cache) && forall c | c in cache :: cache[c] != o
    ensures AllMirror(cs, heap[o := link], cache)
  {
    forall c | c in cache ensures Mirrors(cs, heap[o := link], cache, c) { assert Mirrors(cs, heap, cache, c); }
  }

  /** A class whose prototype is not cached has no descendant in the cache, so it can be added. */
  lemma {:induction false} AdditionKeepsMirror(cs: Classes, heap: Heap, cache: map<nat, Object>, c: nat, o: Object)
    requires AllMirror(cs, heap, cache) && c !in cache && c < |cs| && cs[c].hasPrototypeClass && o in heap
    requires match ProtoParent(cs, c)
      case None => heap[o] == None
      case Some(p) => p in cache && heap[o] == Some(cache[p])
    ensures AllMirror(cs, heap, cache[c := o])
  {
    var wider := cache[c := o];
    forall d | d in wider ensures Mirrors(cs, heap, wider, d) {
      if d != c { assert Mirrors(cs, heap, cache, d); }
    }
  }

  // ---------------------------------------------------------------- requests and collections

  /** Cached prototypes stay cached as long as they live, and the dead do not come back. */
  ghost predicate Persists(heap: Heap, cache: map<nat, Object>, next: Object, heap': Heap, cache': map<nat, Object>,
    next': Object)
  {
    && next <= next' && (forall o | o in heap' && o < next :: o in heap)
    && (forall c | c in cache && cache[c] in heap' :: c in cache' && cache'[c] == cache[c])
  }

  /** A context: its heap, its weak cache, and a collector that may run whenever something is
      allocated and picks whatever it likes among what may go. */
  class Context {
    const classes: Classes
    const collector: nat -> set<Object>
    var clock: nat
    var next: Object
    var heap: Heap
    var cachedPrototype: map<nat, Object>

    ghost predicate Valid()
      reads this
    {
      Closed(heap) && AllMirror(classes, heap, cachedPrototype) && forall o | o in heap :: o < next
    }

    constructor (classes: Classes, collector: nat -> set<Object>)
      ensures Valid() && this.classes == classes && cachedPrototype == map[]
    {
      this.classes, this.collector := classes, collector;
      clock, next, heap, cachedPrototype := 0, 0, map[], map[];
    }

    /** Collect what the collector proposes, unless that would take an object in use. */
    method Collect(inUse: set<Object>)
      requires Valid() && inUse <= heap.Keys
      modifies this
      ensures Valid() && next == old(next) && inUse <= heap.Keys
      ensures Persists(old(heap), old(cachedPrototype), old(next), heap, cachedPrototype, next)
      ensures heap.Keys <= old(heap).Keys && forall o | o in heap :: heap[o] == old(heap)[o]
      ensures forall c :: c in cachedPrototype <==> c in old(cachedPrototype) && old(cachedPrototype)[c] in heap
      ensures forall c | c in cachedPrototype :: cachedPrototype[c] == old(cachedPrototype)[c]
    {
      var dead := collector(clock);
      clock := clock + 1;
      assert forall c | c in cachedPrototype :: Mirrors(classes, heap, cachedPrototype, c);
      if dead !! inUse && Closed(heap - dead) {
        CollectionKeepsMirror(classes, heap, cachedPrototype, dead);
        heap := heap - dead;
        cachedPrototype := Live(cachedPrototype, heap);
      }
    }

    /** A new object, which inherits from nothing in the cache. */
    method Create(inUse: set<Object>) returns (o: Object)
      requires Valid() && inUse <= heap.Keys
      modifies this
      ensures Valid() && inUse + {o} <= heap.Keys && o !in old(heap) && o !in inUse && heap[o] == None && old(next) <= o
      ensures Persists(old(heap), old(cachedPrototype), old(next), heap, cachedPrototype, next)
      ensures forall x | x in inUse :: heap[x] == old(heap)[x]
      ensures forall c | c in cachedPrototype ::
        c in old(cachedPrototype) && cachedPrototype[c] == old(cachedPrototype)[c]
    {
      Collect(inUse);
      o := next;
      assert forall c | c in cachedPrototype :: Mirrors(classes, heap, cachedPrototype, c);
      StrangerKeepsMirror(classes, heap, cachedPrototype, o, None);
      next := next + 1;
      heap := heap[o := None];
    }

    /** `OpaqueJSClass::prototype`; `inUse` are the prototypes under construction further down. */
    method Prototype(c: nat, inUse: set<Object>) returns (r: Option<Object>)
      requires Valid() && c < |classes| && inUse <= heap.Keys
      modifies this
      ensures Valid() && inUse <= heap.Keys
        && Persists(old(heap), old(cachedPrototype), old(next), heap, cachedPrototype, next)
      ensures forall x | x in inUse :: heap[x] == old(heap)[x]
      ensures if classes[c].hasPrototypeClass then c in cachedPrototype && r == Some(cachedPrototype[c]) else r == None
      ensures c in old(cachedPrototype) ==>
        r == Some(old(cachedPrototype)[c]) && heap == old(heap) && cachedPrototype == old(cachedPrototype)
      ensures forall d | d in cachedPrototype ::
        (d in old(cachedPrototype) && cachedPrototype[d] == old(cachedPrototype)[d])
          || (d <= c && cachedPrototype[d] >= old(next))
      decreases c, 1
    {
      if !classes[c].hasPrototypeClass { return None; }
      if c in cachedPrototype { return Some(cachedPrototype[c]); }
      var o := Create(inUse);
      assert forall d | d in cachedPrototype :: Mirrors(classes, old(heap), old(cachedPrototype), d);
      Link(c, o, inUse);
      return Some(o);
    }

    /** Let the new prototype inherit from the parent's, which may have to be made first, and cache it. */
    method Link(c: nat, o: Object, inUse: set<Object>)
      requires Valid() && c < |classes| && classes[c].hasPrototypeClass && c !in cachedPrototype
      requires inUse + {o} <= heap.Keys && o !in inUse && heap[o] == None
        && forall d | d in cachedPrototype :: cachedPrototype[d] != o
      modifies this
      ensures Valid() && inUse <= heap.Keys
        && Persists(old(heap), old(cachedPrototype), old(next), heap, cachedPrototype, next)
      ensures forall x | x in inUse :: heap[x] == old(heap)[x]
      ensures c in cachedPrototype && cachedPrototype[c] == o
      ensures forall d | d in cachedPrototype && d != c ::
        (d in old(cachedPrototype) && cachedPrototype[d] == old(cachedPrototype)[d])
          || (d <= c && cachedPrototype[d] >= old(next))
      decreases c, 0
    {
      var parent := classes[c].parent;
      if parent.Some? {
        var q := Prototype(parent.value, inUse + {o});
        if q.Some? {
          assert Mirrors(classes, heap, cachedPrototype, parent.value);
          StrangerKeepsMirror(classes, heap, cachedPrototype, o, q);
          heap := heap[o := q];
        }
      }
      AdditionKeepsMirror(classes, heap, cachedPrototype, c, o);
      cachedPrototype := cachedPrototype[c := o];
    }
  }

  datatype Event = Request(class_: nat) | Collection

  /** Over every run of requests and collections the cache mirrors the classes, and a class keeps its
      prototype until that is collected. */
  method WholeRun(context: Context, events: seq<Event>)
    requires context.Valid()
    modifies context
    ensures context.Valid()
    ensures Persists(
      old(context.heap), old(context.cachedPrototype), old(context.next),
      context.heap, context.cachedPrototype, context.next)
  {
    var i := 0;
    while i < |events|
      invariant 0 <= i <= |events| && context.Valid()
      invariant Persists(
        old(context.heap), old(context.cachedPrototype), old(context.next),
        context.heap, context.cachedPrototype, context.next)
    {
      match events[i] {
        case Request(c) => if c < |context.classes| { var _ := context.Prototype(c, {}); }
        case Collection => context.Collect({});
      }
      i := i + 1;
    }
  }
}

/** JSRetainPtr: a smart pointer that owns one reference of a counted object. Pointers may share an
    object, and an operation may be given the pointer itself. */
module RetainPtr {

  /** A counted object. At zero it is freed; a freed object may be neither retained nor released, so it
      stays freed. */
  class Counted {
    var count: nat
    var freed: bool

    constructor ()
      ensures count == 1 && !freed
    {
      count, freed := 1, false;
    }

    method Retain()
      requires !freed
      modifies this
      ensures count == old(count) + 1 && !freed
    {
      count := count + 1;
    }

    method Release()
      requires !freed && count > 0
      modifies this
      ensures count == old(count) - 1 && freed == (count == 0)
    {
      count := count - 1;
      freed := count == 0;
    }
  }

  /** What each pointer holds. */
  type View = map<JSRetainPtr, Counted?>

  ghost function Held(ptrs: set<JSRetainPtr>): View
    reads ptrs
  {
    map p | p in ptrs :: p.m_ptr
  }

  /** The pointers that hold `o`. */
  ghost function Holders(v: View, o: Counted): set<JSRetainPtr>
  {
    set p | p in v && v[p] == o
  }

  /** The count of `o` is the number of its other owners and of the pointers that hold it, and it is
      freed exactly when nobody owns it. */
  ghost predicate Counts(v: View, o: Counted, others: nat)
    reads o
  {
    o.count == others + |Holders(v, o)| && (o.freed <==> o.count == 0)
  }

  ghost predicate Balanced(ptrs: set<JSRetainPtr>, owners: map<Counted, nat>)
    reads ptrs, owners.Keys
  {
    && (forall p | p in ptrs && p.m_ptr != null :: p.m_ptr in owners)
    && (forall o | o in owners :: Counts(Held(ptrs), o, owners[o]))
  }

  ghost function One(b: bool): nat {
    if b then 1 else 0
  }

  /** Pointing one pointer elsewhere moves one reference. */
  lemma {:induction false} Redirect(v: View, p: JSRetainPtr, x: Counted?, o: Counted)
    requires p in v
    ensures |Holders(v[p := x], o)| == |Holders(v, o)| - One(v[p] == o) + One(x == o)
  {
    var rest := Holders(v, o) - {p};
    assert Holders(v, o) == if v[p] == o then rest + {p} else rest;
    assert Holders(v[p := x], o) == if x == o then rest + {p} else rest;
  }

  /** A new pointer holds one more reference of its object and of no other. */
  lemma {:induction false} Join(v: View, p: JSRetainPtr, x: Counted?, o: Counted)
    requires p !in v
    ensures |Holders(v[p := x], o)| == |Holders(v, o)| + One(x == o)
  {
    assert Holders(v[p := x], o) == if x == o then Holders(v, o) + {p} else Holders(v, o);
  }

  /** A pointer that ends gives up the one reference it held. */
  lemma {:induction false} Leave(v: View, p: JSRetainPtr, o: Counted)
    requires p in v
    ensures |Holders(v - {p}, o)| == |Holders(v, o)| - One(v[p] == o)
  {
    var rest := Holders(v, o) - {p};
    assert Holders(v, o) == if v[p] == o then rest + {p} else rest;
    assert Holders(v - {p}, o) == rest;
  }

  /** Whatever a pointer holds is alive. */
  lemma {:induction false} HeldIsAlive(ptrs: set<JSRetainPtr>, owners: map<Counted, nat>, p: JSRetainPtr)
    requires Balanced(ptrs, owners) && p in ptrs
    ensures p.m_ptr != null ==> p.m_ptr in owners && p.m_ptr.count > 0 && !p.m_ptr.freed
  {
    if p.m_ptr != null {
      assert Counts(Held(ptrs), p.m_ptr, owners[p.m_ptr]);
      assert p in Holders(Held(ptrs), p.m_ptr);
    }
  }

  class JSRetainPtr {
    var m_ptr: Counted?

    constructor (ghost ptrs: set<JSRetainPtr>, ghost owners: map<Counted, nat>)
      requires Balanced(ptrs, owners)
      ensures m_ptr == null && Balanced(ptrs + {this}, owners)
    {
      m_ptr := null;
      new;
      ghost var v := old(Held(ptrs));
      assert Held(ptrs + {this}) == v[this := null];
      forall o | o in owners ensures Counts(Held(ptrs + {this}), o, owners[o]) {
        assert old(Counts(v, o, owners[o]));
        Join(v, this, null, o);
      }
    }

    /** From a raw pointer: retain. */
    constructor Retaining(ptr: Counted?, ghost ptrs: set<JSRetainPtr>, ghost owners: map<Counted, nat>)
      requires Balanced(ptrs, owners) && (ptr != null ==> ptr in owners && !ptr.freed)
      modifies ptr
      ensures m_ptr == ptr && Balanced(ptrs + {this}, owners)
    {
      m_ptr := ptr;
      new;
      if ptr != null { ptr.Retain(); }
      ghost var v := old(Held(ptrs));
      assert Held(ptrs + {this}) == v[this := ptr];
      forall o | o in owners ensures Counts(Held(ptrs + {this}), o, owners[o]) {
        assert old(Counts(v, o, owners[o]));
        Join(v, this, ptr, o);
      }
    }

    /** Adopt: take over a reference that somebody else owned. */
    constructor Adopting(ptr: Counted?, ghost ptrs: set<JSRetainPtr>, ghost owners: map<Counted, nat>)
      requires Balanced(ptrs, owners) && (ptr != null ==> ptr in owners && owners[ptr] > 0)
      ensures m_ptr == ptr && Balanced(ptrs + {this}, if ptr == null then owners else owners[ptr := owners[ptr] - 1])
    {
      m_ptr := ptr;
      new;
      ghost var v := old(Held(ptrs));
      assert Held(ptrs + {this}) == v[this := ptr];
      forall o | o in owners ensures Counts(Held(ptrs + {this}), o, owners[o] - One(o == ptr)) {
        assert old(Counts(v, o, owners[o]));
        Join(v, this, ptr, o);
      }
    }

    /** Copy: share what `p` holds. */
    constructor Copying(p: JSRetainPtr, ghost ptrs: set<JSRetainPtr>, ghost owners: map<Counted, nat>)
      requires p in ptrs && Balanced(ptrs, owners)
      modifies p.m_ptr
      ensures m_ptr == p.m_ptr == old(p.m_ptr) && Balanced(ptrs + {this}, owners)
    {
      m_ptr := p.m_ptr;
      new;
      HeldIsAlive(ptrs, owners, p);
      if m_ptr != null { m_ptr.Retain(); }
      ghost var v := old(Held(ptrs));
      assert Held(ptrs + {this}) == v[this := m_ptr];
      forall o | o in owners ensures Counts(Held(ptrs + {this}), o, owners[o]) {
        assert old(Counts(v, o, owners[o]));
        Join(v, this, m_ptr, o);
      }
    }

    /** Move: take the reference `p` holds and leave `p` empty; no count changes. */
    constructor Moving(p: JSRetainPtr, ghost ptrs: set<JSRetainPtr>, ghost owners: map<Counted, nat>)
      requires p in ptrs && Balanced(ptrs, owners)
      modifies p
      ensures m_ptr == old(p.m_ptr) && p.m_ptr == null && Balanced(ptrs + {this}, owners)
    {
      m_ptr := p.m_ptr;
      p.m_ptr := null;
      new;
      ghost var v := old(Held(ptrs));
      ghost var w: View := v[p := null];
      assert Held(ptrs + {this}) == w[this := m_ptr];
      forall o | o in owners ensures Counts(Held(ptrs + {this}), o, owners[o]) {
        assert old(Counts(v, o, owners[o]));
        Redirect(v, p, null, o);
        Join(w, this, m_ptr, o);
      }
    }

    /** The destructor: release what is held. */
    method Destroy(ghost ptrs: set<JSRetainPtr>, ghost owners: map<Counted, nat>)
      requires this in ptrs && Balanced(ptrs, owners)
      modifies m_ptr
      ensures Balanced(ptrs - {this}, owners)
    {
      HeldIsAlive(ptrs, owners, this);
      if m_ptr != null { m_ptr.Release(); }
      ghost var v := old(Held(ptrs));
      assert Held(ptrs - {this}) == v - {this};
      forall o | o in owners ensures Counts(Held(ptrs - {this}), o, owners[o]) {
        assert old(Counts(v, o, owners[o]));
        Leave(v, this, o);
      }
    }

    /** The caller owns the reference from now on. */
    method LeakRef(ghost ptrs: set<JSRetainPtr>, ghost owners: map<Counted, nat>) returns (ptr: Counted?)
      requires this in ptrs && Balanced(ptrs, owners)
      modifies this
      ensures ptr == old(m_ptr) && m_ptr == null
      ensures ptr != null ==> ptr in owners
      ensures Balanced(ptrs, if ptr == null then owners else owners[ptr := owners[ptr] + 1])
    {
      ptr := m_ptr;
      m_ptr := null;
      ghost var v := old(Held(ptrs));
      assert Held(ptrs) == v[this := null];
      forall o | o in owners ensures Counts(Held(ptrs), o, owners[o] + One(o == ptr)) {
        assert old(Counts(v, o, owners[o]));
        Redirect(v, this, null, o);
      }
    }

    /** Release what is held and hold nothing. */
    method Clear(ghost ptrs: set<JSRetainPtr>, ghost owners: map<Counted, nat>)
      requires this in ptrs && Balanced(ptrs, owners)
      modifies this, m_ptr
      ensures m_ptr == null && Balanced(ptrs, owners)
    {
      HeldIsAlive(ptrs, owners, this);
      var ptr := m_ptr;
      m_ptr := null;
      if ptr != null { ptr.Release(); }
      ghost var v := old(Held(ptrs));
      assert Held(ptrs) == v[this := null];
      forall o | o in owners ensures Counts(Held(ptrs), o, owners[o]) {
        assert old(Counts(v, o, owners[o]));
        Redirect(v, this, null, o);
      }
    }

    /** The exchange both assignments end in: hold `incoming`, whose reference the caller hands over, and
        release what was held. */
    method Exchange(incoming: Counted?, ghost ptrs: set<JSRetainPtr>, ghost owners: map<Counted, nat>)
      requires this in ptrs && Balanced(ptrs, owners)
        && (incoming != null ==> incoming in owners && owners[incoming] > 0)
      modifies this, m_ptr
      ensures m_ptr == incoming
      ensures Balanced(ptrs, if incoming == null then owners else owners[incoming := owners[incoming] - 1])
    {
      HeldIsAlive(ptrs, owners, this);
      var ptr := m_ptr;
      m_ptr := incoming;
      if ptr != null { ptr.Release(); }
      ghost var v := old(Held(ptrs));
      ghost var left := if incoming == null then owners else owners[incoming := owners[incoming] - 1];
      assert Held(ptrs) == v[this := incoming];
      forall o | o in left ensures Counts(Held(ptrs), o, left[o]) {
        assert old(Counts(v, o, owners[o]));
        Redirect(v, this, incoming, o);
      }
    }

    /** Assign a raw pointer, possibly the one held: retain the new object, then release the old one. */
    method AssignRaw(optr: Counted?, ghost ptrs: set<JSRetainPtr>, ghost owners: map<Counted, nat>)
      requires this in ptrs && Balanced(ptrs, owners) && (optr != null ==> optr in owners && !optr.freed)
      modifies this, optr, m_ptr
      ensures m_ptr == optr && Balanced(ptrs, owners)
    {
      ghost var retained := owners;
      if optr != null {
        optr.Retain();
        retained := owners[optr := owners[optr] + 1];
        assert Held(ptrs) == old(Held(ptrs));
        forall o | o in owners ensures Counts(Held(ptrs), o, retained[o]) {
          assert old(Counts(Held(ptrs), o, owners[o]));
        }
        assert retained[optr := retained[optr] - 1] == owners;
      }
      Exchange(optr, ptrs, retained);
    }

    /** Copy assignment, possibly from this pointer. */
    method AssignCopy(p: JSRetainPtr, ghost ptrs: set<JSRetainPtr>, ghost owners: map<Counted, nat>)
      requires this in ptrs && p in ptrs && Balanced(ptrs, owners)
      modifies this, p.m_ptr, m_ptr
      ensures m_ptr == p.m_ptr == old(p.m_ptr) && Balanced(ptrs, owners)
    {
      HeldIsAlive(ptrs, owners, p);
      AssignRaw(p.m_ptr, ptrs, owners);
    }

    /** Move assignment: empty the other pointer, exchange, release what was held. Moving a pointer to
        itself changes nothing. */
    method AssignMove(p: JSRetainPtr, ghost ptrs: set<JSRetainPtr>, ghost owners: map<Counted, nat>)
      requires this in ptrs && p in ptrs && Balanced(ptrs, owners)
      modifies this, p, m_ptr
      ensures m_ptr == old(p.m_ptr) && (p != this ==> p.m_ptr == null) && Balanced(ptrs, owners)
    {
      var incoming := p.LeakRef(ptrs, owners);
      ghost var leaked := if incoming == null then owners else owners[incoming := owners[incoming] + 1];
      assert incoming != null ==> leaked[incoming := leaked[incoming] - 1] == owners;
      Exchange(incoming, ptrs, leaked);
    }

    /** Exchange two pointers, possibly the same one: no count changes. */
    method Swap(p: JSRetainPtr, ghost ptrs: set<JSRetainPtr>, ghost owners: map<Counted, nat>)
      requires this in ptrs && p in ptrs && Balanced(ptrs, owners)
      modifies this, p
      ensures m_ptr == old(p.m_ptr) && p.m_ptr == old(m_ptr) && Balanced(ptrs, owners)
    {
      ghost var v := Held(ptrs);
      var mine := m_ptr;
      m_ptr := p.m_ptr;
      p.m_ptr := mine;
      ghost var w: View := v[this := v[p]];
      assert Held(ptrs) == w[p := mine];
      forall o | o in owners ensures Counts(Held(ptrs), o, owners[o]) {
        assert old(Counts(v, o, owners[o]));
        Redirect(v, this, v[p], o);
        Redirect(w, p, mine, o);
      }
    }
  }

  /** What a program may do. Pointers and objects are named by the order they were made in; `x` may equal
      `y`, and a raw pointer may be one that is already held. */
  datatype Op =
    | Create
    | Drop(o: nat)
    | Empty
    | Retain(o: nat)
    | Adopt(o: nat)
    | Copy(y: nat)
    | Move(y: nat)
    | End(x: nat)
    | Clear(x: nat)
    | Leak(x: nat)
    | SetRaw(x: nat, o: nat)
    | SetCopy(x: nat, y: nat)
    | SetMove(x: nat, y: nat)
    | Exchange(x: nat, y: nat)

  /** A program over shared objects: the pointers ever made and those not yet ended, the objects and how
      many references of each are owned outside any pointer. */
  class Program {
    var made: seq<JSRetainPtr>
    var live: set<JSRetainPtr>
    var objects: seq<Counted>
    var owners: map<Counted, nat>

    ghost predicate Valid()
      reads this, live, owners.Keys
    {
      && (forall p | p in live :: p in made)
      && (forall o | o in objects :: o in owners)
      && Balanced(live, owners)
    }

    constructor ()
      ensures Valid() && live == {} && owners == map[]
    {
      made, live, objects, owners := [], {}, [], map[];
    }

    predicate IsLive(x: nat)
      reads this
    {
      x < |made| && made[x] in live
    }

    /** Nobody may use a raw pointer to a freed object. */
    predicate IsAlive(o: nat)
      requires forall x | x in objects :: x in owners
      reads this, owners.Keys
    {
      o < |objects| && !objects[o].freed
    }

    predicate IsOwned(o: nat)
      reads this
    {
      o < |objects| && objects[o] in owners && owners[objects[o]] > 0
    }

    /** An owner outside any pointer releases its reference. */
    method DropOwned(o: Counted)
      requires Valid() && o in owners && owners[o] > 0
      modifies this`owners, o
      ensures Valid() && owners == old(owners)[o := old(owners[o]) - 1]
    {
      assert Counts(Held(live), o, owners[o]);
      o.Release();
      owners := owners[o := owners[o] - 1];
      assert Held(live) == old(Held(live));
      forall x | x in owners ensures Counts(Held(live), x, owners[x]) {
        assert old(Counts(Held(live), x, owners[x]));
      }
    }

    /** A new object, with one reference owned outside any pointer. */
    method CreateObject()
      requires Valid()
      modifies this`owners, this`objects
      ensures Valid() && |objects| == |old(objects)| + 1 && fresh(owners.Keys - old(owners.Keys))
    {
      var o := new Counted();
      assert Holders(Held(live), o) == {};
      objects := objects + [o];
      owners := owners[o := 1];
      forall x | x in owners ensures Counts(Held(live), x, owners[x]) {
        assert x != o ==> old(Counts(Held(live), x, owners[x]));
      }
    }

    /** References pass between a pointer and an owner outside. */
    method SetOwners(now: map<Counted, nat>, ghost ptrs: set<JSRetainPtr>)
      requires (forall x | x in live :: x in made) && (forall o | o in objects :: o in owners)
      requires now.Keys == owners.Keys && Balanced(ptrs, now)
      modifies this`owners
      ensures owners == now && Balanced(ptrs, owners) && (forall o | o in objects :: o in owners)
    {
      owners := now;
    }

    /** A pointer that was just made. */
    method Admit(p: JSRetainPtr)
      requires forall x | x in live :: x in made
      requires forall o | o in objects :: o in owners
      requires Balanced(live + {p}, owners)
      modifies this`made, this`live
      ensures Valid() && live == old(live) + {p}
    {
      made, live := made + [p], live + {p};
    }

    method MakeRetaining(o: Counted)
      requires Valid() && o in owners && !o.freed
      modifies this`made, this`live, o
      ensures Valid() && fresh(live - old(live))
    {
      var p := new JSRetainPtr.Retaining(o, live, owners);
      Admit(p);
    }

    method MakeAdopting(o: Counted)
      requires Valid() && o in owners && owners[o] > 0
      modifies this`made, this`live, this`owners
      ensures Valid() && fresh(live - old(live)) && owners == old(owners)[o := old(owners[o]) - 1]
    {
      var p := new JSRetainPtr.Adopting(o, live, owners);
      SetOwners(owners[o := owners[o] - 1], live + {p});
      Admit(p);
    }

    method MakeCopy(y: JSRetainPtr)
      requires Valid() && y in live
      modifies this`made, this`live, owners.Keys
      ensures Valid() && fresh(live - old(live))
    {
      HeldIsAlive(live, owners, y);
      var p := new JSRetainPtr.Copying(y, live, owners);
      Admit(p);
    }

    method MakeMoved(y: JSRetainPtr)
      requires Valid() && y in live
      modifies this`made, this`live, y
      ensures Valid() && fresh(live - old(live))
    {
      var p := new JSRetainPtr.Moving(y, live, owners);
      Admit(p);
    }

    method MakeEmpty()
      requires Valid()
      modifies this`made, this`live
      ensures Valid() && fresh(live - old(live))
    {
      var p := new JSRetainPtr(live, owners);
      Admit(p);
    }

    method EndPointer(x: JSRetainPtr)
      requires Valid() && x in live
      modifies this`live, owners.Keys
      ensures Valid() && live == old(live) - {x}
    {
      HeldIsAlive(live, owners, x);
      x.Destroy(live, owners);
      live := live - {x};
    }

    method LeakPointer(x: JSRetainPtr)
      requires Valid() && x in live
      modifies this`owners, x
      ensures Valid() && owners.Keys == old(owners.Keys)
    {
      var ptr := x.LeakRef(live, owners);
      SetOwners(if ptr == null then owners else owners[ptr := owners[ptr] + 1], live);
    }

    method SetPointer(x: JSRetainPtr, o: Counted)
      requires Valid() && x in live && o in owners && !o.freed
      modifies live, owners.Keys
      ensures Valid()
    {
      HeldIsAlive(live, owners, x);
      x.AssignRaw(o, live, owners);
    }

    method ClearPointer(x: JSRetainPtr)
      requires Valid() && x in live
      modifies live, owners.Keys
      ensures Valid()
    {
      HeldIsAlive(live, owners, x);
      x.Clear(live, owners);
    }

    /** The operations on two pointers, possibly the same. */
    method Pair(op: Op, x: JSRetainPtr, y: JSRetainPtr)
      requires Valid() && x in live && y in live && (op.SetCopy? || op.SetMove? || op.Exchange?)
      modifies live, owners.Keys
      ensures Valid()
    {
      HeldIsAlive(live, owners, x);
      HeldIsAlive(live, owners, y);
      match op
      case SetCopy(_, _) => x.AssignCopy(y, live, owners);
      case SetMove(_, _) => x.AssignMove(y, live, owners);
      case Exchange(_, _) => x.Swap(y, live, owners);
    }

    /** One operation; one that names a pointer that is not live, a freed object or a reference nobody
        owns is not a program's to make, and is skipped. */
    method Step(op: Op)
      requires Valid()
      modifies this, live, owners.Keys
      ensures Valid() && fresh(live - old(live)) && fresh(owners.Keys - old(owners.Keys))
    {
      match op
      case Create => CreateObject();
      case Drop(o) => if IsOwned(o) { DropOwned(objects[o]); }
      case Empty => MakeEmpty();
      case Retain(o) => if IsAlive(o) { MakeRetaining(objects[o]); }
      case Adopt(o) => if IsOwned(o) { MakeAdopting(objects[o]); }
      case Copy(y) => if IsLive(y) { MakeCopy(made[y]); }
      case Move(y) => if IsLive(y) { MakeMoved(made[y]); }
      case End(x) => if IsLive(x) { EndPointer(made[x]); }
      case Clear(x) => if IsLive(x) { ClearPointer(made[x]); }
      case Leak(x) => if IsLive(x) { LeakPointer(made[x]); }
      case SetRaw(x, o) => if IsLive(x) && IsAlive(o) { SetPointer(made[x], objects[o]); }
      case _ => if IsLive(op.x) && IsLive(op.y) { Pair(op, made[op.x], made[op.y]); }
    }

    /** Any program at all: every count is the number of owners, nothing anybody owns is freed, and what
        nobody owns any more is freed. */
    method Run(ops: seq<Op>)
      requires Valid()
      modifies this, live, owners.Keys
      ensures Balanced(live, owners)
      ensures forall p | p in live && p.m_ptr != null :: p.m_ptr in owners && !p.m_ptr.freed
      ensures forall o | o in owners && owners[o] > 0 :: !o.freed
      ensures live == {} ==> forall o | o in owners && owners[o] == 0 :: o.freed
    {
      for i := 0 to |ops|
        invariant Valid() && fresh(live - old(live)) && fresh(owners.Keys - old(owners.Keys))
      {
        Step(ops[i]);
      }
      forall p | p in live && p.m_ptr != null ensures p.m_ptr in owners && !p.m_ptr.freed {
        HeldIsAlive(live, owners, p);
      }
      forall o | o in owners ensures owners[o] > 0 ==> !o.freed {
        assert Counts(Held(live), o, owners[o]);
      }
      forall o | o in owners && live == {} && owners[o] == 0 ensures o.freed {
        assert Counts(Held(live), o, owners[o]);
        assert Holders(Held(live), o) == {};
      }
    }
  }
}

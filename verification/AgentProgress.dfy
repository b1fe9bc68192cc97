/** The agents never get stuck: whoever holds the lock can let it go by its own steps, and from every
    reachable state every thread can be brought on. */
module AgentProgress {
  import opened Options
  import opened Agents

  /** The state after some more steps. */
  function Steps(s: State, steps: seq<Action>): Option<State>
    decreases |steps|
  {
    if steps == [] then Some(s)
    else if Enabled(s, steps[0]) && Defined(s, steps[0]) then Steps(Next(s, steps[0]), steps[1..])
    else None
  }

  predicate By(steps: seq<Action>, t: Thread) { forall i | 0 <= i < |steps| :: steps[i].t == t }

  lemma {:induction false} StepsConcat(s: State, a: seq<Action>, b: seq<Action>)
    requires Steps(s, a).Some?
    ensures Steps(s, a + b) == Steps(Steps(s, a).value, b)
    decreases |a|
  {
    if a == [] {
      assert a + b == b;
    } else {
      StepsConcat(Next(s, a[0]), a[1..], b);
      assert (a + b)[1..] == a[1..] + b;
    }
  }

  lemma {:induction false} OneStep(s: State, a: Action)
    requires Inv(s) && Handshake(s) && Enabled(s, a)
    ensures Defined(s, a) && Steps(s, [a]) == Some(Next(s, a))
    ensures Inv(Next(s, a)) && Handshake(Next(s, a))
  {
    NeverUndefined(s, a);
    StepKeeps(s, a);
    HandshakeKept(s, a);
    assert [a][1..] == [];
    assert Steps(Next(s, a), []) == Some(Next(s, a));
  }

  lemma {:induction false} RunGoesOn(main: Thread, schedule: seq<Action>, steps: seq<Action>)
    requires Run(main, schedule).Some? && Steps(Run(main, schedule).value, steps).Some?
    ensures Run(main, schedule + steps) == Steps(Run(main, schedule).value, steps)
    decreases |steps|
  {
    if steps == [] {
      assert schedule + steps == schedule;
    } else {
      RunOneMore(main, schedule, steps[0]);
      RunGoesOn(main, schedule + [steps[0]], steps[1..]);
      assert schedule + [steps[0]] + steps[1..] == schedule + steps;
    }
  }

  lemma {:induction false} RunOneMore(main: Thread, schedule: seq<Action>, a: Action)
    requires Run(main, schedule).Some? && Enabled(Run(main, schedule).value, a)
    requires Defined(Run(main, schedule).value, a)
    ensures Run(main, schedule + [a]) == Some(Next(Run(main, schedule).value, a))
  {
    var longer := schedule + [a];
    assert longer[..|longer| - 1] == schedule && longer[|longer| - 1] == a;
  }

  // ---------------------------------------------------------------- the handshake

  /** Before an agent has announced itself. */
  predicate Early(pc: Pc) { Unborn(pc) || pc == Leaving(Announcing) || pc == Announcing }

  /** A thread that waits for an agent waits for one that exists, and that is on its way. */
  predicate WaitOk(s: State, t: Thread)
    requires t in s.threads
  {
    var pc := s.threads[t];
    pc.AwaitingStart? || pc.StartParked? ==>
      pc.child in s.threads && (pc.child !in s.didStart ==> Early(s.threads[pc.child]))
  }

  predicate Handshake(s: State) { forall t | t in s.threads :: WaitOk(s, t) }

  lemma {:induction false} EnterMoves(s: State, t: Thread, op: Op, u: Thread)
    requires t in s.threads && (op.Dequeue? ==> t in s.workers)
    ensures var n := EnterOp(s, t, op);
      && n.threads.Keys == s.threads.Keys && n.didStart == s.didStart
      && (u != t && u in s.threads ==> n.threads[u] == s.threads[u])
      && !n.threads[t].AwaitingStart? && !n.threads[t].StartParked?
  {
  }

  /** A step of another thread at most wakes a thread up. */
  lemma {:induction false} OthersStay(s: State, a: Action, c: Thread)
    requires Enabled(s, a) && Defined(s, a) && c in s.threads
    ensures c in Next(s, a).threads && s.didStart <= Next(s, a).didStart
    ensures c != a.t ==> Awakened(s.threads[c], Next(s, a).threads[c])
  {
    match a
    case Enter(t) => EnterMoves(s, t, s.threads[t].op, c);
    case Send(t) => SendMoves(s, t, s.threads[t].todo, c);
    case _ =>
  }

  lemma {:induction false} SendMoves(s: State, t: Thread, todo: seq<Thread>, u: Thread)
    requires t in s.threads && (todo != [] ==> todo[0] in s.workers && s.log != [])
    ensures var n := SendOne(s, t, todo);
      && n.threads.Keys == s.threads.Keys && n.didStart == s.didStart && n.holder == s.holder
      && (u != t && u in s.threads ==> n.threads[u] == s.threads[u])
      && n.threads[t] == (if todo == [] then Notifying else Sending(todo[1..]))
  {
  }

  lemma {:induction false} EarlyGoesOn(s: State, a: Action, c: Thread)
    requires Enabled(s, a) && Defined(s, a) && c in s.threads && Early(s.threads[c])
    ensures c in Next(s, a).threads && (Early(Next(s, a).threads[c]) || c in Next(s, a).didStart)
  {
    OthersStay(s, a, c);
    if a.t == c { EarlyMoves(s, a); }
  }

  lemma {:induction false} EarlyMoves(s: State, a: Action)
    requires Enabled(s, a) && Defined(s, a) && Early(s.threads[a.t]) && a.t in Next(s, a).threads
    ensures Early(Next(s, a).threads[a.t]) || a.t in Next(s, a).didStart
  {
    match a
    case Call(_, _) =>
    case Acquire(_) =>
    case Enter(_) =>
    case Release(_) =>
    case Announce(_) =>
  }

  lemma {:induction false} WaitsBefore(s: State, a: Action, t: Thread)
    requires Inv(s) && Enabled(s, a) && Defined(s, a) && t in Next(s, a).threads
    requires var pc := Next(s, a).threads[t]; pc.AwaitingStart? || pc.StartParked?
    ensures var pc := Next(s, a).threads[t];
      || (a == Start(t, pc.child) && pc.child !in s.threads)
      || (t in s.threads && (s.threads[t] == AwaitingStart(pc.child) || s.threads[t] == StartParked(pc.child)))
  {
    assert ThreadOk(s, a.t);
    var n := Next(s, a);
    match a
    case Enter(u) => EnterMoves(s, u, s.threads[u].op, t);
    case Send(u) => assert t != u ==> n.threads[t] == s.threads[t];
    case _ =>
  }

  lemma {:induction false} HandshakeKept(s: State, a: Action)
    requires Inv(s) && Handshake(s) && Enabled(s, a) && Defined(s, a)
    ensures Handshake(Next(s, a))
  {
    var n := Next(s, a);
    forall t | t in n.threads ensures WaitOk(n, t) {
      var pc := n.threads[t];
      if pc.AwaitingStart? || pc.StartParked? {
        WaitsBefore(s, a, t);
        if a != Start(t, pc.child) {
          assert WaitOk(s, t);
          OthersStay(s, a, pc.child);
          if pc.child !in s.didStart { EarlyGoesOn(s, a, pc.child); }
        }
      }
    }
  }

  lemma {:induction false} HandshakeHolds(main: Thread, schedule: seq<Action>)
    requires Run(main, schedule).Some?
    ensures Inv(Run(main, schedule).value) && Handshake(Run(main, schedule).value)
  {
    Reachable(main, schedule);
    if schedule != [] {
      var front := schedule[..|schedule| - 1];
      HandshakeHolds(main, front);
      HandshakeKept(Run(main, front).value, schedule[|schedule| - 1]);
    }
  }

  // ---------------------------------------------------------------- letting the lock go

  /** The next step of the thread that holds the lock. */
  function HolderStep(s: State, t: Thread): Action
    requires t in s.threads && Critical(s.threads[t])
  {
    match s.threads[t]
    case Holding(_) => Enter(t)
    case Sending(_) => Send(t)
    case Notifying => NotifyAll(t)
    case _ => Release(t)
  }

  /** How many steps the holder has left at most. */
  function Rank(s: State, pc: Pc): nat {
    match pc
    case Holding(_) => |s.list| + 4
    case Sending(todo) => |todo| + 3
    case Notifying => 2
    case Leaving(_) => 1
    case _ => 0
  }

  /** The holder notifies all before it lets the lock go. */
  predicate Notifies(pc: Pc) {
    pc.Sending? || pc.Notifying? || (pc.Holding? && (pc.op.Broadcast? || pc.op.Report?))
  }

  /** Where a thread is once it has let the lock go. */
  predicate MayBeAt(was: Pc, pc: Pc) {
    match was
    case Holding(Register) => pc.Announcing?
    case Holding(Unregister) => pc.Exited?
    case Holding(Dequeue) => pc.Running? || pc == Parked(Dequeue)
    case Holding(GetReport) => pc.Running? || pc == Parked(GetReport)
    case Leaving(next) => pc == next
    case _ => pc.Running?
  }

  /** What the holder does to everybody else. */
  predicate OthersAt(s: State, n: State, t: Thread, notified: bool) {
    && n.threads.Keys == s.threads.Keys && n.didStart == s.didStart
    && forall u | u in s.threads && u != t :: n.threads[u] == if notified then Wake(s.threads[u]) else s.threads[u]
  }

  lemma {:induction false} HolderMoves(s: State, t: Thread)
    requires Inv(s) && t in s.threads && s.holder == Some(t)
    ensures Critical(s.threads[t])
    ensures var a := HolderStep(s, t); Enabled(s, a) && Defined(s, a)
  {
    assert ThreadOk(s, t);
    NeverUndefined(s, HolderStep(s, t));
  }

  lemma {:induction false} HolderLeavesOther(s: State, t: Thread, u: Thread)
    requires t in s.threads && Critical(s.threads[t]) && u in s.threads && u != t
    requires Enabled(s, HolderStep(s, t)) && Defined(s, HolderStep(s, t))
    ensures var n := Next(s, HolderStep(s, t));
      && n.threads.Keys == s.threads.Keys
      && n.threads[u] == if s.threads[t].Notifying? then Wake(s.threads[u]) else s.threads[u]
  {
    match s.threads[t]
    case Holding(op) => EnterMoves(s, t, op, u);
    case Sending(todo) => SendMoves(s, t, todo, u);
    case Notifying =>
    case Leaving(_) =>
  }

  lemma {:induction false} HolderKeepsThreads(s: State, t: Thread)
    requires t in s.threads && Critical(s.threads[t])
    requires Enabled(s, HolderStep(s, t)) && Defined(s, HolderStep(s, t))
    ensures var n := Next(s, HolderStep(s, t)); n.threads.Keys == s.threads.Keys && n.didStart == s.didStart
  {
    match s.threads[t]
    case Holding(op) => EnterMoves(s, t, op, t);
    case Sending(todo) => SendMoves(s, t, todo, t);
    case _ =>
  }

  lemma {:induction false} HolderLeavesOthers(s: State, t: Thread)
    requires t in s.threads && Critical(s.threads[t])
    requires Enabled(s, HolderStep(s, t)) && Defined(s, HolderStep(s, t))
    ensures OthersAt(s, Next(s, HolderStep(s, t)), t, s.threads[t].Notifying?)
  {
    HolderKeepsThreads(s, t);
    var n := Next(s, HolderStep(s, t));
    forall u | u in s.threads && u != t
      ensures n.threads[u] == if s.threads[t].Notifying? then Wake(s.threads[u]) else s.threads[u]
    {
      HolderLeavesOther(s, t, u);
    }
  }

  /** One step of the holder: the lock is let go, or there is less to do. */
  lemma {:induction false} HolderGoesTo(s: State, t: Thread)
    requires t in s.threads && s.holder == Some(t) && Critical(s.threads[t])
    requires Enabled(s, HolderStep(s, t)) && Defined(s, HolderStep(s, t))
    ensures t in Next(s, HolderStep(s, t)).threads
    ensures var n := Next(s, HolderStep(s, t));
      if n.holder == None then
        MayBeAt(s.threads[t], n.threads[t]) && !Notifies(s.threads[t])
      else
        && n.holder == Some(t) && Rank(n, n.threads[t]) < Rank(s, s.threads[t])
        && (forall pc :: MayBeAt(n.threads[t], pc) ==> MayBeAt(s.threads[t], pc))
        && (Notifies(n.threads[t]) <==> Notifies(s.threads[t]) && !s.threads[t].Notifying?)
  {
    match s.threads[t]
    case Sending(todo) => SendMoves(s, t, todo, t);
    case _ =>
  }

  /** By its own steps alone the holder lets the lock go; if it was to notify all, everybody who was parked
      then acquires the lock. */
  lemma {:induction false} HolderLetsGo(s: State, t: Thread) returns (steps: seq<Action>)
    requires Inv(s) && Handshake(s) && t in s.threads && s.holder == Some(t)
    ensures By(steps, t) && Steps(s, steps).Some?
    ensures var n := Steps(s, steps).value;
      && Inv(n) && Handshake(n) && n.holder == None
      && OthersAt(s, n, t, Notifies(s.threads[t])) && MayBeAt(s.threads[t], n.threads[t])
    decreases Rank(s, s.threads[t])
  {
    HolderMoves(s, t);
    HolderLeavesOthers(s, t);
    HolderGoesTo(s, t);
    var a := HolderStep(s, t);
    OneStep(s, a);
    var n := Next(s, a);
    if n.holder == None {
      steps := [a];
    } else {
      var more := HolderLetsGo(n, t);
      steps := [a] + more;
      StepsConcat(s, [a], more);
    }
  }

  // ---------------------------------------------------------------- getting on

  /** The thread is outside the protocol, or parked for something that is not there. */
  predicate Settled(s: State, t: Thread)
    requires t in s.threads
  {
    var pc := s.threads[t];
    || pc.Running? || pc.Created? || pc.Exited?
    || (pc == Parked(Dequeue) && t in s.workers && s.workers[t].queue == [])
    || (pc == Parked(GetReport) && s.reports == [])
  }

  /** A good continuation from `s`. */
  predicate Continues(s: State, steps: seq<Action>) {
    Steps(s, steps).Some? && Inv(Steps(s, steps).value) && Handshake(Steps(s, steps).value)
    && s.threads.Keys <= Steps(s, steps).value.threads.Keys
  }

  lemma {:induction false} ContinuesConcat(s: State, a: seq<Action>, b: seq<Action>)
    requires Continues(s, a) && Continues(Steps(s, a).value, b)
    ensures Continues(s, a + b) && Steps(s, a + b) == Steps(Steps(s, a).value, b)
  {
    StepsConcat(s, a, b);
  }

  lemma {:induction false} OneContinues(s: State, a: Action)
    requires Inv(s) && Handshake(s) && Enabled(s, a)
    ensures Defined(s, a) && Continues(s, [a]) && Steps(s, [a]) == Some(Next(s, a))
  {
    OneStep(s, a);
    forall c | c in s.threads ensures c in Next(s, a).threads { OthersStay(s, a, c); }
  }

  /** With the lock free, everybody who is parked has nothing to read. */
  lemma {:induction false} FreeLockSettles(s: State, t: Thread)
    requires Inv(s) && t in s.threads && s.holder == None && s.threads[t].Parked?
    ensures Settled(s, t)
  {
    assert ThreadOk(s, t);
    if t in s.list { assert WorkerOk(s, t); }
  }

  /** Whoever wants the lock can get it; a thread that awaits an agent stays where it is meanwhile. */
  lemma {:induction false} GetsTheLock(s: State, t: Thread, waiting: Thread) returns (steps: seq<Action>)
    requires Inv(s) && Handshake(s) && t in s.threads && s.threads[t].Acquiring?
    ensures Continues(s, steps)
    ensures var n := Steps(s, steps).value;
      && n.holder == Some(t) && t in n.threads && n.threads[t] == Holding(s.threads[t].op)
      && (waiting in s.threads && (s.threads[waiting].AwaitingStart? || s.threads[waiting].StartParked?) ==>
            n.threads[waiting] == s.threads[waiting])
  {
    var freeing := [];
    assert ThreadOk(s, t);
    if s.holder.Some? {
      assert ThreadOk(s, s.holder.value);
      freeing := HolderLetsGo(s, s.holder.value);
    }
    var free := Steps(s, freeing).value;
    OneContinues(free, Acquire(t));
    ContinuesConcat(s, freeing, [Acquire(t)]);
    steps := freeing + [Acquire(t)];
  }

  /** From the lock on, a thread comes to rest. */
  lemma {:induction false} HolderSettles(s: State, t: Thread) returns (steps: seq<Action>)
    requires Inv(s) && Handshake(s) && t in s.threads && s.holder == Some(t)
    ensures Continues(s, steps) && Settled(Steps(s, steps).value, t)
  {
    assert ThreadOk(s, t);
    steps := HolderLetsGo(s, t);
    var n := Steps(s, steps).value;
    if n.threads[t].Announcing? {
      OneContinues(n, Announce(t));
      ContinuesConcat(s, steps, [Announce(t)]);
      steps := steps + [Announce(t)];
    } else if n.threads[t].Parked? {
      FreeLockSettles(n, t);
    }
  }

  /** An agent on its way can be brought to announce itself, and then whoever awaits it is about to see that. */
  lemma {:induction false} AgentAnnounces(s: State, c: Thread, t: Thread) returns (steps: seq<Action>)
    requires Inv(s) && Handshake(s) && c in s.threads && Early(s.threads[c]) && t in s.threads
    requires s.threads[t] == AwaitingStart(c) || s.threads[t] == StartParked(c)
    ensures Continues(s, steps)
    ensures var n := Steps(s, steps).value; n.threads[t] == AwaitingStart(c) && c in n.didStart
    decreases if s.threads[c].Created? then 4 else if s.threads[c].Acquiring? then 3
              else if s.threads[c].Holding? then 2 else if s.threads[c].Leaving? then 1 else 0
  {
    assert ThreadOk(s, c);
    var pc := s.threads[c];
    if pc.Announcing? {
      OneContinues(s, Announce(c));
      steps := [Announce(c)];
    } else {
      var first;
      if pc.Created? {
        first := [Call(c, Register)];
        OneContinues(s, Call(c, Register));
      } else if pc.Acquiring? {
        first := GetsTheLock(s, c, t);
      } else {
        first := HolderLetsGo(s, c);
      }
      var more := AgentAnnounces(Steps(s, first).value, c, t);
      ContinuesConcat(s, first, more);
      steps := first + more;
    }
  }

  lemma {:induction false} AwaiterSettles(s: State, t: Thread) returns (steps: seq<Action>)
    requires Inv(s) && Handshake(s) && t in s.threads && (s.threads[t].AwaitingStart? || s.threads[t].StartParked?)
    ensures Continues(s, steps) && Settled(Steps(s, steps).value, t)
  {
    assert WaitOk(s, t) && ThreadOk(s, t);
    var c := s.threads[t].child;
    var first: seq<Action> := [];
    if c !in s.didStart { first := AgentAnnounces(s, c, t); }
    var n := Steps(s, first).value;
    OneContinues(n, CheckStart(t));
    ContinuesConcat(s, first, [CheckStart(t)]);
    steps := first + [CheckStart(t)];
  }

  lemma {:induction false} AcquirerSettles(s: State, t: Thread) returns (steps: seq<Action>)
    requires Inv(s) && Handshake(s) && t in s.threads && s.threads[t].Acquiring?
    ensures Continues(s, steps) && Settled(Steps(s, steps).value, t)
  {
    var first := GetsTheLock(s, t, t);
    var more := HolderSettles(Steps(s, first).value, t);
    ContinuesConcat(s, first, more);
    steps := first + more;
  }

  lemma {:induction false} ParkedSettles(s: State, t: Thread) returns (steps: seq<Action>)
    requires Inv(s) && Handshake(s) && t in s.threads && s.threads[t].Parked? && s.holder.Some?
    ensures Continues(s, steps) && Settled(Steps(s, steps).value, t)
  {
    var u := s.holder.value;
    assert ThreadOk(s, t) && ThreadOk(s, u);
    var first := HolderLetsGo(s, u);
    var n := Steps(s, first).value;
    if n.threads[t].Parked? {
      FreeLockSettles(n, t);
      steps := first;
    } else {
      var more := AcquirerSettles(n, t);
      ContinuesConcat(s, first, more);
      steps := first + more;
    }
  }

  lemma {:induction false} AnyoneSettles(s: State, t: Thread) returns (steps: seq<Action>)
    requires Inv(s) && Handshake(s) && t in s.threads
    ensures Continues(s, steps) && Settled(Steps(s, steps).value, t)
  {
    assert ThreadOk(s, t);
    var pc := s.threads[t];
    steps := [];
    if pc.Acquiring? {
      steps := AcquirerSettles(s, t);
    } else if Critical(pc) {
      steps := HolderSettles(s, t);
    } else if pc.AwaitingStart? || pc.StartParked? {
      steps := AwaiterSettles(s, t);
    } else if pc.Announcing? {
      OneContinues(s, Announce(t));
      steps := [Announce(t)];
    } else if pc.Parked? {
      if s.holder.Some? { steps := ParkedSettles(s, t); } else { FreeLockSettles(s, t); }
    }
  }

  /** No thread keeps the lock: after any schedule the holder's own steps let it go, and if it was in a
      broadcast or a report, everybody who was parked is then signalled. */
  lemma {:induction false} LockIsLetGo(main: Thread, schedule: seq<Action>, t: Thread) returns (steps: seq<Action>)
    requires Run(main, schedule).Some? && Run(main, schedule).value.holder == Some(t)
    ensures By(steps, t) && Run(main, schedule + steps).Some? && Run(main, schedule + steps).value.holder == None
    ensures var s, n := Run(main, schedule).value, Run(main, schedule + steps).value;
      && t in s.threads && n.threads.Keys == s.threads.Keys
      && (s.threads[t].Sending? || s.threads[t].Notifying? ==>
            forall u | u in s.threads && s.threads[u].Parked? :: n.threads[u] == Acquiring(s.threads[u].op))
  {
    HandshakeHolds(main, schedule);
    var s := Run(main, schedule).value;
    assert ThreadOk(s, t);
    steps := HolderLetsGo(s, t);
    RunGoesOn(main, schedule, steps);
  }

  /** No deadlock: after any schedule there are steps that bring any thread out of the protocol, or to wait
      for a message or a report that is not there. */
  lemma {:induction false} EveryThreadGetsOn(main: Thread, schedule: seq<Action>, t: Thread)
    returns (steps: seq<Action>)
    requires Run(main, schedule).Some? && t in Run(main, schedule).value.threads
    ensures Run(main, schedule + steps).Some?
    ensures var n := Run(main, schedule + steps).value; t in n.threads && Settled(n, t)
  {
    HandshakeHolds(main, schedule);
    steps := AnyoneSettles(Run(main, schedule).value, t);
    RunGoesOn(main, schedule, steps);
  }
}

/** What a run of the agents amounts to, read off its schedule: every operation happens at once, at the
    moment its thread enters the critical section. */
module AgentHistory {
  import opened Options
  import opened Agents

  /** The operation a thread called last. */
  function LastCall(schedule: seq<Action>, t: Thread): Option<Op> {
    if schedule == [] then None
    else
      var a := schedule[|schedule| - 1];
      if a.Call? && a.t == t then Some(a.op) else LastCall(schedule[..|schedule| - 1], t)
  }

  /** The broadcasts that were entered, in order. */
  function Broadcasts(schedule: seq<Action>): seq<Sent> {
    if schedule == [] then []
    else
      var front, a := schedule[..|schedule| - 1], schedule[|schedule| - 1];
      match (if a.Enter? then LastCall(front, a.t) else None)
      case Some(Broadcast(msg)) => Broadcasts(front) + [Sent(a.t, msg)]
      case _ => Broadcasts(front)
  }

  /** The reports that were entered, in order. */
  function Reports(schedule: seq<Action>): seq<string> {
    if schedule == [] then []
    else
      var front, a := schedule[..|schedule| - 1], schedule[|schedule| - 1];
      match (if a.Enter? then LastCall(front, a.t) else None)
      case Some(Report(report)) => Reports(front) + [report]
      case _ => Reports(front)
  }

  /** The operation a thread is in, if it waits for the lock, has just got it, or is parked. */
  function Inside(pc: Pc): Option<Op> {
    match pc
    case Acquiring(op) => Some(op)
    case Holding(op) => Some(op)
    case Parked(op) => Some(op)
    case _ => None
  }

  ghost predicate CallsOk(s: State, schedule: seq<Action>) {
    forall t | t in s.threads && Inside(s.threads[t]).Some? :: LastCall(schedule, t) == Inside(s.threads[t])
  }

  lemma {:induction false} StepInside(s: State, a: Action, t: Thread)
    requires Inv(s) && Enabled(s, a) && Defined(s, a) && t in Next(s, a).threads
    ensures Inside(Next(s, a).threads[t]).Some? ==>
      if a.Call? && a.t == t then Inside(Next(s, a).threads[t]) == Some(a.op)
      else t in s.threads && Inside(s.threads[t]) == Inside(Next(s, a).threads[t])
  {
    assert ThreadOk(s, a.t);
    if a.Enter? && Inside(Next(s, a).threads[t]).Some? { EnterInside(s, a.t, s.threads[a.t].op, t); }
  }

  lemma {:induction false} EnterInside(s: State, t: Thread, op: Op, u: Thread)
    requires t in s.threads && s.threads[t] == Holding(op) && (op.Dequeue? ==> t in s.workers)
    requires u in EnterOp(s, t, op).threads && Inside(EnterOp(s, t, op).threads[u]).Some?
    ensures u in s.threads && Inside(s.threads[u]) == Inside(EnterOp(s, t, op).threads[u])
  {
  }

  lemma {:induction false} EveryoneIsWhereItCalled(main: Thread, schedule: seq<Action>)
    requires Run(main, schedule).Some?
    ensures CallsOk(Run(main, schedule).value, schedule)
  {
    if schedule != [] {
      var front, a := schedule[..|schedule| - 1], schedule[|schedule| - 1];
      EveryoneIsWhereItCalled(main, front);
      Reachable(main, front);
      var s, n := Run(main, front).value, Run(main, schedule).value;
      forall t | t in n.threads && Inside(n.threads[t]).Some? ensures LastCall(schedule, t) == Inside(n.threads[t]) {
        StepInside(s, a, t);
      }
    }
  }

  // ---------------------------------------------------------------- the atomic form

  /** The shared state without lock, queues and places: who is a member and since when, what was broadcast
      and reported, who received what. */
  datatype Ledger = Ledger(
    log: seq<Sent>, members: set<Thread>, since: map<Thread, nat>, received: map<Thread, seq<nat>>,
    reported: seq<string>, taken: seq<(Thread, string)>)

  /** What `t` may receive: the broadcasts of others since it became a member. */
  function Due(l: Ledger, t: Thread): seq<nat> {
    if t in l.since && l.since[t] <= |l.log| then Owed(l.log, t, l.since[t], |l.log|) else []
  }

  /** An operation that happens at once. A reader with nothing to read changes nothing. */
  function Atomic(l: Ledger, t: Thread, op: Op): Ledger {
    match op
    case Register =>
      l.(members := l.members + {t}, since := l.since[t := |l.log|], received := l.received[t := []])
    case Unregister => l.(members := l.members - {t})
    case Dequeue =>
      if t in l.received && |l.received[t]| < |Due(l, t)| then
        l.(received := l.received[t := l.received[t] + [Due(l, t)[|l.received[t]|]]])
      else l
    case Broadcast(msg) => l.(log := l.log + [Sent(t, msg)])
    case Report(report) => l.(reported := l.reported + [report])
    case _ => if |l.taken| < |l.reported| then l.(taken := l.taken + [(t, l.reported[|l.taken|])]) else l
  }

  function Replay(schedule: seq<Action>): Ledger {
    if schedule == [] then Ledger([], {}, map[], map[], [], [])
    else
      var front, a := schedule[..|schedule| - 1], schedule[|schedule| - 1];
      var op := if a.Enter? then LastCall(front, a.t) else None;
      if op.Some? then Atomic(Replay(front), a.t, op.value) else Replay(front)
  }

  function SinceOf(workers: map<Thread, Worker>): map<Thread, nat> { map t | t in workers :: workers[t].since }

  function ReceivedOf(workers: map<Thread, Worker>): map<Thread, seq<nat>> {
    map t | t in workers :: workers[t].received
  }

  function LedgerOf(s: State): Ledger {
    Ledger(s.log, (set t | t in s.list), SinceOf(s.workers), ReceivedOf(s.workers), s.reported, s.taken)
  }

  /** Every interleaving is the atomic operations in the order in which they entered. */
  lemma {:induction false} RunIsAtomic(main: Thread, schedule: seq<Action>)
    requires Run(main, schedule).Some?
    ensures LedgerOf(Run(main, schedule).value) == Replay(schedule)
  {
    if schedule == [] {
      assert LedgerOf(Init(main)).since == map[] && LedgerOf(Init(main)).received == map[];
    } else {
      var front, a := schedule[..|schedule| - 1], schedule[|schedule| - 1];
      RunIsAtomic(main, front);
      Reachable(main, front);
      EveryoneIsWhereItCalled(main, front);
      var s := Run(main, front).value;
      if a.Enter? {
        EnterIsAtomic(s, a.t, s.threads[a.t].op);
      } else {
        OtherStepsAreSilent(s, a);
      }
    }
  }

  lemma {:induction false} OtherStepsAreSilent(s: State, a: Action)
    requires Enabled(s, a) && Defined(s, a) && !a.Enter?
    ensures LedgerOf(Next(s, a)) == LedgerOf(s)
  {
    if a.Send? { SendingIsSilent(s, a.t, s.threads[a.t].todo); }
  }

  lemma {:induction false} SendingIsSilent(s: State, t: Thread, todo: seq<Thread>)
    requires todo != [] ==> todo[0] in s.workers && s.log != []
    ensures LedgerOf(SendOne(s, t, todo)) == LedgerOf(s)
  {
    if todo != [] && todo[0] != t {
      var w := s.workers[todo[0]];
      ReceivedOne(s.workers, todo[0], w.(queue := w.queue + [|s.log| - 1]));
      assert ReceivedOf(s.workers)[todo[0] := w.received] == ReceivedOf(s.workers);
    }
  }

  lemma {:induction false} EnterIsAtomic(s: State, t: Thread, op: Op)
    requires Inv(s) && t in s.threads && s.threads[t] == Holding(op)
    requires (op.Dequeue? ==> t in s.workers) && (op.Unregister? ==> t in s.list)
    ensures LedgerOf(EnterOp(s, t, op)) == Atomic(LedgerOf(s), t, op)
  {
    assert ThreadOk(s, t);
    match op
    case Register => RegisterIsAtomic(s, t);
    case Unregister => WithoutIsRemoval(s.list, t);
    case Dequeue => DequeueIsAtomic(s, t);
    case Broadcast(_) =>
    case Report(_) =>
    case _ => TakingIsAtomic(s, t, op);
  }

  lemma {:induction false} RegisterIsAtomic(s: State, t: Thread)
    ensures LedgerOf(EnterOp(s, t, Register)) == Atomic(LedgerOf(s), t, Register)
  {
    var n, l := LedgerOf(EnterOp(s, t, Register)), Atomic(LedgerOf(s), t, Register);
    assert n.members == l.members;
    assert n.since == l.since;
    assert n.received == l.received;
  }

  lemma {:induction false} WithoutIsRemoval(list: seq<Thread>, t: Thread)
    requires NoDuplicates(list)
    ensures forall u :: u in Without(list, t) <==> u in list && u != t
  {
    if list != [] {
      WithoutIsRemoval(list[1..], t);
      assert list == [list[0]] + list[1..];
      assert list[0] !in list[1..];
    }
  }

  /** The ledger of the workers after one of them received something. */
  lemma {:induction false} ReceivedOne(workers: map<Thread, Worker>, t: Thread, w: Worker)
    requires t in workers && w.since == workers[t].since
    ensures SinceOf(workers[t := w]) == SinceOf(workers)
    ensures ReceivedOf(workers[t := w]) == ReceivedOf(workers)[t := w.received]
  {
  }

  lemma {:induction false} DueIsStream(s: State, t: Thread)
    requires Inv(s) && t in s.threads && s.threads[t] == Holding(Dequeue) && t in s.workers
    ensures Due(LedgerOf(s), t) == s.workers[t].received + s.workers[t].queue
  {
    assert ThreadOk(s, t);
    assert WorkerOk(s, t);
  }

  lemma {:induction false} DequeueIsAtomic(s: State, t: Thread)
    requires Inv(s) && t in s.threads && s.threads[t] == Holding(Dequeue) && t in s.workers
    ensures LedgerOf(EnterOp(s, t, Dequeue)) == Atomic(LedgerOf(s), t, Dequeue)
  {
    DueIsStream(s, t);
    var w, l, n := s.workers[t], LedgerOf(s), EnterOp(s, t, Dequeue);
    assert l.received[t] == w.received;
    if w.queue != [] {
      var w' := w.(queue := w.queue[1..], received := w.received + [w.queue[0]]);
      assert n.workers == s.workers[t := w'];
      assert Due(l, t)[|w.received|] == w.queue[0];
      ReceivedOne(s.workers, t, w');
    } else {
      assert n.workers == s.workers && |Due(l, t)| == |w.received|;
    }
  }

  lemma {:induction false} TakingIsAtomic(s: State, t: Thread, op: Op)
    requires Inv(s) && (op.GetReport? || op.TryGetReport?)
    ensures LedgerOf(EnterOp(s, t, op)) == Atomic(LedgerOf(s), t, op)
  {
    assert |s.taken| + |s.reports| == |s.reported|;
    if s.reports != [] { assert (Values(s.taken) + s.reports)[|s.taken|] == s.reports[0]; }
    var n, l := LedgerOf(EnterOp(s, t, op)), LedgerOf(s);
    assert n.since == l.since && n.received == l.received;
  }

  /** The log is what was broadcast, by whom, in the order in which the broadcasts entered; and the reports
      are those made. */
  lemma {:induction false} LogIsWhatWasBroadcast(main: Thread, schedule: seq<Action>)
    requires Run(main, schedule).Some?
    ensures Run(main, schedule).value.log == Broadcasts(schedule)
    ensures Run(main, schedule).value.reported == Reports(schedule)
  {
    RunIsAtomic(main, schedule);
    ReplayRecords(schedule);
  }

  lemma {:induction false} ReplayRecords(schedule: seq<Action>)
    ensures Replay(schedule).log == Broadcasts(schedule) && Replay(schedule).reported == Reports(schedule)
  {
    if schedule != [] { ReplayRecords(schedule[..|schedule| - 1]); }
  }
}

/** The agents of the shell as a step system: threads that share one lock, one condition, a message
    queue per worker and one queue of reports, with the handshake that starts an agent. */
module Agents {
  import opened Options

  type Thread = nat

  /** What a thread wants the lock for. */
  datatype Op =
    | Register                 // the worker's constructor
    | Unregister               // its destructor
    | Dequeue                  // receiveBroadcast
    | GetReport                // waitForReport
    | TryGetReport             // getReport
    | Broadcast(msg: string)
    | Report(report: string)

  /** Where a thread is. A signalled thread is one that acquires the lock again. */
  datatype Pc =
    | Created                                // before it registers
    | Running                                // in script, outside the protocol
    | Acquiring(op: Op)
    | Holding(op: Op)                        // just inside the critical section
    | Sending(todo: seq<Thread>)             // in the broadcast loop
    | Notifying                              // about to notify all
    | Leaving(next: Pc)                      // about to release the lock
    | Parked(op: Op)                         // waiting on the shared condition, not signalled
    | Announcing                             // registered, about to set didStart
    | AwaitingStart(child: Thread)           // about to test didStart
    | StartParked(child: Thread)             // waiting on didStartCondition, not signalled
    | Exited

  /** One broadcast: who sent it and what. Queues hold the positions of broadcasts in the log. */
  datatype Sent = Sent(sender: Thread, msg: string)

  /** A worker: its queue, and, for the record, the length of the log when it registered and what it
      has received since. */
  datatype Worker = Worker(queue: seq<nat>, since: nat, received: seq<nat>)

  datatype State = State(
    threads: map<Thread, Pc>,
    holder: Option<Thread>,
    list: seq<Thread>,                 // the linked list of workers
    workers: map<Thread, Worker>,
    reports: seq<string>,
    didStart: set<Thread>,
    // the record of the run
    log: seq<Sent>,
    reported: seq<string>,
    taken: seq<(Thread, string)>,      // which thread got which report
    returned: map<Thread, nat>)        // agents whose start returned, with the length of the log then

  /** The main thread, about to run. */
  function Init(main: Thread): State {
    State(map[main := Created], None, [], map[], [], {}, [], [], [], map[])
  }

  datatype Action =
    | Call(t: Thread, op: Op)                 // enter an operation
    | Acquire(t: Thread)
    | Enter(t: Thread)                        // the body up to the first wait, loop or notify
    | Send(t: Thread)                         // one turn of the broadcast loop
    | NotifyAll(t: Thread)
    | Release(t: Thread)
    | Spurious(t: Thread)                     // a wakeup nobody asked for
    | Start(t: Thread, child: Thread)
    | CheckStart(t: Thread)
    | Announce(t: Thread)

  predicate Enabled(s: State, a: Action) {
    && a.t in s.threads
    && var pc := s.threads[a.t];
       match a
       case Call(_, op) => if op.Register? then pc.Created? else pc.Running?
       case Acquire(_) => pc.Acquiring? && s.holder.None?
       case Enter(_) => pc.Holding?
       case Send(_) => pc.Sending?
       case NotifyAll(_) => pc.Notifying?
       case Release(_) => pc.Leaving?
       case Spurious(_) => pc.Parked? || pc.StartParked?
       case Start(_, child) => pc.Running? && child !in s.threads
       case CheckStart(_) => pc.AwaitingStart?
       case Announce(_) => pc.Announcing?
  }

  function Wake(pc: Pc): Pc { if pc.Parked? then Acquiring(pc.op) else pc }

  function WakeStart(pc: Pc, child: Thread): Pc { if pc == StartParked(child) then AwaitingStart(child) else pc }

  function Move(s: State, t: Thread, pc: Pc): State { s.(threads := s.threads[t := pc]) }

  /** The critical section of an operation, up to its first wait, loop or notify. */
  function EnterOp(s: State, t: Thread, op: Op): State
    requires op.Dequeue? ==> t in s.workers
  {
    match op
    case Register =>
      Move(s, t, Leaving(Announcing)).(list := s.list + [t], workers := s.workers[t := Worker([], |s.log|, [])])
    case Unregister => Move(s, t, Leaving(Exited)).(list := Without(s.list, t))
    case Dequeue =>
      var w := s.workers[t];
      if w.queue == [] then Move(s, t, Parked(op)).(holder := None)
      else
        var w' := w.(queue := w.queue[1..], received := w.received + [w.queue[0]]);
        Move(s, t, Leaving(Running)).(workers := s.workers[t := w'])
    case GetReport =>
      if s.reports == [] then Move(s, t, Parked(op)).(holder := None) else TakeReport(s, t)
    case TryGetReport =>
      if s.reports == [] then Move(s, t, Leaving(Running)) else TakeReport(s, t)
    case Broadcast(msg) => Move(s, t, Sending(s.list)).(log := s.log + [Sent(t, msg)])
    case Report(report) => Move(s, t, Notifying).(reports := s.reports + [report], reported := s.reported + [report])
  }

  function TakeReport(s: State, t: Thread): State
    requires s.reports != []
  {
    Move(s, t, Leaving(Running)).(reports := s.reports[1..], taken := s.taken + [(t, s.reports[0])])
  }

  function Without(list: seq<Thread>, t: Thread): seq<Thread> {
    if list == [] then [] else if list[0] == t then list[1..] else [list[0]] + Without(list[1..], t)
  }

  /** One turn of the broadcast loop: the sender is skipped, everybody else gets the message. */
  function SendOne(s: State, t: Thread, todo: seq<Thread>): State
    requires todo != [] ==> todo[0] in s.workers && s.log != []
  {
    if todo == [] then Move(s, t, Notifying)
    else
      var u := todo[0];
      var s' := Move(s, t, Sending(todo[1..]));
      if u == t then s' else s'.(workers := s.workers[u := s.workers[u].(queue := s.workers[u].queue + [|s.log| - 1])])
  }

  /** What the code takes for granted: a worker that dequeues exists, one that is destroyed is on the
      list, and so is every entry that the broadcast loop walks to. */
  predicate Defined(s: State, a: Action)
    requires Enabled(s, a)
  {
    && (a.Enter? && s.threads[a.t].op.Dequeue? ==> a.t in s.workers)
    && (a.Enter? && s.threads[a.t].op.Unregister? ==> a.t in s.list)
    && (a.Send? && s.threads[a.t].todo != [] ==>
        s.threads[a.t].todo[0] in s.workers && s.threads[a.t].todo[0] in s.list && s.log != [])
  }

  function Next(s: State, a: Action): State
    requires Enabled(s, a) && Defined(s, a)
  {
    var pc := s.threads[a.t];
    match a
    case Call(t, op) => Move(s, t, Acquiring(op))
    case Acquire(t) => Move(s, t, Holding(pc.op)).(holder := Some(t))
    case Enter(t) => EnterOp(s, t, pc.op)
    case Send(t) => SendOne(s, t, pc.todo)
    case NotifyAll(t) =>
      s.(threads := map u | u in s.threads :: if u == t then Leaving(Running) else Wake(s.threads[u]))
    case Release(t) => Move(s, t, pc.next).(holder := None)
    case Spurious(t) => Move(s, t, if pc.Parked? then Acquiring(pc.op) else AwaitingStart(pc.child))
    case Start(t, child) => s.(threads := s.threads[t := AwaitingStart(child)][child := Created])
    case CheckStart(t) =>
      if pc.child in s.didStart then Move(s, t, Running).(returned := s.returned[pc.child := |s.log|])
      else Move(s, t, StartParked(pc.child))
    case Announce(t) =>
      s.(didStart := s.didStart + {t},
         threads := map u | u in s.threads :: if u == t then Running else WakeStart(s.threads[u], t))
  }

  // ---------------------------------------------------------------- the invariant

  predicate Critical(pc: Pc) { pc.Holding? || pc.Sending? || pc.Notifying? || pc.Leaving? }

  /** Whether the thread's worker is in the list. */
  predicate Listed(pc: Pc) {
    match pc
    case Created => false
    case Exited => false
    case Acquiring(op) => !op.Register?
    case Holding(op) => !op.Register?
    case Leaving(next) => !next.Exited?
    case _ => true
  }

  /** Before its worker is constructed. */
  predicate Unborn(pc: Pc) { pc.Created? || pc == Acquiring(Register) || pc == Holding(Register) }

  /** The positions from `from` up to `upto` of the broadcasts that `w` did not send itself. */
  function Owed(log: seq<Sent>, w: Thread, from: nat, upto: nat): (ids: seq<nat>)
    requires from <= upto <= |log|
    ensures forall i | 0 <= i < |ids| :: from <= ids[i] < upto && log[ids[i]].sender != w
    ensures forall i, j | 0 <= i < j < |ids| :: ids[i] < ids[j]
    ensures (forall k | from <= k < upto && log[k].sender != w :: k in ids)
    decreases upto
  {
    if from == upto then []
    else if log[upto - 1].sender == w then Owed(log, w, from, upto - 1)
    else Owed(log, w, from, upto - 1) + [upto - 1]
  }

  /** The broadcast loop still has to reach `w`. */
  predicate Pending(s: State, w: Thread) {
    && s.holder.Some? && s.holder.value in s.threads
    && s.threads[s.holder.value].Sending? && w in s.threads[s.holder.value].todo
  }

  /** How much of the log has been delivered to `w`. */
  function Delivered(s: State, w: Thread): int { if Pending(s, w) then |s.log| - 1 else |s.log| }

  predicate NoDuplicates(ts: seq<Thread>) { forall i, j | 0 <= i < j < |ts| :: ts[i] != ts[j] }

  predicate StreamOk(log: seq<Sent>, w: Thread, worker: Worker, upto: int) {
    worker.since <= upto <= |log| && worker.received + worker.queue == Owed(log, w, worker.since, upto)
  }

  /** The holder of the lock will notify all before it lets go. */
  predicate AboutToNotify(s: State) {
    && s.holder.Some? && s.holder.value in s.threads
    && (s.threads[s.holder.value].Sending? || s.threads[s.holder.value].Notifying?)
  }

  /** What a thread waits for on the shared condition is not there. */
  predicate NothingFor(s: State, t: Thread, op: Op) {
    if op.Dequeue? then t in s.workers ==> s.workers[t].queue == [] else s.reports == []
  }

  /** Where a thread may be: in a critical section exactly if it holds the lock; listed exactly
      between constructor and destructor; parked only for something that is not there, unless the
      notification is on its way. */
  predicate ThreadOk(s: State, t: Thread)
    requires t in s.threads
  {
    var pc := s.threads[t];
    && (Critical(pc) <==> s.holder == Some(t))
    && (Listed(pc) <==> t in s.list)
    && (Unborn(pc) ==> t !in s.workers)
    && (pc.Leaving? ==> pc.next in {Running, Announcing, Exited})
    && (pc.Parked? ==> pc.op in {Dequeue, GetReport} && (NothingFor(s, t, pc.op) || AboutToNotify(s)))
    && (pc.StartParked? ==> pc.child !in s.didStart)
    && (pc.Sending? ==>
          && s.log != [] && s.log[|s.log| - 1].sender == t
          && NoDuplicates(pc.todo) && forall u | u in pc.todo :: u in s.list)
  }

  /** What a listed worker received, followed by its queue, is the log since it registered without
      its own broadcasts. */
  predicate WorkerOk(s: State, w: Thread) {
    w in s.threads && w in s.workers && StreamOk(s.log, w, s.workers[w], Delivered(s, w))
  }

  predicate ThreadsOk(s: State) { forall t {:trigger ThreadOk(s, t)} | t in s.threads :: ThreadOk(s, t) }

  predicate WorkersOk(s: State) { forall w {:trigger WorkerOk(s, w)} | w in s.list :: WorkerOk(s, w) }

  function Values(taken: seq<(Thread, string)>): seq<string> {
    seq(|taken|, i requires 0 <= i < |taken| => taken[i].1)
  }

  predicate StartOk(s: State) {
    && (forall c | c in s.didStart :: c in s.workers)
    && (forall w | w in s.workers :: w in s.threads && s.workers[w].since <= |s.log|)
    && (forall c | c in s.returned :: c in s.workers && s.workers[c].since <= s.returned[c] <= |s.log|)
  }

  predicate Inv(s: State) {
    && (s.holder.Some? ==> s.holder.value in s.threads)
    && NoDuplicates(s.list)
    && ThreadsOk(s) && WorkersOk(s) && StartOk(s)
    && Values(s.taken) + s.reports == s.reported
  }

  // ---------------------------------------------------------------- every step keeps it

  /** What a step of one thread may do to another. */
  predicate Awakened(was: Pc, pc: Pc) {
    || pc == was
    || (was.Parked? && pc == Acquiring(was.op))
    || (was.StartParked? && pc == AwaitingStart(was.child))
  }

  /** A step of `t` that leaves list, queues, reports and log alone. */
  predicate QuietStep(s: State, n: State, t: Thread) {
    && t in s.threads && n.threads.Keys == s.threads.Keys
    && (forall u | u in s.threads && u != t :: Awakened(s.threads[u], n.threads[u]))
    && n.holder == (if Critical(n.threads[t]) then Some(t) else if s.holder == Some(t) then None else s.holder)
    && (Critical(n.threads[t]) ==> s.holder == None || s.holder == Some(t))
    && n.list == s.list && n.workers == s.workers && n.log == s.log
    && n.reports == s.reports && n.reported == s.reported && n.taken == s.taken
    && !s.threads[t].Sending? && !n.threads[t].Sending?
    && (s.threads[t].Notifying? ==> forall u | u in n.threads :: !n.threads[u].Parked?)
    && (n.didStart != s.didStart ==>
        forall u | u in n.threads && n.threads[u].StartParked? :: n.threads[u].child !in n.didStart)
  }

  lemma {:induction false} QuietStepKeeps(s: State, n: State, t: Thread)
    requires Inv(s) && QuietStep(s, n, t) && ThreadOk(n, t) && StartOk(n)
    ensures Inv(n)
  {
    assert ThreadOk(s, t);
    forall u | u in n.threads ensures ThreadOk(n, u) {
      assert ThreadOk(s, u);
      if u != t { QuietOther(s, n, t, u); }
    }
    forall w | w in n.list ensures WorkerOk(n, w) {
      assert WorkerOk(s, w);
      QuietPending(s, n, t, w);
    }
  }

  lemma {:induction false} QuietOther(s: State, n: State, t: Thread, u: Thread)
    requires QuietStep(s, n, t) && u in s.threads && u != t && ThreadOk(s, t) && ThreadOk(s, u)
    ensures ThreadOk(n, u)
  {
    assert Awakened(s.threads[u], n.threads[u]);
    if AboutToNotify(s) && s.holder != Some(t) {
      assert Awakened(s.threads[s.holder.value], n.threads[s.holder.value]);
    }
  }

  lemma {:induction false} QuietPending(s: State, n: State, t: Thread, w: Thread)
    requires QuietStep(s, n, t) && ThreadOk(s, t)
    ensures Pending(n, w) <==> Pending(s, w)
  {
    if s.holder.Some? && s.holder.value != t && s.holder.value in s.threads {
      assert Awakened(s.threads[s.holder.value], n.threads[s.holder.value]);
    }
  }

  lemma {:induction false} MoveKeeps(s: State, t: Thread, pc: Pc, holder: Option<Thread>)
    requires Inv(s) && QuietStep(s, Move(s, t, pc).(holder := holder), t)
    requires ThreadOk(Move(s, t, pc).(holder := holder), t)
    ensures Inv(Move(s, t, pc).(holder := holder))
  {
    QuietStepKeeps(s, Move(s, t, pc).(holder := holder), t);
  }

  lemma {:induction false} StartKeeps(s: State, t: Thread, child: Thread)
    requires Inv(s) && Enabled(s, Start(t, child))
    ensures Inv(Next(s, Start(t, child)))
  {
    var m := Move(s, t, AwaitingStart(child));
    assert m == m.(holder := s.holder);
    assert ThreadOk(s, t);
    MoveKeeps(s, t, AwaitingStart(child), s.holder);
    AddThread(m, child);
    assert Next(s, Start(t, child)) == m.(threads := m.threads[child := Created]);
  }

  lemma {:induction false} AddThread(s: State, child: Thread)
    requires Inv(s) && child !in s.threads
    ensures Inv(s.(threads := s.threads[child := Created]))
  {
    var n := s.(threads := s.threads[child := Created]);
    assert child in s.list ==> WorkerOk(s, child);
    forall u | u in n.threads ensures ThreadOk(n, u) {
      if u != child { assert ThreadOk(s, u); }
    }
    forall w | w in n.list ensures WorkerOk(n, w) {
      assert WorkerOk(s, w);
      assert Pending(n, w) <==> Pending(s, w);
    }
  }

  lemma {:induction false} CheckStartKeeps(s: State, t: Thread)
    requires Inv(s) && Enabled(s, CheckStart(t))
    ensures Inv(Next(s, CheckStart(t)))
  {
    var n := Next(s, CheckStart(t));
    assert ThreadOk(s, t);
    QuietStepKeeps(s, n, t);
  }

  lemma {:induction false} AnnounceKeeps(s: State, t: Thread)
    requires Inv(s) && Enabled(s, Announce(t))
    ensures Inv(Next(s, Announce(t)))
  {
    var n := Next(s, Announce(t));
    assert ThreadOk(s, t) && WorkerOk(s, t);
    forall u | u in s.threads && u != t ensures Awakened(s.threads[u], n.threads[u]) {}
    forall u | u in n.threads && n.threads[u].StartParked? ensures n.threads[u].child !in n.didStart {
      assert ThreadOk(s, u);
    }
    QuietStepKeeps(s, n, t);
  }

  lemma {:induction false} NotifyAllKeeps(s: State, t: Thread)
    requires Inv(s) && Enabled(s, NotifyAll(t))
    ensures Inv(Next(s, NotifyAll(t)))
  {
    var n := Next(s, NotifyAll(t));
    assert ThreadOk(s, t);
    forall u | u in s.threads && u != t ensures Awakened(s.threads[u], n.threads[u]) {}
    QuietStepKeeps(s, n, t);
  }

  // ---- inside the critical section

  /** A step of the thread that has the lock and keeps it: whoever is parked keeps waiting for
      nothing, or will be notified. */
  predicate InsideStep(s: State, n: State, t: Thread) {
    && t in s.threads && t in n.threads && n.threads == s.threads[t := n.threads[t]] && Critical(n.threads[t])
    && s.holder == Some(t) == n.holder
    && n.didStart == s.didStart && n.returned == s.returned
    && s.workers.Keys <= n.workers.Keys <= s.workers.Keys + {t}
    && (forall u | u in s.threads && u != t :: u in n.list <==> u in s.list)
    && (AboutToNotify(n) || (!AboutToNotify(s) && (s.reports == [] ==> n.reports == [])
        && forall u | u in s.workers && u != t :: n.workers[u].queue == s.workers[u].queue))
  }

  lemma {:induction false} InsideOther(s: State, n: State, t: Thread, u: Thread)
    requires InsideStep(s, n, t) && u in s.threads && u != t && ThreadOk(s, t) && ThreadOk(s, u)
    ensures ThreadOk(n, u)
  {
  }

  lemma {:induction false} InsideStepKeeps(s: State, n: State, t: Thread)
    requires Inv(s) && InsideStep(s, n, t) && ThreadOk(n, t) && StartOk(n)
    requires NoDuplicates(n.list) && WorkersOk(n) && Values(n.taken) + n.reports == n.reported
    ensures Inv(n)
  {
    assert ThreadOk(s, t);
    forall u | u in n.threads ensures ThreadOk(n, u) {
      if u != t { assert ThreadOk(s, u); InsideOther(s, n, t, u); }
    }
  }

  /** Nothing is being sent unless the holder is in the broadcast loop. */
  lemma {:induction false} NothingPending(s: State, n: State, t: Thread)
    requires s.holder == Some(t) == n.holder && t in s.threads && t in n.threads
    requires !s.threads[t].Sending? && !n.threads[t].Sending?
    ensures forall w :: !Pending(s, w) && !Pending(n, w)
  {
  }

  lemma {:induction false} RegisterKeeps(s: State, t: Thread)
    requires Inv(s) && t in s.threads && s.threads[t] == Holding(Register)
    ensures Inv(EnterOp(s, t, Register))
  {
    var n := EnterOp(s, t, Register);
    assert ThreadOk(s, t);
    NothingPending(s, n, t);
    forall w | w in n.list ensures WorkerOk(n, w) {
      if w != t { assert WorkerOk(s, w); }
    }
    InsideStepKeeps(s, n, t);
  }

  lemma {:induction false} UnregisterKeeps(s: State, t: Thread)
    requires Inv(s) && t in s.threads && s.threads[t] == Holding(Unregister)
    ensures Inv(EnterOp(s, t, Unregister))
  {
    var n := EnterOp(s, t, Unregister);
    assert ThreadOk(s, t);
    WithoutRemoves(s.list, t);
    NothingPending(s, n, t);
    forall w | w in n.list ensures WorkerOk(n, w) { assert WorkerOk(s, w); }
    InsideStepKeeps(s, n, t);
  }

  lemma {:induction false} WithoutRemoves(list: seq<Thread>, t: Thread)
    requires NoDuplicates(list)
    ensures NoDuplicates(Without(list, t))
    ensures forall u :: u in Without(list, t) <==> u in list && u != t
  {
    if list != [] {
      Rest(list);
      if list[0] != t { WithoutRemoves(list[1..], t); }
    }
  }

  lemma {:induction false} Rest(todo: seq<Thread>)
    requires todo != [] && NoDuplicates(todo)
    ensures NoDuplicates(todo[1..]) && todo[0] !in todo[1..]
    ensures forall u :: u in todo <==> u == todo[0] || u in todo[1..]
  {
    assert todo == [todo[0]] + todo[1..];
    assert forall i | 0 <= i < |todo[1..]| :: todo[1..][i] == todo[i + 1];
  }

  lemma {:induction false} DequeueKeeps(s: State, t: Thread)
    requires Inv(s) && t in s.threads && s.threads[t] == Holding(Dequeue) && t in s.workers && s.workers[t].queue != []
    ensures Inv(EnterOp(s, t, Dequeue))
  {
    var n := EnterOp(s, t, Dequeue);
    assert ThreadOk(s, t);
    NothingPending(s, n, t);
    var w, w' := s.workers[t], n.workers[t];
    assert w'.received + w'.queue == w.received + w.queue;
    forall u | u in n.list ensures WorkerOk(n, u) { assert WorkerOk(s, u); }
    InsideStepKeeps(s, n, t);
  }

  lemma {:induction false} TakeReportKeeps(s: State, t: Thread, op: Op)
    requires Inv(s) && t in s.threads && s.threads[t] == Holding(op) && (op.GetReport? || op.TryGetReport?)
      && s.reports != []
    ensures Inv(TakeReport(s, t))
  {
    var n := TakeReport(s, t);
    assert ThreadOk(s, t);
    NothingPending(s, n, t);
    forall u | u in n.list ensures WorkerOk(n, u) { assert WorkerOk(s, u); }
    assert Values(n.taken) == Values(s.taken) + [s.reports[0]];
    InsideStepKeeps(s, n, t);
  }

  lemma {:induction false} ReportKeeps(s: State, t: Thread, report: string)
    requires Inv(s) && t in s.threads && s.threads[t] == Holding(Report(report))
    ensures Inv(EnterOp(s, t, Report(report)))
  {
    var n := EnterOp(s, t, Report(report));
    assert ThreadOk(s, t);
    NothingPending(s, n, t);
    forall u | u in n.list ensures WorkerOk(n, u) { assert WorkerOk(s, u); }
    InsideStepKeeps(s, n, t);
  }

  lemma {:induction false} BroadcastKeeps(s: State, t: Thread, msg: string)
    requires Inv(s) && t in s.threads && s.threads[t] == Holding(Broadcast(msg))
    ensures Inv(EnterOp(s, t, Broadcast(msg)))
  {
    var n := EnterOp(s, t, Broadcast(msg));
    assert ThreadOk(s, t);
    forall w | w in n.list ensures WorkerOk(n, w) { BroadcastOwes(s, t, msg, w); }
    InsideStepKeeps(s, n, t);
  }

  /** A broadcast that begins is owed to every worker in the list. */
  lemma {:induction false} BroadcastOwes(s: State, t: Thread, msg: string, w: Thread)
    requires Inv(s) && t in s.threads && s.threads[t] == Holding(Broadcast(msg)) && w in s.list
    ensures WorkerOk(EnterOp(s, t, Broadcast(msg)), w)
  {
    assert ThreadOk(s, t);
    assert WorkerOk(s, w);
    OwedAppend(s.log, Sent(t, msg), w, s.workers[w].since, |s.log|);
  }

  /** What is owed up to a point does not depend on the rest of the log. */
  lemma {:induction false} OwedAppend(log: seq<Sent>, e: Sent, w: Thread, from: nat, upto: nat)
    requires from <= upto <= |log|
    ensures Owed(log + [e], w, from, upto) == Owed(log, w, from, upto)
    decreases upto
  {
    if from < upto { OwedAppend(log, e, w, from, upto - 1); }
  }

  lemma {:induction false} SendKeeps(s: State, t: Thread)
    requires Inv(s) && t in s.threads && s.threads[t].Sending?
    requires s.threads[t].todo != [] ==> s.threads[t].todo[0] in s.workers && s.log != []
    ensures Inv(SendOne(s, t, s.threads[t].todo))
  {
    var n := SendOne(s, t, s.threads[t].todo);
    assert ThreadOk(s, t);
    forall w | w in n.list ensures WorkerOk(n, w) {
      assert WorkerOk(s, w);
      SendToOne(s, t, w);
    }
    SendStays(s, t);
    InsideStepKeeps(s, n, t);
  }

  lemma {:induction false} SendStays(s: State, t: Thread)
    requires t in s.threads && s.threads[t].Sending? && ThreadOk(s, t) && StartOk(s)
    requires s.threads[t].todo != [] ==> s.threads[t].todo[0] in s.workers && s.log != []
    ensures var n := SendOne(s, t, s.threads[t].todo);
      InsideStep(s, n, t) && ThreadOk(n, t) && StartOk(n)
  {
    var todo := s.threads[t].todo;
    var n := SendOne(s, t, todo);
    if todo != [] { Rest(todo); }
    assert n.workers.Keys == s.workers.Keys;
    assert n.threads == s.threads[t := n.threads[t]];
  }

  /** One turn of the loop delivers the broadcast to the worker it reaches and to nobody else. */
  lemma {:induction false} SendToOne(s: State, t: Thread, w: Thread)
    requires s.holder == Some(t) && t in s.threads && s.threads[t].Sending? && NoDuplicates(s.threads[t].todo)
    requires s.threads[t].todo != [] ==> s.threads[t].todo[0] in s.workers
    requires s.log != [] && s.log[|s.log| - 1].sender == t && WorkerOk(s, w)
    ensures WorkerOk(SendOne(s, t, s.threads[t].todo), w)
  {
    var todo := s.threads[t].todo;
    var n := SendOne(s, t, todo);
    assert Pending(s, w) <==> w in todo;
    if todo != [] {
      Rest(todo);
      assert Pending(n, w) <==> w in todo[1..];
      if w == todo[0] && w != t { OwedOneMore(s.log, w, s.workers[w]); }
    } else {
      assert !Pending(n, w);
    }
  }

  /** The last broadcast is the next thing a worker is owed. */
  lemma {:induction false} OwedOneMore(log: seq<Sent>, w: Thread, worker: Worker)
    requires log != [] && log[|log| - 1].sender != w && StreamOk(log, w, worker, |log| - 1)
    ensures StreamOk(log, w, worker.(queue := worker.queue + [|log| - 1]), |log|)
  {
    assert worker.received + (worker.queue + [|log| - 1]) == worker.received + worker.queue + [|log| - 1];
  }

  // ---------------------------------------------------------------- whole runs

  /** No reachable step dequeues from a missing worker, destroys one that is not listed or walks off the
      list. */
  lemma {:induction false} NeverUndefined(s: State, a: Action)
    requires Inv(s) && Enabled(s, a)
    ensures Defined(s, a)
  {
    assert ThreadOk(s, a.t);
    if a.t in s.list { assert WorkerOk(s, a.t); }
    if a.Send? && s.threads[a.t].todo != [] { assert WorkerOk(s, s.threads[a.t].todo[0]); }
  }

  lemma {:induction false} EnterKeeps(s: State, t: Thread, op: Op)
    requires Inv(s) && t in s.threads && s.threads[t] == Holding(op) && (op.Dequeue? ==> t in s.workers)
    ensures Inv(EnterOp(s, t, op))
  {
    match op
    case Register => RegisterKeeps(s, t);
    case Unregister => UnregisterKeeps(s, t);
    case Dequeue => if s.workers[t].queue == [] { ParkKeeps(s, t, op); } else { DequeueKeeps(s, t); }
    case GetReport => if s.reports == [] { ParkKeeps(s, t, op); } else { TakeReportKeeps(s, t, op); }
    case TryGetReport =>
      if s.reports == [] {
        assert ThreadOk(s, t);
        PlainKeeps(s, t, Leaving(Running));
      } else {
        TakeReportKeeps(s, t, op);
      }
    case Broadcast(msg) => BroadcastKeeps(s, t, msg);
    case Report(report) => ReportKeeps(s, t, report);
  }

  lemma {:induction false} ParkKeeps(s: State, t: Thread, op: Op)
    requires Inv(s) && t in s.threads && s.threads[t] == Holding(op) && op in {Dequeue, GetReport}
      && NothingFor(s, t, op)
    ensures Inv(Move(s, t, Parked(op)).(holder := None))
  {
    assert ThreadOk(s, t);
    MoveKeeps(s, t, Parked(op), None);
  }

  /** A step that leaves the lock alone. */
  lemma {:induction false} PlainKeeps(s: State, t: Thread, pc: Pc)
    requires Inv(s) && QuietStep(s, Move(s, t, pc), t) && ThreadOk(Move(s, t, pc), t)
    ensures Inv(Move(s, t, pc))
  {
    assert Move(s, t, pc) == Move(s, t, pc).(holder := s.holder);
    MoveKeeps(s, t, pc, s.holder);
  }

  lemma {:induction false} AcquireKeeps(s: State, t: Thread)
    requires Inv(s) && Enabled(s, Acquire(t))
    ensures Inv(Next(s, Acquire(t)))
  {
    assert ThreadOk(s, t);
    MoveKeeps(s, t, Holding(s.threads[t].op), Some(t));
  }

  lemma {:induction false} ReleaseKeeps(s: State, t: Thread)
    requires Inv(s) && Enabled(s, Release(t))
    ensures Inv(Next(s, Release(t)))
  {
    assert ThreadOk(s, t);
    MoveKeeps(s, t, s.threads[t].next, None);
  }

  lemma {:induction false} SpuriousKeeps(s: State, t: Thread)
    requires Inv(s) && Enabled(s, Spurious(t))
    ensures Inv(Next(s, Spurious(t)))
  {
    assert ThreadOk(s, t);
    var pc := s.threads[t];
    PlainKeeps(s, t, if pc.Parked? then Acquiring(pc.op) else AwaitingStart(pc.child));
  }

  lemma {:induction false} StepKeeps(s: State, a: Action)
    requires Inv(s) && Enabled(s, a) && Defined(s, a)
    ensures Inv(Next(s, a))
  {
    var t, pc := a.t, s.threads[a.t];
    assert ThreadOk(s, t);
    match a
    case Call(_, op) => PlainKeeps(s, t, Acquiring(op));
    case Acquire(_) => AcquireKeeps(s, t);
    case Enter(_) => EnterKeeps(s, t, pc.op);
    case Send(_) => SendKeeps(s, t);
    case NotifyAll(_) => NotifyAllKeeps(s, t);
    case Release(_) => ReleaseKeeps(s, t);
    case Spurious(_) => SpuriousKeeps(s, t);
    case Start(_, child) => StartKeeps(s, t, child);
    case CheckStart(_) => CheckStartKeeps(s, t);
    case Announce(_) => AnnounceKeeps(s, t);
  }

  /** The state after a schedule, or None if it asks for a step that is not enabled. */
  function Run(main: Thread, schedule: seq<Action>): Option<State> {
    if schedule == [] then Some(Init(main))
    else
      var before, a := Run(main, schedule[..|schedule| - 1]), schedule[|schedule| - 1];
      if before.Some? && Enabled(before.value, a) && Defined(before.value, a) then Some(Next(before.value, a)) else None
  }

  lemma {:induction false} Reachable(main: Thread, schedule: seq<Action>)
    requires Run(main, schedule).Some?
    ensures Inv(Run(main, schedule).value)
  {
    if schedule == [] {
      assert ThreadOk(Init(main), main);
    } else {
      var front := schedule[..|schedule| - 1];
      Reachable(main, front);
      StepKeeps(Run(main, front).value, schedule[|schedule| - 1]);
    }
  }

  /** A run never reaches a step that is enabled and not defined: whatever is enabled after a schedule can be
      scheduled next. */
  lemma {:induction false} EveryEnabledStepRuns(main: Thread, schedule: seq<Action>, a: Action)
    requires Run(main, schedule).Some? && Enabled(Run(main, schedule).value, a)
    ensures Run(main, schedule + [a]).Some?
  {
    Reachable(main, schedule);
    NeverUndefined(Run(main, schedule).value, a);
    assert (schedule + [a])[..|schedule|] == schedule;
  }

  // ---------------------------------------------------------------- what the protocol promises

  /** Everything a worker has received or will find in its queue, in order. */
  function Stream(s: State, w: Thread): seq<nat>
    requires w in s.workers
  {
    s.workers[w].received + s.workers[w].queue
  }

  /** In every interleaving, a listed worker's stream consists of exactly the broadcasts since it
      registered that it did not send itself, each once and in the order of the log; only the
      broadcast being sent may still be on its way. */
  lemma {:induction false} EveryWorkerGetsTheLog(main: Thread, schedule: seq<Action>, w: Thread)
    requires Run(main, schedule).Some? && w in Run(main, schedule).value.list
    ensures var s := Run(main, schedule).value;
      && w in s.workers
      && (forall i, j | 0 <= i < j < |Stream(s, w)| :: Stream(s, w)[i] < Stream(s, w)[j])
      && (forall k: nat :: k in Stream(s, w) <==>
            s.workers[w].since <= k < |s.log| && s.log[k].sender != w && !(Pending(s, w) && k == |s.log| - 1))
  {
    Reachable(main, schedule);
    var s := Run(main, schedule).value;
    assert WorkerOk(s, w);
    assert Stream(s, w) == Owed(s.log, w, s.workers[w].since, Delivered(s, w));
  }

  /** Any two workers see the broadcasts they have in common in the same order. */
  lemma {:induction false} SameOrderForAll(main: Thread, schedule: seq<Action>, v: Thread, w: Thread, i: nat, j: nat,
      i': nat, j': nat)
    requires Run(main, schedule).Some? && v in Run(main, schedule).value.list && w in Run(main, schedule).value.list
    requires var s := Run(main, schedule).value;
      v in s.workers && w in s.workers && i < |Stream(s, v)| && j < |Stream(s, v)| && i' < |Stream(s, w)|
        && j' < |Stream(s, w)|
      && Stream(s, v)[i] == Stream(s, w)[i'] && Stream(s, v)[j] == Stream(s, w)[j']
    ensures i < j <==> i' < j'
  {
    EveryWorkerGetsTheLog(main, schedule, v);
    EveryWorkerGetsTheLog(main, schedule, w);
  }

  /** Once `start` has returned, the agent is registered: every later broadcast of another thread is
      in its stream as long as it is listed. */
  lemma {:induction false} StartedAgentMissesNothing(main: Thread, schedule: seq<Action>, child: Thread, k: nat)
    requires Run(main, schedule).Some?
    requires var s := Run(main, schedule).value;
      && child in s.returned && child in s.list
      && s.returned[child] <= k < |s.log| && s.log[k].sender != child && !Pending(s, child)
    ensures var s := Run(main, schedule).value; child in s.workers && k in Stream(s, child)
  {
    Reachable(main, schedule);
    EveryWorkerGetsTheLog(main, schedule, child);
  }

  /** No lost wakeup: a thread that is parked and not signalled waits for something that is not
      there, unless the lock is held by a thread that notifies all before it lets go. */
  lemma {:induction false} NoLostWakeup(main: Thread, schedule: seq<Action>, t: Thread)
    requires Run(main, schedule).Some?
    requires var s := Run(main, schedule).value; t in s.threads && s.threads[t].Parked?
    ensures var s := Run(main, schedule).value;
      && (s.holder.None? ==>
            if s.threads[t].op.Dequeue? then t in s.workers && s.workers[t].queue == [] else s.reports == [])
      && (NothingFor(s, t, s.threads[t].op) || AboutToNotify(s))
  {
    Reachable(main, schedule);
    var s := Run(main, schedule).value;
    assert ThreadOk(s, t);
    assert WorkerOk(s, t);
  }

  /** The same for the handshake: the starter sleeps only while the agent has not started. */
  lemma {:induction false} NoLostStart(main: Thread, schedule: seq<Action>, t: Thread)
    requires Run(main, schedule).Some?
    requires var s := Run(main, schedule).value; t in s.threads && s.threads[t].StartParked?
    ensures Run(main, schedule).value.threads[t].child !in Run(main, schedule).value.didStart
  {
    Reachable(main, schedule);
    assert ThreadOk(Run(main, schedule).value, t);
  }

  /** Each report goes to exactly one reader, first in first out: the i-th one taken is the i-th one
      made, and the rest are queued in order. */
  lemma {:induction false} ReportsAreFifo(main: Thread, schedule: seq<Action>)
    requires Run(main, schedule).Some?
    ensures var s := Run(main, schedule).value;
      && |s.taken| + |s.reports| == |s.reported|
      && (forall i | 0 <= i < |s.taken| :: s.taken[i].1 == s.reported[i])
      && s.reports == s.reported[|s.taken|..]
  {
    Reachable(main, schedule);
    var s := Run(main, schedule).value;
    forall i | 0 <= i < |s.taken| ensures s.taken[i].1 == s.reported[i] {
      assert (Values(s.taken) + s.reports)[i] == Values(s.taken)[i];
    }
  }

  /** At most one thread is inside a critical section, and it is the one holding the lock. */
  lemma {:induction false} MutualExclusion(main: Thread, schedule: seq<Action>, t: Thread, u: Thread)
    requires Run(main, schedule).Some?
    requires var s := Run(main, schedule).value;
      t in s.threads && u in s.threads && Critical(s.threads[t]) && Critical(s.threads[u])
    ensures t == u && Run(main, schedule).value.holder == Some(t)
  {
    Reachable(main, schedule);
    assert ThreadOk(Run(main, schedule).value, t) && ThreadOk(Run(main, schedule).value, u);
  }
}

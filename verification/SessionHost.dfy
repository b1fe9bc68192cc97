/** The table of pending commands of a WebDriver session: every command sent to the browser gets a
    sequence number and a handler, which fires when the reply or a disconnection arrives. */
module SessionHost {
  import opened Options

  type Object = map<string, string>

  datatype Response = Response(body: Option<Object>, isError: bool)

  /** A completion handler, by what it does: the commands it sends on a reply and on an error. */
  datatype Handler = Handler(onReply: seq<Handler>, onError: seq<Handler>)

  /** A parsed message from the browser: not a reply, or a reply with its "error" and "result". */
  datatype Message = Other | Reply(id: nat, error: Option<Object>, result: Option<Object>)

  /** The response handed to a handler. An empty result object counts as none. */
  function ResponseTo(m: Message): Response
    requires m.Reply?
  {
    if m.error.Some? then Response(m.error, true)
    else Response(if m.result.Some? && m.result.value != map[] then m.result else None, false)
  }

  const DISCONNECTED := Response(None, true)

  // ---------------------------------------------------------------- the table as a value

  /** The shared counter, the pending handlers, and, for the record, the numbers issued for this
      host and the handlers fired with their responses. */
  datatype Host = Host(last: nat, pending: map<nat, Handler>, issued: seq<nat>, fired: seq<(nat, Response)>)

  function Send(h: Host, handler: Handler): Host {
    Host(h.last + 1, h.pending[h.last + 1 := handler], h.issued + [h.last + 1], h.fired)
  }

  function SendAll(h: Host, handlers: seq<Handler>): Host {
    if handlers == [] then h else Send(SendAll(h, handlers[..|handlers| - 1]), handlers[|handlers| - 1])
  }

  /** Take the handler of `id` out of the table and call it. */
  function Fire(h: Host, id: nat, r: Response): Host
    requires id in h.pending
  {
    var handler := h.pending[id];
    SendAll(h.(pending := h.pending - {id}, fired := h.fired + [(id, r)]),
      if r.isError then handler.onError else handler.onReply)
  }

  /** The loop of a disconnection over the numbers that were pending when it began. */
  function FireAll(h: Host, ids: seq<nat>): Host {
    if ids == [] then h
    else
      var before, id := FireAll(h, ids[..|ids| - 1]), ids[|ids| - 1];
      if id in before.pending then Fire(before, id, DISCONNECTED) else before
  }

  function Ids(fired: seq<(nat, Response)>): (ids: seq<nat>)
    ensures |ids| == |fired| && forall i | 0 <= i < |fired| :: ids[i] == fired[i].0
  {
    seq(|fired|, i requires 0 <= i < |fired| => fired[i].0)
  }

  predicate Increasing(s: seq<nat>) { forall i, j | 0 <= i < j < |s| :: s[i] < s[j] }

  predicate Distinct(s: seq<nat>) { forall i, j | 0 <= i < j < |s| :: s[i] != s[j] }

  /** Issued numbers split into pending and answered; nothing is answered twice. */
  predicate Inv(h: Host) {
    && Increasing(h.issued) && (forall id | id in h.issued :: 1 <= id <= h.last)
    && Distinct(Ids(h.fired))
    && (forall id | id in h.pending :: id in h.issued && id !in Ids(h.fired))
    && (forall id | id in h.issued :: id in h.pending || id in Ids(h.fired))
    && (forall id | id in Ids(h.fired) :: id in h.issued)
  }

  lemma {:induction false} SendKeeps(h: Host, handler: Handler)
    requires Inv(h)
    ensures Inv(Send(h, handler))
  {
    var n := Send(h, handler);
    assert h.last + 1 !in h.issued;
    forall i, j | 0 <= i < j < |n.issued| ensures n.issued[i] < n.issued[j] { assert n.issued[i] in h.issued; }
  }

  /** What a run of sends does: new numbers above the counter, old entries and the record untouched. */
  lemma {:induction false} SendAllKeeps(h: Host, handlers: seq<Handler>)
    requires Inv(h)
    ensures var n := SendAll(h, handlers);
      && Inv(n) && n.last == h.last + |handlers| && n.fired == h.fired
      && h.issued <= n.issued
      && (forall id | id in h.pending :: id in n.pending && n.pending[id] == h.pending[id])
      && (forall id | id in n.pending :: id in h.pending || id > h.last)
  {
    if handlers != [] {
      SendAllKeeps(h, handlers[..|handlers| - 1]);
      SendKeeps(SendAll(h, handlers[..|handlers| - 1]), handlers[|handlers| - 1]);
    }
  }

  /** The commands got the numbers after `last`, one by one, and are pending beside the old ones. */
  predicate Numbered(last: nat, pending: map<nat, Handler>, handlers: seq<Handler>, n: Host) {
    && n.last == last + |handlers|
    && (forall k | last < k <= n.last :: k in n.pending && n.pending[k] == handlers[k - last - 1])
    && (forall k | k in pending && k <= last :: k in n.pending && n.pending[k] == pending[k])
    && (forall k | k in n.pending && k <= last :: k in pending)
  }

  lemma {:induction false} SendAllNumbers(h: Host, handlers: seq<Handler>)
    ensures Numbered(h.last, h.pending, handlers, SendAll(h, handlers))
  {
    if handlers != [] {
      var front := handlers[..|handlers| - 1];
      SendAllNumbers(h, front);
      var before, n := SendAll(h, front), SendAll(h, handlers);
      assert n.pending == before.pending[before.last + 1 := handlers[|front|]];
      forall k | h.last < k <= n.last ensures k in n.pending && n.pending[k] == handlers[k - h.last - 1] {
        if k <= before.last { assert before.pending[k] == front[k - h.last - 1]; }
      }
    }
  }

  lemma {:induction false} FireKeeps(h: Host, id: nat, r: Response)
    requires Inv(h) && id in h.pending
    ensures var n := Fire(h, id, r);
      && Inv(n) && n.last >= h.last && n.fired == h.fired + [(id, r)]
      && h.issued <= n.issued
      && (forall k | k in h.pending && k != id :: k in n.pending && n.pending[k] == h.pending[k])
      && (forall k | k in n.pending :: k in h.pending - {id} || k > h.last)
  {
    var t := h.(pending := h.pending - {id}, fired := h.fired + [(id, r)]);
    assert Ids(t.fired) == Ids(h.fired) + [id];
    assert Inv(t);
    SendAllKeeps(t, if r.isError then h.pending[id].onError else h.pending[id].onReply);
  }

  function Errors(ids: seq<nat>): seq<(nat, Response)> {
    seq(|ids|, i requires 0 <= i < |ids| => (ids[i], Response(None, true)))
  }

  /** A disconnection fires every handler pending at its start exactly once, with an error, and no
      other: what the handlers send gets larger numbers, which the loop never touches. */
  lemma {:induction false} FireAllFiresThePending(h: Host, ids: seq<nat>)
    requires Inv(h) && Distinct(ids) && forall id | id in ids :: id in h.pending
    ensures Left(h, ids, FireAll(h, ids)) && FireAll(h, ids).fired == h.fired + Errors(ids)
  {
    if ids != [] {
      var front, id := ids[..|ids| - 1], ids[|ids| - 1];
      LastIsNew(ids);
      FireAllFiresThePending(h, front);
      var before := FireAll(h, front);
      FireOneMore(h, before, front, id);
      assert h.fired + (Errors(front) + [(id, DISCONNECTED)]) == before.fired + [(id, DISCONNECTED)];
    } else {
      assert h.fired + Errors(ids) == h.fired;
    }
  }

  lemma {:induction false} LastIsNew(ids: seq<nat>)
    requires Distinct(ids) && ids != []
    ensures var front, id := ids[..|ids| - 1], ids[|ids| - 1];
      ids == front + [id] && Distinct(front) && id !in front && Errors(ids) == Errors(front) + [(id, DISCONNECTED)]
  {
  }

  /** What firing some of the pending handlers leaves: the other ones, and larger numbers. */
  predicate Left(h: Host, ids: seq<nat>, n: Host) {
    && Inv(n) && n.last >= h.last
    && (forall k | k in h.pending && k !in ids :: k in n.pending && n.pending[k] == h.pending[k])
    && (forall k | k in n.pending :: (k in h.pending && k !in ids) || k > h.last)
  }

  lemma {:induction false} FireOneMore(h: Host, before: Host, ids: seq<nat>, id: nat)
    requires Inv(h) && Left(h, ids, before) && id in h.pending && id !in ids
    ensures id in before.pending && Left(h, ids + [id], Fire(before, id, DISCONNECTED))
    ensures Fire(before, id, DISCONNECTED).fired == before.fired + [(id, DISCONNECTED)]
  {
    FireKeeps(before, id, DISCONNECTED);
    assert id <= h.last;
  }

  // ---------------------------------------------------------------- whole runs

  /** What can happen to a host: a command is sent, another host takes the next number, a message or
      a disconnection arrives. The order of a disconnection is the hash table's. */
  datatype Event = Command(handler: Handler) | Elsewhere | Incoming(m: Message) | Disconnection(order: seq<nat>)

  /** The browser answers only what is pending, so each number at most once. */
  ghost predicate Possible(h: Host, e: Event) {
    match e
    case Incoming(m) => m.Reply? ==> m.id in h.pending
    case Disconnection(order) => Distinct(order) && forall id :: id in order <==> id in h.pending
    case _ => true
  }

  ghost function Next(h: Host, e: Event): Host
    requires Possible(h, e)
  {
    match e
    case Command(handler) => Send(h, handler)
    case Elsewhere => h.(last := h.last + 1)
    case Incoming(m) => if m.Reply? then Fire(h, m.id, ResponseTo(m)) else h
    case Disconnection(order) => FireAll(h, order)
  }

  ghost function Run(start: nat, events: seq<Event>): Option<Host> {
    if events == [] then Some(Host(start, map[], [], []))
    else
      var before, e := Run(start, events[..|events| - 1]), events[|events| - 1];
      if before.Some? && Possible(before.value, e) then Some(Next(before.value, e)) else None
  }

  /** Over every run the issued numbers are split into pending and answered ones and no handler fires
      twice; a run that ends in a disconnection leaves pending only what the handlers sent during it. */
  lemma {:induction false} RunPartitionsCommands(start: nat, events: seq<Event>)
    requires Run(start, events).Some?
    ensures Inv(Run(start, events).value)
    ensures events != [] && events[|events| - 1].Disconnection? ==>
      var before, after := Run(start, events[..|events| - 1]).value, Run(start, events).value;
      && after.fired == before.fired + Errors(events[|events| - 1].order)
      && forall id | id in after.pending :: id > before.last
  {
    if events != [] {
      RunPartitionsCommands(start, events[..|events| - 1]);
      var h, e := Run(start, events[..|events| - 1]).value, events[|events| - 1];
      match e
      case Command(handler) => SendKeeps(h, handler);
      case Elsewhere =>
      case Incoming(m) => if m.Reply? { FireKeeps(h, m.id, ResponseTo(m)); }
      case Disconnection(order) => FireAllFiresThePending(h, order);
    }
  }

  /** The response that a reply stands for: its error if it has one, otherwise its result if that is not
      empty. */
  predicate IsResponse(m: Message, r: Response)
    requires m.Reply?
  {
    && (r.isError <==> m.error.Some?)
    && (m.error.Some? ==> r.body == m.error)
    && (m.error.None? && m.result.Some? && m.result.value != map[] ==> r.body == m.result)
    && (m.error.None? && (m.result.None? || m.result.value == map[]) ==> r.body == None)
  }

  /** A reply ends in its own command's handler, with the response it stands for; the handler's commands for
      a success or an error, whichever it is, follow with the next numbers, and nothing else changes. */
  lemma {:induction false} ReplyIsHandled(start: nat, events: seq<Event>, m: Message)
    requires Run(start, events).Some? && m.Reply? && m.id in Run(start, events).value.pending
    ensures Run(start, events + [Incoming(m)]).Some?
    ensures var h, n := Run(start, events).value, Run(start, events + [Incoming(m)]).value;
      && |n.fired| == |h.fired| + 1 && n.fired[..|h.fired|] == h.fired
      && n.fired[|h.fired|].0 == m.id && IsResponse(m, n.fired[|h.fired|].1)
      && m.id !in n.pending
      && Numbered(h.last, h.pending - {m.id},
           if m.error.Some? then h.pending[m.id].onError else h.pending[m.id].onReply, n)
  {
    var more := events + [Incoming(m)];
    assert more[..|more| - 1] == events;
    RunPartitionsCommands(start, events);
    FireIsHandled(Run(start, events).value, m);
  }

  lemma {:induction false} FireIsHandled(h: Host, m: Message)
    requires Inv(h) && m.Reply? && m.id in h.pending
    ensures var n := Fire(h, m.id, ResponseTo(m));
      && |n.fired| == |h.fired| + 1 && n.fired[..|h.fired|] == h.fired
      && n.fired[|h.fired|].0 == m.id && IsResponse(m, n.fired[|h.fired|].1)
      && m.id !in n.pending
      && Numbered(h.last, h.pending - {m.id},
           if m.error.Some? then h.pending[m.id].onError else h.pending[m.id].onReply, n)
  {
    FireKeeps(h, m.id, ResponseTo(m));
    var handlers := if m.error.Some? then h.pending[m.id].onError else h.pending[m.id].onReply;
    var taken := h.(pending := h.pending - {m.id}, fired := h.fired + [(m.id, ResponseTo(m))]);
    SendAllNumbers(taken, handlers);
    assert Fire(h, m.id, ResponseTo(m)) == SendAll(taken, handlers);
    assert m.id <= h.last;
  }

  // ---------------------------------------------------------------- the host

  /** The counter behind `sendCommandToBackend`, shared by all hosts. */
  class SequenceCounter {
    var lastSequenceID: nat

    constructor ()
      ensures lastSequenceID == 0
    {
      lastSequenceID := 0;
    }
  }

  class SessionHost {
    const counter: SequenceCounter
    var commandRequests: map<nat, Handler>
    ghost var issued: seq<nat>
    ghost var fired: seq<(nat, Response)>

    constructor (counter: SequenceCounter)
      ensures this.counter == counter && View() == Host(counter.lastSequenceID, map[], [], [])
    {
      this.counter := counter;
      commandRequests := map[];
      issued, fired := [], [];
    }

    ghost function View(): Host
      reads this, counter
    {
      Host(counter.lastSequenceID, commandRequests, issued, fired)
    }

    method SendCommandToBackend(handler: Handler) returns (sequenceID: nat)
      modifies this, counter
      ensures View() == Send(old(View()), handler) && sequenceID == counter.lastSequenceID
    {
      counter.lastSequenceID := counter.lastSequenceID + 1;
      sequenceID := counter.lastSequenceID;
      commandRequests := commandRequests[sequenceID := handler];
      issued := issued + [sequenceID];
    }

    /** Take a handler out of the table and call it: it sends its commands. */
    method Respond(id: nat, response: Response)
      requires id in commandRequests
      modifies this, counter
      ensures View() == Fire(old(View()), id, response)
    {
      var handler := commandRequests[id];
      commandRequests := commandRequests - {id};
      fired := fired + [(id, response)];
      ghost var taken := View();
      var commands := if response.isError then handler.onError else handler.onReply;
      var i := 0;
      while i < |commands|
        invariant 0 <= i <= |commands| && View() == SendAll(taken, commands[..i])
      {
        var _ := SendCommandToBackend(commands[i]);
        assert commands[..i + 1][..i] == commands[..i];
        i := i + 1;
      }
      assert commands[..i] == commands;
    }

    /** `handled` is false for a reply to a command that is not pending: there is no handler to call, which
        the source asserts never happens. */
    method DispatchMessage(m: Message) returns (handled: bool)
      modifies this, counter
      ensures handled <==> m.Reply? ==> m.id in old(commandRequests)
      ensures View() == if m.Reply? && handled then Fire(old(View()), m.id, ResponseTo(m)) else old(View())
    {
      if m.Other? { return true; }
      if m.id !in commandRequests { return false; }
      handled := true;
      var response := Response(None, false);
      if m.error.Some? {
        response := Response(m.error, true);
      } else if m.result.Some? && m.result.value != map[] {
        response := Response(m.result, false);
      }
      Respond(m.id, response);
    }

    /** `copyToVector(m_commandRequests.keys())`. */
    method CopyKeys() returns (keys: seq<nat>)
      ensures Distinct(keys) && forall id :: id in keys <==> id in commandRequests
    {
      keys := [];
      var left := commandRequests.Keys;
      while left != {}
        invariant Distinct(keys) && left <= commandRequests.Keys
        invariant forall id :: id in keys <==> id in commandRequests && id !in left
        decreases |left|
      {
        var id :| id in left;
        keys := keys + [id];
        left := left - {id};
      }
    }

    method InspectorDisconnected() returns (ghost order: seq<nat>)
      requires Inv(View())
      modifies this, counter
      ensures Distinct(order) && forall id :: id in order <==> id in old(commandRequests)
      ensures View() == FireAll(old(View()), order)
    {
      var keys := CopyKeys();
      order := keys;
      var i := 0;
      while i < |keys|
        invariant 0 <= i <= |keys| && View() == FireAll(old(View()), keys[..i])
      {
        FireAllFiresThePending(old(View()), keys[..i]);
        StillPending(keys, i);
        assert keys[i] in commandRequests;
        Respond(keys[i], DISCONNECTED);
        assert keys[..i + 1][..i] == keys[..i];
        i := i + 1;
      }
      assert keys[..i] == keys;
    }
  }

  lemma {:induction false} StillPending(keys: seq<nat>, i: nat)
    requires i < |keys| && Distinct(keys)
    ensures keys[i] !in keys[..i]
  {
  }
}

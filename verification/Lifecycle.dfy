/**
 The order lifecycle as a transition system.

 An action is what the state manager does between two awaits: it refreshes one order, registers
 one, confirms one fill, evicts, or records a chain event. Every answer from outside the process
 is an argument of the action. `log` is the sequence of everything an observer could learn:
 registrations, broadcasts and evictions.
 */
module Lifecycle {
  import opened Wrappers
  import opened OrderTypes
  import opened EventHistory
  import opened StatusDerivation
  import opened FillMatching
  import opened Sequences

  datatype Tracked = Tracked(order: Order, status: OrderStatus)

  datatype Entry =
    | Registered(hash: Hash)
    | Broadcast(status: OrderStatus)
    | Evicted(hashes: set<Hash>)

  datatype Manager = Manager(tracked: map<Hash, Tracked>, log: seq<Entry>, history: seq<StoreOp>)

  datatype Action =
    | Record(op: StoreOp)
    | Register(order: Order, findings: Findings)
    | Refresh(hash: Hash, isInCache: bool, findings: Findings)
    | CheckFill(hash: Hash, event: FilledEvent, nonce: Result<bool>, info: FillInfo)
    | Evict

  const START: Manager := Manager(map[], [], [])

  /** The non-terminal tracked orders. */
  function PendingOf(tracked: map<Hash, Tracked>): set<Hash> {
    set h | h in tracked && !tracked[h].status.IsTerminal()
  }

  /** The report names the event's block and transaction. */
  predicate ReportsEvent(info: FillInfo, event: FilledEvent) {
    info.blockNumber == event.blockNumber && info.fillTx == Some(ChainTransaction(event.chain, event.txHash))
  }

  function Act(m: Manager, a: Action): Manager {
    match a
    case Record(op) => m.(history := m.history + [op])
    case Register(order, findings) =>
      if order.hash in m.tracked then m
      else
        var status := StatusOf(order, true, findings);
        m.(tracked := m.tracked[order.hash := Tracked(order, status)],
           log := m.log + [Registered(order.hash), Broadcast(status)])
    case Refresh(hash, isInCache, findings) =>
      if hash !in m.tracked then m
      else
        var tracked := m.tracked[hash];
        var status := StatusOf(tracked.order, isInCache, findings);
        var changed := !tracked.status.SameKind(status);
        m.(tracked := m.tracked[hash := tracked.(status := status)],
           log := if changed || status.Pending? then m.log + [Broadcast(status)] else m.log)
    case CheckFill(hash, _, nonce, info) =>
      if hash !in m.tracked || nonce != Ok(true) then m
      else
        var tracked := m.tracked[hash];
        var status := Filled(tracked.order.hash, tracked.order.owner, Some(info));
        m.(tracked := m.tracked[hash := tracked.(status := status)], log := m.log + [Broadcast(status)])
    case Evict =>
      var pending := PendingOf(m.tracked);
      m.(tracked := map h | h in m.tracked && h in pending :: m.tracked[h],
         log := m.log + [Evicted(m.tracked.Keys - pending)])
  }

  lemma ActFills(m: Manager, hash: Hash, event: FilledEvent, info: FillInfo)
    requires hash in m.tracked
    ensures var order := m.tracked[hash].order; var status := Filled(order.hash, order.owner, Some(info));
      Act(m, CheckFill(hash, event, Ok(true), info)) ==
        Manager(m.tracked[hash := Tracked(order, status)], m.log + [Broadcast(status)], m.history)
  {
  }

  lemma ActUnconfirmed(m: Manager, hash: Hash, event: FilledEvent, nonce: Result<bool>, info: FillInfo)
    requires hash !in m.tracked || nonce != Ok(true)
    ensures Act(m, CheckFill(hash, event, nonce, info)) == m
  {
  }

  /** When the manager may perform an action. */
  predicate Enabled(m: Manager, a: Action) {
    match a
    case Record(_) => true
    case Register(order, _) => order.hash !in m.tracked
    case Refresh(hash, _, _) => hash in PendingOf(m.tracked)
    case CheckFill(hash, event, _, info) =>
      hash in PendingOf(m.tracked) && Covers(event.outputs, m.tracked[hash].order.outputs) && ReportsEvent(info, event)
    case Evict => true
  }

  function Run(m: Manager, acts: seq<Action>): Manager
    decreases |acts|
  {
    if acts == [] then m
    else Act(Run(m, acts[..|acts| - 1]), acts[|acts| - 1])
  }

  predicate Allowed(m: Manager, acts: seq<Action>)
    decreases |acts|
  {
    acts == [] ||
    (Allowed(m, acts[..|acts| - 1]) && Enabled(Run(m, acts[..|acts| - 1]), acts[|acts| - 1]))
  }

  lemma RunSnoc(m: Manager, acts: seq<Action>, a: Action)
    ensures Run(m, acts + [a]) == Act(Run(m, acts), a)
    ensures Allowed(m, acts + [a]) <==> Allowed(m, acts) && Enabled(Run(m, acts), a)
  {
    assert (acts + [a])[..|acts|] == acts;
  }

  lemma {:induction false} RunConcat(m: Manager, a: seq<Action>, b: seq<Action>)
    ensures Run(m, a + b) == Run(Run(m, a), b)
    ensures Allowed(m, a + b) <==> Allowed(m, a) && Allowed(Run(m, a), b)
    decreases |b|
  {
    if b == [] {
      assert a + b == a;
    } else {
      var n := |b| - 1;
      RunConcat(m, a, b[..n]);
      assert a + b == (a + b[..n]) + [b[n]];
      RunSnoc(m, a + b[..n], b[n]);
    }
  }

  lemma {:induction false} AllowedPrefix(m: Manager, acts: seq<Action>, n: nat)
    requires Allowed(m, acts) && n <= |acts|
    ensures Allowed(m, acts[..n])
  {
    assert acts == acts[..n] + acts[n..];
    RunConcat(m, acts[..n], acts[n..]);
  }

  predicate Registers(a: Action, h: Hash) {
    a.Register? && a.order.hash == h
  }

  function RegisterActions(acts: seq<Action>, h: Hash): nat {
    Count(acts, a => Registers(a, h), |acts|)
  }

  lemma RegisterActionsConcat(a: seq<Action>, b: seq<Action>, h: Hash)
    ensures RegisterActions(a + b, h) == RegisterActions(a, h) + RegisterActions(b, h)
  {
    CountConcat(a, b, x => Registers(x, h));
  }

  lemma RegisterActionsSnoc(acts: seq<Action>, a: Action, h: Hash)
    ensures RegisterActions(acts + [a], h) == RegisterActions(acts, h) + (if Registers(a, h) then 1 else 0)
  {
    CountSnoc(acts, a, x => Registers(x, h));
  }

  // ----- what subscribers receive

  function Broadcasts(log: seq<Entry>): seq<OrderStatus>
    decreases |log|
  {
    if log == [] then []
    else
      Broadcasts(log[..|log| - 1]) +
      (if log[|log| - 1].Broadcast? then [log[|log| - 1].status] else [])
  }

  /** The latest message about an order. */
  function Last(messages: seq<OrderStatus>, h: Hash): Option<OrderStatus>
    decreases |messages|
  {
    if messages == [] then None
    else if messages[|messages| - 1].hash == h then Some(messages[|messages| - 1])
    else Last(messages[..|messages| - 1], h)
  }

  lemma {:induction false} LastIsLatest(messages: seq<OrderStatus>, h: Hash)
    ensures Last(messages, h).None? <==> forall i :: 0 <= i < |messages| ==> messages[i].hash != h
    ensures Last(messages, h).Some? ==>
      exists i :: 0 <= i < |messages| && messages[i] == Last(messages, h).value && messages[i].hash == h
        && forall j :: i < j < |messages| ==> messages[j].hash != h
    decreases |messages|
  {
    if messages == [] {
    } else {
      var n := |messages| - 1;
      LastIsLatest(messages[..n], h);
      assert forall i :: 0 <= i < n ==> messages[..n][i] == messages[i];
      if messages[n].hash != h && Last(messages[..n], h).Some? {
        var i :| 0 <= i < n && messages[..n][i] == Last(messages, h).value && messages[i].hash == h
          && forall j :: i < j < n ==> messages[..n][j].hash != h;
        assert messages[i] == Last(messages, h).value;
      }
    }
  }

  lemma BroadcastsSnoc(log: seq<Entry>, e: Entry)
    ensures Broadcasts(log + [e]) == Broadcasts(log) + (if e.Broadcast? then [e.status] else [])
  {
    assert (log + [e])[..|log|] == log;
  }

  lemma LastSnoc(messages: seq<OrderStatus>, status: OrderStatus, h: Hash)
    ensures Last(messages + [status], h) == if status.hash == h then Some(status) else Last(messages, h)
  {
    assert (messages + [status])[..|messages|] == messages;
  }

  lemma {:induction false} LastConcat(a: seq<OrderStatus>, b: seq<OrderStatus>, h: Hash)
    ensures Last(a + b, h) == if Last(b, h).Some? then Last(b, h) else Last(a, h)
    decreases |b|
  {
    if b == [] {
      assert a + b == a;
    } else {
      var n := |b| - 1;
      LastConcat(a, b[..n], h);
      assert (a + b)[..|a + b| - 1] == a + b[..n];
    }
  }

  /** The one status an enabled action broadcasts, if it broadcasts at all. */
  function Message(m: Manager, a: Action): Option<OrderStatus>
    requires Enabled(m, a)
  {
    match a
    case Record(_) => None
    case Register(order, findings) => Some(StatusOf(order, true, findings))
    case Refresh(hash, isInCache, findings) => Some(StatusOf(m.tracked[hash].order, isInCache, findings))
    case CheckFill(hash, _, nonce, info) =>
      if nonce == Ok(true)
      then Some(Filled(m.tracked[hash].order.hash, m.tracked[hash].order.owner, Some(info)))
      else None
    case Evict => None
  }

  /** An enabled refresh always broadcasts: the order was pending, so a terminal status is a change. */
  lemma ActBroadcasts(m: Manager, a: Action)
    requires Enabled(m, a)
    ensures Broadcasts(Act(m, a).log) ==
            Broadcasts(m.log) + match Message(m, a) case None => [] case Some(status) => [status]
  {
    match a {
      case Register(order, _) =>
        BroadcastsSnoc(m.log, Registered(order.hash));
        BroadcastsSnoc(m.log + [Registered(order.hash)], Broadcast(Message(m, a).value));
        assert Act(m, a).log == m.log + [Registered(order.hash)] + [Broadcast(Message(m, a).value)];
      case Evict => BroadcastsSnoc(m.log, Evicted(m.tracked.Keys - PendingOf(m.tracked)));
      case Refresh(_, _, _) => BroadcastsSnoc(m.log, Broadcast(Message(m, a).value));
      case CheckFill(_, _, nonce, _) =>
        if nonce == Ok(true) {
          BroadcastsSnoc(m.log, Broadcast(Message(m, a).value));
        }
      case Record(_) =>
    }
  }

  // ----- the invariant of every reachable state

  ghost predicate KeysAgree(tracked: map<Hash, Tracked>) {
    forall h :: h in tracked ==>
      tracked[h].order.hash == h && tracked[h].status.hash == h && tracked[h].status.owner == tracked[h].order.owner
  }

  /** The map agrees with what was last said about every order, tracked or gone. */
  ghost predicate MapAgreesWithLog(m: Manager) {
    && (forall h :: h in m.tracked ==> Last(Broadcasts(m.log), h) == Some(m.tracked[h].status))
    && (forall h :: h !in m.tracked && Last(Broadcasts(m.log), h).Some? ==>
       Last(Broadcasts(m.log), h).value.IsTerminal())
  }

  ghost predicate Inv(m: Manager) {
    KeysAgree(m.tracked) && MapAgreesWithLog(m)
  }

  /** Storing a status and broadcasting it keeps the invariant. */
  lemma InvTouch(m: Manager, m': Manager, order: Order, status: OrderStatus)
    requires Inv(m)
    requires status.hash == order.hash && status.owner == order.owner
    requires m'.tracked == m.tracked[order.hash := Tracked(order, status)]
    requires Broadcasts(m'.log) == Broadcasts(m.log) + [status]
    ensures Inv(m')
  {
    forall h
      ensures Last(Broadcasts(m'.log), h) == if status.hash == h then Some(status) else Last(Broadcasts(m.log), h)
    {
      LastSnoc(Broadcasts(m.log), status, h);
    }
  }

  /** Dropping exactly terminal orders keeps it. */
  lemma InvEvict(m: Manager, m': Manager)
    requires Inv(m)
    requires m'.tracked == map h | h in m.tracked && h in PendingOf(m.tracked) :: m.tracked[h]
    requires Broadcasts(m'.log) == Broadcasts(m.log)
    ensures Inv(m')
  {
  }

  lemma InvStep(m: Manager, a: Action)
    requires Inv(m) && Enabled(m, a)
    ensures Inv(Act(m, a))
  {
    var m' := Act(m, a);
    ActBroadcasts(m, a);
    match a {
      case Record(_) =>
      case Register(order, _) => InvTouch(m, m', order, Message(m, a).value);
      case Refresh(hash, _, _) => InvTouch(m, m', m.tracked[hash].order, Message(m, a).value);
      case CheckFill(hash, _, nonce, _) =>
        if nonce == Ok(true) {
          InvTouch(m, m', m.tracked[hash].order, Message(m, a).value);
        }
      case Evict => InvEvict(m, m');
    }
  }

  lemma {:induction false} InvRun(m: Manager, acts: seq<Action>)
    requires Inv(m) && Allowed(m, acts)
    ensures Inv(Run(m, acts))
    decreases |acts|
  {
    if acts == [] {
    } else {
      InvRun(m, acts[..|acts| - 1]);
      InvStep(Run(m, acts[..|acts| - 1]), acts[|acts| - 1]);
    }
  }

  /** Every state of every run from the start satisfies the invariant. */
  lemma Invariant(acts: seq<Action>)
    requires Allowed(START, acts)
    ensures Inv(Run(START, acts))
  {
    InvRun(START, acts);
  }
}

/**
 What each arm of the event loop does to one order, in terms of the order, the event and the answers
 alone: which status it ends up with, and what is broadcast about it.
 */
module ArmEffects {
  import opened Wrappers
  import opened OrderTypes
  import opened EventHistory
  import opened EventStores
  import opened FillMatching
  import opened StatusDerivation
  import opened Lifecycle
  import opened Arms
  import opened Sequences

  predicate Mentions(e: Entry, h: Hash) {
    match e
    case Registered(hash) => hash == h
    case Broadcast(status) => status.hash == h
    case Evicted(hashes) => h in hashes
  }

  /** Of these entries exactly one mentions the order: the broadcast of this status. */
  ghost predicate SaysOnce(entries: seq<Entry>, h: Hash, status: OrderStatus) {
    exists k :: 0 <= k < |entries| && entries[k] == Broadcast(status)
      && forall l :: 0 <= l < |entries| && l != k ==> !Mentions(entries[l], h)
  }

  ghost predicate Silent(entries: seq<Entry>, h: Hash) {
    forall l :: 0 <= l < |entries| ==> !Mentions(entries[l], h)
  }

  // ----- the messages of a pass

  lemma {:induction false} MessagesSayOnce(scan: seq<Hash>, updates: map<Hash, OrderStatus>, h: Hash)
    requires Distinct(scan) && forall x :: x in updates ==> updates[x].hash == x
    ensures h in scan && h in updates ==> SaysOnce(Messages(scan, updates), h, updates[h])
    ensures !(h in scan && h in updates) ==> Silent(Messages(scan, updates), h)
    decreases |scan|
  {
    if scan == [] {
    } else {
      var x, before := scan[|scan| - 1], scan[..|scan| - 1];
      DistinctLast(scan);
      MessagesSayOnce(before, updates, h);
      OneMore(Messages(before, updates), MessageFor(updates, x), h);
      if x == h && h in updates {
        assert SaysOnce(MessageFor(updates, x), h, updates[h]) by {
          assert MessageFor(updates, x)[0] == Broadcast(updates[h]);
        }
      } else {
        assert Silent(MessageFor(updates, x), h);
      }
    }
  }

  lemma OneMore(a: seq<Entry>, b: seq<Entry>, h: Hash)
    ensures Silent(a, h) && Silent(b, h) ==> Silent(a + b, h)
    ensures forall status :: SaysOnce(a, h, status) && Silent(b, h) ==> SaysOnce(a + b, h, status)
    ensures forall status :: Silent(a, h) && SaysOnce(b, h, status) ==> SaysOnce(a + b, h, status)
  {
    forall status | SaysOnce(a, h, status) && Silent(b, h)
      ensures SaysOnce(a + b, h, status)
    {
      var k :| 0 <= k < |a| && a[k] == Broadcast(status) && forall l :: 0 <= l < |a| && l != k ==> !Mentions(a[l], h);
      assert (a + b)[k] == Broadcast(status);
    }
    forall status | Silent(a, h) && SaysOnce(b, h, status)
      ensures SaysOnce(a + b, h, status)
    {
      var k :| 0 <= k < |b| && b[k] == Broadcast(status) && forall l :: 0 <= l < |b| && l != k ==> !Mentions(b[l], h);
      assert (a + b)[|a| + k] == Broadcast(status);
    }
  }

  // ----- a Filled event

  /** The status of an order confirmed as filled by the event. */
  ghost predicate ConfirmedBy(status: OrderStatus, event: FilledEvent, order: Order) {
    && status.Filled? && status.hash == order.hash && status.owner == order.owner
    && status.fillInfo.Some?
    && var info := status.fillInfo.value;
    && info.blockNumber == event.blockNumber
    && info.fillTx == Some(ChainTransaction(event.chain, event.txHash))
    && |info.outputs| == |event.outputs|
    && forall i :: 0 <= i < |event.outputs| ==>
         var reported, output := info.outputs[i], event.outputs[i];
         && reported.token == output.token && reported.amount == output.amount
         && reported.recipient == output.recipient
         && reported.chain == event.chain && reported.symbol == ""
  }

  /** The order is pending, the event pays all it wants, and its nonce is found consumed. */
  ghost predicate Confirms(t: Tracked, event: FilledEvent, nonce: Result<bool>) {
    && t.status.Pending? && nonce == Ok(true)
    && exists paidBy :: Pays(paidBy, event.outputs, t.order.outputs)
  }

  /** An order that is confirmed is Filled and said to be, once; any other is as it was and not mentioned. */
  ghost predicate AfterFilled(m: Manager, m': Manager, event: FilledEvent, nonce: Result<bool>, h: Hash) {
    && m'.tracked.Keys == m.tracked.Keys
    && m.log <= m'.log
    && var more := m'.log[|m.log|..];
    && (h in m.tracked && Confirms(m.tracked[h], event, nonce) ==>
          && m'.tracked[h].order == m.tracked[h].order
          && ConfirmedBy(m'.tracked[h].status, event, m.tracked[h].order)
          && SaysOnce(more, h, m'.tracked[h].status))
    && (h in m.tracked && !Confirms(m.tracked[h], event, nonce) ==>
          m'.tracked[h] == m.tracked[h] && Silent(more, h))
    && (h !in m.tracked ==> Silent(more, h))
  }

  /**
   A Filled event turns an order into Filled, with the event's own report and one message, iff it
   was pending, the event pays everything it wants, and its nonce is found consumed. Every other
   order stays as it is and is not mentioned.
   */
  lemma FilledPerOrder(env: Settings, m: Manager, event: FilledEvent, nonces: Hash -> Result<bool>, scan: seq<Hash>,
                       h: Hash)
    requires KeysAgree(m.tracked) && Legal(m, Step(FilledSeen(event, nonces), scan))
    ensures var m' := StepTo(env, m, Step(FilledSeen(event, nonces), scan));
      m'.history == m.history + [InsertFilled(event)] && AfterFilled(m, m', event, nonces(h), h)
  {
    var updates := FillUpdates(m, event, nonces, ReportsFor(env, Recorded(m, InsertFilled(event)), event));
    FilledEffect(env, m, event, nonces, scan);
    if h in m.tracked {
      UpdatesConfirm(env, m, event, nonces, h);
    }
    AfterUpdates(m, StepTo(env, m, Step(FilledSeen(event, nonces), scan)), scan, updates, event, nonces(h), h);
  }

  lemma AfterUpdates(m: Manager, m': Manager, scan: seq<Hash>, updates: map<Hash, OrderStatus>, event: FilledEvent,
                     nonce: Result<bool>, h: Hash)
    requires Distinct(scan) && (h in updates ==> h in scan)
    requires forall x :: x in updates ==> x in m.tracked && updates[x].hash == x
    requires h in m.tracked ==> (h in updates <==> Confirms(m.tracked[h], event, nonce))
    requires h in updates ==> ConfirmedBy(updates[h], event, m.tracked[h].order)
    requires m'.log == m.log + Messages(scan, updates)
    requires m'.tracked == (map x | x in m.tracked ::
      if x in updates then Tracked(m.tracked[x].order, updates[x]) else m.tracked[x])
    ensures AfterFilled(m, m', event, nonce, h)
  {
    ConcatSuffix(m.log, Messages(scan, updates));
    MessagesSayOnce(scan, updates, h);
  }

  lemma UpdatesConfirm(env: Settings, m: Manager, event: FilledEvent, nonces: Hash -> Result<bool>, h: Hash)
    requires h in m.tracked
    ensures var updates := FillUpdates(m, event, nonces, ReportsFor(env, Recorded(m, InsertFilled(event)), event));
      && (h in updates <==> Confirms(m.tracked[h], event, nonces(h)))
      && (h in updates ==> ConfirmedBy(updates[h], event, m.tracked[h].order))
  {
    CoversIffPaid(event.outputs, m.tracked[h].order.outputs);
    FillReported(env, m, event, h);
  }

  // ----- new blocks

  /** A pending order is said, once, to have come out with this status; every other order is dropped unmentioned. */
  ghost predicate AfterRefreshes(m: Manager, m': Manager, status: OrderStatus, h: Hash) {
    && m.log <= m'.log && |m.log| < |m'.log|
    && m'.log[|m'.log| - 1] == Evicted(m.tracked.Keys - m'.tracked.Keys)
    && var more := m'.log[|m.log|..|m'.log| - 1];
    && (h in m.tracked && m.tracked[h].status.Pending? ==>
          && SaysOnce(more, h, status)
          && (h in m'.tracked <==> status.Pending?)
          && (status.Pending? ==> m'.tracked[h] == Tracked(m.tracked[h].order, status)))
    && (!(h in m.tracked && m.tracked[h].status.Pending?) ==> h !in m'.tracked && Silent(more, h))
  }

  /**
   New blocks re-derive every pending order from its own answers and say so once. It stays tracked,
   with that status, iff that is Pending; every order that is or becomes terminal is dropped, in one
   eviction that names it.
   */
  lemma NewBlocksPerOrder(env: Settings, m: Manager, tip: BlockTip, cached: set<Hash>, answers: Hash -> Answers,
                          scan: seq<Hash>, h: Hash) returns (status: OrderStatus)
    requires KeysAgree(m.tracked) && Legal(m, Step(NewBlocks(tip, cached, answers), scan))
    ensures h in m.tracked && m.tracked[h].status.Pending? ==>
      CalledFor(status, m.tracked[h].order, h in cached, answers(h), env.ids)
    ensures var m' := StepTo(env, m, Step(NewBlocks(tip, cached, answers), scan));
      m'.history == m.history + [UpdateTips(tip)] && AfterRefreshes(m, m', status, h)
  {
    var findings := FindingsFor(env, m.tracked, answers);
    var updates := RefreshUpdates(m, cached, findings);
    NewBlocksHistory(m, tip, cached, findings, scan);
    NewBlocksEffect(env, m, tip, cached, answers, scan);
    if h in m.tracked && m.tracked[h].status.Pending? {
      RefreshIsCalledFor(env, m, cached, answers, h);
      status := updates[h];
    } else {
      status := StatusOf(Order(h, 0, 0, [], []), true, Findings(0, Err, 0, None, NO_CHECKS, NO_CHECKS));
    }
    RefreshesPerOrder(m, StepTo(env, m, Step(NewBlocks(tip, cached, answers), scan)), scan, updates, status, h);
  }

  lemma RefreshIsCalledFor(env: Settings, m: Manager, cached: set<Hash>, answers: Hash -> Answers, h: Hash)
    requires h in m.tracked && m.tracked[h].status.Pending?
    ensures var updates := RefreshUpdates(m, cached, FindingsFor(env, m.tracked, answers));
      h in updates && CalledFor(updates[h], m.tracked[h].order, h in cached, answers(h), env.ids)
  {
    DerivedIsCalledFor(m.tracked[h].order, h in cached, answers(h), env.ids);
  }

  lemma RefreshesPerOrder(m: Manager, m': Manager, scan: seq<Hash>, updates: map<Hash, OrderStatus>,
                          status: OrderStatus, h: Hash)
    requires Distinct(scan) && AfterNewBlocks(m, m', scan, updates)
    requires forall x :: x in updates ==> updates[x].hash == x
    requires h in m.tracked && m.tracked[h].status.Pending? ==> h in updates && updates[h] == status
    ensures AfterRefreshes(m, m', status, h)
  {
    AllMessages(scan, updates);
    MessagesSayOnce(scan, updates, h);
    var messages := Messages(scan, updates);
    MiddleOf(m.log, messages, Evicted(m.tracked.Keys - m'.tracked.Keys));
  }

  lemma NewBlocksHistory(m: Manager, tip: BlockTip, cached: set<Hash>, findings: Hash -> Findings, scan: seq<Hash>)
    requires Enumerates(scan, PendingOf(m.tracked))
    ensures Run(m, [Record(UpdateTips(tip))] + Refreshes(scan, cached, findings) + [Evict]).history ==
            m.history + [UpdateTips(tip)]
  {
    NewBlocksRun(m, tip, cached, findings, scan);
  }

  // ----- the other arms

  /**
   A discovered or requested order that is not tracked is registered with the status its answers
   call for, and that is broadcast; one that is tracked changes nothing.
   */
  lemma RegisterPerOrder(env: Settings, m: Manager, step: Step) returns (status: OrderStatus)
    requires step.input.Discovered? || step.input.TrackRequested?
    ensures var order := step.input.order;
      && CalledFor(status, order, true, step.input.reply, env.ids)
      && StepTo(env, m, step) ==
           if order.hash in m.tracked then m
           else Manager(m.tracked[order.hash := Tracked(order, status)],
                        m.log + [Registered(order.hash), Broadcast(status)], m.history)
  {
    var order := step.input.order;
    status := StatusOf(order, true, FindingsOf(order, step.input.reply, env.ids));
    DerivedIsCalledFor(order, true, step.input.reply, env.ids);
    if order.hash !in m.tracked {
      RegisterStep(env, m, step);
    }
  }

  /** An order event only extends the history, and a snapshot request changes nothing. */
  lemma OtherArms(env: Settings, m: Manager, initiation: OrderEvent, scan: seq<Hash>)
    ensures StepTo(env, m, Step(OrderSeen(initiation), scan)) ==
            Manager(m.tracked, m.log, m.history + [InsertOrder(initiation)])
    ensures StepTo(env, m, Step(SnapshotRequested, scan)) == m
  {
    RunOne(m, Record(InsertOrder(initiation)));
  }
}

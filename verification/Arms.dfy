/**
 The arms of the state manager's event loop, each a fixed sequence of lifecycle actions.

 `scan` is the order in which a hash map happened to be iterated.
 */
module Arms {
  import opened Wrappers
  import opened OrderTypes
  import opened EventHistory
  import opened EventStores
  import opened FillSearch
  import opened FillMatching
  import opened StatusDerivation
  import opened Lifecycle
  import opened Sequences
  import Keys = OrderEventKey

  /** What is fixed for the life of the process. */
  datatype Settings = Settings(retention: U64, hasher: Keys.Hasher, ids: ChainIds)

  /** An input with what the outside world answers while it is handled, order by order. */
  datatype Input =
    | NewBlocks(tip: BlockTip, cached: set<Hash>, answers: Hash -> Answers)
    | FilledSeen(event: FilledEvent, nonces: Hash -> Result<bool>)
    | OrderSeen(initiation: OrderEvent)
    | Discovered(order: Order, reply: Answers)
    | TrackRequested(order: Order, reply: Answers)
    | SnapshotRequested

  datatype Step = Step(input: Input, scan: seq<Hash>)

  ghost predicate Distinct<T>(scan: seq<T>) {
    forall i, j :: 0 <= i < j < |scan| ==> scan[i] != scan[j]
  }

  ghost predicate Enumerates<T(!new)>(scan: seq<T>, elements: set<T>) {
    Distinct(scan) && forall x :: x in scan <==> x in elements
  }

  /** The pending orders whose outputs the event covers. */
  function Candidates(tracked: map<Hash, Tracked>, event: FilledEvent): set<Hash> {
    set h | h in tracked && h in PendingOf(tracked) && Covers(event.outputs, tracked[h].order.outputs)
  }

  lemma CandidatesArePaid(tracked: map<Hash, Tracked>, event: FilledEvent)
    ensures forall h :: h in Candidates(tracked, event) <==>
      && h in tracked && tracked[h].status.Pending?
      && exists paidBy :: Pays(paidBy, event.outputs, tracked[h].order.outputs)
  {
    forall h | h in tracked
      ensures Covers(event.outputs, tracked[h].order.outputs) <==>
              exists paidBy :: Pays(paidBy, event.outputs, tracked[h].order.outputs)
    {
      CoversIffPaid(event.outputs, tracked[h].order.outputs);
    }
  }

  ghost predicate Legal(m: Manager, step: Step) {
    match step.input
    case NewBlocks(_, _, _) => Enumerates(step.scan, PendingOf(m.tracked))
    case FilledSeen(event, _) => Enumerates(step.scan, Candidates(m.tracked, event))
    case _ => true
  }

  const NO_CHECKS := TokenChecks(Unknown, 0, [])

  /** What refreshing each tracked order finds out. */
  function FindingsFor(env: Settings, tracked: map<Hash, Tracked>, answers: Hash -> Answers): Hash -> Findings {
    h => if h in tracked then FindingsOf(tracked[h].order, answers(h), env.ids)
         else Findings(0, Err, 0, None, NO_CHECKS, NO_CHECKS)
  }

  /** The report on an order filled by an observed event, given what the store knows of its initiation. */
  function FillInfoFor(env: Settings, history: seq<StoreOp>, event: FilledEvent, order: Order): FillInfo {
    FillInfo(
      event.blockNumber,
      OrderTx(history, env.retention, env.hasher, order.deadline, order.outputs),
      Some(ChainTransaction(event.chain, event.txHash)),
      Delivered(event.outputs, event.chain))
  }

  /** The outputs of a fill as reported: no symbol, and the chain the event was seen on. */
  function Delivered(outputs: seq<Output>, chain: Chain): seq<FillOutput> {
    seq(|outputs|, i requires 0 <= i < |outputs| =>
      FillOutput(outputs[i].token, "", outputs[i].amount, outputs[i].recipient, chain))
  }

  lemma DeliveredSnoc(outputs: seq<Output>, chain: Chain, i: nat)
    requires i < |outputs|
    ensures var o := outputs[i];
      Delivered(outputs[..i + 1], chain) ==
        Delivered(outputs[..i], chain) + [FillOutput(o.token, "", o.amount, o.recipient, chain)]
  {
  }

  function ReportsFor(env: Settings, m: Manager, event: FilledEvent): (reports: Hash -> FillInfo)
    ensures forall h :: ReportsEvent(reports(h), event)
  {
    h => if h in m.tracked then FillInfoFor(env, m.history, event, m.tracked[h].order)
         else FillInfo(event.blockNumber, None, Some(ChainTransaction(event.chain, event.txHash)), [])
  }

  function Refreshes(scan: seq<Hash>, cached: set<Hash>, findings: Hash -> Findings): (acts: seq<Action>)
    ensures |acts| == |scan|
  {
    seq(|scan|, i requires 0 <= i < |scan| => Refresh(scan[i], scan[i] in cached, findings(scan[i])))
  }

  function Checks(scan: seq<Hash>, event: FilledEvent, nonces: Hash -> Result<bool>,
                  reports: Hash -> FillInfo): (acts: seq<Action>)
    ensures |acts| == |scan|
  {
    seq(|scan|, i requires 0 <= i < |scan| => CheckFill(scan[i], event, nonces(scan[i]), reports(scan[i])))
  }

  function Registering(env: Settings, m: Manager, order: Order, reply: Answers): seq<Action> {
    if order.hash in m.tracked then [] else [Register(order, FindingsOf(order, reply, env.ids))]
  }

  /** The state once a chain event or a tip has been recorded. */
  function Recorded(m: Manager, op: StoreOp): Manager {
    m.(history := m.history + [op])
  }

  function ActionsOf(env: Settings, m: Manager, step: Step): seq<Action> {
    match step.input
    case NewBlocks(tip, cached, answers) =>
      [Record(UpdateTips(tip))] + Refreshes(step.scan, cached, FindingsFor(env, m.tracked, answers)) + [Evict]
    case FilledSeen(event, nonces) =>
      [Record(InsertFilled(event))] +
        Checks(step.scan, event, nonces, ReportsFor(env, Recorded(m, InsertFilled(event)), event))
    case OrderSeen(initiation) => [Record(InsertOrder(initiation))]
    case Discovered(order, reply) => Registering(env, m, order, reply)
    case TrackRequested(order, reply) => Registering(env, m, order, reply)
    case SnapshotRequested => []
  }

  function StepTo(env: Settings, m: Manager, step: Step): Manager {
    Run(m, ActionsOf(env, m, step))
  }

  lemma RunOne(m: Manager, a: Action)
    ensures Run(m, [a]) == Act(m, a)
    ensures Allowed(m, [a]) <==> Enabled(m, a)
  {
    RunSnoc(m, [], a);
    assert [] + [a] == [a];
  }

  lemma RefreshesSnoc(m: Manager, acts: seq<Action>, scan: seq<Hash>, cached: set<Hash>, findings: Hash -> Findings,
                      i: nat)
    requires i < |scan|
    ensures Run(m, acts + Refreshes(scan[..i + 1], cached, findings)) ==
            Act(Run(m, acts + Refreshes(scan[..i], cached, findings)),
              Refresh(scan[i], scan[i] in cached, findings(scan[i])))
  {
    var a := Refresh(scan[i], scan[i] in cached, findings(scan[i]));
    PrefixSnoc(scan, i);
    RefreshesLast(scan[..i], scan[i], cached, findings);
    ConcatAssociative(acts, Refreshes(scan[..i], cached, findings), [a]);
    RunSnoc(m, acts + Refreshes(scan[..i], cached, findings), a);
  }

  lemma ChecksSnoc(m: Manager, acts: seq<Action>, scan: seq<Hash>, event: FilledEvent, nonces: Hash -> Result<bool>,
                   reports: Hash -> FillInfo, i: nat)
    requires i < |scan|
    ensures Run(m, acts + Checks(scan[..i + 1], event, nonces, reports)) ==
            Act(Run(m, acts + Checks(scan[..i], event, nonces, reports)),
                CheckFill(scan[i], event, nonces(scan[i]), reports(scan[i])))
  {
    var a := CheckFill(scan[i], event, nonces(scan[i]), reports(scan[i]));
    PrefixSnoc(scan, i);
    ChecksLast(scan[..i], scan[i], event, nonces, reports);
    ConcatAssociative(acts, Checks(scan[..i], event, nonces, reports), [a]);
    RunSnoc(m, acts + Checks(scan[..i], event, nonces, reports), a);
  }

  // ----- a pass over the orders of a scan

  /** The orders of `done` that have an update, with it; all others as they were. */
  function Assign(tracked: map<Hash, Tracked>, done: set<Hash>, updates: map<Hash, OrderStatus>): map<Hash, Tracked> {
    map h | h in tracked :: if h in done && h in updates then tracked[h].(status := updates[h]) else tracked[h]
  }

  function MessageFor(updates: map<Hash, OrderStatus>, h: Hash): seq<Entry> {
    if h in updates then [Broadcast(updates[h])] else []
  }

  /** One message per updated order, in scan order. */
  function Messages(scan: seq<Hash>, updates: map<Hash, OrderStatus>): seq<Entry>
    decreases |scan|
  {
    if scan == [] then []
    else Messages(scan[..|scan| - 1], updates) + MessageFor(updates, scan[|scan| - 1])
  }

  function Elements<T>(scan: seq<T>): set<T> {
    set x | x in scan
  }

  ghost predicate UpTo(m: Manager, m1: Manager, scan: seq<Hash>, updates: map<Hash, OrderStatus>) {
    && m1.tracked == Assign(m.tracked, Elements(scan), updates)
    && m1.log == m.log + Messages(scan, updates)
    && m1.history == m.history
  }

  lemma UpToSnoc(m: Manager, m1: Manager, m2: Manager, scan: seq<Hash>, updates: map<Hash, OrderStatus>, h: Hash)
    requires UpTo(m, m1, scan, updates) && h in m.tracked && h !in scan
    requires m2.tracked == if h in updates then m1.tracked[h := m.tracked[h].(status := updates[h])] else m1.tracked
    requires m2.log == m1.log + MessageFor(updates, h) && m2.history == m1.history
    ensures UpTo(m, m2, scan + [h], updates)
  {
    assert Elements(scan + [h]) == Elements(scan) + {h};
    assert (scan + [h])[..|scan|] == scan;
  }

  /** The statuses the pending orders come out with when refreshed. */
  function RefreshUpdates(m: Manager, cached: set<Hash>, findings: Hash -> Findings): map<Hash, OrderStatus> {
    map h | h in m.tracked && h in PendingOf(m.tracked) :: StatusOf(m.tracked[h].order, h in cached, findings(h))
  }

  /** The statuses of the candidates whose nonce turns out consumed. */
  function FillUpdates(m: Manager, event: FilledEvent, nonces: Hash -> Result<bool>,
                       reports: Hash -> FillInfo): map<Hash, OrderStatus> {
    map h | h in m.tracked && h in Candidates(m.tracked, event) && nonces(h) == Ok(true) ::
      Filled(m.tracked[h].order.hash, m.tracked[h].order.owner, Some(reports(h)))
  }

  lemma DistinctLast<T(!new)>(scan: seq<T>)
    requires scan != [] && Distinct(scan)
    ensures var last, before := scan[|scan| - 1], scan[..|scan| - 1];
      && scan == before + [last] && Distinct(before) && last !in before
      && Elements(before) <= Elements(scan) && last in Elements(scan)
  {
  }

  lemma RefreshesLast(scan: seq<Hash>, h: Hash, cached: set<Hash>, findings: Hash -> Findings)
    ensures Refreshes(scan + [h], cached, findings) ==
            Refreshes(scan, cached, findings) + [Refresh(h, h in cached, findings(h))]
  {
  }

  lemma {:induction false} RefreshPass(m: Manager, scan: seq<Hash>, cached: set<Hash>, findings: Hash -> Findings,
                                       updates: map<Hash, OrderStatus>)
    requires updates == RefreshUpdates(m, cached, findings)
    requires Elements(scan) <= PendingOf(m.tracked) && Distinct(scan)
    ensures Allowed(m, Refreshes(scan, cached, findings))
    ensures UpTo(m, Run(m, Refreshes(scan, cached, findings)), scan, updates)
    decreases |scan|
  {
    if scan == [] {
    } else {
      var h, before := scan[|scan| - 1], scan[..|scan| - 1];
      DistinctLast(scan);
      RefreshPass(m, before, cached, findings, updates);
      var acts, a := Refreshes(before, cached, findings), Refresh(h, h in cached, findings(h));
      RefreshesLast(before, h, cached, findings);
      RunSnoc(m, acts, a);
      RefreshOne(m, Run(m, acts), before, a, updates);
    }
  }

  lemma RefreshOne(m: Manager, m1: Manager, scan: seq<Hash>, a: Action, updates: map<Hash, OrderStatus>)
    requires UpTo(m, m1, scan, updates) && a.Refresh? && a.hash in PendingOf(m.tracked) && a.hash !in scan
    requires a.hash in updates && updates[a.hash] == StatusOf(m.tracked[a.hash].order, a.isInCache, a.findings)
    ensures Enabled(m1, a) && UpTo(m, Act(m1, a), scan + [a.hash], updates)
  {
    assert m1.tracked[a.hash] == m.tracked[a.hash];
    UpToSnoc(m, m1, Act(m1, a), scan, updates, a.hash);
  }

  lemma ChecksLast(scan: seq<Hash>, h: Hash, event: FilledEvent, nonces: Hash -> Result<bool>,
                   reports: Hash -> FillInfo)
    ensures Checks(scan + [h], event, nonces, reports) ==
            Checks(scan, event, nonces, reports) + [CheckFill(h, event, nonces(h), reports(h))]
  {
  }

  lemma {:induction false} CheckPass(m: Manager, scan: seq<Hash>, event: FilledEvent, nonces: Hash -> Result<bool>,
                                     reports: Hash -> FillInfo, updates: map<Hash, OrderStatus>)
    requires updates == FillUpdates(m, event, nonces, reports)
    requires forall h :: ReportsEvent(reports(h), event)
    requires Elements(scan) <= Candidates(m.tracked, event) && Distinct(scan)
    ensures Allowed(m, Checks(scan, event, nonces, reports))
    ensures UpTo(m, Run(m, Checks(scan, event, nonces, reports)), scan, updates)
    decreases |scan|
  {
    if scan == [] {
    } else {
      var h, before := scan[|scan| - 1], scan[..|scan| - 1];
      DistinctLast(scan);
      CheckPass(m, before, event, nonces, reports, updates);
      var acts, a := Checks(before, event, nonces, reports), CheckFill(h, event, nonces(h), reports(h));
      ChecksLast(before, h, event, nonces, reports);
      RunSnoc(m, acts, a);
      CheckOne(m, Run(m, acts), before, a, updates);
    }
  }

  lemma CheckOne(m: Manager, m1: Manager, scan: seq<Hash>, a: Action, updates: map<Hash, OrderStatus>)
    requires UpTo(m, m1, scan, updates) && a.CheckFill? && a.hash in Candidates(m.tracked, a.event) && a.hash !in scan
    requires ReportsEvent(a.info, a.event) && (a.hash in updates <==> a.nonce == Ok(true))
    requires a.hash in updates ==>
      updates[a.hash] == Filled(m.tracked[a.hash].order.hash, m.tracked[a.hash].order.owner, Some(a.info))
    ensures Enabled(m1, a) && UpTo(m, Act(m1, a), scan + [a.hash], updates)
  {
    assert m1.tracked[a.hash] == m.tracked[a.hash];
    UpToSnoc(m, m1, Act(m1, a), scan, updates, a.hash);
  }

  // ----- the arms

  /** Every legal arm is an allowed run of actions. */
  lemma LegalIsAllowed(env: Settings, m: Manager, step: Step)
    requires Legal(m, step)
    ensures Allowed(m, ActionsOf(env, m, step))
  {
    match step.input {
      case NewBlocks(tip, cached, answers) =>
        NewBlocksRun(m, tip, cached, FindingsFor(env, m.tracked, answers), step.scan);
      case FilledSeen(event, nonces) =>
        FilledRun(m, event, nonces, ReportsFor(env, Recorded(m, InsertFilled(event)), event), step.scan);
      case OrderSeen(initiation) => RunOne(m, Record(InsertOrder(initiation)));
      case Discovered(order, reply) => RunOne(m, Register(order, FindingsOf(order, reply, env.ids)));
      case TrackRequested(order, reply) => RunOne(m, Register(order, FindingsOf(order, reply, env.ids)));
      case SnapshotRequested =>
    }
  }

  lemma RunBetween(m: Manager, first: Action, acts: seq<Action>, last: Action)
    requires Enabled(m, first) && Allowed(Act(m, first), acts) && Enabled(Run(Act(m, first), acts), last)
    ensures Allowed(m, [first] + acts + [last])
    ensures Run(m, [first] + acts + [last]) == Act(Run(Act(m, first), acts), last)
  {
    RunOne(m, first);
    RunConcat(m, [first], acts);
    RunSnoc(m, [first] + acts, last);
  }

  lemma NewBlocksRun(m: Manager, tip: BlockTip, cached: set<Hash>, findings: Hash -> Findings, scan: seq<Hash>)
    requires Enumerates(scan, PendingOf(m.tracked))
    ensures var acts := [Record(UpdateTips(tip))] + Refreshes(scan, cached, findings) + [Evict];
      var m1 := Recorded(m, UpdateTips(tip));
      && Allowed(m, acts)
      && Run(m, acts) == Act(Run(m1, Refreshes(scan, cached, findings)), Evict)
      && UpTo(m1, Run(m1, Refreshes(scan, cached, findings)), scan, RefreshUpdates(m, cached, findings))
  {
    var record := Record(UpdateTips(tip));
    RefreshPass(Recorded(m, UpdateTips(tip)), scan, cached, findings, RefreshUpdates(m, cached, findings));
    RunBetween(m, record, Refreshes(scan, cached, findings), Evict);
  }

  lemma FilledRun(m: Manager, event: FilledEvent, nonces: Hash -> Result<bool>, reports: Hash -> FillInfo,
                  scan: seq<Hash>)
    requires Enumerates(scan, Candidates(m.tracked, event))
    requires forall h :: ReportsEvent(reports(h), event)
    ensures var acts := [Record(InsertFilled(event))] + Checks(scan, event, nonces, reports);
      var m1 := Recorded(m, InsertFilled(event));
      && Allowed(m, acts)
      && Run(m, acts) == Run(m1, Checks(scan, event, nonces, reports))
      && UpTo(m1, Run(m1, Checks(scan, event, nonces, reports)), scan, FillUpdates(m, event, nonces, reports))
  {
    var record := Record(InsertFilled(event));
    RunOne(m, record);
    CheckPass(Recorded(m, InsertFilled(event)), scan, event, nonces, reports, FillUpdates(m, event, nonces, reports));
    RunConcat(m, [record], Checks(scan, event, nonces, reports));
  }

  /** What handling new blocks leaves behind, in terms of the statuses the pending orders came out with. */
  ghost predicate AfterNewBlocks(m: Manager, m': Manager, scan: seq<Hash>, updates: map<Hash, OrderStatus>) {
    && m'.tracked ==
       (map h | h in m.tracked && h in updates && updates[h].Pending? :: Tracked(m.tracked[h].order, updates[h]))
    && |scan| == |PendingOf(m.tracked)|
    && updates.Keys == Elements(scan) == PendingOf(m.tracked)
    && m'.log == m.log
         + seq(|scan|, i requires 0 <= i < |scan| => Broadcast(updates[scan[i]]))
         + [Evicted(m.tracked.Keys - m'.tracked.Keys)]
    && |m.tracked| == |m.tracked.Keys - m'.tracked.Keys| + |m'.tracked|
  }

  /**
   Handling new blocks: one message for every order that was pending at entry and none for the
   others; what stays tracked is exactly what came out Pending; the rest is evicted, and the
   eviction count is the difference of the sizes.
   */
  lemma NewBlocksEffect(env: Settings, m: Manager, tip: BlockTip, cached: set<Hash>, answers: Hash -> Answers,
                        scan: seq<Hash>)
    requires Enumerates(scan, PendingOf(m.tracked))
    ensures AfterNewBlocks(m, StepTo(env, m, Step(NewBlocks(tip, cached, answers), scan)), scan,
                           RefreshUpdates(m, cached, FindingsFor(env, m.tracked, answers)))
  {
    NewBlocksPass(m, tip, cached, FindingsFor(env, m.tracked, answers), scan);
  }

  lemma NewBlocksPass(m: Manager, tip: BlockTip, cached: set<Hash>, findings: Hash -> Findings, scan: seq<Hash>)
    requires Enumerates(scan, PendingOf(m.tracked))
    ensures AfterNewBlocks(m, Run(m, [Record(UpdateTips(tip))] + Refreshes(scan, cached, findings) + [Evict]), scan,
                           RefreshUpdates(m, cached, findings))
  {
    var m2 := Run(Recorded(m, UpdateTips(tip)), Refreshes(scan, cached, findings));
    NewBlocksRun(m, tip, cached, findings, scan);
    EvictAfterPass(m, m2, scan, RefreshUpdates(m, cached, findings));
  }

  lemma EvictAfterPass(m: Manager, m2: Manager, scan: seq<Hash>, updates: map<Hash, OrderStatus>)
    requires Enumerates(scan, PendingOf(m.tracked)) && updates.Keys == PendingOf(m.tracked)
    requires m2.tracked == Assign(m.tracked, Elements(scan), updates) && m2.log == m.log + Messages(scan, updates)
    ensures AfterNewBlocks(m, Act(m2, Evict), scan, updates)
  {
    assert Elements(scan) == PendingOf(m.tracked);
    EvictSurvivors(m, m2, updates);
    AllMessages(scan, updates);
    EnumerationSize(scan, PendingOf(m.tracked));
    SizeSplit(m.tracked, Act(m2, Evict).tracked);
  }

  lemma EvictSurvivors(m: Manager, m2: Manager, updates: map<Hash, OrderStatus>)
    requires updates.Keys == PendingOf(m.tracked)
    requires m2.tracked == Assign(m.tracked, PendingOf(m.tracked), updates)
    ensures var m' := Act(m2, Evict);
      && m'.tracked ==
         (map h | h in m.tracked && h in updates && updates[h].Pending? :: Tracked(m.tracked[h].order, updates[h]))
      && m'.log == m2.log + [Evicted(m.tracked.Keys - m'.tracked.Keys)]
  {
    PendingAfterPass(m.tracked, m2.tracked, updates);
    assert Act(m2, Evict).tracked.Keys == PendingOf(m2.tracked);
  }

  /** Of the orders just reassigned, the pending ones are those that came out Pending. */
  lemma PendingAfterPass(before: map<Hash, Tracked>, after: map<Hash, Tracked>, updates: map<Hash, OrderStatus>)
    requires updates.Keys == PendingOf(before) && after == Assign(before, PendingOf(before), updates)
    ensures after.Keys == before.Keys
    ensures (map h | h in after && h in PendingOf(after) :: after[h]) ==
            (map h | h in before && h in updates && updates[h].Pending? :: Tracked(before[h].order, updates[h]))
  {
    assert forall h :: h in PendingOf(after) <==> h in updates && updates[h].Pending?;
  }

  lemma {:induction false} AllMessages(scan: seq<Hash>, updates: map<Hash, OrderStatus>)
    requires Elements(scan) <= updates.Keys
    ensures forall i :: 0 <= i < |scan| ==> scan[i] in updates
    ensures Messages(scan, updates) == seq(|scan|, i requires 0 <= i < |scan| => Broadcast(updates[scan[i]]))
    decreases |scan|
  {
    assert forall i :: 0 <= i < |scan| ==> scan[i] in Elements(scan);
    if scan == [] {
    } else {
      AllMessages(scan[..|scan| - 1], updates);
    }
  }

  lemma SizeSplit<T, U>(before: map<T, U>, after: map<T, U>)
    requires after.Keys <= before.Keys
    ensures |before| == |before.Keys - after.Keys| + |after|
  {
    assert before.Keys == (before.Keys - after.Keys) + after.Keys;
    assert |before.Keys| == |before.Keys - after.Keys| + |after.Keys|;
  }

  lemma {:induction false} EnumerationSize<T(!new)>(scan: seq<T>, elements: set<T>)
    requires Enumerates(scan, elements)
    ensures |scan| == |elements|
    decreases |scan|
  {
    if scan == [] {
      assert elements == {};
    } else {
      var n := |scan| - 1;
      assert scan == scan[..n] + [scan[n]];
      assert scan[n] !in scan[..n];
      EnumerationSize(scan[..n], elements - {scan[n]});
    }
  }

  /**
   Handling a Filled event turns into Filled exactly the pending orders whose outputs it covers and
   whose nonce query answered that the nonce is consumed; each of them gets one message.
   */
  lemma FilledEffect(env: Settings, m: Manager, event: FilledEvent, nonces: Hash -> Result<bool>, scan: seq<Hash>)
    requires Enumerates(scan, Candidates(m.tracked, event))
    ensures var m' := StepTo(env, m, Step(FilledSeen(event, nonces), scan));
      var updates := FillUpdates(m, event, nonces, ReportsFor(env, Recorded(m, InsertFilled(event)), event));
      && m'.history == m.history + [InsertFilled(event)]
      && m'.log == m.log + Messages(scan, updates)
      && m'.tracked == (map h | h in m.tracked ::
           if h in updates then Tracked(m.tracked[h].order, updates[h]) else m.tracked[h])
  {
    FilledPass(m, event, nonces, ReportsFor(env, Recorded(m, InsertFilled(event)), event), scan);
  }

  lemma FilledPass(m: Manager, event: FilledEvent, nonces: Hash -> Result<bool>, reports: Hash -> FillInfo,
                   scan: seq<Hash>)
    requires Enumerates(scan, Candidates(m.tracked, event))
    requires forall h :: ReportsEvent(reports(h), event)
    ensures var m' := Run(m, [Record(InsertFilled(event))] + Checks(scan, event, nonces, reports));
      var updates := FillUpdates(m, event, nonces, reports);
      && m'.history == m.history + [InsertFilled(event)]
      && m'.log == m.log + Messages(scan, updates)
      && m'.tracked == (map h | h in m.tracked ::
           if h in updates then Tracked(m.tracked[h].order, updates[h]) else m.tracked[h])
  {
    FilledRun(m, event, nonces, reports, scan);
  }

  /**
   The fill reported for a confirmed order is the event's, output by output, with the initiation the
   store knew before it.
   */
  lemma FillReported(env: Settings, m: Manager, event: FilledEvent, h: Hash)
    requires h in m.tracked
    ensures var info := ReportsFor(env, Recorded(m, InsertFilled(event)), event)(h);
      && info.blockNumber == event.blockNumber
      && info.fillTx == Some(ChainTransaction(event.chain, event.txHash))
      && info.rollupInitiationTx ==
           OrderTx(m.history, env.retention, env.hasher, m.tracked[h].order.deadline, m.tracked[h].order.outputs)
      && |info.outputs| == |event.outputs|
      && forall i :: 0 <= i < |event.outputs| ==>
           var reported, o := info.outputs[i], event.outputs[i];
           && reported.token == o.token && reported.amount == o.amount && reported.recipient == o.recipient
           && reported.chain == event.chain && reported.symbol == ""
  {
    var order := m.tracked[h].order;
    FindOrderAppend(m.history, InsertFilled(event), env.retention,
      Keys.KeyOf(env.hasher, order.deadline, order.outputs));
  }

  // ----- runs of arms

  function Steps(env: Settings, m: Manager, steps: seq<Step>): Manager
    decreases |steps|
  {
    if steps == [] then m
    else StepTo(env, Steps(env, m, steps[..|steps| - 1]), steps[|steps| - 1])
  }

  function InputsOf(steps: seq<Step>): seq<Input>
    decreases |steps|
  {
    if steps == [] then [] else InputsOf(steps[..|steps| - 1]) + [steps[|steps| - 1].input]
  }

  ghost predicate LegalSteps(env: Settings, m: Manager, steps: seq<Step>)
    decreases |steps|
  {
    steps == [] ||
    (LegalSteps(env, m, steps[..|steps| - 1]) && Legal(Steps(env, m, steps[..|steps| - 1]), steps[|steps| - 1]))
  }

  /** A legal run of arms over these inputs leads from `m` to `m'`. */
  ghost predicate IsRun(env: Settings, m: Manager, steps: seq<Step>, inputs: seq<Input>, m': Manager) {
    LegalSteps(env, m, steps) && InputsOf(steps) == inputs && m' == Steps(env, m, steps)
  }

  lemma InputsSnoc(steps: seq<Step>, step: Step)
    ensures InputsOf(steps + [step]) == InputsOf(steps) + [step.input]
  {
    assert (steps + [step])[..|steps|] == steps;
  }

  lemma RunExtends(env: Settings, m: Manager, steps: seq<Step>, inputs: seq<Input>, before: Manager, step: Step)
    requires IsRun(env, m, steps, inputs, before) && Legal(before, step)
    ensures IsRun(env, m, steps + [step], inputs + [step.input], StepTo(env, before, step))
  {
    StepsSnoc(env, m, steps, step);
    InputsSnoc(steps, step);
  }

  /** The actions behind a run of arms. */
  function ActionsOfSteps(env: Settings, m: Manager, steps: seq<Step>): seq<Action>
    decreases |steps|
  {
    if steps == [] then []
    else
      ActionsOfSteps(env, m, steps[..|steps| - 1]) +
        ActionsOf(env, Steps(env, m, steps[..|steps| - 1]), steps[|steps| - 1])
  }

  lemma StepsSnoc(env: Settings, m: Manager, steps: seq<Step>, step: Step)
    ensures Steps(env, m, steps + [step]) == StepTo(env, Steps(env, m, steps), step)
    ensures LegalSteps(env, m, steps + [step]) <==> LegalSteps(env, m, steps) && Legal(Steps(env, m, steps), step)
    ensures ActionsOfSteps(env, m, steps + [step]) ==
            ActionsOfSteps(env, m, steps) + ActionsOf(env, Steps(env, m, steps), step)
  {
    assert (steps + [step])[..|steps|] == steps;
  }

  lemma StepsTwo(env: Settings, m: Manager, a: Step, b: Step)
    ensures var m1 := StepTo(env, m, a);
      && Steps(env, m, [a, b]) == StepTo(env, m1, b)
      && (LegalSteps(env, m, [a, b]) <==> Legal(m, a) && Legal(m1, b))
      && ActionsOfSteps(env, m, [a, b]) == ActionsOf(env, m, a) + ActionsOf(env, m1, b)
  {
    StepsSnoc(env, m, [], a);
    StepsSnoc(env, m, [a], b);
    JoinOne([], a, b);
    JoinOne(ActionsOf(env, m, a), Evict, Evict);
  }

  lemma StepsThree(env: Settings, m: Manager, a: Step, b: Step, c: Step)
    ensures var m1 := StepTo(env, m, a); var m2 := StepTo(env, m1, b);
      && Steps(env, m, [a, b, c]) == StepTo(env, m2, c)
      && (LegalSteps(env, m, [a, b, c]) <==> Legal(m, a) && Legal(m1, b) && Legal(m2, c))
      && ActionsOfSteps(env, m, [a, b, c]) == ActionsOf(env, m, a) + ActionsOf(env, m1, b) + ActionsOf(env, m2, c)
  {
    StepsTwo(env, m, a, b);
    StepsSnoc(env, m, [a, b], c);
    assert [a, b] + [c] == [a, b, c];
  }

  /** A discovered or requested order that is not tracked yet. */
  lemma RegisterStep(env: Settings, m: Manager, step: Step)
    requires step.input.Discovered? || step.input.TrackRequested?
    requires step.input.order.hash !in m.tracked
    ensures var a := Register(step.input.order, FindingsOf(step.input.order, step.input.reply, env.ids));
      ActionsOf(env, m, step) == [a] && StepTo(env, m, step) == Act(m, a)
  {
    RunOne(m, Register(step.input.order, FindingsOf(step.input.order, step.input.reply, env.ids)));
  }

  /** New blocks while nothing is pending only evict. */
  lemma IdleNewBlocks(env: Settings, m: Manager, tip: BlockTip, cached: set<Hash>, answers: Hash -> Answers)
    requires PendingOf(m.tracked) == {}
    ensures var step := Step(NewBlocks(tip, cached, answers), []);
      && Legal(m, step)
      && ActionsOf(env, m, step) == [Record(UpdateTips(tip)), Evict]
      && StepTo(env, m, step) == Act(Recorded(m, UpdateTips(tip)), Evict)
  {
    var findings := FindingsFor(env, m.tracked, answers);
    assert Refreshes([], cached, findings) == [];
    NewBlocksRun(m, tip, cached, findings, []);
    assert ActionsOf(env, m, Step(NewBlocks(tip, cached, answers), [])) == [Record(UpdateTips(tip)), Evict];
  }

  /** A run of arms is a run of actions, so everything proved about the latter holds of it. */
  lemma {:induction false} StepsAreActions(env: Settings, m: Manager, steps: seq<Step>)
    requires LegalSteps(env, m, steps)
    ensures var acts := ActionsOfSteps(env, m, steps);
      Allowed(m, acts) && Steps(env, m, steps) == Run(m, acts)
    decreases |steps|
  {
    if steps == [] {
    } else {
      var before, step := steps[..|steps| - 1], steps[|steps| - 1];
      StepsAreActions(env, m, before);
      var m1 := Steps(env, m, before);
      LegalIsAllowed(env, m1, step);
      RunConcat(m, ActionsOfSteps(env, m, before), ActionsOf(env, m1, step));
    }
  }
}

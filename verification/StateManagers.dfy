/** The state manager itself: one object that owns the tracked orders and the event store. */
module StateManagers {
  import opened Wrappers
  import opened OrderTypes
  import opened EventHistory
  import opened EventStores
  import opened FillMatching
  import opened FillSearch
  import opened StatusDerivation
  import opened Lifecycle
  import opened Arms
  import opened Sequences

  class TrackedOrder {
    const order: Order
    var status: OrderStatus

    constructor (order: Order, status: OrderStatus)
      ensures this.order == order && this.status == status
    {
      this.order, this.status := order, status;
    }

    method SetStatus(status: OrderStatus)
      modifies this`status
      ensures this.status == status
    {
      this.status := status;
    }

    predicate IsTerminal()
      reads this
    {
      status.IsTerminal()
    }
  }

  /** The hash map's iteration order: any order at all. */
  method Enumerate(elements: set<Hash>) returns (scan: seq<Hash>)
    ensures Enumerates(scan, elements)
  {
    scan := [];
    var rest := elements;
    while rest != {}
      invariant rest <= elements
      invariant Enumerates(scan, elements - rest)
      decreases |rest|
    {
      var h :| h in rest;
      scan := scan + [h];
      rest := rest - {h};
    }
  }

  class StateManager {
    const env: Settings
    const eventStore: EventStore
    var trackedOrders: map<Hash, TrackedOrder>

    /** Everything registered, broadcast and evicted so far. */
    ghost var log: seq<Entry>

    /** Every tracked-order cell this manager may write to. */
    ghost var Cells: set<TrackedOrder>

    ghost predicate Owned()
      reads this
    {
      forall h :: h in trackedOrders ==> trackedOrders[h] in Cells
    }

    ghost predicate Valid()
      reads this, Cells, eventStore, eventStore.rollup, eventStore.host
    {
      && Owned()
      && eventStore.Valid()
      && eventStore.retention == env.retention && eventStore.hasher == env.hasher
      && forall h :: h in trackedOrders ==> trackedOrders[h].order.hash == h
    }

    ghost function TrackedMap(): map<Hash, Tracked>
      requires Owned()
      reads this, Cells
    {
      map h | h in trackedOrders :: Tracked(trackedOrders[h].order, trackedOrders[h].status)
    }

    ghost function Model(): Manager
      requires Owned()
      reads this, Cells, eventStore
    {
      Manager(TrackedMap(), log, eventStore.history)
    }

    constructor (env: Settings)
      ensures Valid() && fresh(eventStore) && fresh(eventStore.rollup) && fresh(eventStore.host)
      ensures this.env == env && Cells == {} && Model() == START
    {
      this.env := env;
      eventStore := new EventStore(env.retention, env.hasher);
      trackedOrders := map[];
      log := [];
      Cells := {};
    }

    /** `update_sender.send` */
    method Send(status: OrderStatus)
      modifies this`log
      ensures log == old(log) + [Broadcast(status)]
    {
      ghost var entry := Broadcast(status);
      log := log + [entry];
    }

    /** `set_status` on a tracked order, then `send`. */
    method Update(hash: Hash, status: OrderStatus, announce: bool)
      requires Valid() && hash in trackedOrders
      modifies this`log, Cells
      ensures Valid() && trackedOrders == old(trackedOrders) && Cells == old(Cells)
      ensures Model() == Manager(
                old(TrackedMap())[hash := Tracked(trackedOrders[hash].order, status)],
                if announce then old(log) + [Broadcast(status)] else old(log),
                old(eventStore.history))
    {
      trackedOrders[hash].SetStatus(status);
      if announce {
        Send(status);
      }
    }

    /** One round of the loop over pending orders: re-derive the status, store it, announce it. */
    method RefreshOrder(hash: Hash, isInCache: bool, answers: Answers, ghost findings: Findings)
      requires Valid()
      requires hash in trackedOrders ==> findings == FindingsOf(trackedOrders[hash].order, answers, env.ids)
      modifies this`log, Cells
      ensures Valid() && trackedOrders == old(trackedOrders) && Cells == old(Cells)
      ensures Model() == Act(old(Model()), Refresh(hash, isInCache, findings))
    {
      if hash !in trackedOrders {
        return;
      }
      var tracked := trackedOrders[hash];
      var newStatus := StatusForOrder(tracked.order, isInCache, answers, env.ids);
      var changed := !tracked.status.SameKind(newStatus);
      Update(hash, newStatus, changed || newStatus.Pending?);
    }

    method HandleNewBlocks(tip: BlockTip, cached: set<Hash>, answers: Hash -> Answers) returns (ghost scan: seq<Hash>)
      requires Valid()
      modifies this, Cells, eventStore, eventStore.rollup, eventStore.host
      ensures Valid() && Cells == old(Cells)
      ensures Legal(old(Model()), Step(NewBlocks(tip, cached, answers), scan))
      ensures Model() == StepTo(env, old(Model()), Step(NewBlocks(tip, cached, answers), scan))
    {
      ghost var m, record := Model(), Record(StoreOp.UpdateTips(tip));
      ghost var findings := FindingsFor(env, m.tracked, answers);
      eventStore.UpdateTips(tip);
      RunOne(m, record);
      var pending := FindPending();
      scan := pending;
      RefreshAll(m, [record], pending, cached, answers, findings);
      RunSnoc(m, [record] + Refreshes(pending, cached, findings), Evict);
      Retain();
    }

    /** The hashes of the pending orders, collected before any is refreshed. */
    method FindPending() returns (pending: seq<Hash>)
      requires Valid()
      ensures Enumerates(pending, PendingOf(TrackedMap()))
    {
      assert PendingOf(TrackedMap()) == set h | h in trackedOrders && !trackedOrders[h].IsTerminal();
      pending := Enumerate(set h | h in trackedOrders && !trackedOrders[h].IsTerminal());
    }

    /** The loop over the pending orders. */
    method RefreshAll(ghost m: Manager, ghost acts: seq<Action>, pending: seq<Hash>, cached: set<Hash>,
                      answers: Hash -> Answers, ghost findings: Hash -> Findings)
      requires Valid() && Model() == Run(m, acts)
      requires forall h :: h in trackedOrders ==> findings(h) == FindingsOf(trackedOrders[h].order, answers(h), env.ids)
      modifies this`log, Cells
      ensures Valid() && trackedOrders == old(trackedOrders) && Cells == old(Cells)
      ensures Model() == Run(m, acts + Refreshes(pending, cached, findings))
    {
      assert acts + Refreshes(pending[..0], cached, findings) == acts;
      for i := 0 to |pending|
        invariant Valid() && trackedOrders == old(trackedOrders) && Cells == old(Cells)
        invariant Model() == Run(m, acts + Refreshes(pending[..i], cached, findings))
      {
        RefreshOrder(pending[i], pending[i] in cached, answers(pending[i]), findings(pending[i]));
        RefreshesSnoc(m, acts, pending, cached, findings, i);
      }
      assert pending[..|pending|] == pending;
    }

    /** Drop the terminal orders. */
    method Retain()
      requires Valid()
      modifies this
      ensures Valid() && Cells == old(Cells)
      ensures Model() == Act(old(Model()), Evict)
    {
      ghost var before := TrackedMap();
      trackedOrders := map h | h in trackedOrders && !trackedOrders[h].IsTerminal() :: trackedOrders[h];
      log := log + [Evicted(before.Keys - PendingOf(before))];
    }

    /** One round of the loop over candidates: only a consumed nonce confirms the fill. */
    method ConfirmFill(hash: Hash, event: FilledEvent, nonce: Result<bool>, ghost report: FillInfo)
      requires Valid()
      requires hash in trackedOrders ==>
               report == FillInfoFor(env, eventStore.history, event, trackedOrders[hash].order)
      modifies this`log, Cells
      ensures Valid() && trackedOrders == old(trackedOrders) && Cells == old(Cells)
      ensures Model() == Act(old(Model()), CheckFill(hash, event, nonce, report))
    {
      if hash !in trackedOrders || nonce != Ok(true) {
        ActUnconfirmed(Model(), hash, event, nonce, report);
      }
      if hash !in trackedOrders {
        return;
      }
      match nonce {
        case Ok(consumed) =>
          if consumed {
            ReportFill(hash, event, report);
          }
        case Err =>
      }
    }

    /** Build the report on a confirmed fill and store it. */
    method ReportFill(hash: Hash, event: FilledEvent, ghost report: FillInfo)
      requires Valid() && hash in trackedOrders
      requires report == FillInfoFor(env, eventStore.history, event, trackedOrders[hash].order)
      modifies this`log, Cells
      ensures Valid() && trackedOrders == old(trackedOrders) && Cells == old(Cells)
      ensures Model() == Act(old(Model()), CheckFill(hash, event, Ok(true), report))
    {
      var info := BuildFillInfo(event, trackedOrders[hash].order);
      SetFilled(hash, event, info);
    }

    method SetFilled(hash: Hash, event: FilledEvent, info: FillInfo)
      requires Valid() && hash in trackedOrders
      modifies this`log, Cells
      ensures Valid() && trackedOrders == old(trackedOrders) && Cells == old(Cells)
      ensures Model() == Act(old(Model()), CheckFill(hash, event, Ok(true), info))
    {
      ActFills(Model(), hash, event, info);
      var order := trackedOrders[hash].order;
      Update(hash, Filled(order.hash, order.owner, Some(info)), true);
    }

    method HandleFilled(event: FilledEvent, nonces: Hash -> Result<bool>) returns (ghost scan: seq<Hash>)
      requires Valid()
      modifies this, Cells, eventStore, eventStore.rollup, eventStore.host
      ensures Valid() && Cells == old(Cells)
      ensures Legal(old(Model()), Step(FilledSeen(event, nonces), scan))
      ensures Model() == StepTo(env, old(Model()), Step(FilledSeen(event, nonces), scan))
    {
      ghost var m := Model();
      eventStore.InsertFilled(event);
      scan := ConfirmCandidates(m, event, nonces);
    }

    /** Once the event is in the store: find the candidates and confirm them. */
    method ConfirmCandidates(ghost m: Manager, event: FilledEvent, nonces: Hash -> Result<bool>)
      returns (ghost scan: seq<Hash>)
      requires Valid() && Model() == Recorded(m, StoreOp.InsertFilled(event))
      modifies this`log, Cells
      ensures Valid() && trackedOrders == old(trackedOrders) && Cells == old(Cells)
      ensures Enumerates(scan, Candidates(m.tracked, event))
      ensures var reports := ReportsFor(env, Recorded(m, StoreOp.InsertFilled(event)), event);
        Model() == Run(m, [Record(StoreOp.InsertFilled(event))] + Checks(scan, event, nonces, reports))
    {
      ghost var record := Record(StoreOp.InsertFilled(event));
      ghost var reports := ReportsFor(env, Recorded(m, StoreOp.InsertFilled(event)), event);
      RunOne(m, record);
      var candidates := FindCandidates(event);
      scan := candidates;
      ConfirmAll(m, [record], candidates, event, nonces, reports);
    }

    /** The loop over the candidates. */
    method ConfirmAll(ghost m: Manager, ghost acts: seq<Action>, candidates: seq<Hash>, event: FilledEvent,
                      nonces: Hash -> Result<bool>, ghost reports: Hash -> FillInfo)
      requires Valid() && Model() == Run(m, acts)
      requires forall h :: h in trackedOrders ==>
        reports(h) == FillInfoFor(env, eventStore.history, event, trackedOrders[h].order)
      modifies this`log, Cells
      ensures Valid() && trackedOrders == old(trackedOrders) && Cells == old(Cells)
      ensures Model() == Run(m, acts + Checks(candidates, event, nonces, reports))
    {
      assert acts + Checks(candidates[..0], event, nonces, reports) == acts;
      for i := 0 to |candidates|
        invariant Valid() && trackedOrders == old(trackedOrders) && Cells == old(Cells)
        invariant Model() == Run(m, acts + Checks(candidates[..i], event, nonces, reports))
      {
        ConfirmFill(candidates[i], event, nonces(candidates[i]), reports(candidates[i]));
        ChecksSnoc(m, acts, candidates, event, nonces, reports, i);
      }
      assert candidates[..|candidates|] == candidates;
    }

    /** Pending orders covered by the event, found by scanning them all. */
    method FindCandidates(event: FilledEvent) returns (candidates: seq<Hash>)
      requires Valid()
      ensures Enumerates(candidates, Candidates(TrackedMap(), event))
      ensures forall h :: h in candidates <==>
        && h in trackedOrders && trackedOrders[h].status.Pending?
        && exists paidBy :: Pays(paidBy, event.outputs, trackedOrders[h].order.outputs)
    {
      var all := Enumerate(trackedOrders.Keys);
      candidates := [];
      for i := 0 to |all|
        invariant Distinct(candidates)
        invariant forall h: Hash :: h in candidates <==> h in all[..i] && h in Candidates(TrackedMap(), event)
      {
        var tracked := trackedOrders[all[i]];
        if !tracked.IsTerminal() {
          var covered := FillOutputsAreSuperset(event.outputs, tracked.order.outputs);
          if covered {
            assert all[i] !in all[..i];
            candidates := candidates + [all[i]];
          }
        }
      }
      CandidatesArePaid(TrackedMap(), event);
    }

    method BuildFillInfo(event: FilledEvent, order: Order) returns (info: FillInfo)
      requires Valid()
      ensures info == FillInfoFor(env, eventStore.history, event, order)
    {
      var initiation := eventStore.FindOrderTx(order.deadline, order.outputs);
      var outputs := [];
      for i := 0 to |event.outputs|
        invariant outputs == Delivered(event.outputs[..i], event.chain)
      {
        var o := event.outputs[i];
        DeliveredSnoc(event.outputs, event.chain, i);
        outputs := outputs + [FillOutput(o.token, "", o.amount, o.recipient, event.chain)];
      }
      assert event.outputs[..|event.outputs|] == event.outputs;
      return FillInfo(event.blockNumber, initiation, Some(ChainTransaction(event.chain, event.txHash)), outputs);
    }

    method HandleOrderEvent(event: OrderEvent)
      requires Valid()
      modifies eventStore
      ensures Valid()
      ensures Model() == StepTo(env, old(Model()), Step(OrderSeen(event), []))
      ensures eventStore.history == old(eventStore.history) + [StoreOp.InsertOrder(event)]
      ensures TrackedMap() == old(TrackedMap()) && log == old(log)
    {
      RunOne(Model(), Record(StoreOp.InsertOrder(event)));
      eventStore.InsertOrder(event);
    }

    /** Register an order unless it is tracked; either way its current status is the reply. */
    method RegisterOrder(order: Order, answers: Answers) returns (reply: OrderStatus)
      requires Valid()
      modifies this
      ensures Valid() && fresh(Cells - old(Cells))
      ensures Model() == Run(old(Model()), Registering(env, old(Model()), order, answers))
      ensures order.hash in Model().tracked && reply == Model().tracked[order.hash].status
    {
      if order.hash in trackedOrders {
        return trackedOrders[order.hash].status;
      }
      ghost var findings := FindingsOf(order, answers, env.ids);
      RunOne(Model(), Register(order, findings));
      reply := StatusForOrder(order, true, answers, env.ids);
      Track(order, reply, findings);
    }

    /** Insert the order and announce it. */
    method Track(order: Order, status: OrderStatus, ghost findings: Findings)
      requires Valid() && order.hash !in trackedOrders && status == StatusOf(order, true, findings)
      modifies this
      ensures Valid() && fresh(Cells - old(Cells))
      ensures Model() == Act(old(Model()), Register(order, findings))
    {
      AppendTwo(log, Registered(order.hash), Broadcast(status));
      Insert(order, status);
      ghost var entry := Registered(order.hash);
      log := log + [entry];
      Send(status);
    }

    method Insert(order: Order, status: OrderStatus)
      requires Valid()
      modifies this`trackedOrders, this`Cells
      ensures Valid() && fresh(Cells - old(Cells))
      ensures TrackedMap() == old(TrackedMap())[order.hash := Tracked(order, status)]
    {
      var tracked := new TrackedOrder(order, status);
      assert forall h :: h in trackedOrders ==> trackedOrders[h] != tracked;
      trackedOrders := trackedOrders[order.hash := tracked];
      Cells := Cells + {tracked};
    }

    method Snapshot() returns (statuses: seq<OrderStatus>)
      requires Valid()
      ensures IsSnapshot(TrackedMap(), statuses)
    {
      var scan := Enumerate(trackedOrders.Keys);
      assert forall i :: 0 <= i < |scan| ==> scan[i] in scan;
      statuses := seq(|scan|, i requires 0 <= i < |scan| && scan[i] in trackedOrders reads this, trackedOrders.Values =>
        trackedOrders[scan[i]].status);
      assert SnapshotBy(TrackedMap(), statuses, scan);
    }

    /** One pass of the event loop: serve whichever input arrived. */
    method HandleInput(input: Input) returns (ghost step: Step)
      requires Valid()
      modifies this, Cells, eventStore, eventStore.rollup, eventStore.host
      ensures Valid() && fresh(Cells - old(Cells))
      ensures step.input == input && Legal(old(Model()), step)
      ensures Model() == StepTo(env, old(Model()), step)
    {
      ghost var scan: seq<Hash> := [];
      match input {
        case NewBlocks(tip, cached, answers) => scan := HandleNewBlocks(tip, cached, answers);
        case FilledSeen(event, nonces) => scan := HandleFilled(event, nonces);
        case OrderSeen(initiation) => HandleOrderEvent(initiation);
        case Discovered(order, reply) => var _ := RegisterOrder(order, reply);
        case TrackRequested(order, reply) => var _ := RegisterOrder(order, reply);
        case SnapshotRequested => var _ := Snapshot();
      }
      step := Step(input, scan);
    }

    /** The event loop over the inputs that arrived: a legal run of arms. */
    method RunInner(inputs: seq<Input>) returns (ghost steps: seq<Step>)
      requires Valid()
      modifies this, Cells, eventStore, eventStore.rollup, eventStore.host
      ensures Valid() && IsRun(env, old(Model()), steps, inputs, Model())
    {
      steps := [];
      ghost var m := Model();
      for i := 0 to |inputs|
        invariant Valid() && fresh(Cells - old(Cells))
        invariant IsRun(env, m, steps, inputs[..i], Model())
      {
        ghost var before := Model();
        ghost var step := HandleInput(inputs[i]);
        RunExtends(env, m, steps, inputs[..i], before, step);
        PrefixSnoc(inputs, i);
        steps := steps + [step];
      }
      assert inputs[..|inputs|] == inputs;
    }
  }

  ghost predicate SnapshotBy(tracked: map<Hash, Tracked>, statuses: seq<OrderStatus>, scan: seq<Hash>) {
    && Enumerates(scan, tracked.Keys) && |statuses| == |scan|
    && forall i :: 0 <= i < |scan| ==> scan[i] in tracked && statuses[i] == tracked[scan[i]].status
  }

  /** The statuses of all tracked orders, one each, in some order. */
  ghost predicate IsSnapshot(tracked: map<Hash, Tracked>, statuses: seq<OrderStatus>) {
    exists scan :: SnapshotBy(tracked, statuses, scan)
  }
}

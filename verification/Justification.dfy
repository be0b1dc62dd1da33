/** Why each status was broadcast, and when an order's statuses can only go up. */
module Justification {
  import opened Wrappers
  import opened OrderTypes
  import opened FillMatching
  import opened StatusDerivation
  import opened Lifecycle
  import opened EventHistory
  import opened Arms
  import opened Sequences

  /** The order an action asks the outside world about, with what it was told. */
  datatype Inquiry = Inquiry(hash: Hash, nonce: Result<bool>, now: Option<U64>)

  function InquiryOf(a: Action): Option<Inquiry> {
    match a
    case Register(order, findings) => Some(Inquiry(order.hash, findings.nonce, Some(findings.now)))
    case Refresh(hash, _, findings) => Some(Inquiry(hash, findings.nonce, Some(findings.now)))
    case CheckFill(hash, _, nonce, _) => Some(Inquiry(hash, nonce, None))
    case _ => None
  }

  /** What the answers must have been for this status to be the right one. */
  ghost predicate Supports(q: Inquiry, deadline: U64, status: OrderStatus) {
    && q.hash == status.hash
    && match status
       case Filled(_, _, _) => q.nonce == Ok(true)
       case Expired(_, _, _) => q.nonce == Ok(false) && q.now.Some? && deadline < q.now.value
       case Pending(_, _, _) => q.now.Some? && (q.nonce.Err? || (q.nonce == Ok(false) && q.now.value <= deadline))
  }

  function OrderAsked(m: Manager, a: Action): Order
    requires Enabled(m, a) && InquiryOf(a).Some?
  {
    match a
    case Register(order, _) => order
    case Refresh(hash, _, _) => m.tracked[hash].order
    case CheckFill(hash, _, _, _) => m.tracked[hash].order
  }

  /** Action `k` of the run broadcast message `j`, and the answers it got support the status. */
  ghost predicate Causes(acts: seq<Action>, k: nat, j: nat)
    requires Allowed(START, acts) && j < |Broadcasts(Run(START, acts).log)|
  {
    var status := Broadcasts(Run(START, acts).log)[j];
    && k < |acts| && InquiryOf(acts[k]).Some?
    && var m := Run(START, acts[..k]);
    && |Broadcasts(m.log)| == j
    && Enabled(m, acts[k])
    && Message(m, acts[k]) == Some(status)
    && Supports(InquiryOf(acts[k]).value, OrderAsked(m, acts[k]).deadline, status)
    && (acts[k].CheckFill? ==>
          && Covers(acts[k].event.outputs, OrderAsked(m, acts[k]).outputs)
          && status.Filled? && status.fillInfo.Some? && ReportsEvent(status.fillInfo.value, acts[k].event))
  }

  lemma MessageIsSupported(m: Manager, a: Action)
    requires Inv(m) && Enabled(m, a) && Message(m, a).Some?
    ensures InquiryOf(a).Some?
    ensures Supports(InquiryOf(a).value, OrderAsked(m, a).deadline, Message(m, a).value)
  {
  }

  /**
   Every broadcast of every run was caused by an action whose answers support it: a Filled by a
   nonce that was consumed, an Expired by one that was not and a deadline that had passed, and a
   fill confirmed from an event by that event, whose outputs cover the order.
   */
  lemma {:induction false} EveryBroadcastHasACause(acts: seq<Action>, j: nat) returns (k: nat)
    requires Allowed(START, acts)
    requires j < |Broadcasts(Run(START, acts).log)|
    ensures Causes(acts, k, j)
    decreases |acts|
  {
    var n := |acts| - 1;
    if acts == [] {
      assert false;
    } else {
      var m := Run(START, acts[..n]);
      ActBroadcasts(m, acts[n]);
      if j < |Broadcasts(m.log)| {
        k := EveryBroadcastHasACause(acts[..n], j);
        assert acts[..n][..k] == acts[..k];
      } else {
        k := n;
        Invariant(acts[..n]);
        MessageIsSupported(m, acts[n]);
      }
    }
  }

  // ----- rank

  function Rank(status: OrderStatus): nat {
    match status
    case Pending(_, _, _) => 0
    case Expired(_, _, _) => 1
    case Filled(_, _, _) => 2
  }

  /** Hashes determine orders: `book` lists the order behind every hash. */
  ghost predicate FromBook(acts: seq<Action>, book: Hash -> Order) {
    forall i :: 0 <= i < |acts| && acts[i].Register? ==> book(acts[i].order.hash) == acts[i].order
  }

  /** A world that never un-consumes a nonce and whose clock does not go back. Queries may fail. */
  ghost predicate SteadyWorld(acts: seq<Action>) {
    forall i, j :: 0 <= i < j < |acts| && InquiryOf(acts[i]).Some? && InquiryOf(acts[j]).Some? ==>
      NotBefore(InquiryOf(acts[i]).value, InquiryOf(acts[j]).value)
  }

  ghost predicate NotBefore(p: Inquiry, q: Inquiry) {
    && (p.hash == q.hash && p.nonce == Ok(true) && q.nonce.Ok? ==> q.nonce == Ok(true))
    && (p.now.Some? && q.now.Some? ==> p.now.value <= q.now.value)
  }

  lemma {:induction false} TrackedFromBook(acts: seq<Action>, book: Hash -> Order)
    requires Allowed(START, acts) && FromBook(acts, book)
    ensures forall h :: h in Run(START, acts).tracked ==> Run(START, acts).tracked[h].order == book(h)
    decreases |acts|
  {
    if acts == [] {
    } else {
      TrackedFromBook(acts[..|acts| - 1], book);
    }
  }

  lemma LaterRanksHigher(p: Inquiry, q: Inquiry, deadline: U64, s: OrderStatus, t: OrderStatus)
    requires Supports(p, deadline, s) && Supports(q, deadline, t) && s.hash == t.hash
    requires NotBefore(p, q)
    ensures Rank(s) <= Rank(t) <==> q.nonce.Ok? || s.Pending?
  {
  }

  lemma CauseOrder(acts: seq<Action>, book: Hash -> Order, k: nat, j: nat)
    requires Allowed(START, acts) && FromBook(acts, book)
    requires j < |Broadcasts(Run(START, acts).log)| && Causes(acts, k, j)
    ensures OrderAsked(Run(START, acts[..k]), acts[k]) == book(Broadcasts(Run(START, acts).log)[j].hash)
  {
    AllowedPrefix(START, acts, k);
    TrackedFromBook(acts[..k], book);
  }

  lemma {:induction false} BroadcastsGrow(acts: seq<Action>, k: nat)
    requires Allowed(START, acts) && k <= |acts|
    ensures Broadcasts(Run(START, acts[..k]).log) <= Broadcasts(Run(START, acts).log)
    decreases |acts|
  {
    var n := |acts| - 1;
    if k <= n {
      BroadcastsGrow(acts[..n], k);
      assert acts[..n][..k] == acts[..k];
      ActBroadcasts(Run(START, acts[..n]), acts[n]);
    } else {
      assert acts[..k] == acts;
    }
  }

  lemma CausesAreOrdered(acts: seq<Action>, i: nat, j: nat, k: nat, l: nat)
    requires Allowed(START, acts)
    requires i < j < |Broadcasts(Run(START, acts).log)|
    requires Causes(acts, k, i) && Causes(acts, l, j)
    ensures k < l
  {
    if l <= k {
      assert acts[..k][..l] == acts[..l];
      AllowedPrefix(START, acts, k);
      BroadcastsGrow(acts[..k], l);
    }
  }

  /**
   In a steady world, over the whole run and across evictions and re-registrations: of two messages
   about one order, the later one ranks at least as high iff the nonce query behind it was answered
   or the earlier one was Pending anyway.
   */
  lemma RanksDropOnlyUnanswered(acts: seq<Action>, book: Hash -> Order, i: nat, j: nat) returns (l: nat)
    requires Allowed(START, acts) && FromBook(acts, book) && SteadyWorld(acts)
    requires var messages := Broadcasts(Run(START, acts).log);
      i < j < |messages| && messages[i].hash == messages[j].hash
    ensures Causes(acts, l, j)
    ensures var messages := Broadcasts(Run(START, acts).log);
      Rank(messages[i]) <= Rank(messages[j]) <==> InquiryOf(acts[l]).value.nonce.Ok? || messages[i].Pending?
  {
    var messages := Broadcasts(Run(START, acts).log);
    var k := EveryBroadcastHasACause(acts, i);
    l := EveryBroadcastHasACause(acts, j);
    CausesAreOrdered(acts, i, j, k, l);
    CauseOrder(acts, book, k, i);
    CauseOrder(acts, book, l, j);
    LaterRanksHigher(InquiryOf(acts[k]).value, InquiryOf(acts[l]).value, book(messages[i].hash).deadline,
                     messages[i], messages[j]);
  }

  /** With every nonce query answered, the statuses broadcast for an order never go down. */
  lemma RanksNeverDrop(acts: seq<Action>, book: Hash -> Order, i: nat, j: nat)
    requires Allowed(START, acts) && FromBook(acts, book) && SteadyWorld(acts)
    requires forall k :: 0 <= k < |acts| && InquiryOf(acts[k]).Some? ==> InquiryOf(acts[k]).value.nonce.Ok?
    requires var messages := Broadcasts(Run(START, acts).log);
      i < j < |messages| && messages[i].hash == messages[j].hash
    ensures var messages := Broadcasts(Run(START, acts).log);
      Rank(messages[i]) <= Rank(messages[j])
  {
    var l := RanksDropOnlyUnanswered(acts, book, i, j);
  }

  /** Discovered, evicted with the next blocks, discovered again. */
  function ComesBack(order: Order, expired: Answers, tip: BlockTip, cached: set<Hash>, answers: Hash -> Answers,
                     failed: Answers): seq<Step> {
    [Step(Discovered(order, expired), []), Step(NewBlocks(tip, cached, answers), []),
      Step(Discovered(order, failed), [])]
  }

  /** An expired order, evicted and registered again while its nonce query fails. */
  lemma RankDrops(order: Order, expired: Findings, tip: BlockTip, failed: Findings)
    requires expired.nonce == Ok(false) && order.deadline < expired.now && failed.nonce == Err
    ensures var m1 := Act(START, Register(order, expired));
      var m2 := Act(Recorded(m1, UpdateTips(tip)), Evict);
      && PendingOf(m1.tracked) == {} && order.hash !in m2.tracked
      && var messages := Broadcasts(Act(m2, Register(order, failed)).log);
         |messages| == 2 && messages[0].hash == messages[1].hash && Rank(messages[0]) > Rank(messages[1])
  {
    var m1 := Act(START, Register(order, expired));
    var m2 := Act(Recorded(m1, UpdateTips(tip)), Evict);
    ActBroadcasts(START, Register(order, expired));
    ActBroadcasts(Recorded(m1, UpdateTips(tip)), Evict);
    ActBroadcasts(m2, Register(order, failed));
  }

  /**
   One failed nonce query is enough to lose this: in a run of the event loop an expired order comes
   back as pending.
   */
  lemma RankDropsOnFailedQuery(env: Settings, order: Order, expired: Answers, tip: BlockTip, cached: set<Hash>,
                               answers: Hash -> Answers, failed: Answers)
    requires expired.nonce == Ok(false) && order.deadline < expired.now <= failed.now && failed.nonce == Err
    ensures var steps := ComesBack(order, expired, tip, cached, answers, failed);
      && LegalSteps(env, START, steps)
      && SteadyWorld(ActionsOfSteps(env, START, steps))
      && var messages := Broadcasts(Steps(env, START, steps).log);
         |messages| == 2 && messages[0].hash == messages[1].hash && Rank(messages[0]) > Rank(messages[1])
  {
    var first, last := FindingsOf(order, expired, env.ids), FindingsOf(order, failed, env.ids);
    RankDrops(order, first, tip, last);
    ComesBackRun(env, order, expired, tip, cached, answers, failed);
    SteadyReturn(order, first, tip, last);
  }

  lemma ComesBackRun(env: Settings, order: Order, expired: Answers, tip: BlockTip, cached: set<Hash>,
                     answers: Hash -> Answers, failed: Answers)
    requires var m1 := Act(START, Register(order, FindingsOf(order, expired, env.ids)));
      PendingOf(m1.tracked) == {} && order.hash !in Act(Recorded(m1, UpdateTips(tip)), Evict).tracked
    ensures var steps := ComesBack(order, expired, tip, cached, answers, failed);
      var first, last := FindingsOf(order, expired, env.ids), FindingsOf(order, failed, env.ids);
      var m2 := Act(Recorded(Act(START, Register(order, first)), UpdateTips(tip)), Evict);
      && LegalSteps(env, START, steps)
      && Steps(env, START, steps) == Act(m2, Register(order, last))
      && ActionsOfSteps(env, START, steps) ==
           [Register(order, first), Record(UpdateTips(tip)), Evict, Register(order, last)]
  {
    var a, b := Step(Discovered(order, expired), []), Step(NewBlocks(tip, cached, answers), []);
    var c := Step(Discovered(order, failed), []);
    var m1 := StepTo(env, START, a);
    RegisterStep(env, START, a);
    IdleNewBlocks(env, m1, tip, cached, answers);
    RegisterStep(env, StepTo(env, m1, b), c);
    StepsThree(env, START, a, b, c);
    JoinThree(Register(order, FindingsOf(order, expired, env.ids)), Record(UpdateTips(tip)), Evict,
              Register(order, FindingsOf(order, failed, env.ids)));
  }

  lemma SteadyReturn(order: Order, first: Findings, tip: BlockTip, last: Findings)
    requires first.nonce == Ok(false) && first.now <= last.now
    ensures SteadyWorld([Register(order, first), Record(UpdateTips(tip)), Evict, Register(order, last)])
  {
  }
}

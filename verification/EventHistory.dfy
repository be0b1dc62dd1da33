/**
 What the event store should hold, read off the whole history of calls made to it.

 An inserted event survives iff every later tip update left its block at or above the cutoff.
 Tips need not grow, and an event inserted below the cutoff stays until the next update.
 */
module EventHistory {
  import opened Wrappers
  import opened OrderTypes
  import opened Sequences

  /** An `Order` initiation event, identified by the hash of its deadline and outputs. */
  datatype OrderEvent = OrderEvent(key: Hash, blockNumber: U64, txHash: Hash)

  datatype StoreOp =
    | InsertFilled(event: FilledEvent)
    | InsertOrder(order: OrderEvent)
    | UpdateTips(tip: BlockTip)

  function TipOf(tip: BlockTip, chain: Chain): U64 {
    match chain
    case Rollup => tip.rollup
    case Host => tip.host
  }

  /** `tip.saturating_sub(retention)` */
  function Cutoff(tip: U64, retention: U64): (cutoff: U64)
    ensures tip <= cutoff + retention
    ensures cutoff == 0 || cutoff + retention == tip
  {
    if tip >= retention then tip - retention else 0
  }

  predicate Retained(h: seq<StoreOp>, i: nat, retention: U64, chain: Chain, block: U64) {
    forall j :: i < j < |h| && h[j].UpdateTips? ==> Cutoff(TipOf(h[j].tip, chain), retention) <= block
  }

  predicate Survives(h: seq<StoreOp>, i: nat, retention: U64, chain: Chain) {
    && i < |h|
    && h[i].InsertFilled?
    && h[i].event.chain == chain
    && Retained(h, i, retention, chain, h[i].event.blockNumber)
  }

  /** The survivors of one block among the first `n` calls, in insertion order. */
  function StoredUpTo(h: seq<StoreOp>, retention: U64, chain: Chain, block: U64, n: nat): (events: seq<FilledEvent>)
    requires n <= |h|
    decreases n
  {
    if n == 0 then []
    else
      StoredUpTo(h, retention, chain, block, n - 1) +
      (if Survives(h, n - 1, retention, chain) && h[n - 1].event.blockNumber == block then [h[n - 1].event] else [])
  }

  function Stored(h: seq<StoreOp>, retention: U64, chain: Chain, block: U64): seq<FilledEvent> {
    StoredUpTo(h, retention, chain, block, |h|)
  }

  /** How many of the first `n` calls inserted an event of this chain that survives. */
  function SurvivorsUpTo(h: seq<StoreOp>, retention: U64, chain: Chain, n: nat): nat
    requires n <= |h|
  {
    Count(Indices(|h|), i => Survives(h, i, retention, chain), n)
  }

  function Survivors(h: seq<StoreOp>, retention: U64, chain: Chain): nat {
    SurvivorsUpTo(h, retention, chain, |h|)
  }

  // ----- how one more call changes what survives

  lemma RetainedAppend(h: seq<StoreOp>, op: StoreOp, i: nat, retention: U64, chain: Chain, block: U64)
    requires i < |h|
    ensures Retained(h + [op], i, retention, chain, block) <==>
            Retained(h, i, retention, chain, block) &&
              (op.UpdateTips? ==> Cutoff(TipOf(op.tip, chain), retention) <= block)
  {
    var g := h + [op];
    assert g[|h|] == op;
    forall j | 0 <= j < |h|
      ensures g[j] == h[j]
    {
    }
    if !Retained(h, i, retention, chain, block) {
      var j :| i < j < |h| && h[j].UpdateTips? && Cutoff(TipOf(h[j].tip, chain), retention) > block;
      assert g[j] == h[j];
    }
  }

  lemma {:induction false} StoredUpToAppend(h: seq<StoreOp>, op: StoreOp, retention: U64, chain: Chain, block: U64,
                                            n: nat)
    requires n <= |h|
    ensures StoredUpTo(h + [op], retention, chain, block, n) ==
            if op.UpdateTips? && Cutoff(TipOf(op.tip, chain), retention) > block then []
            else StoredUpTo(h, retention, chain, block, n)
    decreases n
  {
    if n == 0 {
    } else {
      StoredUpToAppend(h, op, retention, chain, block, n - 1);
      RetainedAppend(h, op, n - 1, retention, chain, block);
    }
  }

  lemma StoredAppend(h: seq<StoreOp>, op: StoreOp, retention: U64, chain: Chain, block: U64)
    ensures op.InsertOrder? ==>
      Stored(h + [op], retention, chain, block) == Stored(h, retention, chain, block)
    ensures op.UpdateTips? ==>
      Stored(h + [op], retention, chain, block) ==
        if Cutoff(TipOf(op.tip, chain), retention) > block then [] else Stored(h, retention, chain, block)
    ensures op.InsertFilled? ==>
      Stored(h + [op], retention, chain, block) ==
        Stored(h, retention, chain, block) +
        if op.event.chain == chain && op.event.blockNumber == block then [op.event] else []
  {
    StoredUpToAppend(h, op, retention, chain, block, |h|);
  }

  /** An event is stored under a block iff some insertion of it survived there. */
  lemma {:induction false} StoredIffSurvives(h: seq<StoreOp>, retention: U64, chain: Chain, block: U64, e: FilledEvent,
                                             n: nat)
    requires n <= |h|
    ensures e in StoredUpTo(h, retention, chain, block, n) <==>
            e.blockNumber == block && exists i :: 0 <= i < n && Survives(h, i, retention, chain) && h[i].event == e
    decreases n
  {
    if n == 0 {
    } else {
      StoredIffSurvives(h, retention, chain, block, e, n - 1);
    }
  }

  /** An earlier surviving insertion comes first under its block. */
  lemma {:induction false} StoredInOrder(h: seq<StoreOp>, retention: U64, chain: Chain, block: U64, i: nat, n: nat)
    requires i < n <= |h|
    requires Survives(h, i, retention, chain) && h[i].event.blockNumber == block
    ensures StoredUpTo(h, retention, chain, block, i) + [h[i].event] <= StoredUpTo(h, retention, chain, block, n)
    decreases n
  {
    if i == n - 1 {
    } else {
      StoredInOrder(h, retention, chain, block, i, n - 1);
    }
  }

  /**
   The insertion behind the `i`-th event of a block; as many events precede it as survivors of the
   block before it.
   */
  lemma {:induction false} StoredOrigin(h: seq<StoreOp>, retention: U64, chain: Chain, block: U64, n: nat,
                                        i: nat) returns (k: nat)
    requires n <= |h| && i < |StoredUpTo(h, retention, chain, block, n)|
    ensures k < n && Survives(h, k, retention, chain) && h[k].event.blockNumber == block
    ensures h[k].event == StoredUpTo(h, retention, chain, block, n)[i]
    ensures |StoredUpTo(h, retention, chain, block, k)| == i
    decreases n
  {
    if i == |StoredUpTo(h, retention, chain, block, n - 1)| {
      k := n - 1;
    } else {
      k := StoredOrigin(h, retention, chain, block, n - 1, i);
    }
  }

  // ----- counting survivors block by block

  function CountIn(h: seq<StoreOp>, retention: U64, chain: Chain, blocks: set<U64>, n: nat): nat
    requires n <= |h|
  {
    Count(Indices(|h|), i => Survives(h, i, retention, chain) && h[i].event.blockNumber in blocks, n)
  }

  lemma {:induction false} CountSplit(h: seq<StoreOp>, retention: U64, chain: Chain, blocks: set<U64>, b: U64, n: nat)
    requires n <= |h| && b in blocks
    ensures CountIn(h, retention, chain, blocks, n) ==
            CountIn(h, retention, chain, blocks - {b}, n) + |StoredUpTo(h, retention, chain, b, n)|
    decreases n
  {
    if n == 0 {
    } else {
      CountSplit(h, retention, chain, blocks, b, n - 1);
    }
  }

  lemma {:induction false} CountNone(h: seq<StoreOp>, retention: U64, chain: Chain, n: nat)
    requires n <= |h|
    ensures CountIn(h, retention, chain, {}, n) == 0
    decreases n
  {
    if n == 0 {
    } else {
      CountNone(h, retention, chain, n - 1);
    }
  }

  lemma {:induction false} CountAll(h: seq<StoreOp>, retention: U64, chain: Chain, blocks: set<U64>, n: nat)
    requires n <= |h|
    requires forall b: U64 :: b in blocks <==> Stored(h, retention, chain, b) != []
    ensures CountIn(h, retention, chain, blocks, n) == SurvivorsUpTo(h, retention, chain, n)
    decreases n
  {
    if n == 0 {
    } else {
      CountAll(h, retention, chain, blocks, n - 1);
      if Survives(h, n - 1, retention, chain) {
        var e := h[n - 1].event;
        StoredIffSurvives(h, retention, chain, e.blockNumber, e, |h|);
      }
    }
  }

  // ----- order initiation events

  /** The last call, among the first `n`, that inserted an order event with this key. */
  function LastInsert(h: seq<StoreOp>, key: Hash, n: nat): (last: Option<nat>)
    requires n <= |h|
    ensures last.None? ==> forall i :: 0 <= i < n ==> !Inserts(h[i], key)
    ensures last.Some? ==>
      last.value < n && Inserts(h[last.value], key) && forall i :: last.value < i < n ==> !Inserts(h[i], key)
  {
    LastUpTo(h, op => Inserts(op, key), n)
  }

  predicate Inserts(op: StoreOp, key: Hash) {
    op.InsertOrder? && op.order.key == key
  }

  /** Looking a key up in the history: the last insertion decides, if no cutoff passed it since. */
  function FindOrder(h: seq<StoreOp>, retention: U64, key: Hash): Option<OrderEvent> {
    match LastInsert(h, key, |h|)
    case None => None
    case Some(i) =>
      if Retained(h, i, retention, Rollup, h[i].order.blockNumber) then Some(h[i].order) else None
  }

  /** Call `i` is the last insertion of this key, and no later cutoff passed its block. */
  ghost predicate Current(h: seq<StoreOp>, retention: U64, key: Hash, i: nat) {
    && i < |h| && h[i].InsertOrder? && h[i].order.key == key
    && (forall j :: i < j < |h| && h[j].InsertOrder? ==> h[j].order.key != key)
    && Retained(h, i, retention, Rollup, h[i].order.blockNumber)
  }

  lemma FindOrderIffCurrent(h: seq<StoreOp>, retention: U64, key: Hash, o: OrderEvent)
    ensures FindOrder(h, retention, key) == Some(o) <==>
            exists i: nat :: Current(h, retention, key, i) && h[i].order == o
  {
    var last := LastInsert(h, key, |h|);
    if i: nat :| Current(h, retention, key, i) && h[i].order == o {
      assert h[i].InsertOrder? && h[i].order.key == key;
      assert last == Some(i);
    }
    if FindOrder(h, retention, key) == Some(o) {
      assert Current(h, retention, key, last.value);
    }
  }

  lemma {:induction false} LastInsertAppend(h: seq<StoreOp>, op: StoreOp, key: Hash, n: nat)
    requires n <= |h|
    ensures LastInsert(h + [op], key, n) == LastInsert(h, key, n)
    decreases n
  {
    if n == 0 {
    } else {
      LastInsertAppend(h, op, key, n - 1);
    }
  }

  lemma FindOrderAppend(h: seq<StoreOp>, op: StoreOp, retention: U64, key: Hash)
    ensures op.InsertFilled? ==> FindOrder(h + [op], retention, key) == FindOrder(h, retention, key)
    ensures op.InsertOrder? ==>
      FindOrder(h + [op], retention, key) ==
        if op.order.key == key then Some(op.order) else FindOrder(h, retention, key)
    ensures op.UpdateTips? ==>
      FindOrder(h + [op], retention, key) ==
        match FindOrder(h, retention, key)
        case None => None
        case Some(o) => if Cutoff(op.tip.rollup, retention) <= o.blockNumber then Some(o) else None
  {
    LastInsertAppend(h, op, key, |h|);
    var g, last := h + [op], LastInsert(h, key, |h|);
    assert forall j :: 0 <= j < |h| ==> g[j] == h[j];
    if last.Some? && !(op.InsertOrder? && op.order.key == key) {
      RetainedAppend(h, op, last.value, retention, Rollup, h[last.value].order.blockNumber);
    }
  }

  // ----- when tips only grow

  ghost predicate MonotoneTips(h: seq<StoreOp>, chain: Chain) {
    forall i, j :: 0 <= i < j < |h| && h[i].UpdateTips? && h[j].UpdateTips? ==>
      TipOf(h[i].tip, chain) <= TipOf(h[j].tip, chain)
  }

  /** Under growing tips, survival is one comparison with the cutoff of the latest update. */
  lemma SurvivalByLatestTip(h: seq<StoreOp>, i: nat, latest: nat, retention: U64, chain: Chain)
    requires MonotoneTips(h, chain)
    requires i < latest < |h| && h[i].InsertFilled? && h[i].event.chain == chain
    requires h[latest].UpdateTips? && forall j :: latest < j < |h| ==> !h[j].UpdateTips?
    ensures Survives(h, i, retention, chain) <==>
            Cutoff(TipOf(h[latest].tip, chain), retention) <= h[i].event.blockNumber
  {
    if Cutoff(TipOf(h[latest].tip, chain), retention) <= h[i].event.blockNumber {
      forall j | i < j < |h| && h[j].UpdateTips?
        ensures Cutoff(TipOf(h[j].tip, chain), retention) <= h[i].event.blockNumber
      {
        assert j <= latest;
      }
    }
  }
}

/** The in-memory store of recent chain events, pruned to a retention window. */
module EventStores {
  import opened Wrappers
  import opened OrderTypes
  import opened EventHistory
  import FillMatching
  import Keys = OrderEventKey

  type FilledByBlock = map<U64, seq<FilledEvent>>

  function MaxOf(blocks: set<U64>): (m: U64)
    requires blocks != {}
    ensures m in blocks && forall b :: b in blocks ==> b <= m
  {
    MaxExists(blocks);
    var m: U64 :| m in blocks && forall b :: b in blocks ==> b <= m;
    m
  }

  lemma MaxExists(blocks: set<U64>)
    requires blocks != {}
    ensures exists m: U64 :: m in blocks && forall b :: b in blocks ==> b <= m
  {
    var x: U64 :| x in blocks;
    var m := x;
    if blocks - {x} != {} {
      MaxExists(blocks - {x});
      var y: U64 :| y in blocks - {x} && forall b :: b in blocks - {x} ==> b <= y;
      m := if x < y then y else x;
    }
    assert forall b :: b in blocks ==> b == x || b in blocks - {x};
    assert m in blocks && forall b :: b in blocks ==> b <= m;
  }

  ghost function TotalIn(filled: FilledByBlock, blocks: set<U64>): nat
    requires blocks <= filled.Keys
    decreases |blocks|
  {
    if blocks == {} then 0
    else var b := MaxOf(blocks); |filled[b]| + TotalIn(filled, blocks - {b})
  }

  /** Event `i` of block `b` is the match the search should return: the newest block, first inserted. */
  ghost predicate NewestMatch(filled: FilledByBlock, expected: seq<Output>, b: U64, i: nat) {
    && b in filled && i < |filled[b]|
    && FillMatching.Covers(filled[b][i].outputs, expected)
    && (forall j :: 0 <= j < i ==> !FillMatching.Covers(filled[b][j].outputs, expected))
    && NoMatchAbove(filled, expected, b)
  }

  ghost predicate NoMatchIn(events: seq<FilledEvent>, expected: seq<Output>) {
    forall j :: 0 <= j < |events| ==> !FillMatching.Covers(events[j].outputs, expected)
  }

  ghost predicate NoMatchAbove(filled: FilledByBlock, expected: seq<Output>, b: U64) {
    forall c :: c in filled && b < c ==> NoMatchIn(filled[c], expected)
  }

  ghost predicate NoMatch(filled: FilledByBlock, expected: seq<Output>) {
    forall c :: c in filled ==> NoMatchIn(filled[c], expected)
  }

  /** `split_off`: the blocks from the cutoff on. */
  function FromCutoff(filled: FilledByBlock, cutoff: U64): FilledByBlock {
    map b | b in filled && cutoff <= b :: filled[b]
  }

  class ChainEvents {
    var filled: FilledByBlock
    var tip: U64

    constructor ()
      ensures filled == map[] && tip == 0
    {
      filled := map[];
      tip := 0;
    }

    method InsertFilled(event: FilledEvent)
      modifies this`filled
      ensures filled == old(filled)[event.blockNumber :=
                (if event.blockNumber in old(filled) then old(filled)[event.blockNumber] else []) + [event]]
    {
      if event.blockNumber !in filled {
        filled := filled[event.blockNumber := []];
      }
      filled := filled[event.blockNumber := filled[event.blockNumber] + [event]];
    }

    method Prune(retention: U64)
      modifies this`filled
      ensures filled == FromCutoff(old(filled), Cutoff(tip, retention))
    {
      var cutoff := Cutoff(tip, retention);
      filled := FromCutoff(filled, cutoff);
    }

    method FilledCount() returns (count: nat)
      ensures count == TotalIn(filled, filled.Keys)
    {
      count := 0;
      var rest := filled.Keys;
      while rest != {}
        invariant rest <= filled.Keys
        invariant count + TotalIn(filled, rest) == TotalIn(filled, filled.Keys)
        decreases |rest|
      {
        var b := MaxOf(rest);
        count := count + |filled[b]|;
        rest := rest - {b};
      }
    }

    /** Scan the blocks from the newest down, each in insertion order. */
    method FindMatch(expected: seq<Output>) returns (found: Option<FilledEvent>)
      ensures found.None? <==> NoMatch(filled, expected)
      ensures found.Some? ==>
              exists b: U64, i: nat :: NewestMatch(filled, expected, b, i) && filled[b][i] == found.value
    {
      var rest := filled.Keys;
      while rest != {}
        invariant rest <= filled.Keys
        invariant forall b, c :: b in rest && c in filled && c !in rest ==> b < c
        invariant forall c :: c in filled && c !in rest ==> NoMatchIn(filled[c], expected)
        decreases |rest|
      {
        var b := MaxOf(rest);
        var events := filled[b];
        for i := 0 to |events|
          invariant forall j :: 0 <= j < i ==> !FillMatching.Covers(events[j].outputs, expected)
        {
          var covered := FillMatching.FillOutputsAreSuperset(events[i].outputs, expected);
          if covered {
            assert NewestMatch(filled, expected, b, i);
            return Some(events[i]);
          }
        }
        rest := rest - {b};
      }
      return None;
    }
  }

  /** The stored blocks are exactly the surviving insertions of the history. */
  ghost predicate Agrees(filled: FilledByBlock, h: seq<StoreOp>, retention: U64, chain: Chain) {
    forall b: U64 ::
      && (b in filled <==> Stored(h, retention, chain, b) != [])
      && (b in filled ==> filled[b] == Stored(h, retention, chain, b))
  }

  ghost predicate OrdersAgree(orders: map<Hash, (U64, Hash)>, h: seq<StoreOp>, retention: U64) {
    forall key: Hash ::
      && (key in orders <==> FindOrder(h, retention, key).Some?)
      && (key in orders ==>
            var o := FindOrder(h, retention, key).value; orders[key] == (o.blockNumber, o.txHash))
  }

  /** `retain`: the order events from the cutoff on. */
  function OrdersFromCutoff(orders: map<Hash, (U64, Hash)>, cutoff: U64): map<Hash, (U64, Hash)> {
    map key | key in orders && cutoff <= orders[key].0 :: orders[key]
  }

  /** Pruning to the cutoff is what a tip update does to the history's survivors. */
  lemma PruneAgrees(filled: FilledByBlock, h: seq<StoreOp>, tip: BlockTip, retention: U64, chain: Chain)
    requires Agrees(filled, h, retention, chain)
    ensures Agrees(FromCutoff(filled, Cutoff(TipOf(tip, chain), retention)), h + [UpdateTips(tip)], retention, chain)
  {
    forall b: U64
      ensures Stored(h + [UpdateTips(tip)], retention, chain, b) ==
              if Cutoff(TipOf(tip, chain), retention) > b then [] else Stored(h, retention, chain, b)
    {
      StoredAppend(h, UpdateTips(tip), retention, chain, b);
    }
  }

  lemma PruneOrdersAgree(orders: map<Hash, (U64, Hash)>, h: seq<StoreOp>, tip: BlockTip, retention: U64)
    requires OrdersAgree(orders, h, retention)
    ensures OrdersAgree(OrdersFromCutoff(orders, Cutoff(tip.rollup, retention)), h + [UpdateTips(tip)], retention)
  {
    forall key: Hash
      ensures FindOrder(h + [UpdateTips(tip)], retention, key) ==
              match FindOrder(h, retention, key)
              case None => None
              case Some(o) => if Cutoff(tip.rollup, retention) <= o.blockNumber then Some(o) else None
    {
      FindOrderAppend(h, UpdateTips(tip), retention, key);
    }
  }

  class EventStore {
    const rollup: ChainEvents
    const host: ChainEvents
    var orderEvents: map<Hash, (U64, Hash)>
    const retention: U64
    const hasher: Keys.Hasher

    /** Every call made so far. */
    ghost var history: seq<StoreOp>

    ghost predicate Valid()
      reads this, rollup, host
    {
      && rollup != host
      && Agrees(rollup.filled, history, retention, Rollup)
      && Agrees(host.filled, history, retention, Host)
      && OrdersAgree(orderEvents, history, retention)
    }

    constructor (retention: U64, hasher: Keys.Hasher)
      ensures Valid() && fresh(rollup) && fresh(host)
      ensures history == [] && this.retention == retention && this.hasher == hasher
    {
      rollup := new ChainEvents();
      host := new ChainEvents();
      orderEvents := map[];
      this.retention, this.hasher := retention, hasher;
      history := [];
    }

    method UpdateTips(tip: BlockTip)
      requires Valid()
      modifies this, rollup, host
      ensures Valid() && history == old(history) + [StoreOp.UpdateTips(tip)]
    {
      PruneAgrees(rollup.filled, history, tip, retention, Rollup);
      PruneAgrees(host.filled, history, tip, retention, Host);
      PruneOrdersAgree(orderEvents, history, tip, retention);
      rollup.tip := tip.rollup;
      rollup.Prune(retention);
      var cutoff := Cutoff(rollup.tip, retention);
      orderEvents := OrdersFromCutoff(orderEvents, cutoff);
      host.tip := tip.host;
      host.Prune(retention);
      history := history + [StoreOp.UpdateTips(tip)];
    }

    method InsertFilled(event: FilledEvent)
      requires Valid()
      modifies this`history, rollup, host
      ensures Valid() && history == old(history) + [StoreOp.InsertFilled(event)]
    {
      match event.chain {
        case Rollup => rollup.InsertFilled(event);
        case Host => host.InsertFilled(event);
      }
      Append(StoreOp.InsertFilled(event));
    }

    method InsertOrder(event: OrderEvent)
      requires Valid()
      modifies this
      ensures Valid() && history == old(history) + [StoreOp.InsertOrder(event)]
    {
      orderEvents := orderEvents[event.key := (event.blockNumber, event.txHash)];
      Append(StoreOp.InsertOrder(event));
    }

    /** Record a call, with what it does to every lookup. */
    ghost method Append(op: StoreOp)
      modifies this`history
      ensures history == old(history) + [op]
      ensures forall chain: Chain, b: U64 ::
              Stored(history, retention, chain, b) == StoredAfter(old(history), op, chain, b)
      ensures forall key: Hash :: FindOrder(history, retention, key) == FindOrderAfter(old(history), op, key)
    {
      forall chain: Chain, b: U64
        ensures Stored(history + [op], retention, chain, b) == StoredAfter(history, op, chain, b)
      {
        StoredAppend(history, op, retention, chain, b);
      }
      forall key: Hash
        ensures FindOrder(history + [op], retention, key) == FindOrderAfter(history, op, key)
      {
        FindOrderAppend(history, op, retention, key);
      }
      history := history + [op];
    }

    ghost function StoredAfter(h: seq<StoreOp>, op: StoreOp, chain: Chain, b: U64): seq<FilledEvent> {
      var before := Stored(h, retention, chain, b);
      match op
      case InsertFilled(e) => if e.chain == chain && e.blockNumber == b then before + [e] else before
      case InsertOrder(_) => before
      case UpdateTips(tip) => if Cutoff(TipOf(tip, chain), retention) > b then [] else before
    }

    ghost function FindOrderAfter(h: seq<StoreOp>, op: StoreOp, key: Hash): Option<OrderEvent> {
      var before := FindOrder(h, retention, key);
      match op
      case InsertFilled(_) => before
      case InsertOrder(o) => if o.key == key then Some(o) else before
      case UpdateTips(tip) =>
        if before.Some? && Cutoff(tip.rollup, retention) > before.value.blockNumber then None else before
    }

    /** A covering event of the rollup if there is one, else of the host. */
    method FindMatchingFill(expected: seq<Output>) returns (found: Option<FilledEvent>)
      requires Valid()
      ensures found.None? <==> NoMatch(rollup.filled, expected) && NoMatch(host.filled, expected)
      ensures found.Some? ==>
        var filled := if NoMatch(rollup.filled, expected) then host.filled else rollup.filled;
        exists b: U64, i: nat :: NewestMatch(filled, expected, b, i) && filled[b][i] == found.value
      ensures found.Some? ==>
        var chain := if NoMatch(rollup.filled, expected) then Host else Rollup;
        exists k: nat :: NewestSurvivor(history, retention, chain, expected, k) && history[k].event == found.value
    {
      found := rollup.FindMatch(expected);
      if found.Some? {
        FoundIsNewestSurvivor(rollup.filled, history, retention, Rollup, expected, found.value);
      } else {
        found := host.FindMatch(expected);
        if found.Some? {
          FoundIsNewestSurvivor(host.filled, history, retention, Host, expected, found.value);
        }
      }
    }

    method FindOrderTx(deadline: U64, outputs: seq<Output>) returns (tx: Option<Hash>)
      requires Valid()
      ensures tx == OrderTx(history, retention, hasher, deadline, outputs)
    {
      var key := Keys.KeyOf(hasher, deadline, outputs);
      if key in orderEvents {
        return Some(orderEvents[key].1);
      }
      return None;
    }

    method FilledCount() returns (count: nat)
      requires Valid()
      ensures count == Survivors(history, retention, Rollup) + Survivors(history, retention, Host)
    {
      var r := rollup.FilledCount();
      var h := host.FilledCount();
      TotalIsSurvivors(rollup.filled, history, retention, Rollup);
      TotalIsSurvivors(host.filled, history, retention, Host);
      return r + h;
    }

    method OrderCount() returns (count: nat)
      requires Valid()
      ensures exists keys: set<Hash> ::
        && count == |keys|
        && forall key :: key in keys <==> FindOrder(history, retention, key).Some?
    {
      assert forall key :: key in orderEvents.Keys <==> FindOrder(history, retention, key).Some?;
      return |orderEvents|;
    }
  }

  /** An order event as the watcher makes it, keyed by the hash of deadline and outputs. */
  function NewOrderEvent(hasher: Keys.Hasher, blockNumber: U64, txHash: Hash, deadline: U64,
                         outputs: seq<Output>): OrderEvent {
    OrderEvent(Keys.KeyOf(hasher, deadline, outputs), blockNumber, txHash)
  }

  /** Every order event of the history was made from the deadline and outputs in `source`. */
  ghost predicate MadeFrom(h: seq<StoreOp>, source: seq<(U64, seq<Output>)>, hasher: Keys.Hasher)
    requires |source| == |h|
  {
    forall i :: 0 <= i < |h| && h[i].InsertOrder? ==>
      h[i].order == NewOrderEvent(hasher, h[i].order.blockNumber, h[i].order.txHash, source[i].0, source[i].1)
  }

  /** The initiation transaction recorded for an order, read off the history. */
  function OrderTx(h: seq<StoreOp>, retention: U64, hasher: Keys.Hasher, deadline: U64,
                   outputs: seq<Output>): Option<Hash> {
    match FindOrder(h, retention, Keys.KeyOf(hasher, deadline, outputs))
    case None => None
    case Some(o) => Some(o.txHash)
  }

  /** The search over the stored blocks fails iff no surviving insertion of the history covers the outputs. */
  lemma NoMatchIffNoSurvivor(filled: FilledByBlock, h: seq<StoreOp>, retention: U64, chain: Chain,
                             expected: seq<Output>)
    requires Agrees(filled, h, retention, chain)
    ensures NoMatch(filled, expected) <==>
            forall i :: 0 <= i < |h| && Survives(h, i, retention, chain) ==>
              !FillMatching.Covers(h[i].event.outputs, expected)
  {
    if NoMatch(filled, expected) {
      forall i | 0 <= i < |h| && Survives(h, i, retention, chain)
        ensures !FillMatching.Covers(h[i].event.outputs, expected)
      {
        var e := h[i].event;
        StoredIffSurvives(h, retention, chain, e.blockNumber, e, |h|);
        var j :| 0 <= j < |filled[e.blockNumber]| && filled[e.blockNumber][j] == e;
      }
    }
    if c: U64, j :| c in filled && 0 <= j < |filled[c]| && FillMatching.Covers(filled[c][j].outputs, expected) {
      StoredIffSurvives(h, retention, chain, c, filled[c][j], |h|);
    }
  }

  /** Insertion `k` survives and covers; so does no survivor of a newer block, nor an earlier one of its own. */
  ghost predicate NewestSurvivor(h: seq<StoreOp>, retention: U64, chain: Chain, expected: seq<Output>, k: nat) {
    && Survives(h, k, retention, chain) && FillMatching.Covers(h[k].event.outputs, expected)
    && forall j ::
         0 <= j < |h| && Survives(h, j, retention, chain) && FillMatching.Covers(h[j].event.outputs, expected) ==>
         h[j].event.blockNumber < h[k].event.blockNumber || (h[j].event.blockNumber == h[k].event.blockNumber && k <= j)
  }

  /** What the search over the stored blocks returns, read off the history. */
  lemma MatchIsNewestSurvivor(filled: FilledByBlock, h: seq<StoreOp>, retention: U64, chain: Chain,
                              expected: seq<Output>, b: U64, i: nat) returns (k: nat)
    requires Agrees(filled, h, retention, chain) && NewestMatch(filled, expected, b, i)
    ensures NewestSurvivor(h, retention, chain, expected, k) && h[k].event == filled[b][i]
  {
    k := StoredOrigin(h, retention, chain, b, |h|, i);
    forall j | 0 <= j < |h| && Survives(h, j, retention, chain) && FillMatching.Covers(h[j].event.outputs, expected)
      ensures h[j].event.blockNumber < b || (h[j].event.blockNumber == b && k <= j)
    {
      var c := h[j].event.blockNumber;
      StoredInOrder(h, retention, chain, c, j, |h|);
      var at := |StoredUpTo(h, retention, chain, c, j)|;
      assert filled[c][at] == h[j].event;
      if c == b && j < k {
        StoredInOrder(h, retention, chain, b, j, k);
      }
    }
  }

  lemma FoundIsNewestSurvivor(filled: FilledByBlock, h: seq<StoreOp>, retention: U64, chain: Chain,
                              expected: seq<Output>, found: FilledEvent)
    requires Agrees(filled, h, retention, chain)
    requires exists b: U64, i: nat :: NewestMatch(filled, expected, b, i) && filled[b][i] == found
    ensures exists k: nat :: NewestSurvivor(h, retention, chain, expected, k) && h[k].event == found
  {
    var b: U64, i: nat :| NewestMatch(filled, expected, b, i) && filled[b][i] == found;
    var k := MatchIsNewestSurvivor(filled, h, retention, chain, expected, b, i);
  }

  lemma {:induction false} TotalIsCount(filled: FilledByBlock, h: seq<StoreOp>, retention: U64, chain: Chain,
                                        blocks: set<U64>)
    requires Agrees(filled, h, retention, chain) && blocks <= filled.Keys
    ensures TotalIn(filled, blocks) == CountIn(h, retention, chain, blocks, |h|)
    decreases |blocks|
  {
    if blocks == {} {
      CountNone(h, retention, chain, |h|);
    } else {
      var b := MaxOf(blocks);
      TotalIsCount(filled, h, retention, chain, blocks - {b});
      CountSplit(h, retention, chain, blocks, b, |h|);
    }
  }

  lemma TotalIsSurvivors(filled: FilledByBlock, h: seq<StoreOp>, retention: U64, chain: Chain)
    requires Agrees(filled, h, retention, chain)
    ensures TotalIn(filled, filled.Keys) == Survivors(h, retention, chain)
  {
    TotalIsCount(filled, h, retention, chain, filled.Keys);
    CountAll(h, retention, chain, filled.Keys, |h|);
  }

  /**
   The lookup agrees with a scan of the history by deadline and outputs: an event is found iff it is
   the last one inserted with that deadline and those outputs and no later rollup cutoff passed its
   block.
   */
  lemma OrderTxIffLastInsert(h: seq<StoreOp>, source: seq<(U64, seq<Output>)>, retention: U64, hasher: Keys.Hasher,
                             deadline: U64, outputs: seq<Output>, tx: Hash)
    requires Keys.CollisionFree(hasher) && |source| == |h| && MadeFrom(h, source, hasher)
    ensures OrderTx(h, retention, hasher, deadline, outputs) == Some(tx) <==>
            exists i: nat :: LastWithSource(h, source, deadline, outputs, i) && h[i].order.txHash == tx
              && Retained(h, i, retention, Rollup, h[i].order.blockNumber)
  {
    var key := Keys.KeyOf(hasher, deadline, outputs);
    forall i: nat
      ensures Current(h, retention, key, i) <==>
              LastWithSource(h, source, deadline, outputs, i) &&
                Retained(h, i, retention, Rollup, h[i].order.blockNumber)
    {
      CurrentBySource(h, source, retention, hasher, deadline, outputs, i);
    }
    FindOrderByTx(h, retention, key, tx);
  }

  lemma FindOrderByTx(h: seq<StoreOp>, retention: U64, key: Hash, tx: Hash)
    ensures (FindOrder(h, retention, key).Some? && FindOrder(h, retention, key).value.txHash == tx) <==>
            exists i: nat :: Current(h, retention, key, i) && h[i].order.txHash == tx
  {
    var found := FindOrder(h, retention, key);
    if i: nat :| Current(h, retention, key, i) && h[i].order.txHash == tx {
      FindOrderIffCurrent(h, retention, key, h[i].order);
    }
    if found.Some? {
      FindOrderIffCurrent(h, retention, key, found.value);
    }
  }

  lemma CurrentBySource(h: seq<StoreOp>, source: seq<(U64, seq<Output>)>, retention: U64, hasher: Keys.Hasher,
                        deadline: U64, outputs: seq<Output>, i: nat)
    requires Keys.CollisionFree(hasher) && |source| == |h| && MadeFrom(h, source, hasher)
    ensures Current(h, retention, Keys.KeyOf(hasher, deadline, outputs), i) <==>
            LastWithSource(h, source, deadline, outputs, i) && Retained(h, i, retention, Rollup, h[i].order.blockNumber)
  {
    var key := Keys.KeyOf(hasher, deadline, outputs);
    forall j | 0 <= j < |h| && h[j].InsertOrder?
      ensures h[j].order.key == key <==> source[j] == (deadline, outputs)
    {
      Keys.KeyIdentifiesOrder(hasher, source[j].0, source[j].1, deadline, outputs);
    }
  }

  ghost predicate LastWithSource(h: seq<StoreOp>, source: seq<(U64, seq<Output>)>, deadline: U64, outputs: seq<Output>,
                                 i: nat)
    requires |source| == |h|
  {
    && i < |h| && h[i].InsertOrder? && source[i] == (deadline, outputs)
    && forall j :: i < j < |h| && h[j].InsertOrder? ==> source[j] != (deadline, outputs)
  }
}

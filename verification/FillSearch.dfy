/** Locating an order's fill on chain by scanning logs: the initiation first, then the fill. */
module FillSearch {
  import opened Wrappers
  import opened OrderTypes
  import opened FillMatching
  import opened Sequences

  /** A log as the provider returned it. An absent `outputs` or `deadline` is one that did not decode. */
  datatype FilledLog = FilledLog(txHash: Option<Hash>, blockNumber: Option<U64>, outputs: Option<seq<Output>>)

  datatype OrderLog = OrderLog(txHash: Option<Hash>, blockNumber: Option<U64>, deadline: Option<U256>)

  datatype ChainIds = ChainIds(host: U64, rollup: U64)

  /** What a provider answers to a query for the logs of a range of blocks, both ends included. */
  type LogQuery<Log> = (U64, U64) -> Result<seq<Log>>

  /** What the providers answer during one search. */
  datatype SearchAnswers = SearchAnswers(
    rollupTip: Result<U64>,
    orderLogs: LogQuery<OrderLog>,
    rollupFills: LogQuery<FilledLog>,
    hostFills: LogQuery<FilledLog>,
    symbols: seq<string>)

  const SEARCH_WINDOW: U64 := 300

  predicate IsFill(log: FilledLog, expected: seq<Output>) {
    log.txHash.Some? && log.blockNumber.Some? && log.outputs.Some? && Covers(log.outputs.value, expected)
  }

  predicate IsInitiation(log: OrderLog, deadline: U64) {
    log.blockNumber.Some? && log.txHash.Some? && log.deadline == Some(deadline)
  }

  function FirstFill(logs: seq<FilledLog>, expected: seq<Output>): (first: Option<nat>)
    ensures first.Some? ==> first.value < |logs| && IsFill(logs[first.value], expected)
  {
    First(logs, log => IsFill(log, expected))
  }

  function FirstInitiation(logs: seq<OrderLog>, deadline: U64): (first: Option<nat>)
    ensures first.Some? ==> first.value < |logs| && IsInitiation(logs[first.value], deadline)
  {
    First(logs, log => IsInitiation(log, deadline))
  }

  /** Unknown chain ids count as the host. */
  function ResolveChainId(ids: ChainIds, chainId: U32): (chain: Chain)
    ensures chain == Rollup <==> chainId == ids.rollup && chainId != ids.host
  {
    if chainId == ids.host then Host else if chainId == ids.rollup then Rollup else Host
  }

  function ReportedOutputs(outputs: seq<Output>, ids: ChainIds, symbols: seq<string>): seq<FillOutput> {
    seq(|outputs|, i requires 0 <= i < |outputs| =>
      FillOutput(outputs[i].token, Symbol(symbols, i), outputs[i].amount, outputs[i].recipient,
                 ResolveChainId(ids, outputs[i].chainId)))
  }

  function Symbol(symbols: seq<string>, i: nat): string {
    if i < |symbols| then symbols[i] else "unknown"
  }

  /** The report on a matching `Filled` log, once the initiation is known. */
  function Report(log: FilledLog, chain: Chain, initiationTx: Hash, ids: ChainIds, symbols: seq<string>): FillInfo
    requires log.txHash.Some? && log.blockNumber.Some? && log.outputs.Some?
  {
    FillInfo(log.blockNumber.value, Some(initiationTx), Some(ChainTransaction(chain, log.txHash.value)),
             ReportedOutputs(log.outputs.value, ids, symbols))
  }

  /** What a report on a fill log says, field by field. */
  ghost predicate Describes(info: FillInfo, log: FilledLog, chain: Chain, initiationTx: Hash, ids: ChainIds,
                            symbols: seq<string>)
    requires log.txHash.Some? && log.blockNumber.Some? && log.outputs.Some?
  {
    && info.blockNumber == log.blockNumber.value
    && info.rollupInitiationTx == Some(initiationTx)
    && info.fillTx == Some(ChainTransaction(chain, log.txHash.value))
    && |info.outputs| == |log.outputs.value|
    && forall j :: 0 <= j < |info.outputs| ==>
         var reported, output := info.outputs[j], log.outputs.value[j];
         && reported.token == output.token
         && reported.amount == output.amount
         && reported.recipient == output.recipient
         && reported.symbol == (if j < |symbols| then symbols[j] else "unknown")
         && reported.chain == (if output.chainId == ids.rollup && output.chainId != ids.host then Rollup else Host)
  }

  lemma ReportDescribes(info: FillInfo, log: FilledLog, chain: Chain, initiationTx: Hash, ids: ChainIds,
                        symbols: seq<string>)
    requires log.txHash.Some? && log.blockNumber.Some? && log.outputs.Some?
    ensures info == Report(log, chain, initiationTx, ids, symbols) <==>
            Describes(info, log, chain, initiationTx, ids, symbols)
  {
    var report := Report(log, chain, initiationTx, ids, symbols);
    if Describes(info, log, chain, initiationTx, ids, symbols) {
      forall j | 0 <= j < |info.outputs|
        ensures info.outputs[j] == report.outputs[j]
      {
      }
      assert info.outputs == report.outputs;
    }
  }

  /** `ru_tip.saturating_sub(300)` */
  function WindowStart(tip: U64): U64 {
    if tip >= SEARCH_WINDOW then tip - SEARCH_WINDOW else 0
  }

  /** The `Order` logs of the window that ends at the rollup tip. */
  function OrdersInWindow(answers: SearchAnswers): Result<seq<OrderLog>> {
    if answers.rollupTip.Err? then Err
    else answers.orderLogs(WindowStart(answers.rollupTip.value), answers.rollupTip.value)
  }

  /** The `Filled` logs of one block. */
  function FillsAt(answers: SearchAnswers, chain: Chain, block: U64): Result<seq<FilledLog>> {
    match chain
    case Rollup => answers.rollupFills(block, block)
    case Host => answers.hostFills(block, block)
  }

  /** The outcome of a whole search. */
  function FillOf(order: Order, answers: SearchAnswers, ids: ChainIds): Result<Option<FillInfo>> {
    match OrdersInWindow(answers)
    case Err => Err
    case Ok(logs) =>
      match FirstInitiation(logs, order.deadline)
      case None => Ok(None)
      case Some(i) => FillFrom(order, answers, ids, logs[i].blockNumber.value, logs[i].txHash.value)
  }

  /** The outcome once the initiation is known. */
  function FillFrom(order: Order, answers: SearchAnswers, ids: ChainIds, block: U64,
                    tx: Hash): Result<Option<FillInfo>> {
    match (FillsAt(answers, Rollup, block), FillsAt(answers, Host, block))
    case (Err, _) => Err
    case (_, Err) => Err
    case (Ok(onRollup), Ok(onHost)) =>
      match (FirstFill(onRollup, order.outputs), FirstFill(onHost, order.outputs))
      case (Some(k), _) => Ok(Some(Report(onRollup[k], Rollup, tx, ids, answers.symbols)))
      case (None, Some(k)) => Ok(Some(Report(onHost[k], Host, tx, ids, answers.symbols)))
      case (None, None) => Ok(None)
  }

  // ----- the scan loops

  /** The first initiation with this deadline among the logs of a range of blocks. */
  method FindOrderInitiation(getLogs: LogQuery<OrderLog>, deadline: U64, from: U64, to: U64)
    returns (initiation: Result<Option<(U64, Hash)>>)
    ensures match getLogs(from, to)
            case Err => initiation == Err
            case Ok(logs) =>
              match FirstInitiation(logs, deadline)
              case None => initiation == Ok(None)
              case Some(i) => initiation == Ok(Some((logs[i].blockNumber.value, logs[i].txHash.value)))
  {
    var answer := getLogs(from, to);
    if answer.Err? {
      return Err;
    }
    var logs := answer.value;
    for i := 0 to |logs|
      invariant forall j :: 0 <= j < i ==> !IsInitiation(logs[j], deadline)
    {
      if logs[i].blockNumber.None? || logs[i].txHash.None? || logs[i].deadline.None? {
        continue;
      }
      if logs[i].deadline.value == deadline {
        assert IsFirst(logs, log => IsInitiation(log, deadline), i);
        return Ok(Some((logs[i].blockNumber.value, logs[i].txHash.value)));
      }
    }
    return Ok(None);
  }

  /** The first matching log of a range of blocks, reported without symbols and without the initiation. */
  method FindFillEvents(getLogs: LogQuery<FilledLog>, expected: seq<Output>, chain: Chain, ids: ChainIds, from: U64,
                        to: U64)
    returns (fill: Result<Option<FillInfo>>)
    ensures match getLogs(from, to)
            case Err => fill == Err
            case Ok(logs) =>
              match FirstFill(logs, expected)
              case None => fill == Ok(None)
              case Some(k) => fill == Ok(Some(Unpatched(logs[k], chain, ids)))
  {
    var answer := getLogs(from, to);
    if answer.Err? {
      return Err;
    }
    var logs := answer.value;
    for i := 0 to |logs|
      invariant forall j :: 0 <= j < i ==> !IsFill(logs[j], expected)
    {
      if logs[i].txHash.None? || logs[i].blockNumber.None? || logs[i].outputs.None? {
        continue;
      }
      var covered := FillOutputsAreSuperset(logs[i].outputs.value, expected);
      if covered {
        assert IsFirst(logs, log => IsFill(log, expected), i);
        return Ok(Some(Unpatched(logs[i], chain, ids)));
      }
    }
    return Ok(None);
  }

  /** A matching log as the scan reports it. */
  function Unpatched(log: FilledLog, chain: Chain, ids: ChainIds): FillInfo
    requires log.txHash.Some? && log.blockNumber.Some? && log.outputs.Some?
  {
    FillInfo(log.blockNumber.value, None, Some(ChainTransaction(chain, log.txHash.value)),
      Unlabelled(log.outputs.value, ids))
  }

  function Unlabelled(outputs: seq<Output>, ids: ChainIds): seq<FillOutput> {
    seq(|outputs|, i requires 0 <= i < |outputs| =>
      FillOutput(outputs[i].token, "", outputs[i].amount, outputs[i].recipient,
        ResolveChainId(ids, outputs[i].chainId)))
  }

  method ResolveSymbols(outputs: seq<FillOutput>, symbols: seq<string>) returns (labelled: seq<FillOutput>)
    ensures |labelled| == |outputs|
    ensures forall i :: 0 <= i < |outputs| ==> labelled[i] == outputs[i].(symbol := Symbol(symbols, i))
  {
    labelled := outputs;
    for i := 0 to |outputs|
      invariant |labelled| == |outputs|
      invariant forall j :: 0 <= j < i ==> labelled[j] == outputs[j].(symbol := Symbol(symbols, j))
      invariant forall j :: i <= j < |outputs| ==> labelled[j] == outputs[j]
    {
      labelled := labelled[i := labelled[i].(symbol := Symbol(symbols, i))];
    }
  }

  /** Add the initiation and the symbols to what the scan reported. */
  method PatchFill(fill: FillInfo, tx: Hash, symbols: seq<string>, ghost log: FilledLog, ghost chain: Chain,
                   ghost ids: ChainIds)
    returns (patched: FillInfo)
    requires log.txHash.Some? && log.blockNumber.Some? && log.outputs.Some? && fill == Unpatched(log, chain, ids)
    ensures patched == Report(log, chain, tx, ids, symbols)
  {
    var labelled := ResolveSymbols(fill.outputs, symbols);
    assert labelled == ReportedOutputs(log.outputs.value, ids, symbols);
    return fill.(rollupInitiationTx := Some(tx), outputs := labelled);
  }

  /** Ask for the fills of one block on both chains; both queries must be answered. */
  method FindFillAt(order: Order, answers: SearchAnswers, ids: ChainIds, block: U64, tx: Hash)
    returns (found: Result<Option<FillInfo>>)
    ensures found == FillFrom(order, answers, ids, block, tx)
  {
    var onRollup := FindFillEvents(answers.rollupFills, order.outputs, Rollup, ids, block, block);
    var onHost := FindFillEvents(answers.hostFills, order.outputs, Host, ids, block, block);
    if onRollup.Err? || onHost.Err? {
      return Err;
    }
    ghost var chain := if onRollup.value.Some? then Rollup else Host;
    var fill := if onRollup.value.Some? then onRollup.value else onHost.value;
    if fill.Some? {
      ghost var fills := FillsAt(answers, chain, block).value;
      ghost var log := fills[FirstFill(fills, order.outputs).value];
      var patched := PatchFill(fill.value, tx, answers.symbols, log, chain, ids);
      fill := Some(patched);
    }
    return Ok(fill);
  }

  /** Ask for the window's initiations, then for the fills at the first one's block. */
  method FindFill(order: Order, answers: SearchAnswers, ids: ChainIds) returns (found: Result<Option<FillInfo>>)
    ensures found == FillOf(order, answers, ids)
  {
    if answers.rollupTip.Err? {
      return Err;
    }
    var tip := answers.rollupTip.value;
    var start := if tip >= SEARCH_WINDOW then tip - SEARCH_WINDOW else 0;
    var initiation := FindOrderInitiation(answers.orderLogs, order.deadline, start, tip);
    if initiation.Err? {
      return Err;
    }
    if initiation.value.None? {
      return Ok(None);
    }
    var (block, tx) := initiation.value.value;
    found := FindFillAt(order, answers, ids, block, tx);
  }

  // ----- what a search finds

  /** Log `i` of the window is the initiation: the first with the order's deadline. */
  ghost predicate Located(order: Order, answers: SearchAnswers, i: nat) {
    && OrdersInWindow(answers).Ok?
    && IsFirst(OrdersInWindow(answers).value, log => IsInitiation(log, order.deadline), i)
  }

  function InitiationBlock(order: Order, answers: SearchAnswers, i: nat): U64
    requires Located(order, answers, i)
  {
    OrdersInWindow(answers).value[i].blockNumber.value
  }

  ghost predicate BothAnswered(answers: SearchAnswers, block: U64) {
    FillsAt(answers, Rollup, block).Ok? && FillsAt(answers, Host, block).Ok?
  }

  ghost predicate NoFill(answers: SearchAnswers, chain: Chain, block: U64, expected: seq<Output>)
    requires BothAnswered(answers, block)
  {
    forall log :: log in FillsAt(answers, chain, block).value ==> !IsFill(log, expected)
  }

  /** `info` reports fill log `k` that `chain` has at the block of initiation `i`. */
  ghost predicate Reports(info: FillInfo, order: Order, answers: SearchAnswers, ids: ChainIds, i: nat, chain: Chain,
                          k: nat) {
    && Located(order, answers, i)
    && var block := InitiationBlock(order, answers, i);
    && BothAnswered(answers, block)
    && (chain == Host ==> NoFill(answers, Rollup, block, order.outputs))
    && var fills := FillsAt(answers, chain, block).value;
    && IsFirst(fills, log => IsFill(log, order.outputs), k)
    && Describes(info, fills[k], chain, OrdersInWindow(answers).value[i].txHash.value, ids, answers.symbols)
  }

  /**
   The search reports a fill iff it is the first covering log at the block of the window's first
   initiation, rollup before host; it reports none iff there is no initiation or no covering log.
   */
  lemma FindFillCorrect(order: Order, answers: SearchAnswers, ids: ChainIds, info: FillInfo)
    ensures FillOf(order, answers, ids) == Ok(Some(info)) <==>
            exists i: nat, chain, k: nat :: Reports(info, order, answers, ids, i, chain, k)
    ensures FillOf(order, answers, ids) == Ok(None) <==>
      && OrdersInWindow(answers).Ok?
      && ((forall log :: log in OrdersInWindow(answers).value ==> !IsInitiation(log, order.deadline))
          || exists i: nat :: Located(order, answers, i)
               && var block := InitiationBlock(order, answers, i);
               && BothAnswered(answers, block)
               && NoFill(answers, Rollup, block, order.outputs) && NoFill(answers, Host, block, order.outputs))
  {
    if OrdersInWindow(answers).Ok? {
      var logs := OrdersInWindow(answers).value;
      var first := FirstInitiation(logs, order.deadline);
      if first.Some? {
        assert Located(order, answers, first.value);
        FillFromCorrect(order, answers, ids, first.value, info);
        assert forall i: nat :: Located(order, answers, i) ==> i == first.value;
      }
    }
  }

  lemma FillFromCorrect(order: Order, answers: SearchAnswers, ids: ChainIds, i: nat, info: FillInfo)
    requires Located(order, answers, i)
    ensures var block := InitiationBlock(order, answers, i);
      var found := FillFrom(order, answers, ids, block, OrdersInWindow(answers).value[i].txHash.value);
      && (found == Ok(Some(info)) <==> exists chain, k: nat :: Reports(info, order, answers, ids, i, chain, k))
      && (found == Ok(None) <==>
            BothAnswered(answers, block)
            && NoFill(answers, Rollup, block, order.outputs) && NoFill(answers, Host, block, order.outputs))
  {
    var block := InitiationBlock(order, answers, i);
    var tx := OrdersInWindow(answers).value[i].txHash.value;
    if BothAnswered(answers, block) {
      var onRollup := FirstFill(FillsAt(answers, Rollup, block).value, order.outputs);
      var onHost := FirstFill(FillsAt(answers, Host, block).value, order.outputs);
      if onRollup.Some? {
        ReportDescribes(info, FillsAt(answers, Rollup, block).value[onRollup.value], Rollup, tx, ids, answers.symbols);
        assert FillFrom(order, answers, ids, block, tx) == Ok(Some(info)) ==>
          Reports(info, order, answers, ids, i, Rollup, onRollup.value);
      } else if onHost.Some? {
        ReportDescribes(info, FillsAt(answers, Host, block).value[onHost.value], Host, tx, ids, answers.symbols);
        assert FillFrom(order, answers, ids, block, tx) == Ok(Some(info)) ==>
          Reports(info, order, answers, ids, i, Host, onHost.value);
      }
    }
  }

  /** One failed query that was needed makes the whole search fail, also when the other chain matched. */
  lemma FindFillFails(order: Order, answers: SearchAnswers, ids: ChainIds)
    ensures FillOf(order, answers, ids).Err? <==>
      || OrdersInWindow(answers).Err?
      || exists i: nat :: Located(order, answers, i) && !BothAnswered(answers, InitiationBlock(order, answers, i))
  {
    if OrdersInWindow(answers).Ok? {
      var first := FirstInitiation(OrdersInWindow(answers).value, order.deadline);
      assert first.Some? ==> Located(order, answers, first.value);
      assert forall i: nat :: Located(order, answers, i) ==> first == Some(i);
    }
  }

  predicate Within(block: Option<U64>, from: U64, to: U64) {
    block.Some? && from <= block.value <= to
  }

  /** The providers return only logs of the range they were asked for. */
  ghost predicate HonourRanges(answers: SearchAnswers) {
    && (forall from, to, log ::
          answers.orderLogs(from, to).Ok? && log in answers.orderLogs(from, to).value ==>
            Within(log.blockNumber, from, to))
    && (forall from, to, log ::
          answers.rollupFills(from, to).Ok? && log in answers.rollupFills(from, to).value ==>
            Within(log.blockNumber, from, to))
    && (forall from, to, log ::
          answers.hostFills(from, to).Ok? && log in answers.hostFills(from, to).value ==>
            Within(log.blockNumber, from, to))
  }

  /** What is reported lies in the very block of the initiation, and that in the window behind the tip. */
  lemma FillIsAtInitiation(order: Order, answers: SearchAnswers, ids: ChainIds, info: FillInfo)
    requires HonourRanges(answers) && FillOf(order, answers, ids) == Ok(Some(info))
    ensures exists i: nat :: Located(order, answers, i) && info.blockNumber == InitiationBlock(order, answers, i)
    ensures answers.rollupTip.Ok? && WindowStart(answers.rollupTip.value) <= info.blockNumber <= answers.rollupTip.value
  {
    FindFillCorrect(order, answers, ids, info);
    var i: nat, chain, k: nat :| Reports(info, order, answers, ids, i, chain, k);
    var block := InitiationBlock(order, answers, i);
    assert OrdersInWindow(answers).value[i] in OrdersInWindow(answers).value;
    assert FillsAt(answers, chain, block).value[k] in FillsAt(answers, chain, block).value;
  }

  // ----- the search against the logs the chains really have

  datatype ChainLogs = ChainLogs(orders: seq<OrderLog>, rollup: seq<FilledLog>, host: seq<FilledLog>)

  /** Every query was answered, with exactly the logs of the range, in chain order. */
  ghost predicate Serve(answers: SearchAnswers, logs: ChainLogs) {
    && answers.rollupTip.Ok?
    && (forall from, to :: answers.orderLogs(from, to) ==
          Ok(Select(logs.orders, (log: OrderLog) => Within(log.blockNumber, from, to))))
    && (forall from, to :: answers.rollupFills(from, to) ==
          Ok(Select(logs.rollup, (log: FilledLog) => Within(log.blockNumber, from, to))))
    && (forall from, to :: answers.hostFills(from, to) ==
          Ok(Select(logs.host, (log: FilledLog) => Within(log.blockNumber, from, to))))
  }

  function InitiationInWindow(logs: ChainLogs, tip: U64, deadline: U64): (first: Option<nat>)
    ensures first.Some? ==> first.value < |logs.orders| && IsInitiation(logs.orders[first.value], deadline)
  {
    First(logs.orders, (log: OrderLog) => Within(log.blockNumber, WindowStart(tip), tip) && IsInitiation(log, deadline))
  }

  function FillInBlock(fills: seq<FilledLog>, block: U64, expected: seq<Output>): (first: Option<nat>)
    ensures first.Some? ==> first.value < |fills| && IsFill(fills[first.value], expected)
  {
    First(fills, (log: FilledLog) => Within(log.blockNumber, block, block) && IsFill(log, expected))
  }

  lemma InitiationServed(order: Order, answers: SearchAnswers, logs: ChainLogs)
    requires Serve(answers, logs)
    ensures OrdersInWindow(answers).Ok?
    ensures var window := OrdersInWindow(answers).value;
      match InitiationInWindow(logs, answers.rollupTip.value, order.deadline)
      case None => FirstInitiation(window, order.deadline).None?
      case Some(i) =>
        var first := FirstInitiation(window, order.deadline);
        first.Some? && window[first.value] == logs.orders[i]
  {
    var tip := answers.rollupTip.value;
    FirstOfSelection(logs.orders, (log: OrderLog) => Within(log.blockNumber, WindowStart(tip), tip),
                     log => IsInitiation(log, order.deadline));
  }

  lemma FillServed(all: seq<FilledLog>, block: U64, expected: seq<Output>)
    ensures var fills := Select(all, (log: FilledLog) => Within(log.blockNumber, block, block));
      match FillInBlock(all, block, expected)
      case None => FirstFill(fills, expected).None?
      case Some(i) => var first := FirstFill(fills, expected); first.Some? && fills[first.value] == all[i]
  {
    FirstOfSelection(all, (log: FilledLog) => Within(log.blockNumber, block, block), log => IsFill(log, expected));
  }

  /** The fill to report for an initiation at this block. */
  function FillOnChain(order: Order, ids: ChainIds, logs: ChainLogs, block: U64, tx: Hash,
                       symbols: seq<string>): Option<FillInfo> {
    match (FillInBlock(logs.rollup, block, order.outputs), FillInBlock(logs.host, block, order.outputs))
    case (Some(k), _) => Some(Report(logs.rollup[k], Rollup, tx, ids, symbols))
    case (None, Some(k)) => Some(Report(logs.host[k], Host, tx, ids, symbols))
    case (None, None) => None
  }

  lemma FillFromOnChain(order: Order, answers: SearchAnswers, ids: ChainIds, logs: ChainLogs, block: U64, tx: Hash)
    requires Serve(answers, logs)
    ensures FillFrom(order, answers, ids, block, tx) == Ok(FillOnChain(order, ids, logs, block, tx, answers.symbols))
  {
    FillServed(logs.rollup, block, order.outputs);
    FillServed(logs.host, block, order.outputs);
  }

  /**
   Against the chains: the search reports the first covering fill in the block of the first
   initiation in the window, rollup before host, and nothing iff the chains have no such pair. An
   initiation older than the window is not found; neither is a fill in any block but its own.
   */
  lemma FindFillOnChain(order: Order, answers: SearchAnswers, ids: ChainIds, logs: ChainLogs)
    requires Serve(answers, logs)
    ensures FillOf(order, answers, ids) ==
      match InitiationInWindow(logs, answers.rollupTip.value, order.deadline)
      case None => Ok(None)
      case Some(i) =>
        Ok(FillOnChain(order, ids, logs, logs.orders[i].blockNumber.value, logs.orders[i].txHash.value,
          answers.symbols))
  {
    InitiationServed(order, answers, logs);
    var i := InitiationInWindow(logs, answers.rollupTip.value, order.deadline);
    if i.Some? {
      var initiation := logs.orders[i.value];
      FillFromOnChain(order, answers, ids, logs, initiation.blockNumber.value, initiation.txHash.value);
    }
  }

  // ----- the same, down to the fields of the logs

  /** An `Order` log with the order's deadline, at most 300 blocks behind the tip. */
  ghost predicate Initiates(log: OrderLog, deadline: U64, tip: U64) {
    && log.txHash.Some? && log.deadline == Some(deadline)
    && log.blockNumber.Some? && log.blockNumber.value <= tip <= log.blockNumber.value + 300
  }

  /** Log `i` is the first of the rollup's `Order` logs that initiates the order. */
  ghost predicate FirstInitiates(logs: ChainLogs, deadline: U64, tip: U64, i: nat) {
    && i < |logs.orders| && Initiates(logs.orders[i], deadline, tip)
    && forall j :: 0 <= j < i ==> !Initiates(logs.orders[j], deadline, tip)
  }

  /** A `Filled` log of the block whose outputs pay all those expected. */
  ghost predicate FillsIn(log: FilledLog, block: U64, expected: seq<Output>) {
    && log.txHash.Some? && log.blockNumber == Some(block) && log.outputs.Some?
    && exists paidBy :: Pays(paidBy, log.outputs.value, expected)
  }

  ghost predicate FirstFillsIn(fills: seq<FilledLog>, block: U64, expected: seq<Output>, k: nat) {
    && k < |fills| && FillsIn(fills[k], block, expected)
    && forall j :: 0 <= j < k ==> !FillsIn(fills[j], block, expected)
  }

  /** `info` describes the first fill, rollup before host, in the block of initiation `i`. */
  ghost predicate FoundAt(info: FillInfo, order: Order, ids: ChainIds, logs: ChainLogs, symbols: seq<string>,
                          i: nat, chain: Chain, k: nat)
    requires i < |logs.orders| && logs.orders[i].txHash.Some? && logs.orders[i].blockNumber.Some?
  {
    var block := logs.orders[i].blockNumber.value;
    && (match chain
        case Rollup => FirstFillsIn(logs.rollup, block, order.outputs, k)
        case Host =>
          && (forall j :: 0 <= j < |logs.rollup| ==> !FillsIn(logs.rollup[j], block, order.outputs))
          && FirstFillsIn(logs.host, block, order.outputs, k))
    && var log := match chain case Rollup => logs.rollup[k] case Host => logs.host[k];
    Describes(info, log, chain, logs.orders[i].txHash.value, ids, symbols)
  }

  /**
   Where every query is answered with the chains' logs, the search succeeds, and it reports a fill
   iff that is the first one, rollup before host, in the block of the first initiation of the last
   300 blocks.
   */
  lemma FindFillExactly(order: Order, answers: SearchAnswers, ids: ChainIds, logs: ChainLogs, info: FillInfo)
    requires Serve(answers, logs)
    ensures FillOf(order, answers, ids).Ok?
    ensures FillOf(order, answers, ids) == Ok(Some(info)) <==>
            exists i: nat, chain, k: nat :: FirstInitiates(logs, order.deadline, answers.rollupTip.value, i)
              && FoundAt(info, order, ids, logs, answers.symbols, i, chain, k)
  {
    var tip := answers.rollupTip.value;
    FindFillOnChain(order, answers, ids, logs);
    var first := InitiationInWindow(logs, tip, order.deadline);
    InitiationIsFirst(logs, order.deadline, tip);
    if first.Some? {
      FillOnChainExactly(order, ids, logs, answers.symbols, first.value, info);
    }
  }

  lemma InitiationIsFirst(logs: ChainLogs, deadline: U64, tip: U64)
    ensures forall i: nat ::
      InitiationInWindow(logs, tip, deadline) == Some(i) <==> FirstInitiates(logs, deadline, tip, i)
  {
    assert forall j :: 0 <= j < |logs.orders| ==>
      (Initiates(logs.orders[j], deadline, tip) <==>
       Within(logs.orders[j].blockNumber, WindowStart(tip), tip) && IsInitiation(logs.orders[j], deadline));
    var first := InitiationInWindow(logs, tip, deadline);
    forall i: nat
      ensures first == Some(i) <==> FirstInitiates(logs, deadline, tip, i)
    {
      if FirstInitiates(logs, deadline, tip, i) {
        assert IsFirst(logs.orders,
                       (log: OrderLog) => Within(log.blockNumber, WindowStart(tip), tip) && IsInitiation(log, deadline),
                       i);
      }
    }
  }

  lemma FillIsFirst(fills: seq<FilledLog>, block: U64, expected: seq<Output>)
    ensures forall k: nat :: FillInBlock(fills, block, expected) == Some(k) <==> FirstFillsIn(fills, block, expected, k)
    ensures FillInBlock(fills, block, expected) == None <==>
            forall j :: 0 <= j < |fills| ==> !FillsIn(fills[j], block, expected)
  {
    forall j | 0 <= j < |fills|
      ensures FillsIn(fills[j], block, expected) <==>
              Within(fills[j].blockNumber, block, block) && IsFill(fills[j], expected)
    {
      if fills[j].outputs.Some? {
        CoversIffPaid(fills[j].outputs.value, expected);
      }
    }
    forall k: nat
      ensures FillInBlock(fills, block, expected) == Some(k) <==> FirstFillsIn(fills, block, expected, k)
    {
      if FirstFillsIn(fills, block, expected, k) {
        assert IsFirst(fills, (log: FilledLog) => Within(log.blockNumber, block, block) && IsFill(log, expected), k);
      }
    }
  }

  /** Where a log is the first fill, rollup before host, only it can have been found. */
  lemma FoundOnly(order: Order, ids: ChainIds, logs: ChainLogs, symbols: seq<string>, i: nat, on: Chain, first: nat,
                  info: FillInfo)
    requires i < |logs.orders| && logs.orders[i].txHash.Some? && logs.orders[i].blockNumber.Some?
    requires var block := logs.orders[i].blockNumber.value;
      match on
      case Rollup => FirstFillsIn(logs.rollup, block, order.outputs, first)
      case Host =>
        && (forall j :: 0 <= j < |logs.rollup| ==> !FillsIn(logs.rollup[j], block, order.outputs))
        && FirstFillsIn(logs.host, block, order.outputs, first)
    ensures var log := match on case Rollup => logs.rollup[first] case Host => logs.host[first];
      info == Report(log, on, logs.orders[i].txHash.value, ids, symbols) <==>
      exists chain, k: nat :: FoundAt(info, order, ids, logs, symbols, i, chain, k)
  {
    var log := match on case Rollup => logs.rollup[first] case Host => logs.host[first];
    ReportDescribes(info, log, on, logs.orders[i].txHash.value, ids, symbols);
    if chain, k: nat :| FoundAt(info, order, ids, logs, symbols, i, chain, k) {
      assert chain == on && k == first;
    }
    if info == Report(log, on, logs.orders[i].txHash.value, ids, symbols) {
      assert FoundAt(info, order, ids, logs, symbols, i, on, first);
    }
  }

  lemma FillOnChainExactly(order: Order, ids: ChainIds, logs: ChainLogs, symbols: seq<string>, i: nat, info: FillInfo)
    requires i < |logs.orders| && logs.orders[i].txHash.Some? && logs.orders[i].blockNumber.Some?
    ensures var block, tx := logs.orders[i].blockNumber.value, logs.orders[i].txHash.value;
      FillOnChain(order, ids, logs, block, tx, symbols) == Some(info) <==>
      exists chain, k: nat :: FoundAt(info, order, ids, logs, symbols, i, chain, k)
  {
    var block, tx := logs.orders[i].blockNumber.value, logs.orders[i].txHash.value;
    FillIsFirst(logs.rollup, block, order.outputs);
    FillIsFirst(logs.host, block, order.outputs);
    var onRollup := FillInBlock(logs.rollup, block, order.outputs);
    var onHost := FillInBlock(logs.host, block, order.outputs);
    if onRollup.Some? {
      FoundOnly(order, ids, logs, symbols, i, Rollup, onRollup.value, info);
    } else if onHost.Some? {
      FoundOnly(order, ids, logs, symbols, i, Host, onHost.value, info);
    }
  }
}

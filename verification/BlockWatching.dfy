/** Publishing block tips: each rollup header waits for the host chain to advance as well. */
module BlockWatching {
  import opened OrderTypes
  import opened EventHistory
  import opened Sequences

  /** What one round of the host poll meets. */
  datatype Tick = Tip(tip: U64) | QueryFailed | Cancelled

  datatype PollOutcome = Advanced(tip: U64) | Stopped | Errored | Waiting

  datatype Header = Header(number: U64, ticks: seq<Tick>) | Lagged | Closed | ShutDown

  predicate Stale(tick: Tick, previous: U64) {
    tick.Tip? && tick.tip <= previous
  }

  /** This is the first tick that is not the tip of a block already known. */
  ghost predicate Decides(ticks: seq<Tick>, previous: U64, tick: Tick) {
    exists i :: 0 <= i < |ticks| && ticks[i] == tick && (tick.Tip? ==> tick.tip > previous)
      && forall j :: 0 <= j < i ==> ticks[j].Tip? && ticks[j].tip <= previous
  }

  /** The first round that does not report a stale tip decides. */
  method PollHostTip(previous: U64, ticks: seq<Tick>) returns (outcome: PollOutcome)
    ensures outcome.Waiting? <==> forall i :: 0 <= i < |ticks| ==> Stale(ticks[i], previous)
    ensures !outcome.Waiting? ==>
      exists i :: 0 <= i < |ticks|
        && !Stale(ticks[i], previous) && (forall j :: 0 <= j < i ==> Stale(ticks[j], previous))
        && outcome == match ticks[i]
                      case Tip(tip) => Advanced(tip)
                      case QueryFailed => Errored
                      case Cancelled => Stopped
    ensures outcome.Advanced? ==> outcome.tip > previous
    ensures match outcome
            case Advanced(tip) => Decides(ticks, previous, Tip(tip))
            case Errored => Decides(ticks, previous, QueryFailed)
            case Stopped => Decides(ticks, previous, Cancelled)
            case Waiting => forall j :: 0 <= j < |ticks| ==> ticks[j].Tip? && ticks[j].tip <= previous
  {
    for i := 0 to |ticks|
      invariant forall j :: 0 <= j < i ==> Stale(ticks[j], previous)
    {
      match ticks[i] {
        case Cancelled =>
          assert !Stale(ticks[i], previous);
          return Stopped;
        case QueryFailed =>
          assert !Stale(ticks[i], previous);
          return Errored;
        case Tip(tip) =>
          if tip > previous {
            assert !Stale(ticks[i], previous);
            return Advanced(tip);
          }
      }
    }
    return Waiting;
  }

  ghost predicate HostsIncrease(published: seq<BlockTip>) {
    forall i, j :: 0 <= i < j < |published| ==> published[i].host < published[j].host
  }

  /** Host tips never decrease, and only the very last publication may repeat one. */
  ghost predicate HostsAdvance(published: seq<BlockTip>) {
    && (forall i, j :: 0 <= i < j < |published| ==> published[i].host <= published[j].host)
    && (forall i, j :: 0 <= i < j < |published| - 1 ==> published[i].host < published[j].host)
  }

  ghost predicate Arrived(headers: seq<Header>, number: U64) {
    exists i :: 0 <= i < |headers| && headers[i].Header? && headers[i].number == number
  }

  /** The rollup side of every publication after the initial one is a header that arrived. */
  ghost predicate FromHeaders(published: seq<BlockTip>, headers: seq<Header>) {
    forall k :: 1 <= k < |published| ==> Arrived(headers, published[k].rollup)
  }

  /** One publication for each of the first `n` headers: its number, with the first host tip past the one before. */
  ghost predicate OnePerHeader(published: seq<BlockTip>, headers: seq<Header>, n: nat, at: seq<nat>) {
    && n <= |headers|
    && (forall j :: 0 <= j < n ==> headers[j].Header? || headers[j].Lagged?)
    && Picks(at, n, (i: nat) => i < |headers| && headers[i].Header?)
    && |published| == |at| + 1
    && forall k :: 0 <= k < |at| ==>
         at[k] < |headers| && PublishedFor(published[k], headers[at[k]], published[k + 1])
  }

  ghost predicate PublishedFor(before: BlockTip, header: Header, next: BlockTip) {
    header.Header? && next.rollup == header.number && Decides(header.ticks, before.host, Tip(next.host))
  }

  /** Why the watcher stops at entry `end`, and what it publishes in stopping. */
  ghost predicate StopsAt(headers: seq<Header>, end: nat, last: BlockTip, final: seq<BlockTip>, cancelled: bool) {
    if end >= |headers| then final == [] && !cancelled
    else
      match headers[end]
      case ShutDown => final == [] && cancelled
      case Closed => final == [] && !cancelled
      case Lagged => false
      case Header(number, ticks) =>
        if Decides(ticks, last.host, Cancelled) then final == [BlockTip(number, last.host)] && cancelled
        else
          && final == [] && !cancelled
          && (Decides(ticks, last.host, QueryFailed)
              || forall j :: 0 <= j < |ticks| ==> ticks[j].Tip? && ticks[j].tip <= last.host)
  }

  /** Everything the watcher publishes: the initial tip, one tip per header it got through, and what it stops with. */
  ghost predicate Watched(initial: BlockTip, headers: seq<Header>, published: seq<BlockTip>, cancelled: bool) {
    exists end: nat, at: seq<nat>, regular: seq<BlockTip>, final: seq<BlockTip> ::
      && OnePerHeader(regular, headers, end, at) && regular[0] == initial
      && StopsAt(headers, end, regular[|regular| - 1], final, cancelled)
      && published == regular + final
  }

  lemma DecidesOnce(ticks: seq<Tick>, previous: U64, a: Tick, b: Tick)
    requires Decides(ticks, previous, a) && Decides(ticks, previous, b)
    ensures a == b
  {
    var i :| 0 <= i < |ticks| && ticks[i] == a && (a.Tip? ==> a.tip > previous)
      && forall j :: 0 <= j < i ==> ticks[j].Tip? && ticks[j].tip <= previous;
    var k :| 0 <= k < |ticks| && ticks[k] == b && (b.Tip? ==> b.tip > previous)
      && forall j :: 0 <= j < k ==> ticks[j].Tip? && ticks[j].tip <= previous;
    assert i <= k && k <= i;
  }

  lemma OneMoreHeader(published: seq<BlockTip>, headers: seq<Header>, i: nat, at: seq<nat>, tip: U64)
    requires OnePerHeader(published, headers, i, at) && i < |headers| && headers[i].Header?
    requires Decides(headers[i].ticks, published[|published| - 1].host, Tip(tip))
    ensures OnePerHeader(published + [BlockTip(headers[i].number, tip)], headers, i + 1, at + [i])
    ensures (published + [BlockTip(headers[i].number, tip)])[0] == published[0]
  {
    var next := published + [BlockTip(headers[i].number, tip)];
    PicksNext(at, i, (j: nat) => j < |headers| && headers[j].Header?);
    assert PublishedFor(published[|published| - 1], headers[i], BlockTip(headers[i].number, tip));
    forall k | 0 <= k < |at| + 1
      ensures (at + [i])[k] < |headers| && PublishedFor(next[k], headers[(at + [i])[k]], next[k + 1])
    {
      if k < |at| {
        assert PublishedFor(published[k], headers[at[k]], published[k + 1]);
      }
    }
  }

  lemma OneMoreLag(published: seq<BlockTip>, headers: seq<Header>, i: nat, at: seq<nat>)
    requires OnePerHeader(published, headers, i, at) && i < |headers| && headers[i].Lagged?
    ensures OnePerHeader(published, headers, i + 1, at)
  {
    PicksNext(at, i, (j: nat) => j < |headers| && headers[j].Header?);
  }

  lemma WatchedUpTo(initial: BlockTip, headers: seq<Header>, end: nat, at: seq<nat>, regular: seq<BlockTip>,
                    final: seq<BlockTip>, cancelled: bool)
    requires OnePerHeader(regular, headers, end, at) && regular[0] == initial
    requires StopsAt(headers, end, regular[|regular| - 1], final, cancelled)
    ensures Watched(initial, headers, regular + final, cancelled)
    ensures regular + [] == regular
  {
  }

  lemma PublishNext(published: seq<BlockTip>, headers: seq<Header>, next: BlockTip)
    requires published != [] && HostsIncrease(published) && FromHeaders(published, headers)
    requires Arrived(headers, next.rollup) && published[|published| - 1].host <= next.host
    ensures HostsAdvance(published + [next]) && FromHeaders(published + [next], headers)
    ensures published[|published| - 1].host < next.host ==> HostsIncrease(published + [next])
  {
  }

  /**
   Every tip ever in the watch channel, the initial one first. Cancellation while waiting for the
   host publishes the old host tip once more and ends the loop.
   */
  method WatchBlocks(initial: BlockTip, headers: seq<Header>) returns (published: seq<BlockTip>, cancelled: bool)
    ensures published != [] && published[0] == initial
    ensures HostsAdvance(published) && FromHeaders(published, headers)
    ensures !cancelled ==> HostsIncrease(published)
    ensures Watched(initial, headers, published, cancelled)
  {
    published, cancelled := [initial], false;
    ghost var at: seq<nat> := [];
    for i := 0 to |headers|
      invariant published != [] && published[0] == initial && !cancelled
      invariant HostsIncrease(published) && FromHeaders(published, headers)
      invariant OnePerHeader(published, headers, i, at)
    {
      match headers[i] {
        case ShutDown =>
          WatchedUpTo(initial, headers, i, at, published, [], true);
          return published, true;
        case Closed =>
          WatchedUpTo(initial, headers, i, at, published, [], false);
          return;
        case Lagged => OneMoreLag(published, headers, i, at);
        case Header(number, ticks) =>
          assert headers[i].Header? && headers[i].number == number;
          var previous := published[|published| - 1].host;
          var outcome := PollHostTip(previous, ticks);
          Undecided(ticks, previous, outcome);
          match outcome {
            case Advanced(tip) =>
              PublishNext(published, headers, BlockTip(number, tip));
              OneMoreHeader(published, headers, i, at, tip);
              published, at := published + [BlockTip(number, tip)], at + [i];
            case Stopped =>
              PublishNext(published, headers, BlockTip(number, previous));
              WatchedUpTo(initial, headers, i, at, published, [BlockTip(number, previous)], true);
              published := published + [BlockTip(number, previous)];
              return published, true;
            case Errored =>
              WatchedUpTo(initial, headers, i, at, published, [], false);
              return;
            case Waiting =>
              WatchedUpTo(initial, headers, i, at, published, [], false);
              return;
          }
      }
    }
    WatchedUpTo(initial, headers, |headers|, at, published, [], false);
  }

  /** What decides is not a cancellation unless the poll came out stopped. */
  lemma Undecided(ticks: seq<Tick>, previous: U64, outcome: PollOutcome)
    requires match outcome
             case Advanced(tip) => Decides(ticks, previous, Tip(tip))
             case Errored => Decides(ticks, previous, QueryFailed)
             case Stopped => Decides(ticks, previous, Cancelled)
             case Waiting => forall j :: 0 <= j < |ticks| ==> ticks[j].Tip? && ticks[j].tip <= previous
    ensures Decides(ticks, previous, Cancelled) <==> outcome.Stopped?
  {
    if Decides(ticks, previous, Cancelled) {
      match outcome {
        case Advanced(tip) => DecidesOnce(ticks, previous, Cancelled, Tip(tip));
        case Errored => DecidesOnce(ticks, previous, Cancelled, QueryFailed);
        case Stopped =>
        case Waiting =>
      }
    }
  }

  /** Call `i` of the history updated the tips to the `at[i]`-th published value; the channel may skip some. */
  ghost predicate DeliveredFrom(h: seq<StoreOp>, published: seq<BlockTip>, at: seq<nat>) {
    && |at| == |h|
    && (forall i :: 0 <= i < |h| && h[i].UpdateTips? ==> at[i] < |published| && h[i].tip == published[at[i]])
    && (forall i, j :: 0 <= i < j < |h| && h[i].UpdateTips? && h[j].UpdateTips? ==> at[i] < at[j])
  }

  /**
   Whatever subsequence of the published tips the channel delivers, the host survivors are decided
   by the latest one alone. (Rollup tips are whatever header arrived, so there nothing like it holds.)
   */
  lemma HostSurvivalByLatestTip(h: seq<StoreOp>, published: seq<BlockTip>, at: seq<nat>, i: nat, latest: nat,
                                retention: U64)
    requires HostsAdvance(published) && DeliveredFrom(h, published, at)
    requires i < latest < |h| && h[i].InsertFilled? && h[i].event.chain == Host
    requires h[latest].UpdateTips? && forall j :: latest < j < |h| ==> !h[j].UpdateTips?
    ensures Survives(h, i, retention, Host) <==> Cutoff(h[latest].tip.host, retention) <= h[i].event.blockNumber
  {
    forall a, b | 0 <= a < b < |h| && h[a].UpdateTips? && h[b].UpdateTips?
      ensures TipOf(h[a].tip, Host) <= TipOf(h[b].tip, Host)
    {
      assert at[a] < at[b];
    }
    SurvivalByLatestTip(h, i, latest, retention, Host);
  }
}

/** Polling the transaction cache and forwarding the orders that are new in it. */
module OrderDiscovery {
  import opened Wrappers
  import opened OrderTypes
  import opened Sequences

  /** One poll: the whole cache, or the orders streamed before the stream failed. */
  datatype Poll = Fetched(orders: seq<Order>) | Failed(orders: seq<Order>)

  function HashesUpTo(orders: seq<Order>, n: nat): set<Hash>
    requires n <= |orders|
    decreases n
  {
    if n == 0 then {} else HashesUpTo(orders, n - 1) + {orders[n - 1].hash}
  }

  function HashesOf(orders: seq<Order>): set<Hash> {
    HashesUpTo(orders, |orders|)
  }

  /** The first occurrences, among the first `n` orders, of hashes not seen before. */
  function NewUpTo(orders: seq<Order>, seen: set<Hash>, n: nat): seq<Order>
    requires n <= |orders|
    decreases n
  {
    if n == 0 then []
    else
      NewUpTo(orders, seen, n - 1) +
      (if orders[n - 1].hash in seen || orders[n - 1].hash in HashesUpTo(orders, n - 1) then [] else [orders[n - 1]])
  }

  function NewIn(orders: seq<Order>, seen: set<Hash>): seq<Order> {
    NewUpTo(orders, seen, |orders|)
  }

  /** `seen_hashes` after the first `n` polls. A failed poll leaves its partial stream behind. */
  function SeenAfter(polls: seq<Poll>, n: nat): set<Hash>
    requires n <= |polls|
    decreases n
  {
    if n == 0 then {}
    else match polls[n - 1]
         case Fetched(orders) => HashesOf(orders)
         case Failed(orders) => SeenAfter(polls, n - 1) + HashesOf(orders)
  }

  function ForwardedBy(polls: seq<Poll>, k: nat): seq<Order>
    requires k < |polls|
  {
    if polls[k].Fetched? then NewIn(polls[k].orders, SeenAfter(polls, k)) else []
  }

  function Forwarded(polls: seq<Poll>, n: nat): seq<Order>
    requires n <= |polls|
    decreases n
  {
    if n == 0 then [] else Forwarded(polls, n - 1) + ForwardedBy(polls, n - 1)
  }

  /** The hashes last published: those of the latest successful poll. */
  function CachedAfter(polls: seq<Poll>, n: nat): set<Hash>
    requires n <= |polls|
    decreases n
  {
    if n == 0 then {} else if polls[n - 1].Fetched? then HashesOf(polls[n - 1].orders) else CachedAfter(polls, n - 1)
  }

  // ----- the code

  /** The stream filter inserts into both sets as it goes; only a completed stream is pruned. */
  method PollCache(poll: Poll, seen: set<Hash>) returns (seen': set<Hash>, found: Result<(seq<Order>, set<Hash>)>)
    ensures match poll
            case Fetched(orders) => seen' == HashesOf(orders) && found == Ok((NewIn(orders, seen), HashesOf(orders)))
            case Failed(orders) => seen' == seen + HashesOf(orders) && found == Err
  {
    var current: set<Hash> := {};
    var newOrders := [];
    seen' := seen;
    for i := 0 to |poll.orders|
      invariant current == HashesUpTo(poll.orders, i)
      invariant seen' == seen + HashesUpTo(poll.orders, i)
      invariant newOrders == NewUpTo(poll.orders, seen, i)
    {
      var hash := poll.orders[i].hash;
      current := current + {hash};
      if hash !in seen' {
        newOrders := newOrders + [poll.orders[i]];
      }
      seen' := seen' + {hash};
    }
    if poll.Failed? {
      return seen', Err;
    }
    seen' := set h | h in seen' && h in current;
    return seen', Ok((newOrders, current));
  }

  /** The polling loop: what reaches the state manager, and the hashes last published as cached. */
  method RunInner(polls: seq<Poll>) returns (forwarded: seq<Order>, cached: set<Hash>, ghost seen: set<Hash>)
    ensures forwarded == Forwarded(polls, |polls|) && seen == SeenAfter(polls, |polls|)
    ensures cached == CachedAfter(polls, |polls|)
  {
    forwarded, cached := [], {};
    var seenHashes: set<Hash> := {};
    for i := 0 to |polls|
      invariant forwarded == Forwarded(polls, i) && seenHashes == SeenAfter(polls, i)
      invariant cached == CachedAfter(polls, i)
    {
      var seen', found := PollCache(polls[i], seenHashes);
      seenHashes := seen';
      match found {
        case Ok((newOrders, current)) =>
          cached := current;
          forwarded := forwarded + newOrders;
        case Err =>
      }
    }
    seen := seenHashes;
  }

  // ----- whole runs of polls

  predicate Has(poll: Poll, h: Hash) {
    h in HashesOf(poll.orders)
  }

  predicate Forwards(polls: seq<Poll>, k: nat, h: Hash)
    requires k < |polls|
  {
    h in HashesOf(ForwardedBy(polls, k))
  }

  /** Poll `j` showed the hash, and no later successful poll before `k` was without it. */
  ghost predicate ShownSince(polls: seq<Poll>, j: nat, k: nat, h: Hash) {
    j < k <= |polls| && Has(polls[j], h) && forall i :: j < i < k && polls[i].Fetched? ==> Has(polls[i], h)
  }

  lemma {:induction false} SeenIffShown(polls: seq<Poll>, k: nat, h: Hash)
    requires k <= |polls|
    ensures h in SeenAfter(polls, k) <==> exists j :: ShownSince(polls, j, k, h)
    decreases k
  {
    if k == 0 {
    } else {
      SeenIffShown(polls, k - 1, h);
      if h in SeenAfter(polls, k) {
        if Has(polls[k - 1], h) {
          assert ShownSince(polls, k - 1, k, h);
        } else {
          var j: nat :| ShownSince(polls, j, k - 1, h);
          assert ShownSince(polls, j, k, h);
        }
      }
      if j: nat :| ShownSince(polls, j, k, h) {
        if j < k - 1 {
          assert ShownSince(polls, j, k - 1, h);
        }
      }
    }
  }

  lemma {:induction false} NewCount(orders: seq<Order>, seen: set<Hash>, n: nat, h: Hash)
    requires n <= |orders|
    ensures CountHash(NewUpTo(orders, seen, n), h) == if h in HashesUpTo(orders, n) && h !in seen then 1 else 0
    ensures h in HashesOf(NewUpTo(orders, seen, n)) <==> h in HashesUpTo(orders, n) && h !in seen
    decreases n
  {
    if n == 0 {
    } else {
      var k := n - 1;
      NewCount(orders, seen, k, h);
      AppendOne(NewUpTo(orders, seen, k), orders[k], h);
      if orders[k].hash in seen || orders[k].hash in HashesUpTo(orders, k) {
        assert NewUpTo(orders, seen, n) == NewUpTo(orders, seen, k);
      } else {
        assert NewUpTo(orders, seen, n) == NewUpTo(orders, seen, k) + [orders[k]];
      }
    }
  }

  lemma AppendOne(orders: seq<Order>, x: Order, h: Hash)
    ensures CountHash(orders + [x], h) == CountHash(orders, h) + (if x.hash == h then 1 else 0)
    ensures HashesOf(orders + [x]) == HashesOf(orders) + {x.hash}
  {
    CountSnoc(orders, x, (order: Order) => order.hash == h);
    HashesPrefix(orders, [x], |orders|);
  }

  function CountHash(orders: seq<Order>, h: Hash): nat {
    Count(orders, (order: Order) => order.hash == h, |orders|)
  }

  lemma CountHashConcat(a: seq<Order>, b: seq<Order>, h: Hash)
    ensures CountHash(a + b, h) == CountHash(a, h) + CountHash(b, h)
  {
    CountConcat(a, b, (order: Order) => order.hash == h);
  }

  lemma {:induction false} HashesPrefix(orders: seq<Order>, more: seq<Order>, n: nat)
    requires n <= |orders|
    ensures HashesUpTo(orders + more, n) == HashesUpTo(orders, n)
    decreases n
  {
    if n == 0 {
    } else {
      HashesPrefix(orders, more, n - 1);
    }
  }

  /**
   A poll forwards a hash iff it succeeded, has it, and the hash was not shown since a success without
   it; then once.
   */
  lemma ForwardsIff(polls: seq<Poll>, k: nat, h: Hash)
    requires k < |polls|
    ensures Forwards(polls, k, h) <==>
            polls[k].Fetched? && Has(polls[k], h) && !exists j :: ShownSince(polls, j, k, h)
    ensures CountHash(ForwardedBy(polls, k), h) == if Forwards(polls, k, h) then 1 else 0
  {
    SeenIffShown(polls, k, h);
    NewCount(polls[k].orders, SeenAfter(polls, k), |polls[k].orders|, h);
  }

  /** No hash is forwarded twice without a successful poll in between from which it was absent. */
  lemma NotForwardedTwice(polls: seq<Poll>, k: nat, l: nat, h: Hash)
    requires k < l < |polls| && Forwards(polls, k, h) && Forwards(polls, l, h)
    ensures exists i :: k < i < l && polls[i].Fetched? && !Has(polls[i], h)
  {
    ForwardsIff(polls, k, h);
    ForwardsIff(polls, l, h);
    assert !ShownSince(polls, k, l, h);
  }

  /** The latest successful poll before `k`, if any, was without the hash. */
  ghost predicate AbsentBefore(polls: seq<Poll>, k: nat, h: Hash)
    requires k <= |polls|
  {
    forall i :: 0 <= i < k && polls[i].Fetched? && (forall j :: i < j < k ==> polls[j].Failed?) ==> !Has(polls[i], h)
  }

  /**
   An order that entered the cache since the last successful poll is forwarded by the next one iff
   no failed poll in between had streamed it already. If one had, the order counts as seen.
   */
  lemma NewOrderForwardedIff(polls: seq<Poll>, k: nat, h: Hash)
    requires k < |polls| && polls[k].Fetched? && Has(polls[k], h) && AbsentBefore(polls, k, h)
    ensures Forwards(polls, k, h) <==>
            forall j :: 0 <= j < k && Has(polls[j], h) ==> exists i :: j < i < k && polls[i].Fetched?
  {
    ForwardsIff(polls, k, h);
    if Forwards(polls, k, h) {
      forall j | 0 <= j < k && Has(polls[j], h)
        ensures exists i :: j < i < k && polls[i].Fetched?
      {
        assert !ShownSince(polls, j, k, h);
      }
    } else {
      var j: nat :| ShownSince(polls, j, k, h);
      ShownSinceSuccess(polls, j, k, h);
    }
  }

  lemma ShownSinceSuccess(polls: seq<Poll>, j: nat, k: nat, h: Hash)
    requires ShownSince(polls, j, k, h) && AbsentBefore(polls, k, h)
    ensures !exists i :: j < i < k && polls[i].Fetched?
  {
    if i :| j < i < k && polls[i].Fetched? {
      var last := LastFetched(polls, i, k);
    }
  }

  lemma {:induction false} LastFetched(polls: seq<Poll>, i: nat, k: nat) returns (last: nat)
    requires i < k <= |polls| && polls[i].Fetched?
    ensures i <= last < k && polls[last].Fetched? && forall j :: last < j < k ==> polls[j].Failed?
    decreases k
  {
    if polls[k - 1].Fetched? {
      last := k - 1;
    } else {
      last := LastFetched(polls, i, k - 1);
    }
  }

  /**
   Once a poll has shown a hash, it is not forwarded until a successful poll was without it. It makes
   no difference that the poll which showed it failed and forwarded nothing.
   */
  lemma FailedPollHidesOrder(polls: seq<Poll>, i: nat, k: nat, h: Hash)
    requires i < k < |polls| && Has(polls[i], h)
    requires forall j :: i < j < k && polls[j].Fetched? ==> Has(polls[j], h)
    ensures !Forwards(polls, k, h)
  {
    ForwardsIff(polls, k, h);
    assert ShownSince(polls, i, k, h);
  }

  lemma ForwardedCountNext(polls: seq<Poll>, k: nat, n: nat, h: Hash)
    requires n == k + 1 <= |polls|
    ensures CountHash(Forwarded(polls, n), h) == CountHash(Forwarded(polls, k), h) + CountHash(ForwardedBy(polls, k), h)
  {
    CountHashConcat(Forwarded(polls, k), ForwardedBy(polls, k), h);
  }

  /** Polls `0..i` never showed the hash, poll `i` failed after streaming it, and no later success is without it. */
  ghost predicate HiddenFrom(polls: seq<Poll>, i: nat, h: Hash) {
    && i < |polls| && polls[i].Failed? && Has(polls[i], h)
    && (forall j :: 0 <= j < i ==> !Has(polls[j], h))
    && (forall j :: i < j < |polls| && polls[j].Fetched? ==> Has(polls[j], h))
  }

  lemma HiddenAt(polls: seq<Poll>, i: nat, k: nat, h: Hash)
    requires k < |polls| && HiddenFrom(polls, i, h)
    ensures CountHash(ForwardedBy(polls, k), h) == 0
  {
    ForwardsIff(polls, k, h);
    if i < k {
      FailedPollHidesOrder(polls, i, k, h);
    }
  }

  /** An order first streamed by a poll that fails, and in the cache ever after, is never forwarded at all. */
  lemma {:induction false} HiddenForGood(polls: seq<Poll>, i: nat, n: nat, h: Hash)
    requires n <= |polls| && HiddenFrom(polls, i, h)
    ensures CountHash(Forwarded(polls, n), h) == 0
    decreases n
  {
    if n == 0 {
    } else {
      var k := n - 1;
      HiddenForGood(polls, i, k, h);
      HiddenAt(polls, i, k, h);
      ForwardedCountNext(polls, k, n, h);
    }
  }

  /** The smallest such run. */
  lemma HiddenExample(order: Order)
    ensures CountHash(Forwarded([Failed([order]), Fetched([order])], 2), order.hash) == 0
  {
    var polls := [Failed([order]), Fetched([order])];
    assert HashesUpTo([order], 1) == HashesUpTo([order], 0) + {order.hash};
    HiddenForGood(polls, 0, 2, order.hash);
  }

  /** Every hash published as cached is also seen; the two differ by what failed polls streamed since. */
  lemma {:induction false} CachedIsSeen(polls: seq<Poll>, n: nat)
    requires n <= |polls|
    ensures CachedAfter(polls, n) <= SeenAfter(polls, n)
    decreases n
  {
    if n == 0 {
    } else {
      CachedIsSeen(polls, n - 1);
    }
  }

  // ----- the same, down to the orders of the polls

  /** The poll streamed an order with this hash. */
  predicate Shows(poll: Poll, h: Hash) {
    exists i :: 0 <= i < |poll.orders| && poll.orders[i].hash == h
  }

  lemma {:induction false} HashesAreShown(orders: seq<Order>, n: nat, h: Hash)
    requires n <= |orders|
    ensures h in HashesUpTo(orders, n) <==> exists i :: 0 <= i < n && orders[i].hash == h
    decreases n
  {
    if n == 0 {
    } else {
      HashesAreShown(orders, n - 1, h);
    }
  }

  /** Poll `j` showed the hash, and every successful poll since, up to `k`, did too. */
  ghost predicate StillShown(polls: seq<Poll>, j: nat, k: nat, h: Hash) {
    j < k <= |polls| && Shows(polls[j], h) && forall l :: j < l < k && polls[l].Fetched? ==> Shows(polls[l], h)
  }

  lemma HasIffShows(poll: Poll, h: Hash)
    ensures Has(poll, h) <==> Shows(poll, h)
  {
    HashesAreShown(poll.orders, |poll.orders|, h);
  }

  lemma SeenIffStillShown(polls: seq<Poll>, k: nat, h: Hash)
    requires k <= |polls|
    ensures h in SeenAfter(polls, k) <==> exists j :: StillShown(polls, j, k, h)
  {
    SeenIffShown(polls, k, h);
    forall j | 0 <= j < |polls|
      ensures Has(polls[j], h) <==> Shows(polls[j], h)
    {
      HasIffShows(polls[j], h);
    }
    if j: nat :| ShownSince(polls, j, k, h) {
      assert StillShown(polls, j, k, h);
    }
    if j: nat :| StillShown(polls, j, k, h) {
      assert ShownSince(polls, j, k, h);
    }
  }

  /** Order `i` of poll `k` is to be forwarded: the poll succeeded, and neither it nor one before showed it earlier. */
  ghost predicate Due(polls: seq<Poll>, k: nat, i: nat) {
    && k < |polls| && polls[k].Fetched? && i < |polls[k].orders|
    && (forall l :: 0 <= l < i ==> polls[k].orders[l].hash != polls[k].orders[i].hash)
    && !exists j :: StillShown(polls, j, k, polls[k].orders[i].hash)
  }

  /** These are the orders at the places listed. */
  ghost predicate At(found: seq<Order>, orders: seq<Order>, at: seq<nat>) {
    |found| == |at| && forall l :: 0 <= l < |at| ==> at[l] < |orders| && found[l] == orders[at[l]]
  }

  predicate IsNew(orders: seq<Order>, seen: set<Hash>, i: nat) {
    i < |orders| && orders[i].hash !in seen && orders[i].hash !in HashesUpTo(orders, i)
  }

  lemma NewNext(orders: seq<Order>, seen: set<Hash>, k: nat)
    requires k < |orders|
    ensures NewUpTo(orders, seen, k + 1) ==
            if IsNew(orders, seen, k) then NewUpTo(orders, seen, k) + [orders[k]] else NewUpTo(orders, seen, k)
  {
    ConcatEmpty(NewUpTo(orders, seen, k));
  }

  lemma AtNext(found: seq<Order>, orders: seq<Order>, at: seq<nat>, k: nat)
    requires At(found, orders, at) && k < |orders|
    ensures At(found + [orders[k]], orders, at + [k])
  {
  }

  lemma {:induction false} NewAreAt(orders: seq<Order>, seen: set<Hash>, n: nat) returns (at: seq<nat>)
    requires n <= |orders|
    ensures Picks(at, n, (i: nat) => IsNew(orders, seen, i))
    ensures At(NewUpTo(orders, seen, n), orders, at)
    decreases n
  {
    if n == 0 {
      at := [];
    } else {
      var k := n - 1;
      at := NewAreAt(orders, seen, k);
      PicksNext(at, k, (i: nat) => IsNew(orders, seen, i));
      NewNext(orders, seen, k);
      if IsNew(orders, seen, k) {
        AtNext(NewUpTo(orders, seen, k), orders, at, k);
        at := at + [k];
      }
    }
  }

  /** What a poll forwards are its own orders, in its order: exactly those that are due. */
  lemma ForwardsItsOwn(polls: seq<Poll>, k: nat) returns (at: seq<nat>)
    requires k < |polls|
    ensures Picks(at, |polls[k].orders|, (i: nat) => Due(polls, k, i))
    ensures At(ForwardedBy(polls, k), polls[k].orders, at)
    ensures Forwarded(polls, 0) == [] && Forwarded(polls, k + 1) == Forwarded(polls, k) + ForwardedBy(polls, k)
  {
    var orders := polls[k].orders;
    if polls[k].Fetched? {
      at := NewAreAt(orders, SeenAfter(polls, k), |orders|);
      forall i: nat | i < |orders|
        ensures Due(polls, k, i) <==> orders[i].hash !in SeenAfter(polls, k) && orders[i].hash !in HashesUpTo(orders, i)
      {
        HashesAreShown(orders, i, orders[i].hash);
        SeenIffStillShown(polls, k, orders[i].hash);
      }
    } else {
      at := [];
    }
  }

  /** The hashes last published are those the latest successful poll showed; before any, there are none. */
  lemma {:induction false} CachedIsLatest(polls: seq<Poll>, n: nat, h: Hash)
    requires n <= |polls|
    ensures h in CachedAfter(polls, n) <==>
            exists k :: 0 <= k < n && polls[k].Fetched? && Shows(polls[k], h)
              && forall l :: k < l < n ==> polls[l].Failed?
    decreases n
  {
    if n == 0 {
    } else {
      CachedIsLatest(polls, n - 1, h);
      HasIffShows(polls[n - 1], h);
    }
  }

  // ----- runs in which every poll succeeds

  ghost predicate AllFetched(polls: seq<Poll>) {
    forall k :: 0 <= k < |polls| ==> polls[k].Fetched?
  }

  /** The hash is in the cache at poll `k` and was not at the poll before. */
  predicate Enters(polls: seq<Poll>, k: nat, h: Hash)
    requires k < |polls|
  {
    Has(polls[k], h) && (k == 0 || !Has(polls[k - 1], h))
  }

  function Entries(polls: seq<Poll>, n: nat, h: Hash): nat
    requires n <= |polls|
  {
    Count(Indices(|polls|), (k: nat) => k < |polls| && Enters(polls, k, h), n)
  }

  /** Without failures a poll forwards, once, exactly what entered; what is seen is the current cache. */
  lemma ForwardsWhatEnters(polls: seq<Poll>, k: nat, h: Hash)
    requires AllFetched(polls) && k < |polls|
    ensures Forwards(polls, k, h) <==> Enters(polls, k, h)
    ensures CountHash(ForwardedBy(polls, k), h) == if Enters(polls, k, h) then 1 else 0
    ensures SeenAfter(polls, k + 1) == HashesOf(polls[k].orders)
  {
    NewCount(polls[k].orders, SeenAfter(polls, k), |polls[k].orders|, h);
  }

  lemma ForwardedCountStep(polls: seq<Poll>, k: nat, n: nat, h: Hash)
    requires AllFetched(polls) && n == k + 1 <= |polls|
    ensures CountHash(Forwarded(polls, n), h) ==
            CountHash(Forwarded(polls, k), h) + (if Enters(polls, k, h) then 1 else 0)
  {
    ForwardedCountNext(polls, k, n, h);
    ForwardsWhatEnters(polls, k, h);
  }

  lemma EntriesStep(polls: seq<Poll>, k: nat, n: nat, h: Hash)
    requires n == k + 1 <= |polls|
    ensures Entries(polls, n, h) == Entries(polls, k, h) + (if Enters(polls, k, h) then 1 else 0)
  {
  }

  /** Over a run without failures an order is forwarded as often as it enters the cache. */
  lemma {:induction false} ForwardedCountsEntries(polls: seq<Poll>, n: nat, h: Hash)
    requires AllFetched(polls) && n <= |polls|
    ensures CountHash(Forwarded(polls, n), h) == Entries(polls, n, h)
    decreases n
  {
    if n == 0 {
    } else {
      var k := n - 1;
      ForwardedCountsEntries(polls, k, h);
      ForwardedCountStep(polls, k, n, h);
      EntriesStep(polls, k, n, h);
    }
  }
}

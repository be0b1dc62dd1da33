/**
 Deciding whether the outputs of a fill cover the outputs of an order.

 The search consumes a scratch vector with `swap_remove`, which reorders what is left; the
 specification `Covers` is inclusion of multisets of (token, amount, recipient).
 */
module FillMatching {
  import opened Wrappers
  import opened OrderTypes

  /** The part of an output that is compared. The chain id is not. */
  datatype Want = Want(token: Address, amount: U256, recipient: Address)

  function WantOf(o: Output): Want {
    Want(o.token, o.amount, o.recipient)
  }

  function Wants(outputs: seq<Output>): (wants: seq<Want>)
    ensures |wants| == |outputs|
    ensures forall i :: 0 <= i < |outputs| ==> wants[i] == WantOf(outputs[i])
  {
    seq(|outputs|, i requires 0 <= i < |outputs| => WantOf(outputs[i]))
  }

  predicate Covers(fill: seq<Output>, order: seq<Output>) {
    multiset(Wants(order)) <= multiset(Wants(fill))
  }

  /** `Vec::swap_remove`: the last element takes the place of the removed one. */
  function SwapRemove<T>(s: seq<T>, i: nat): (r: seq<T>)
    requires i < |s|
    ensures multiset(r) == multiset(s) - multiset{s[i]}
  {
    var last := |s| - 1;
    assert s == s[..last] + [s[last]];
    if i == last then
      s[..last]
    else
      var r := s[..last][i := s[last]];
      assert s[..last] == s[..i] + [s[i]] + s[i + 1..last];
      assert r == s[..i] + [s[last]] + s[i + 1..last];
      r
  }

  method Position(available: seq<Output>, expected: Output) returns (position: Option<nat>)
    ensures position.None? <==> WantOf(expected) !in Wants(available)
    ensures position.Some? ==>
      position.value < |available| && WantOf(available[position.value]) == WantOf(expected)
  {
    for i := 0 to |available|
      invariant forall j :: 0 <= j < i ==> Wants(available)[j] != WantOf(expected)
    {
      if WantOf(available[i]) == WantOf(expected) {
        assert Wants(available)[i] == WantOf(expected);
        return Some(i);
      }
    }
    return None;
  }

  /** The greedy loop decides multiset inclusion exactly, although it scrambles `available`. */
  method FillOutputsAreSuperset(fill: seq<Output>, order: seq<Output>) returns (covered: bool)
    ensures covered <==> Covers(fill, order)
    ensures covered <==> exists paidBy :: Pays(paidBy, fill, order)
  {
    CoversIffPaid(fill, order);
    var available := fill;
    assert Wants(order[..0]) == [];
    for i := 0 to |order|
      invariant multiset(Wants(available)) + multiset(Wants(order[..i])) == multiset(Wants(fill))
    {
      var position := Position(available, order[i]);
      if position.None? {
        NothingLeft(fill, order, available, i);
        return false;
      }
      OneTaken(order, available, i, position.value);
      available := SwapRemove(available, position.value);
    }
    assert order[..|order|] == order;
    return true;
  }

  lemma WantsTake(s: seq<Output>, i: nat)
    requires i < |s|
    ensures Wants(s[..i + 1]) == Wants(s[..i]) + [WantOf(s[i])]
  {
  }

  /** What is available and what was already matched make up the fill; so a want not available is one too many. */
  lemma NothingLeft(fill: seq<Output>, order: seq<Output>, available: seq<Output>, i: nat)
    requires i < |order| && WantOf(order[i]) !in Wants(available)
    requires multiset(Wants(available)) + multiset(Wants(order[..i])) == multiset(Wants(fill))
    ensures !Covers(fill, order)
  {
    var want := WantOf(order[i]);
    WantsTake(order, i);
    WantsPrefix(order, i + 1);
    assert multiset(Wants(order[..i + 1]))[want] == multiset(Wants(fill))[want] + 1;
  }

  lemma OneTaken(order: seq<Output>, available: seq<Output>, i: nat, k: nat)
    requires i < |order| && k < |available| && WantOf(available[k]) == WantOf(order[i])
    ensures multiset(Wants(SwapRemove(available, k))) + multiset(Wants(order[..i + 1])) ==
            multiset(Wants(available)) + multiset(Wants(order[..i]))
  {
    WantsTake(order, i);
    WantsSwapRemove(available, k);
    assert WantOf(available[k]) in Wants(available) by {
      assert Wants(available)[k] == WantOf(available[k]);
    }
  }

  lemma WantsPrefix(s: seq<Output>, n: nat)
    requires n <= |s|
    ensures multiset(Wants(s[..n])) <= multiset(Wants(s))
  {
    assert Wants(s) == Wants(s[..n]) + Wants(s[n..]);
  }

  lemma WantsSwapRemove(s: seq<Output>, i: nat)
    requires i < |s|
    ensures multiset(Wants(SwapRemove(s, i))) == multiset(Wants(s)) - multiset{WantOf(s[i])}
  {
    assert Wants(SwapRemove(s, i)) == SwapRemove(Wants(s), i);
  }

  // ----- an independent reading of Covers: a distinct fill output for every order output

  ghost predicate Assignment<T>(f: seq<nat>, a: seq<T>, b: seq<T>) {
    && |f| == |a|
    && (forall i :: 0 <= i < |f| ==> f[i] < |b| && b[f[i]] == a[i])
    && (forall i, j :: 0 <= i < j < |f| ==> f[i] != f[j])
  }

  function Without<T>(s: seq<T>, k: nat): seq<T>
    requires k < |s|
  {
    s[..k] + s[k + 1..]
  }

  lemma WithoutMultiset<T>(s: seq<T>, k: nat)
    requires k < |s|
    ensures multiset(Without(s, k)) == multiset(s) - multiset{s[k]}
  {
    assert s == s[..k] + [s[k]] + s[k + 1..];
  }

  /** The last element of an included sequence has a partner, and both may be taken away. */
  lemma RemoveLast<T>(a: seq<T>, b: seq<T>) returns (k: nat)
    requires a != [] && multiset(a) <= multiset(b)
    ensures k < |b| && b[k] == a[|a| - 1]
    ensures multiset(a[..|a| - 1]) <= multiset(Without(b, k))
    ensures multiset(a) == multiset(b) ==> multiset(a[..|a| - 1]) == multiset(Without(b, k))
  {
    var n := |a| - 1;
    assert a == a[..n] + [a[n]];
    assert multiset(a) == multiset(a[..n]) + multiset{a[n]};
    assert a[n] in multiset(b);
    k :| 0 <= k < |b| && b[k] == a[n];
    WithoutMultiset(b, k);
  }

  /** Inclusion of multisets yields an injective assignment of indices. */
  lemma {:induction false} AssignmentExists<T>(a: seq<T>, b: seq<T>) returns (f: seq<nat>)
    requires multiset(a) <= multiset(b)
    ensures Assignment(f, a, b)
    decreases |a|
  {
    if a == [] {
      return [];
    }
    var n := |a| - 1;
    var k := RemoveLast(a, b);
    var g := AssignmentExists(a[..n], Without(b, k));
    f := seq(n, i requires 0 <= i < n => if g[i] < k then g[i] else g[i] + 1) + [k];
  }

  /** An injective assignment of indices yields inclusion of multisets. */
  lemma {:induction false} AssignmentIncludes<T>(f: seq<nat>, a: seq<T>, b: seq<T>)
    requires Assignment(f, a, b)
    ensures multiset(a) <= multiset(b)
    decreases |a|
  {
    if a == [] {
    } else {
      var n := |a| - 1;
      var k := f[n];
      assert a == a[..n] + [a[n]];
      WithoutMultiset(b, k);
      var g: seq<nat> := seq(n, i requires 0 <= i < n => if f[i] < k then f[i] else f[i] - 1);
      assert Assignment(g, a[..n], Without(b, k));
      AssignmentIncludes(g, a[..n], Without(b, k));
    }
  }

  lemma CoversIffAssignment(fill: seq<Output>, order: seq<Output>)
    ensures Covers(fill, order) <==> exists f :: Assignment(f, Wants(order), Wants(fill))
  {
    if Covers(fill, order) {
      var f := AssignmentExists(Wants(order), Wants(fill));
    }
    if f :| Assignment(f, Wants(order), Wants(fill)) {
      AssignmentIncludes(f, Wants(order), Wants(fill));
    }
  }

  /**
   Output `i` of the order is paid by output `paidBy[i]` of the fill: the same token, in the same
   amount, to the same recipient. No output of the fill pays twice.
   */
  ghost predicate Pays(paidBy: seq<nat>, fill: seq<Output>, order: seq<Output>) {
    && |paidBy| == |order|
    && (forall i :: 0 <= i < |order| ==>
          && paidBy[i] < |fill|
          && fill[paidBy[i]].token == order[i].token
          && fill[paidBy[i]].amount == order[i].amount
          && fill[paidBy[i]].recipient == order[i].recipient)
    && (forall i, j :: 0 <= i < j < |order| ==> paidBy[i] != paidBy[j])
  }

  /** Covering, in terms of the outputs themselves. */
  lemma CoversIffPaid(fill: seq<Output>, order: seq<Output>)
    ensures Covers(fill, order) <==> exists paidBy :: Pays(paidBy, fill, order)
  {
    CoversIffAssignment(fill, order);
    if f :| Assignment(f, Wants(order), Wants(fill)) {
      AssignmentPays(f, fill, order);
    }
    if f :| Pays(f, fill, order) {
      AssignmentPays(f, fill, order);
    }
  }

  lemma AssignmentPays(f: seq<nat>, fill: seq<Output>, order: seq<Output>)
    ensures Assignment(f, Wants(order), Wants(fill)) <==> Pays(f, fill, order)
  {
    if |f| == |order| {
      forall i | 0 <= i < |order| && f[i] < |fill|
        ensures Wants(fill)[f[i]] == Wants(order)[i] <==>
                && fill[f[i]].token == order[i].token && fill[f[i]].amount == order[i].amount
                && fill[f[i]].recipient == order[i].recipient
      {
        assert Wants(fill)[f[i]] == WantOf(fill[f[i]]) && Wants(order)[i] == WantOf(order[i]);
      }
    }
  }

  // ----- the algebra of covering

  /** Only the multiset of outputs matters, on either side. */
  lemma {:induction false} WantsOfPermutation(a: seq<Output>, b: seq<Output>)
    requires multiset(a) == multiset(b)
    ensures multiset(Wants(a)) == multiset(Wants(b))
    decreases |a|
  {
    if a == [] {
      assert |multiset(b)| == 0;
    } else {
      var n := |a| - 1;
      var k := RemoveLast(a, b);
      WantsOfPermutation(a[..n], Without(b, k));
      WantsTake(a, n);
      assert a[..n + 1] == a;
      assert Wants(Without(b, k)) == Without(Wants(b), k);
      WithoutMultiset(Wants(b), k);
    }
  }

  lemma CoversIgnoresOrder(fill: seq<Output>, fill': seq<Output>, order: seq<Output>, order': seq<Output>)
    requires multiset(fill) == multiset(fill') && multiset(order) == multiset(order')
    ensures Covers(fill, order) == Covers(fill', order')
  {
    WantsOfPermutation(fill, fill');
    WantsOfPermutation(order, order');
  }

  /** A fill covers exactly the orders it covered before its outputs were moved to other chains. */
  lemma CoversIgnoresChain(fill: seq<Output>, fill': seq<Output>, order: seq<Output>)
    requires |fill| == |fill'|
    requires forall i :: 0 <= i < |fill| ==> fill'[i] == fill[i].(chainId := fill'[i].chainId)
    ensures Covers(fill, order) == Covers(fill', order)
    ensures Covers(order, fill) == Covers(order, fill')
  {
    assert Wants(fill) == Wants(fill');
  }

  lemma CoversIsPreorder(a: seq<Output>, b: seq<Output>, c: seq<Output>)
    ensures Covers(a, a)
    ensures Covers(a, b) && Covers(b, c) ==> Covers(a, c)
  {
  }

  /** Fills aggregate: one fill made of two covers the two orders taken together. */
  lemma CoversAggregates(f1: seq<Output>, f2: seq<Output>, a: seq<Output>, b: seq<Output>)
    requires Covers(f1, a) && Covers(f2, b)
    ensures Covers(f1 + f2, a + b)
  {
    assert Wants(f1 + f2) == Wants(f1) + Wants(f2);
    assert Wants(a + b) == Wants(a) + Wants(b);
  }
}

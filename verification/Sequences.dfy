/** First positions, selections and counts over sequences. */
module Sequences {
  import opened Wrappers

  /** Where `p` first holds among the first `n` elements. */
  function FirstUpTo<T>(s: seq<T>, p: T -> bool, n: nat): (first: Option<nat>)
    requires n <= |s|
    ensures first.None? ==> forall j :: 0 <= j < n ==> !p(s[j])
    ensures first.Some? ==> first.value < n && IsFirst(s, p, first.value)
    decreases n
  {
    if n == 0 then None
    else
      var before := FirstUpTo(s, p, n - 1);
      if before.Some? then before else if p(s[n - 1]) then Some(n - 1) else None
  }

  predicate IsFirst<T>(s: seq<T>, p: T -> bool, i: nat) {
    i < |s| && p(s[i]) && forall j :: 0 <= j < i ==> !p(s[j])
  }

  function First<T>(s: seq<T>, p: T -> bool): (first: Option<nat>)
    ensures first.None? <==> forall j :: 0 <= j < |s| ==> !p(s[j])
    ensures first.Some? ==> IsFirst(s, p, first.value)
    ensures forall i: nat :: IsFirst(s, p, i) ==> first == Some(i)
  {
    FirstUpTo(s, p, |s|)
  }

  /** Where `p` last holds among the first `n` elements. */
  function LastUpTo<T>(s: seq<T>, p: T -> bool, n: nat): (last: Option<nat>)
    requires n <= |s|
    ensures last.None? ==> forall j :: 0 <= j < n ==> !p(s[j])
    ensures last.Some? ==> last.value < n && p(s[last.value]) && forall j :: last.value < j < n ==> !p(s[j])
    decreases n
  {
    if n == 0 then None else if p(s[n - 1]) then Some(n - 1) else LastUpTo(s, p, n - 1)
  }

  function Indices(n: nat): (indices: seq<nat>)
    ensures |indices| == n
  {
    seq(n, i => i)
  }

  lemma PrefixSnoc<T>(s: seq<T>, i: nat)
    requires i < |s|
    ensures s[..i + 1] == s[..i] + [s[i]]
  {
  }

  lemma ConcatEmpty<T>(s: seq<T>)
    ensures s + [] == s
  {
  }

  lemma EmptyConcat<T>(s: seq<T>)
    ensures [] + s == s
  {
  }

  lemma ConcatAssociative<T>(a: seq<T>, b: seq<T>, c: seq<T>)
    ensures a + (b + c) == a + b + c
  {
  }

  lemma ConcatSuffix<T>(a: seq<T>, b: seq<T>)
    ensures a <= a + b && (a + b)[|a|..] == b
  {
  }

  lemma MiddleOf<T>(a: seq<T>, b: seq<T>, x: T)
    ensures var s := a + b + [x];
      a <= s && s[|s| - 1] == x && s[|a|..|s| - 1] == b
  {
  }

  lemma JoinOne<T>(a: seq<T>, b: T, c: T)
    ensures [] + a == a && [] + [b] == [b] && [b] + [c] == [b, c]
  {
  }

  lemma PrefixOfTwo<T>(a: T, b: T)
    ensures [a, b][..1] == [] + [a]
  {
  }

  lemma AppendTwo<T>(s: seq<T>, a: T, b: T)
    ensures s + [a] + [b] == s + [a, b]
  {
  }

  lemma JoinThree<T>(a: T, b: T, c: T, d: T)
    ensures [a] + [b, c] + [d] == [a, b, c, d]
  {
  }

  /** The elements that satisfy `p`, in order. */
  function Select<T>(s: seq<T>, p: T -> bool): seq<T>
    decreases |s|
  {
    if s == [] then []
    else Select(s[..|s| - 1], p) + (if p(s[|s| - 1]) then [s[|s| - 1]] else [])
  }

  lemma SelectSnoc<T>(s: seq<T>, x: T, p: T -> bool)
    ensures Select(s + [x], p) == Select(s, p) + (if p(x) then [x] else [])
  {
    assert (s + [x])[..|s|] == s;
  }

  /** Searching a selection is searching the whole for an element that was selected. */
  lemma {:induction false} FirstOfSelection<T>(s: seq<T>, p: T -> bool, q: T -> bool)
    ensures match First(s, x => p(x) && q(x))
            case None => First(Select(s, p), q).None?
            case Some(i) => exists k: nat :: IsFirst(Select(s, p), q, k) && Select(s, p)[k] == s[i]
    decreases |s|
  {
    if s == [] {
    } else {
      var n := |s| - 1;
      var before, selected := s[..n], Select(s[..n], p);
      var both := x => p(x) && q(x);
      FirstOfSelection(before, p, q);
      match First(before, both) {
        case Some(i) =>
          var k: nat :| IsFirst(selected, q, k) && selected[k] == before[i];
          assert IsFirst(s, both, i);
          assert IsFirst(Select(s, p), q, k);
        case None =>
          assert forall j :: 0 <= j < n ==> s[j] == before[j];
          if both(s[n]) {
            assert IsFirst(s, both, n);
            assert IsFirst(Select(s, p), q, |selected|);
          }
      }
    }
  }

  /** `at` lists, in order, exactly the numbers below `n` that satisfy `p`. */
  ghost predicate Picks(at: seq<nat>, n: nat, p: nat -> bool) {
    && (forall k, l :: 0 <= k < l < |at| ==> at[k] < at[l])
    && (forall i: nat :: i in at <==> i < n && p(i))
  }

  lemma PicksNext(at: seq<nat>, n: nat, p: nat -> bool)
    requires Picks(at, n, p)
    ensures Picks(if p(n) then at + [n] else at, n + 1, p)
  {
    forall k | 0 <= k < |at|
      ensures at[k] < n
    {
      assert at[k] in at;
    }
  }

  /** How many of the first `n` elements satisfy `p`. */
  function Count<T>(s: seq<T>, p: T -> bool, n: nat): nat
    requires n <= |s|
    decreases n
  {
    if n == 0 then 0 else Count(s, p, n - 1) + (if p(s[n - 1]) then 1 else 0)
  }

  lemma {:induction false} CountPrefix<T>(s: seq<T>, more: seq<T>, p: T -> bool, n: nat)
    requires n <= |s|
    ensures Count(s + more, p, n) == Count(s, p, n)
    decreases n
  {
    if n == 0 {
    } else {
      CountPrefix(s, more, p, n - 1);
    }
  }

  lemma CountSnoc<T>(s: seq<T>, x: T, p: T -> bool)
    ensures Count(s + [x], p, |s + [x]|) == Count(s, p, |s|) + (if p(x) then 1 else 0)
  {
    CountPrefix(s, [x], p, |s|);
  }

  lemma {:induction false} CountConcat<T>(a: seq<T>, b: seq<T>, p: T -> bool)
    ensures Count(a + b, p, |a + b|) == Count(a, p, |a|) + Count(b, p, |b|)
    decreases |b|
  {
    if b == [] {
      assert a + b == a;
    } else {
      var n := |b| - 1;
      CountConcat(a, b[..n], p);
      assert a + b == (a + b[..n]) + [b[n]] && b == b[..n] + [b[n]];
      CountSnoc(a + b[..n], b[n], p);
      CountSnoc(b[..n], b[n], p);
    }
  }

  lemma {:induction false} CountIsPositive<T>(s: seq<T>, p: T -> bool, n: nat)
    requires n <= |s|
    ensures Count(s, p, n) > 0 <==> exists i :: 0 <= i < n && p(s[i])
    decreases n
  {
    if n == 0 {
    } else {
      CountIsPositive(s, p, n - 1);
    }
  }
}

/**
 The shape of the log of any run, order by order.

 The entries about one order form incarnations: a registration, its broadcasts, an eviction.
 A four-state recogniser reads the log; that it never breaks is an invariant of the lifecycle,
 and the statements about positions in the log follow from it alone.
 */
module Incarnations {
  import opened Wrappers
  import opened OrderTypes
  import opened Lifecycle
  import opened Sequences

  datatype Phase = Idle | Fresh | Live | Done | Broken

  predicate About(e: Entry, h: Hash) {
    e.Broadcast? && e.status.hash == h
  }

  predicate Terminal(e: Entry, h: Hash) {
    About(e, h) && e.status.IsTerminal()
  }

  predicate Evicts(e: Entry, h: Hash) {
    e.Evicted? && h in e.hashes
  }

  function Next(phase: Phase, e: Entry, h: Hash): Phase {
    if e == Registered(h) then
      if phase == Idle then Fresh else Broken
    else if About(e, h) then
      if phase == Fresh || phase == Live then (if e.status.IsTerminal() then Done else Live) else Broken
    else if Evicts(e, h) then
      if phase == Done then Idle else Broken
    else phase
  }

  /** The phase of an order after the first `n` entries. */
  function PhaseAt(log: seq<Entry>, h: Hash, n: nat): Phase
    requires n <= |log|
    decreases n
  {
    if n == 0 then Idle else Next(PhaseAt(log, h, n - 1), log[n - 1], h)
  }

  lemma {:induction false} PhasePrefix(log: seq<Entry>, more: seq<Entry>, h: Hash, n: nat)
    requires n <= |log|
    ensures PhaseAt(log + more, h, n) == PhaseAt(log, h, n)
    decreases n
  {
    if n == 0 {
    } else {
      PhasePrefix(log, more, h, n - 1);
    }
  }

  lemma PhaseSnoc(log: seq<Entry>, e: Entry, h: Hash)
    ensures PhaseAt(log + [e], h, |log| + 1) == Next(PhaseAt(log, h, |log|), e, h)
  {
    PhasePrefix(log, [e], h, |log|);
  }

  lemma {:induction false} BrokenStays(log: seq<Entry>, h: Hash, i: nat, n: nat)
    requires i <= n <= |log| && PhaseAt(log, h, n) != Broken
    ensures PhaseAt(log, h, i) != Broken
    decreases n
  {
    if i == n {
    } else {
      BrokenStays(log, h, i, n - 1);
    }
  }

  // ----- the recogniser never breaks

  function PhaseOf(tracked: map<Hash, Tracked>, h: Hash): Phase {
    if h !in tracked then Idle else if tracked[h].status.IsTerminal() then Done else Live
  }

  /** A registration is announced at once. */
  ghost predicate Announced(log: seq<Entry>) {
    forall r :: 0 <= r < |log| && log[r].Registered? ==> r + 1 < |log| && About(log[r + 1], log[r].hash)
  }

  ghost predicate WellShaped(m: Manager) {
    Announced(m.log) && forall h: Hash :: PhaseAt(m.log, h, |m.log|) == PhaseOf(m.tracked, h)
  }

  /** One more broadcast, with its status stored, keeps the shape of an open incarnation. */
  lemma ShapeTouch(m: Manager, m': Manager, order: Order, status: OrderStatus)
    requires WellShaped(m) && order.hash in PendingOf(m.tracked) && status.hash == order.hash
    requires m'.tracked == m.tracked[order.hash := Tracked(order, status)]
    requires m'.log == m.log + [Broadcast(status)]
    ensures WellShaped(m')
  {
    forall h: Hash
      ensures PhaseAt(m'.log, h, |m'.log|) == PhaseOf(m'.tracked, h)
    {
      PhaseSnoc(m.log, Broadcast(status), h);
    }
  }

  lemma ShapeRegister(m: Manager, m': Manager, order: Order, status: OrderStatus)
    requires WellShaped(m) && order.hash !in m.tracked && status.hash == order.hash
    requires m'.tracked == m.tracked[order.hash := Tracked(order, status)]
    requires m'.log == m.log + [Registered(order.hash), Broadcast(status)]
    ensures WellShaped(m')
  {
    var log := m.log + [Registered(order.hash)];
    assert m'.log == log + [Broadcast(status)];
    forall h: Hash
      ensures PhaseAt(m'.log, h, |m'.log|) == PhaseOf(m'.tracked, h)
    {
      PhaseSnoc(m.log, Registered(order.hash), h);
      PhaseSnoc(log, Broadcast(status), h);
    }
  }

  lemma ShapeEvict(m: Manager, m': Manager)
    requires WellShaped(m)
    requires m'.tracked == map h | h in m.tracked && h in PendingOf(m.tracked) :: m.tracked[h]
    requires m'.log == m.log + [Evicted(m.tracked.Keys - PendingOf(m.tracked))]
    ensures WellShaped(m')
  {
    forall h: Hash
      ensures PhaseAt(m'.log, h, |m'.log|) == PhaseOf(m'.tracked, h)
    {
      PhaseSnoc(m.log, m'.log[|m.log|], h);
    }
  }

  lemma WellShapedStep(m: Manager, a: Action)
    requires Inv(m) && WellShaped(m) && Enabled(m, a)
    ensures WellShaped(Act(m, a))
  {
    var m' := Act(m, a);
    match a {
      case Record(_) =>
      case Register(order, _) => ShapeRegister(m, m', order, Message(m, a).value);
      case Refresh(hash, _, _) => ShapeTouch(m, m', m.tracked[hash].order, Message(m, a).value);
      case CheckFill(hash, _, nonce, _) =>
        if nonce == Ok(true) {
          ShapeTouch(m, m', m.tracked[hash].order, Message(m, a).value);
        }
      case Evict => ShapeEvict(m, m');
    }
  }

  lemma {:induction false} WellShapedRun(acts: seq<Action>)
    requires Allowed(START, acts)
    ensures WellShaped(Run(START, acts))
    decreases |acts|
  {
    if acts == [] {
    } else {
      WellShapedRun(acts[..|acts| - 1]);
      Invariant(acts[..|acts| - 1]);
      WellShapedStep(Run(START, acts[..|acts| - 1]), acts[|acts| - 1]);
    }
  }

  // ----- what an unbroken log says about positions

  /** The registration that opened the incarnation entry `j` belongs to. */
  ghost predicate Opens(log: seq<Entry>, h: Hash, r: nat, j: nat) {
    && r < j <= |log| && log[r] == Registered(h)
    && (forall k :: r < k < j ==> log[k] != Registered(h) && !Evicts(log[k], h) && !Terminal(log[k], h))
  }

  lemma {:induction false} Opened(log: seq<Entry>, h: Hash, n: nat) returns (r: nat)
    requires n <= |log| && PhaseAt(log, h, n) in {Fresh, Live}
    ensures Opens(log, h, r, n)
    decreases n
  {
    if log[n - 1] == Registered(h) {
      r := n - 1;
    } else {
      r := Opened(log, h, n - 1);
    }
  }

  /** From a terminal broadcast on: nothing, or an eviction, or an eviction and a re-registration. */
  ghost predicate Reopened(log: seq<Entry>, h: Hash, i: nat, n: nat) {
    exists k, l :: i < k < l < n <= |log| && Evicts(log[k], h) && log[l] == Registered(h)
  }

  lemma {:induction false} AfterTerminal(log: seq<Entry>, h: Hash, i: nat, n: nat)
    requires i < n <= |log| && Terminal(log[i], h) && PhaseAt(log, h, n) != Broken
    ensures match PhaseAt(log, h, n)
            case Done => true
            case Idle => exists k :: i < k < n && Evicts(log[k], h)
            case _ => Reopened(log, h, i, n)
    decreases n
  {
    if i == n - 1 {
    } else {
      BrokenStays(log, h, n - 1, n);
      AfterTerminal(log, h, i, n - 1);
      if Evicts(log[n - 1], h) {
        assert i < n - 1 < n;
      } else if log[n - 1] == Registered(h) {
        var k :| i < k < n - 1 && Evicts(log[k], h);
        assert i < k < n - 1 < n;
      } else if PhaseAt(log, h, n - 1) == Live || PhaseAt(log, h, n - 1) == Fresh {
        var k, l :| i < k < l < n - 1 && Evicts(log[k], h) && log[l] == Registered(h);
        assert i < k < l < n;
      }
    }
  }

  lemma {:induction false} DoneHasTerminal(log: seq<Entry>, h: Hash, n: nat) returns (t: nat)
    requires n <= |log| && PhaseAt(log, h, n) == Done
    ensures Closes(log, h, t, n)
    decreases n
  {
    if Terminal(log[n - 1], h) {
      t := n - 1;
    } else {
      t := DoneHasTerminal(log, h, n - 1);
    }
  }

  /** Entry `t` is the terminal broadcast after which nothing happened to the order up to `k`. */
  ghost predicate Closes(log: seq<Entry>, h: Hash, t: nat, k: nat) {
    && t < k <= |log| && Terminal(log[t], h)
    && (forall i :: t < i < k ==> log[i] != Registered(h) && !About(log[i], h) && !Evicts(log[i], h))
  }

  lemma ShapeOfLog(log: seq<Entry>, h: Hash, j: nat)
    requires Announced(log) && j < |log| && PhaseAt(log, h, |log|) != Broken
    ensures About(log[j], h) ==> exists r :: Opens(log, h, r, j) && About(log[r + 1], h)
    ensures forall i :: 0 <= i < j && Terminal(log[i], h) && Terminal(log[j], h) ==> Reopened(log, h, i, j)
    ensures Evicts(log[j], h) ==> exists t :: Closes(log, h, t, j)
  {
    BrokenStays(log, h, j, |log|);
    BrokenStays(log, h, j + 1, |log|);
    if About(log[j], h) {
      var r := Opened(log, h, j);
      assert log[r].Registered?;
      forall i | 0 <= i < j && Terminal(log[i], h)
        ensures Reopened(log, h, i, j)
      {
        AfterTerminal(log, h, i, j);
      }
    } else if Evicts(log[j], h) {
      var t := DoneHasTerminal(log, h, j);
    }
  }

  /**
   The log of every run, at any entry `j`: a broadcast belongs to an incarnation, opened by a
   registration that is announced at once, in which every earlier broadcast is Pending; between two
   terminal broadcasts lie the order's eviction and re-registration; and an eviction follows the
   terminal broadcast of the incarnation it ends.
   */
  lemma IncarnationsOfRun(acts: seq<Action>, h: Hash, j: nat)
    requires Allowed(START, acts)
    requires j < |Run(START, acts).log|
    ensures var log := Run(START, acts).log;
      && (About(log[j], h) ==> exists r :: Opens(log, h, r, j) && About(log[r + 1], h))
      && (forall i :: 0 <= i < j && Terminal(log[i], h) && Terminal(log[j], h) ==> Reopened(log, h, i, j))
      && (Evicts(log[j], h) ==> exists t :: Closes(log, h, t, j))
  {
    WellShapedRun(acts);
    ShapeOfLog(Run(START, acts).log, h, j);
  }

  // ----- conservation: registrations, terminal broadcasts and evictions

  function Registrations(log: seq<Entry>, h: Hash, n: nat): nat
    requires n <= |log|
  {
    Count(log, e => e == Registered(h), n)
  }

  function Terminals(log: seq<Entry>, h: Hash, n: nat): nat
    requires n <= |log|
  {
    Count(log, e => Terminal(e, h), n)
  }

  function Evictions(log: seq<Entry>, h: Hash, n: nat): nat
    requires n <= |log|
  {
    Count(log, e => Evicts(e, h), n)
  }

  lemma {:induction false} PhaseCounts(log: seq<Entry>, h: Hash, n: nat)
    requires n <= |log| && PhaseAt(log, h, n) != Broken
    ensures Registrations(log, h, n) == Terminals(log, h, n) + (if PhaseAt(log, h, n) in {Fresh, Live} then 1 else 0)
    ensures Registrations(log, h, n) == Evictions(log, h, n) + (if PhaseAt(log, h, n) == Idle then 0 else 1)
    decreases n
  {
    if n == 0 {
    } else {
      BrokenStays(log, h, n - 1, n);
      PhaseCounts(log, h, n - 1);
    }
  }

  /** Every registration is answered by one terminal broadcast or is still pending; likewise for evictions. */
  lemma Conservation(acts: seq<Action>, h: Hash)
    requires Allowed(START, acts)
    ensures var m := Run(START, acts); var n := |m.log|;
      && Registrations(m.log, h, n) == Terminals(m.log, h, n) + (if h in PendingOf(m.tracked) then 1 else 0)
      && Registrations(m.log, h, n) == Evictions(m.log, h, n) + (if h in m.tracked then 1 else 0)
  {
    var m := Run(START, acts);
    WellShapedRun(acts);
    PhaseCounts(m.log, h, |m.log|);
  }
}

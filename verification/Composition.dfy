/** Discovery and the state manager together: how often an order can be declared finished. */
module Composition {
  import opened Wrappers
  import opened OrderTypes
  import opened Lifecycle
  import opened Arms
  import opened Incarnations
  import opened OrderDiscovery
  import opened Sequences

  // ----- registrations in the log are registering actions of the run

  lemma RegistrationsSnoc(log: seq<Entry>, e: Entry, h: Hash)
    ensures Registrations(log + [e], h, |log| + 1) ==
            Registrations(log, h, |log|) + (if e == Registered(h) then 1 else 0)
  {
    CountPrefix(log, [e], x => x == Registered(h), |log|);
  }

  lemma RegistrationsStep(m: Manager, a: Action, h: Hash)
    requires Enabled(m, a)
    ensures Registrations(Act(m, a).log, h, |Act(m, a).log|) ==
            Registrations(m.log, h, |m.log|) + (if Registers(a, h) then 1 else 0)
  {
    match a {
      case Register(order, _) =>
        var log := m.log + [Registered(order.hash)];
        RegistrationsSnoc(m.log, Registered(order.hash), h);
        RegistrationsSnoc(log, Broadcast(Message(m, a).value), h);
        assert Act(m, a).log == log + [Broadcast(Message(m, a).value)];
      case Refresh(_, _, _) => RegistrationsSnoc(m.log, Broadcast(Message(m, a).value), h);
      case CheckFill(_, _, nonce, _) =>
        if nonce == Ok(true) {
          RegistrationsSnoc(m.log, Broadcast(Message(m, a).value), h);
        }
      case Evict => RegistrationsSnoc(m.log, Evicted(m.tracked.Keys - PendingOf(m.tracked)), h);
      case Record(_) =>
    }
  }

  lemma {:induction false} RegistrationsOfRun(acts: seq<Action>, h: Hash)
    requires Allowed(START, acts)
    ensures var log := Run(START, acts).log; Registrations(log, h, |log|) == RegisterActions(acts, h)
    decreases |acts|
  {
    if acts == [] {
    } else {
      var before, a := acts[..|acts| - 1], acts[|acts| - 1];
      RegistrationsOfRun(before, h);
      RegistrationsStep(Run(START, before), a, h);
      RegisterActionsSnoc(before, a, h);
      assert acts == before + [a];
    }
  }

  // ----- registering actions come from discoveries and track requests

  function Discoveries(steps: seq<Step>): seq<Order>
    decreases |steps|
  {
    if steps == [] then []
    else
      Discoveries(steps[..|steps| - 1]) +
      (if steps[|steps| - 1].input.Discovered? then [steps[|steps| - 1].input.order] else [])
  }

  function TrackRequests(steps: seq<Step>, h: Hash): nat {
    Count(steps, step => Requests(step, h), |steps|)
  }

  predicate Requests(step: Step, h: Hash) {
    step.input.TrackRequested? && step.input.order.hash == h
  }

  lemma TrackRequestsSnoc(steps: seq<Step>, step: Step, h: Hash)
    ensures TrackRequests(steps + [step], h) == TrackRequests(steps, h) + (if Requests(step, h) then 1 else 0)
  {
    CountSnoc(steps, step, x => Requests(x, h));
  }

  lemma RegisteringOnce(env: Settings, m: Manager, step: Step, h: Hash)
    ensures RegisterActions(ActionsOf(env, m, step), h) <=
            if (step.input.Discovered? || step.input.TrackRequested?) && step.input.order.hash == h then 1 else 0
  {
    var acts := ActionsOf(env, m, step);
    if step.input.Discovered? || step.input.TrackRequested? {
      assert |acts| <= 1;
    } else {
      CountIsPositive(acts, a => Registers(a, h), |acts|);
    }
  }

  /** The chances an order got to be registered: discoveries and track requests. */
  function Chances(steps: seq<Step>, h: Hash): nat {
    CountHash(Discoveries(steps), h) + TrackRequests(steps, h)
  }

  lemma ChancesSnoc(steps: seq<Step>, step: Step, h: Hash)
    ensures Chances(steps + [step], h) == Chances(steps, h) +
            (if (step.input.Discovered? || step.input.TrackRequested?) && step.input.order.hash == h then 1 else 0)
  {
    assert (steps + [step])[..|steps|] == steps;
    TrackRequestsSnoc(steps, step, h);
    if step.input.Discovered? {
      CountSnoc(Discoveries(steps), step.input.order, (order: Order) => order.hash == h);
    } else {
      assert Discoveries(steps + [step]) == Discoveries(steps);
    }
  }

  lemma RegistrationsSnocBounded(env: Settings, steps: seq<Step>, step: Step, h: Hash)
    ensures RegisterActions(ActionsOfSteps(env, START, steps + [step]), h) <=
            RegisterActions(ActionsOfSteps(env, START, steps), h) +
            (if (step.input.Discovered? || step.input.TrackRequested?) && step.input.order.hash == h then 1 else 0)
  {
    var m := Steps(env, START, steps);
    StepsSnoc(env, START, steps, step);
    RegisterActionsConcat(ActionsOfSteps(env, START, steps), ActionsOf(env, m, step), h);
    RegisteringOnce(env, m, step, h);
  }

  lemma {:induction false} RegistrationsBounded(env: Settings, steps: seq<Step>, h: Hash)
    ensures RegisterActions(ActionsOfSteps(env, START, steps), h) <= Chances(steps, h)
    decreases |steps|
  {
    if steps == [] {
    } else {
      var before, step := steps[..|steps| - 1], steps[|steps| - 1];
      assert steps == before + [step];
      RegistrationsBounded(env, before, h);
      RegistrationsSnocBounded(env, before, step, h);
      ChancesSnoc(before, step, h);
    }
  }

  lemma CountOfPrefix(a: seq<Order>, b: seq<Order>, h: Hash)
    requires a <= b
    ensures CountHash(a, h) <= CountHash(b, h)
  {
    assert b == a + b[|a|..];
    CountHashConcat(a, b[|a|..], h);
  }

  /**
   The state manager has consumed a prefix of what discovery forwarded. An order is then declared
   filled or expired at most as often as it was forwarded or asked for; and when every poll succeeded,
   at most as often as it entered the cache or was asked for.
   */
  lemma TerminalsBounded(env: Settings, steps: seq<Step>, polls: seq<Poll>, h: Hash)
    requires LegalSteps(env, START, steps)
    requires Discoveries(steps) <= Forwarded(polls, |polls|)
    ensures var log := Steps(env, START, steps).log;
      && Terminals(log, h, |log|) <= CountHash(Forwarded(polls, |polls|), h) + TrackRequests(steps, h)
      && (AllFetched(polls) ==> Terminals(log, h, |log|) <= Entries(polls, |polls|, h) + TrackRequests(steps, h))
  {
    var acts := ActionsOfSteps(env, START, steps);
    StepsAreActions(env, START, steps);
    Conservation(acts, h);
    RegistrationsOfRun(acts, h);
    RegistrationsBounded(env, steps, h);
    CountOfPrefix(Discoveries(steps), Forwarded(polls, |polls|), h);
    if AllFetched(polls) {
      ForwardedCountsEntries(polls, |polls|, h);
    }
  }
}

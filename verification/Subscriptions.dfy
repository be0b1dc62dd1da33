/** What WebSocket clients are told, and what they know at the end. */
module Subscriptions {
  import opened Wrappers
  import opened OrderTypes
  import opened StatusDerivation
  import opened Lifecycle
  import opened Arms
  import opened OrderViews
  import opened StateManagers
  import opened Sequences
  import opened Justification

  // ----- the all-orders session

  datatype StatusFilter = PendingOnly | FilledOnly | ExpiredOnly

  datatype OrderFilter = OrderFilter(owners: Option<seq<Address>>, statuses: Option<seq<StatusFilter>>)

  const NO_FILTER := OrderFilter(None, None)

  predicate Selects(filter: StatusFilter, status: OrderStatus) {
    match filter
    case PendingOnly => status.Pending?
    case FilledOnly => status.Filled?
    case ExpiredOnly => status.Expired?
  }

  predicate MatchesFilter(status: OrderStatus, filter: OrderFilter) {
    && (filter.statuses.Some? ==> exists f :: f in filter.statuses.value && Selects(f, status))
    && (filter.owners.Some? ==> status.owner in filter.owners.value)
  }

  datatype SessionEvent =
    | Update(status: OrderStatus)
    | FilterMessage(filter: Option<OrderFilter>)
    | Lagged
    | OtherMessage
    | ChannelClosed
    | ClientLeft

  /** How a session stands: still open, closed by the server, or left by the client. */
  datatype Ending = Open | Closed | Left

  predicate Ends(e: SessionEvent) {
    e.ChannelClosed? || e.ClientLeft?
  }

  function EndingBy(e: SessionEvent): Ending {
    if e.ClientLeft? then Left else Closed
  }

  /** A valid filter message replaces the filter. */
  function NextFilter(e: SessionEvent, filter: OrderFilter): OrderFilter {
    if e.FilterMessage? && e.filter.Some? then e.filter.value else filter
  }

  /** The filter in force after the first `n` events: the last valid one received. */
  function FilterAfter(events: seq<SessionEvent>, n: nat): OrderFilter
    requires n <= |events|
    decreases n
  {
    if n == 0 then NO_FILTER else NextFilter(events[n - 1], FilterAfter(events, n - 1))
  }

  /** The update that an event is, if it is one that passes the filter. */
  function Passing(e: SessionEvent, filter: OrderFilter): seq<OrderStatus> {
    if e.Update? && MatchesFilter(e.status, filter) then [e.status] else []
  }

  function Relayed(events: seq<SessionEvent>, n: nat): seq<OrderStatus>
    requires n <= |events|
    decreases n
  {
    if n == 0 then []
    else
      Relayed(events, n - 1) + Passing(events[n - 1], FilterAfter(events, n - 1))
  }

  /** Where the session stops reading. */
  function EndOf(events: seq<SessionEvent>): nat {
    match First(events, Ends)
    case None => |events|
    case Some(k) => k
  }

  ghost predicate NoneEnds(events: seq<SessionEvent>, n: nat)
    requires n <= |events|
  {
    forall j :: 0 <= j < n ==> !Ends(events[j])
  }

  lemma EndsAt(events: seq<SessionEvent>, i: nat)
    requires i < |events| && Ends(events[i]) && NoneEnds(events, i)
    ensures EndOf(events) == i && Relayed(events, i + 1) == Relayed(events, i)
  {
    assert IsFirst(events, Ends, i);
    ConcatEmpty(Relayed(events, i));
  }

  lemma EndsNever(events: seq<SessionEvent>)
    requires NoneEnds(events, |events|)
    ensures EndOf(events) == |events|
  {
  }

  lemma RelayedFirst(greeting: seq<OrderStatus>, events: seq<SessionEvent>)
    ensures greeting + Relayed(events, 0) == greeting
  {
    ConcatEmpty(greeting);
  }

  lemma RelayedNext(greeting: seq<OrderStatus>, events: seq<SessionEvent>, i: nat, filter: OrderFilter,
                    sent: seq<OrderStatus>)
    requires i < |events| && filter == FilterAfter(events, i) && sent == greeting + Relayed(events, i)
    ensures NextFilter(events[i], filter) == FilterAfter(events, i + 1)
    ensures sent + Passing(events[i], filter) == greeting + Relayed(events, i + 1)
  {
    ConcatAssociative(greeting, Relayed(events, i), Passing(events[i], filter));
  }

  /** The snapshot, if the state manager answered. */
  function Greeting(snapshot: Option<seq<OrderStatus>>): seq<OrderStatus> {
    if snapshot.Some? then snapshot.value else []
  }

  /** Send the snapshot unfiltered, then every update that passes the filter in force when it arrives. */
  method HandleAllOrders(snapshot: Option<seq<OrderStatus>>, events: seq<SessionEvent>)
    returns (sent: seq<OrderStatus>, ending: Ending)
    ensures sent == Greeting(snapshot) + Relayed(events, EndOf(events))
    ensures ending == if EndOf(events) == |events| then Open else EndingBy(events[EndOf(events)])
    ensures ToldAll(snapshot, events, sent, ending)
  {
    RelayedIsTold(snapshot, events);
    var filter := NO_FILTER;
    sent, ending := Greeting(snapshot), Open;
    RelayedFirst(Greeting(snapshot), events);
    for i := 0 to |events|
      invariant NoneEnds(events, i)
      invariant filter == FilterAfter(events, i)
      invariant sent == Greeting(snapshot) + Relayed(events, i) && ending == Open
    {
      RelayedNext(Greeting(snapshot), events, i, filter, sent);
      filter, sent, ending := Relay(events[i], filter, sent);
      if ending != Open {
        EndsAt(events, i);
        return;
      }
    }
    EndsNever(events);
  }

  /** One round of the session: send an update that passes, take over a valid filter, or see that this is the end. */
  method Relay(e: SessionEvent, filter: OrderFilter, sent: seq<OrderStatus>)
    returns (filter': OrderFilter, sent': seq<OrderStatus>, ending: Ending)
    ensures filter' == NextFilter(e, filter)
    ensures sent' == sent + Passing(e, filter)
    ensures ending == Open <==> !Ends(e)
    ensures Ends(e) ==> ending == EndingBy(e)
  {
    filter', sent', ending := filter, sent, Open;
    match e {
      case Update(status) =>
        if MatchesFilter(status, filter) {
          sent' := sent + [status];
        }
      case FilterMessage(newFilter) =>
        if newFilter.Some? {
          filter' := newFilter.value;
        }
      case Lagged =>
      case OtherMessage =>
      case ChannelClosed => ending := Closed;
      case ClientLeft => ending := Left;
    }
  }

  // ----- the same, down to the fields of filters and updates

  /** No kinds are listed, or this kind is; and no owners are, or this owner is. */
  ghost predicate Passes(status: OrderStatus, filter: OrderFilter) {
    && (filter.statuses.None?
        || (status.Pending? && PendingOnly in filter.statuses.value)
        || (status.Filled? && FilledOnly in filter.statuses.value)
        || (status.Expired? && ExpiredOnly in filter.statuses.value))
    && (filter.owners.None? || status.owner in filter.owners.value)
  }

  /** Event `j` is the last valid filter message before event `i`. */
  ghost predicate Governs(events: seq<SessionEvent>, j: nat, i: nat) {
    && j < i <= |events| && events[j].FilterMessage? && events[j].filter.Some?
    && forall l :: j < l < i ==> !(events[l].FilterMessage? && events[l].filter.Some?)
  }

  /** Event `i` is an update that passes the last valid filter message before it, if there is one. */
  ghost predicate IsDue(events: seq<SessionEvent>, i: nat) {
    && i < |events| && events[i].Update?
    && forall j: nat :: Governs(events, j, i) ==> Passes(events[i].status, events[j].filter.value)
  }

  /** These are the statuses of the updates at the places listed. */
  ghost predicate Carries(sent: seq<OrderStatus>, events: seq<SessionEvent>, at: seq<nat>) {
    |sent| == |at| && forall k :: 0 <= k < |at| ==> at[k] < |events| && events[at[k]] == Update(sent[k])
  }

  /** The session reads up to the first event that closes the channel or is the client's leaving. */
  ghost predicate ReadsTo(events: seq<SessionEvent>, end: nat, ending: Ending) {
    && end <= |events|
    && (forall j :: 0 <= j < end ==> !events[j].ChannelClosed? && !events[j].ClientLeft?)
    && match ending
       case Open => end == |events|
       case Closed => end < |events| && events[end].ChannelClosed?
       case Left => end < |events| && events[end].ClientLeft?
  }

  /** The whole session: the snapshot, if any, then exactly the updates that are due, in order. */
  ghost predicate ToldAll(snapshot: Option<seq<OrderStatus>>, events: seq<SessionEvent>, sent: seq<OrderStatus>,
                          ending: Ending) {
    exists end: nat, at: seq<nat>, relayed: seq<OrderStatus> ::
      && ReadsTo(events, end, ending)
      && Picks(at, end, (i: nat) => IsDue(events, i))
      && Carries(relayed, events, at)
      && sent == match snapshot case None => relayed case Some(statuses) => statuses + relayed
  }

  lemma {:induction false} FilterGoverns(events: seq<SessionEvent>, n: nat)
    requires n <= |events|
    ensures forall j: nat :: Governs(events, j, n) ==> FilterAfter(events, n) == events[j].filter.value
    ensures (forall j: nat :: !Governs(events, j, n)) ==> FilterAfter(events, n) == NO_FILTER
    decreases n
  {
    if n == 0 {
    } else {
      var k := n - 1;
      FilterGoverns(events, k);
      if events[k].FilterMessage? && events[k].filter.Some? {
        assert Governs(events, k, n);
      } else {
        assert forall j: nat :: Governs(events, j, k) <==> Governs(events, j, n);
      }
    }
  }

  lemma MatchesIffPasses(status: OrderStatus, filter: OrderFilter)
    ensures MatchesFilter(status, filter) <==> Passes(status, filter)
  {
    assert Selects(PendingOnly, status) <==> status.Pending?;
    assert Selects(FilledOnly, status) <==> status.Filled?;
    assert Selects(ExpiredOnly, status) <==> status.Expired?;
  }

  lemma DueIffPassing(events: seq<SessionEvent>, i: nat)
    requires i < |events|
    ensures IsDue(events, i) <==> events[i].Update? && MatchesFilter(events[i].status, FilterAfter(events, i))
  {
    FilterGoverns(events, i);
    if events[i].Update? {
      MatchesIffPasses(events[i].status, FilterAfter(events, i));
    }
  }

  lemma CarriesNext(sent: seq<OrderStatus>, events: seq<SessionEvent>, at: seq<nat>, k: nat)
    requires Carries(sent, events, at) && k < |events| && events[k].Update?
    ensures Carries(sent + [events[k].status], events, at + [k])
  {
  }

  lemma {:induction false} RelayedAt(events: seq<SessionEvent>, n: nat) returns (at: seq<nat>)
    requires n <= |events|
    ensures Picks(at, n, (i: nat) => IsDue(events, i)) && Carries(Relayed(events, n), events, at)
    decreases n
  {
    if n == 0 {
      at := [];
    } else {
      var k := n - 1;
      at := RelayedAt(events, k);
      RelayedAtNext(events, k, at);
      at := if IsDue(events, k) then at + [k] else at;
    }
  }

  lemma RelayedAtNext(events: seq<SessionEvent>, k: nat, at: seq<nat>)
    requires k < |events| && Picks(at, k, (i: nat) => IsDue(events, i)) && Carries(Relayed(events, k), events, at)
    ensures var next := if IsDue(events, k) then at + [k] else at;
      Picks(next, k + 1, (i: nat) => IsDue(events, i)) && Carries(Relayed(events, k + 1), events, next)
  {
    PicksNext(at, k, (i: nat) => IsDue(events, i));
    RelayedIfDue(events, k);
    if IsDue(events, k) {
      CarriesNext(Relayed(events, k), events, at, k);
    }
  }

  lemma RelayedIfDue(events: seq<SessionEvent>, k: nat)
    requires k < |events|
    ensures Relayed(events, k + 1) ==
            if IsDue(events, k) then Relayed(events, k) + [events[k].status] else Relayed(events, k)
  {
    DueIffPassing(events, k);
    ConcatEmpty(Relayed(events, k));
  }

  lemma RelayedIsTold(snapshot: Option<seq<OrderStatus>>, events: seq<SessionEvent>)
    ensures ToldAll(snapshot, events, Greeting(snapshot) + Relayed(events, EndOf(events)),
                    if EndOf(events) == |events| then Open else EndingBy(events[EndOf(events)]))
  {
    var end := EndOf(events);
    var ending := if end == |events| then Open else EndingBy(events[end]);
    var at := RelayedAt(events, end);
    assert ReadsTo(events, end, ending);
    EmptyConcat(Relayed(events, end));
  }

  function UpdatesOf(events: seq<SessionEvent>, n: nat): seq<OrderStatus>
    requires n <= |events|
    decreases n
  {
    if n == 0 then [] else UpdatesOf(events, n - 1) + (if events[n - 1].Update? then [events[n - 1].status] else [])
  }

  /** A client that never sets a filter is sent every update, in order. */
  lemma {:induction false} UnfilteredRelaysAll(events: seq<SessionEvent>, n: nat)
    requires n <= |events|
    requires forall i :: 0 <= i < n ==> !(events[i].FilterMessage? && events[i].filter.Some?)
    ensures FilterAfter(events, n) == NO_FILTER
    ensures Relayed(events, n) == UpdatesOf(events, n)
    decreases n
  {
    if n == 0 {
    } else {
      UnfilteredRelaysAll(events, n - 1);
    }
  }

  // ----- convergence of the all-orders view

  /** What one enabled action broadcasts. */
  function Said(m: Manager, a: Action): seq<OrderStatus>
    requires Enabled(m, a)
  {
    match Message(m, a)
    case None => []
    case Some(status) => [status]
  }

  /** Everything broadcast in the course of a run. */
  function Since(m: Manager, acts: seq<Action>): seq<OrderStatus>
    requires Allowed(m, acts)
    decreases |acts|
  {
    if acts == [] then []
    else
      var n := |acts| - 1;
      Since(m, acts[..n]) + Said(Run(m, acts[..n]), acts[n])
  }

  lemma SinceSnoc(m: Manager, acts: seq<Action>, a: Action)
    requires Allowed(m, acts) && Enabled(Run(m, acts), a)
    ensures Allowed(m, acts + [a]) && Since(m, acts + [a]) == Since(m, acts) + Said(Run(m, acts), a)
  {
    assert (acts + [a])[..|acts|] == acts;
  }

  lemma BroadcastsSnocSince(m: Manager, acts: seq<Action>, a: Action)
    requires Allowed(m, acts) && Enabled(Run(m, acts), a)
    requires Broadcasts(Run(m, acts).log) == Broadcasts(m.log) + Since(m, acts)
    ensures Allowed(m, acts + [a]) && Broadcasts(Run(m, acts + [a]).log) == Broadcasts(m.log) + Since(m, acts + [a])
  {
    RunSnoc(m, acts, a);
    SinceSnoc(m, acts, a);
    ActBroadcasts(Run(m, acts), a);
  }

  lemma {:induction false} BroadcastsSince(m: Manager, acts: seq<Action>)
    requires Allowed(m, acts)
    ensures Broadcasts(Run(m, acts).log) == Broadcasts(m.log) + Since(m, acts)
    decreases |acts|
  {
    if acts == [] {
    } else {
      var before, a := acts[..|acts| - 1], acts[|acts| - 1];
      assert acts == before + [a];
      BroadcastsSince(m, before);
      BroadcastsSnocSince(m, before, a);
    }
  }

  lemma QuietStep(m: Manager, a: Action, h: Hash)
    requires Inv(m) && Enabled(m, a)
    requires Last(Said(m, a), h).None? && h in Act(m, a).tracked
    ensures h in m.tracked && m.tracked[h] == Act(m, a).tracked[h]
  {
    if Message(m, a).Some? {
      assert Said(m, a)[0] == Message(m, a).value;
    }
  }

  /** An order that is tracked and about which nothing was said since was tracked all along, unchanged. */
  lemma {:induction false} QuietIsUnchanged(m: Manager, acts: seq<Action>, h: Hash)
    requires Inv(m) && Allowed(m, acts)
    requires Last(Since(m, acts), h).None? && h in Run(m, acts).tracked
    ensures h in m.tracked && m.tracked[h] == Run(m, acts).tracked[h]
    decreases |acts|
  {
    if acts == [] {
    } else {
      var n := |acts| - 1;
      InvRun(m, acts[..n]);
      LastConcat(Since(m, acts[..n]), Said(Run(m, acts[..n]), acts[n]), h);
      QuietStep(Run(m, acts[..n]), acts[n], h);
      QuietIsUnchanged(m, acts[..n], h);
    }
  }

  /** What a snapshot says about an order is what the manager had. */
  lemma SnapshotShows(tracked: map<Hash, Tracked>, snapshot: seq<OrderStatus>, h: Hash)
    requires KeysAgree(tracked) && IsSnapshot(tracked, snapshot)
    ensures Last(snapshot, h) == if h in tracked then Some(tracked[h].status) else None
  {
    var scan :| SnapshotBy(tracked, snapshot, scan);
    if h in tracked {
      assert h in scan;
    }
    SnapshotByShows(tracked, snapshot, scan, h);
  }

  lemma SnapshotByShows(tracked: map<Hash, Tracked>, snapshot: seq<OrderStatus>, scan: seq<Hash>, h: Hash)
    requires KeysAgree(tracked) && SnapshotBy(tracked, snapshot, scan)
    ensures Last(snapshot, h) == if h in scan then Some(tracked[h].status) else None
  {
    LastIsLatest(snapshot, h);
    if i :| 0 <= i < |scan| && scan[i] == h {
      assert snapshot[i].hash == h;
    }
    if Last(snapshot, h).Some? {
      var j :| 0 <= j < |snapshot| && snapshot[j] == Last(snapshot, h).value;
      assert scan[j] == h;
    }
  }

  /** For this order the view is right: its tracked status, or else its last broadcast, which is terminal. */
  ghost predicate ShowsTruth(view: seq<OrderStatus>, m: Manager, h: Hash) {
    && OneEach(view)
    && (h in m.tracked ==> Shown(view, h) == Some(m.tracked[h].status))
    && (h !in m.tracked && Shown(view, h).Some? ==>
          Shown(view, h) == Last(Broadcasts(m.log), h) && Shown(view, h).value.IsTerminal())
  }

  /**
   An all-orders client subscribes at log position `p`, is served a snapshot of state `q` taken no
   earlier, and then consumes everything broadcast from `p` on. Stale messages between `p` and the
   snapshot are replayed over newer statuses; even so its view ends up with every tracked order at
   exactly its tracked status, and whatever else it shows is that order's last broadcast, and terminal.
   */
  lemma Convergence(q: Manager, after: seq<Action>, p: nat, snapshot: seq<OrderStatus>, h: Hash)
    requires Inv(q) && Allowed(q, after) && IsSnapshot(q.tracked, snapshot)
    requires p <= |Broadcasts(q.log)|
    ensures Broadcasts(Run(q, after).log) == Broadcasts(q.log) + Since(q, after)
    ensures ShowsTruth(Replay([], snapshot + (Broadcasts(q.log) + Since(q, after))[p..]), Run(q, after), h)
  {
    InvRun(q, after);
    BroadcastsSince(q, after);
    SnapshotShows(q.tracked, snapshot, h);
    if Last(Since(q, after), h).None? && h in Run(q, after).tracked {
      QuietIsUnchanged(q, after, h);
    }
    ViewShowsTruth(q, Run(q, after), Since(q, after), p, snapshot, h);
  }

  /** The view is right if silence about an order means that its tracked status is the one in the snapshot. */
  lemma ViewShowsTruth(q: Manager, m: Manager, more: seq<OrderStatus>, p: nat, snapshot: seq<OrderStatus>, h: Hash)
    requires MapAgreesWithLog(q) && MapAgreesWithLog(m)
    requires p <= |Broadcasts(q.log)| && Broadcasts(m.log) == Broadcasts(q.log) + more
    requires Last(snapshot, h) == if h in q.tracked then Some(q.tracked[h].status) else None
    requires Last(more, h).None? && h in m.tracked ==> h in q.tracked && m.tracked[h] == q.tracked[h]
    ensures ShowsTruth(Replay([], snapshot + (Broadcasts(q.log) + more)[p..]), m, h)
  {
    var said := Broadcasts(q.log);
    assert (said + more)[p..] == said[p..] + more;
    ReplayShowsLast(snapshot + (said[p..] + more), h);
    LastOfReplayed(said, more, snapshot, p, h);
  }

  /** Stale messages do no harm: the replayed stream ends like the log, except where only the snapshot speaks. */
  lemma LastOfReplayed(said: seq<OrderStatus>, more: seq<OrderStatus>, snapshot: seq<OrderStatus>, p: nat, h: Hash)
    requires p <= |said|
    ensures Last(snapshot + (said[p..] + more), h) ==
            if Last(more, h).Some? then Last(more, h)
            else if Last(said[p..], h).Some? then Last(said, h)
            else Last(snapshot, h)
    ensures Last(said + more, h) == if Last(more, h).Some? then Last(more, h) else Last(said, h)
  {
    LastConcat(snapshot, said[p..] + more, h);
    LastConcat(said[p..], more, h);
    LastConcat(said[..p], said[p..], h);
    assert said == said[..p] + said[p..];
    LastConcat(said, more, h);
  }

  /**
   End to end: the manager serves the snapshot between two arms, the session forwards it and every
   later broadcast to a client that sets no filter, and the client upserts what it is sent.
   */
  lemma AllOrdersClientConverges(env: Settings, before: seq<Step>, after: seq<Step>, p: nat, snapshot: seq<OrderStatus>,
                                 events: seq<SessionEvent>, h: Hash)
    requires LegalSteps(env, START, before) && LegalSteps(env, Steps(env, START, before), after)
    requires IsSnapshot(Steps(env, START, before).tracked, snapshot)
    requires var q := Steps(env, START, before);
      p <= |Broadcasts(q.log)| <= |Broadcasts(Steps(env, q, after).log)|
    requires EndOf(events) == |events|
    requires forall i :: 0 <= i < |events| ==> !(events[i].FilterMessage? && events[i].filter.Some?)
    requires UpdatesOf(events, |events|) == Broadcasts(Steps(env, Steps(env, START, before), after).log)[p..]
    ensures ShowsTruth(Replay([], snapshot + Relayed(events, EndOf(events))),
                       Steps(env, Steps(env, START, before), after), h)
  {
    var q := Steps(env, START, before);
    StepsAreActions(env, START, before);
    Invariant(ActionsOfSteps(env, START, before));
    StepsAreActions(env, q, after);
    UnfilteredRelaysAll(events, |events|);
    Convergence(q, ActionsOfSteps(env, q, after), p, snapshot, h);
  }

  // ----- clients that filter by owner

  /** The filter lets every status of this owner's orders through. */
  predicate Admits(filter: OrderFilter, owner: Address) {
    filter.statuses.None? && (filter.owners.Some? ==> owner in filter.owners.value)
  }

  lemma {:induction false} FilterAdmits(events: seq<SessionEvent>, n: nat, owner: Address)
    requires n <= |events|
    requires forall i :: 0 <= i < n && events[i].FilterMessage? && events[i].filter.Some? ==>
             Admits(events[i].filter.value, owner)
    ensures Admits(FilterAfter(events, n), owner)
    decreases n
  {
    if n == 0 {
    } else {
      FilterAdmits(events, n - 1, owner);
    }
  }

  /** While every filter admits the owner of an order, the last that is forwarded about it is the last there was. */
  lemma {:induction false} RelaysAllAbout(events: seq<SessionEvent>, n: nat, h: Hash, owner: Address)
    requires n <= |events|
    requires forall i :: 0 <= i < n && events[i].FilterMessage? && events[i].filter.Some? ==>
             Admits(events[i].filter.value, owner)
    requires forall status :: status in UpdatesOf(events, n) && status.hash == h ==> status.owner == owner
    ensures Last(Relayed(events, n), h) == Last(UpdatesOf(events, n), h)
    decreases n
  {
    if n == 0 {
    } else {
      var k := n - 1;
      UpdatesGrow(events, k);
      RelaysAllAbout(events, k, h, owner);
      FilterAdmits(events, k, owner);
      RelaysNext(events, k, h);
    }
  }

  lemma UpdatesGrow(events: seq<SessionEvent>, k: nat)
    requires k < |events|
    ensures forall status :: status in UpdatesOf(events, k) ==> status in UpdatesOf(events, k + 1)
    ensures events[k].Update? ==> events[k].status in UpdatesOf(events, k + 1)
  {
  }

  /** One more event: if it is an update about the order, it passes. */
  lemma RelaysNext(events: seq<SessionEvent>, k: nat, h: Hash)
    requires k < |events| && Last(Relayed(events, k), h) == Last(UpdatesOf(events, k), h)
    requires events[k].Update? && events[k].status.hash == h ==>
      MatchesFilter(events[k].status, FilterAfter(events, k))
    ensures Last(Relayed(events, k + 1), h) == Last(UpdatesOf(events, k + 1), h)
  {
    var relayed, updates := Relayed(events, k), UpdatesOf(events, k);
    if events[k].Update? {
      LastSnoc(updates, events[k].status, h);
      LastSnoc(relayed, events[k].status, h);
    }
    assert relayed + [] == relayed && updates + [] == updates;
  }

  /** Where hashes determine orders, every message about an order names that order's owner. */
  lemma OwnersOfRun(acts: seq<Action>, book: Hash -> Order)
    requires Allowed(START, acts) && FromBook(acts, book)
    ensures forall status :: status in Broadcasts(Run(START, acts).log) ==> status.owner == book(status.hash).owner
  {
    var messages := Broadcasts(Run(START, acts).log);
    forall status | status in messages
      ensures status.owner == book(status.hash).owner
    {
      var j :| 0 <= j < |messages| && messages[j] == status;
      var k := EveryBroadcastHasACause(acts, j);
      CauseOrder(acts, book, k, j);
    }
  }

  /** Orders that reach the state manager are those of the book. */
  ghost predicate StepsFromBook(env: Settings, m: Manager, steps: seq<Step>, book: Hash -> Order) {
    FromBook(ActionsOfSteps(env, m, steps), book)
  }

  /**
   A client may set filters by owner, as often as it likes, as long as they all include one owner:
   its view of that owner's orders converges just as if it had set none.
   */
  lemma OwnerFilterConverges(env: Settings, before: seq<Step>, after: seq<Step>, p: nat, snapshot: seq<OrderStatus>,
                             events: seq<SessionEvent>, book: Hash -> Order, h: Hash)
    requires LegalSteps(env, START, before) && LegalSteps(env, Steps(env, START, before), after)
    requires StepsFromBook(env, START, before, book) && StepsFromBook(env, Steps(env, START, before), after, book)
    requires IsSnapshot(Steps(env, START, before).tracked, snapshot)
    requires var q := Steps(env, START, before);
      p <= |Broadcasts(q.log)| <= |Broadcasts(Steps(env, q, after).log)|
    requires EndOf(events) == |events|
    requires forall i :: 0 <= i < |events| && events[i].FilterMessage? && events[i].filter.Some? ==>
      Admits(events[i].filter.value, book(h).owner)
    requires UpdatesOf(events, |events|) == Broadcasts(Steps(env, Steps(env, START, before), after).log)[p..]
    ensures ShowsTruth(Replay([], snapshot + Relayed(events, EndOf(events))),
                       Steps(env, Steps(env, START, before), after), h)
  {
    var q := Steps(env, START, before);
    var a, b := ActionsOfSteps(env, START, before), ActionsOfSteps(env, q, after);
    StepsAreActions(env, START, before);
    StepsAreActions(env, q, after);
    RunConcat(START, a, b);
    OwnersOfRun(a + b, book);
    Invariant(a);
    Convergence(q, b, p, snapshot, h);
    RelaysAllAbout(events, |events|, h, book(h).owner);
    SameLastSameView(snapshot, UpdatesOf(events, |events|), Relayed(events, |events|), Run(q, b), h);
  }

  /** Two streams with the same last word about an order leave the same truth in the view. */
  lemma SameLastSameView(snapshot: seq<OrderStatus>, all: seq<OrderStatus>, some: seq<OrderStatus>, m: Manager, h: Hash)
    requires Last(some, h) == Last(all, h) && ShowsTruth(Replay([], snapshot + all), m, h)
    ensures ShowsTruth(Replay([], snapshot + some), m, h)
  {
    LastConcat(snapshot, all, h);
    LastConcat(snapshot, some, h);
    ReplayShowsLast(snapshot + all, h);
    ReplayShowsLast(snapshot + some, h);
  }

  // ----- the single-order session

  datatype Session = Session(sent: seq<OrderStatus>, ending: Ending)

  /** The updates about one order among the first `n` events. */
  function UpdatesAbout(events: seq<SessionEvent>, n: nat, h: Hash): seq<OrderStatus>
    requires n <= |events|
  {
    Select(UpdatesOf(events, n), (status: OrderStatus) => status.hash == h)
  }

  /** The update about the order that an event is, if it is one. */
  function AboutIn(e: SessionEvent, h: Hash): seq<OrderStatus> {
    if e.Update? && e.status.hash == h then [e.status] else []
  }

  predicate Finishes(status: OrderStatus, h: Hash) {
    status.hash == h && status.IsTerminal()
  }

  predicate Stops(e: SessionEvent, h: Hash) {
    Ends(e) || (e.Update? && Finishes(e.status, h))
  }

  /** The session's course: the report, then what concerns the order, up to whatever stops it first. */
  function SingleSession(initial: OrderStatus, h: Hash, events: seq<SessionEvent>): Session {
    if initial.IsTerminal() then Session([initial], Closed)
    else
      match First(events, e => Stops(e, h))
      case None => Session([initial] + UpdatesAbout(events, |events|, h), Open)
      case Some(k) => Session([initial] + UpdatesAbout(events, k + 1, h), EndingBy(events[k]))
  }

  lemma UpdatesAboutNext(events: seq<SessionEvent>, i: nat, h: Hash)
    requires i < |events|
    ensures UpdatesAbout(events, i + 1, h) ==
            UpdatesAbout(events, i, h) + AboutIn(events[i], h)
  {
    if events[i].Update? {
      SelectSnoc(UpdatesOf(events, i), events[i].status, (status: OrderStatus) => status.hash == h);
    } else {
      assert UpdatesOf(events, i + 1) == UpdatesOf(events, i);
    }
  }

  lemma SessionStopsAt(initial: OrderStatus, h: Hash, events: seq<SessionEvent>, k: nat)
    requires !initial.IsTerminal() && k < |events| && Stops(events[k], h)
    requires forall j :: 0 <= j < k ==> !Stops(events[j], h)
    ensures SingleSession(initial, h, events) ==
            Session([initial] + UpdatesAbout(events, k + 1, h), EndingBy(events[k]))
  {
    assert IsFirst(events, e => Stops(e, h), k);
  }

  lemma SessionRunsOn(initial: OrderStatus, h: Hash, events: seq<SessionEvent>)
    requires !initial.IsTerminal() && forall j :: 0 <= j < |events| ==> !Stops(events[j], h)
    ensures SingleSession(initial, h, events) == Session([initial] + UpdatesAbout(events, |events|, h), Open)
  {
  }

  lemma SentFirst(initial: OrderStatus, h: Hash, events: seq<SessionEvent>)
    ensures [initial] + UpdatesAbout(events, 0, h) == [initial]
  {
    ConcatEmpty([initial]);
  }

  lemma SentNext(initial: OrderStatus, h: Hash, events: seq<SessionEvent>, i: nat)
    requires i < |events|
    ensures [initial] + UpdatesAbout(events, i + 1, h) ==
            [initial] + UpdatesAbout(events, i, h) + AboutIn(events[i], h)
  {
    UpdatesAboutNext(events, i, h);
    ConcatAssociative([initial], UpdatesAbout(events, i, h), AboutIn(events[i], h));
  }

  /** One round of the session: send what concerns the order, and see whether that is the end. */
  method Serve(e: SessionEvent, h: Hash, sent: seq<OrderStatus>) returns (sent': seq<OrderStatus>, ending: Ending)
    ensures sent' == sent + AboutIn(e, h)
    ensures ending == if Stops(e, h) then EndingBy(e) else Open
  {
    match e {
      case Update(status) =>
        if status.hash == h {
          return sent + [status], if status.IsTerminal() then Closed else Open;
        }
        return sent, Open;
      case ChannelClosed => return sent, Closed;
      case ClientLeft => return sent, Left;
      case _ => return sent, Open;
    }
  }

  method HandleSingleOrder(initial: OrderStatus, h: Hash, events: seq<SessionEvent>)
    returns (sent: seq<OrderStatus>, ending: Ending)
    ensures sent == SingleSession(initial, h, events).sent && ending == SingleSession(initial, h, events).ending
    ensures ToldOne(initial, h, events, sent, ending)
  {
    SessionIsTold(initial, h, events);
    if initial.IsTerminal() {
      return [initial], Closed;
    }
    sent, ending := [initial], Open;
    SentFirst(initial, h, events);
    for i := 0 to |events|
      invariant forall j :: 0 <= j < i ==> !Stops(events[j], h)
      invariant sent == [initial] + UpdatesAbout(events, i, h) && ending == Open
    {
      SentNext(initial, h, events, i);
      sent, ending := Serve(events[i], h, sent);
      if ending != Open {
        SessionStopsAt(initial, h, events, i);
        return;
      }
    }
    SessionRunsOn(initial, h, events);
  }

  /**
   Event `k` makes the server close the session: the order finishes or the channel closes, with the
   client still there.
   */
  ghost predicate ClosedBy(events: seq<SessionEvent>, h: Hash, k: nat) {
    && k < |events| && Stops(events[k], h) && !events[k].ClientLeft?
    && forall j :: 0 <= j < k ==> !events[j].ClientLeft?
  }

  /** The messages are about one order, and none follows a terminal one, which closes the session. */
  ghost predicate ToldOnly(sent: seq<OrderStatus>, h: Hash, ending: Ending) {
    forall i :: 0 <= i < |sent| ==>
      sent[i].hash == h && (sent[i].IsTerminal() ==> i == |sent| - 1 && ending == Closed)
  }

  ghost predicate AllPending(messages: seq<OrderStatus>, h: Hash) {
    forall i :: 0 <= i < |messages| ==> messages[i].hash == h && !messages[i].IsTerminal()
  }

  lemma {:induction false} NoneFinished(events: seq<SessionEvent>, n: nat, h: Hash)
    requires n <= |events| && forall i :: 0 <= i < n ==> !Stops(events[i], h)
    ensures AllPending(UpdatesAbout(events, n, h), h)
    decreases n
  {
    if n == 0 {
    } else {
      var k := n - 1;
      NoneFinished(events, k, h);
      UpdatesAboutNext(events, k, h);
      PendingNext(UpdatesAbout(events, k, h), events[k], h);
    }
  }

  lemma PendingNext(messages: seq<OrderStatus>, e: SessionEvent, h: Hash)
    requires AllPending(messages, h) && !Stops(e, h)
    ensures AllPending(messages + AboutIn(e, h), h)
  {
  }

  /**
   The server closes the session iff the first report is terminal, or the order finishes or the
   channel closes before the client leaves. The client is told about its order only, and nothing
   after a terminal status.
   */
  lemma SingleSessionShape(initial: OrderStatus, h: Hash, events: seq<SessionEvent>)
    requires initial.hash == h
    ensures var s := SingleSession(initial, h, events);
      && (s.ending == Closed <==> initial.IsTerminal() || exists k :: ClosedBy(events, h, k))
      && (s.ending == Open <==> !initial.IsTerminal() && forall k :: 0 <= k < |events| ==> !Stops(events[k], h))
      && s.sent != [] && s.sent[0] == initial
      && ToldOnly(s.sent, h, s.ending)
  {
    var first := First(events, e => Stops(e, h));
    if initial.IsTerminal() {
    } else if first.Some? {
      StoppedShape(initial, h, events, first.value);
    } else {
      NoneFinished(events, |events|, h);
    }
  }

  lemma StoppedShape(initial: OrderStatus, h: Hash, events: seq<SessionEvent>, k: nat)
    requires initial.hash == h && !initial.IsTerminal() && k < |events| && Stops(events[k], h)
    requires forall j :: 0 <= j < k ==> !Stops(events[j], h)
    ensures var s := Session([initial] + UpdatesAbout(events, k + 1, h), EndingBy(events[k]));
      && (s.ending == Closed <==> exists l :: ClosedBy(events, h, l))
      && ToldOnly(s.sent, h, s.ending)
  {
    NoneFinished(events, k, h);
    UpdatesAboutNext(events, k, h);
    ToldWithLast(initial, UpdatesAbout(events, k, h), events[k], h);
    ClosedByFirst(events, h, k);
  }

  lemma ToldWithLast(initial: OrderStatus, about: seq<OrderStatus>, e: SessionEvent, h: Hash)
    requires initial.hash == h && !initial.IsTerminal() && AllPending(about, h) && Stops(e, h)
    ensures ToldOnly([initial] + (about + AboutIn(e, h)), h, EndingBy(e))
  {
  }

  lemma ClosedByFirst(events: seq<SessionEvent>, h: Hash, k: nat)
    requires k < |events| && Stops(events[k], h)
    requires forall j :: 0 <= j < k ==> !Stops(events[j], h)
    ensures EndingBy(events[k]) == Closed <==> exists l :: ClosedBy(events, h, l)
  {
    if events[k].ClientLeft? {
      assert forall l: nat :: ClosedBy(events, h, l) ==> k < l;
    } else {
      assert ClosedBy(events, h, k);
    }
  }

  // ----- the same, down to the fields of the updates

  /** Event `i` is an update about the order. */
  ghost predicate IsAbout(events: seq<SessionEvent>, i: nat, h: Hash) {
    i < |events| && events[i].Update? && events[i].status.hash == h
  }

  ghost predicate Finishing(e: SessionEvent, h: Hash) {
    e.Update? && e.status.hash == h && (e.status.Filled? || e.status.Expired?)
  }

  /** The session reads up to the first event that finishes the order, closes the channel or is the client's leaving. */
  ghost predicate ListensTo(events: seq<SessionEvent>, h: Hash, end: nat, ending: Ending) {
    && end <= |events|
    && (forall j :: 0 <= j < end ==>
          !events[j].ChannelClosed? && !events[j].ClientLeft? && !Finishing(events[j], h))
    && match ending
       case Open => end == |events|
       case Closed => end < |events| && (events[end].ChannelClosed? || Finishing(events[end], h))
       case Left => end < |events| && events[end].ClientLeft?
  }

  /**
   The whole session: a terminal report ends it at once; otherwise the report is followed by exactly
   the updates about the order, in order, up to and including the one that finishes it.
   */
  ghost predicate ToldOne(initial: OrderStatus, h: Hash, events: seq<SessionEvent>, sent: seq<OrderStatus>,
                          ending: Ending) {
    if initial.Filled? || initial.Expired? then sent == [initial] && ending == Closed
    else
      exists end: nat, at: seq<nat>, more: seq<OrderStatus> ::
        && ListensTo(events, h, end, ending)
        && Picks(at, if end < |events| then end + 1 else end, (i: nat) => IsAbout(events, i, h))
        && Carries(more, events, at)
        && sent == [initial] + more
  }

  lemma {:induction false} UpdatesAboutAt(events: seq<SessionEvent>, n: nat, h: Hash) returns (at: seq<nat>)
    requires n <= |events|
    ensures Picks(at, n, (i: nat) => IsAbout(events, i, h)) && Carries(UpdatesAbout(events, n, h), events, at)
    decreases n
  {
    if n == 0 {
      at := [];
    } else {
      var k := n - 1;
      at := UpdatesAboutAt(events, k, h);
      UpdatesAboutAtNext(events, k, h, at);
      at := if IsAbout(events, k, h) then at + [k] else at;
    }
  }

  lemma UpdatesAboutAtNext(events: seq<SessionEvent>, k: nat, h: Hash, at: seq<nat>)
    requires k < |events|
    requires Picks(at, k, (i: nat) => IsAbout(events, i, h)) && Carries(UpdatesAbout(events, k, h), events, at)
    ensures var next := if IsAbout(events, k, h) then at + [k] else at;
      Picks(next, k + 1, (i: nat) => IsAbout(events, i, h)) && Carries(UpdatesAbout(events, k + 1, h), events, next)
  {
    PicksNext(at, k, (i: nat) => IsAbout(events, i, h));
    UpdatesAboutIf(events, k, h);
    if IsAbout(events, k, h) {
      CarriesNext(UpdatesAbout(events, k, h), events, at, k);
    }
  }

  lemma UpdatesAboutIf(events: seq<SessionEvent>, k: nat, h: Hash)
    requires k < |events|
    ensures UpdatesAbout(events, k + 1, h) ==
            if IsAbout(events, k, h) then UpdatesAbout(events, k, h) + [events[k].status]
            else UpdatesAbout(events, k, h)
  {
    UpdatesAboutNext(events, k, h);
    ConcatEmpty(UpdatesAbout(events, k, h));
  }

  lemma SessionIsTold(initial: OrderStatus, h: Hash, events: seq<SessionEvent>)
    ensures var s := SingleSession(initial, h, events); ToldOne(initial, h, events, s.sent, s.ending)
  {
    if initial.IsTerminal() {
    } else {
      var first := First(events, e => Stops(e, h));
      var end := if first.Some? then first.value else |events|;
      var at := UpdatesAboutAt(events, if end < |events| then end + 1 else end, h);
      assert ListensTo(events, h, end, SingleSession(initial, h, events).ending);
    }
  }

  // ----- when the session of a finished order closes

  /** One while the order is pending. */
  function Pendings(m: Manager, h: Hash): nat {
    if h in PendingOf(m.tracked) then 1 else 0
  }

  function FinishesIn(messages: seq<OrderStatus>, h: Hash): nat {
    Count(messages, (status: OrderStatus) => Finishes(status, h), |messages|)
  }

  /** A registration opens a pending order or finishes it at once; only a terminal message ends its being pending. */
  lemma FinishesStep(m: Manager, a: Action, h: Hash)
    requires Inv(m) && Enabled(m, a)
    ensures FinishesIn(Said(m, a), h) + Pendings(Act(m, a), h) == Pendings(m, h) + (if Registers(a, h) then 1 else 0)
  {
    if Message(m, a).Some? {
      CountSnoc([], Message(m, a).value, (status: OrderStatus) => Finishes(status, h));
      assert [] + [Message(m, a).value] == Said(m, a);
    }
  }

  /** Terminal messages over any stretch of a run: one for every registration, but for what was and what is pending. */
  lemma {:induction false} FinishesSince(m: Manager, acts: seq<Action>, h: Hash)
    requires Inv(m) && Allowed(m, acts)
    ensures FinishesIn(Since(m, acts), h) + Pendings(Run(m, acts), h) == Pendings(m, h) + RegisterActions(acts, h)
    decreases |acts|
  {
    if acts == [] {
    } else {
      var n := |acts| - 1;
      var before, a := acts[..n], acts[n];
      assert acts == before + [a];
      FinishesSince(m, before, h);
      FinishesSnoc(m, before, a, h);
    }
  }

  lemma FinishesSnoc(m: Manager, acts: seq<Action>, a: Action, h: Hash)
    requires Inv(m) && Allowed(m, acts) && Enabled(Run(m, acts), a)
    requires FinishesIn(Since(m, acts), h) + Pendings(Run(m, acts), h) == Pendings(m, h) + RegisterActions(acts, h)
    ensures Allowed(m, acts + [a])
    ensures FinishesIn(Since(m, acts + [a]), h) + Pendings(Run(m, acts + [a]), h) ==
            Pendings(m, h) + RegisterActions(acts + [a], h)
  {
    InvRun(m, acts);
    RunSnoc(m, acts, a);
    SinceSnoc(m, acts, a);
    FinishesStep(Run(m, acts), a, h);
    CountConcat(Since(m, acts), Said(Run(m, acts), a), (status: OrderStatus) => Finishes(status, h));
    RegisterActionsSnoc(acts, a, h);
  }

  /** The client stays, the channel stays open, and no message is lost. */
  ghost predicate Stays(events: seq<SessionEvent>) {
    forall i :: 0 <= i < |events| ==> !Ends(events[i]) && !events[i].Lagged?
  }

  lemma {:induction false} StopsIffFinished(events: seq<SessionEvent>, n: nat, h: Hash)
    requires n <= |events| && Stays(events)
    ensures (exists k :: 0 <= k < n && Stops(events[k], h)) <==> FinishesIn(UpdatesOf(events, n), h) > 0
    decreases n
  {
    if n == 0 {
    } else {
      var k := n - 1;
      StopsIffFinished(events, k, h);
      if events[k].Update? {
        CountSnoc(UpdatesOf(events, k), events[k].status, (status: OrderStatus) => Finishes(status, h));
      } else {
        assert UpdatesOf(events, n) == UpdatesOf(events, k);
      }
    }
  }

  /** The server closes such a session iff the order finishes while it listens. */
  lemma ClosedIffFinished(initial: OrderStatus, h: Hash, events: seq<SessionEvent>)
    requires initial.hash == h && !initial.IsTerminal() && Stays(events)
    ensures SingleSession(initial, h, events).ending ==
            if FinishesIn(UpdatesOf(events, |events|), h) > 0 then Closed else Open
  {
    StopsIffFinished(events, |events|, h);
    var first := First(events, e => Stops(e, h));
    if first.Some? {
      assert Stops(events[first.value], h);
    }
  }

  /**
   The session promises to close once the order is terminal, but it subscribes only after it has been
   given the first report (`gap` lies between; `echo` is the registration's own message, which the
   session receives if it subscribes before that is sent). For an order first reported Pending, the
   session closes iff more was opened, counting the order if pending at subscription and every later
   registration, than is still pending. So for an order that is finished at the end, it closes iff
   the order was still pending when it subscribed or was registered anew since.
   */
  lemma ClosesIffPendingAtSubscription(reported: Manager, gap: seq<Action>, rest: seq<Action>, echo: seq<OrderStatus>,
                                       events: seq<SessionEvent>, h: Hash)
    requires Inv(reported) && Allowed(reported, gap) && Allowed(Run(reported, gap), rest)
    requires h in PendingOf(reported.tracked)
    requires echo == [] || echo == [reported.tracked[h].status]
    requires Stays(events) && UpdatesOf(events, |events|) == echo + Since(Run(reported, gap), rest)
    ensures var subscribed := Run(reported, gap); var end := Run(subscribed, rest);
      var closed := SingleSession(reported.tracked[h].status, h, events).ending == Closed;
      && (closed <==> Pendings(subscribed, h) + RegisterActions(rest, h) > Pendings(end, h))
      && (h !in PendingOf(end.tracked) ==>
            (closed <==> h in PendingOf(subscribed.tracked) || exists i :: 0 <= i < |rest| && Registers(rest[i], h)))
  {
    var initial := reported.tracked[h].status;
    var subscribed := Run(reported, gap);
    InvRun(reported, gap);
    FinishesSince(subscribed, rest, h);
    CountConcat(echo, Since(subscribed, rest), (status: OrderStatus) => Finishes(status, h));
    CountIsPositive(echo, (status: OrderStatus) => Finishes(status, h), |echo|);
    CountIsPositive(rest, a => Registers(a, h), |rest|);
    ClosedIffFinished(initial, h, events);
  }

  /** The last update about an order is the last of those selected for it. */
  lemma {:induction false} LastSelected(messages: seq<OrderStatus>, h: Hash)
    ensures Last(Select(messages, (status: OrderStatus) => status.hash == h), h) == Last(messages, h)
    decreases |messages|
  {
    if messages == [] {
    } else {
      var before, status := messages[..|messages| - 1], messages[|messages| - 1];
      assert messages == before + [status];
      LastSelected(before, h);
      SelectSnoc(before, status, (s: OrderStatus) => s.hash == h);
      LastSnoc(before, status, h);
      if status.hash == h {
        LastSnoc(Select(before, (s: OrderStatus) => s.hash == h), status, h);
      } else {
        assert Select(messages, (s: OrderStatus) => s.hash == h) == Select(before, (s: OrderStatus) => s.hash == h);
      }
    }
  }

  /** What an open session sent last: the last update about the order, or else the report. */
  lemma OpenSessionSentLast(initial: OrderStatus, h: Hash, events: seq<SessionEvent>)
    requires initial.hash == h && SingleSession(initial, h, events).ending == Open
    ensures var last := Last(UpdatesOf(events, |events|), h);
      Last(SingleSession(initial, h, events).sent, h) == if last.Some? then last else Some(initial)
  {
    LastSelected(UpdatesOf(events, |events|), h);
    LastConcat([initial], UpdatesAbout(events, |events|, h), h);
    LastSnoc([], initial, h);
    assert [] + [initial] == [initial];
  }

  /**
   What the client of a session still open knows of an order still tracked: the last status it was
   sent is the tracked one iff something was said about the order since it subscribed, or nothing new
   had been learnt in the gap, the status at subscription being the one reported.
   */
  lemma OpenSessionKnowsIff(reported: Manager, gap: seq<Action>, rest: seq<Action>, echo: seq<OrderStatus>,
                            events: seq<SessionEvent>, h: Hash)
    requires Inv(reported) && Allowed(reported, gap) && Allowed(Run(reported, gap), rest)
    requires h in reported.tracked && (echo == [] || echo == [reported.tracked[h].status])
    requires Stays(events) && UpdatesOf(events, |events|) == echo + Since(Run(reported, gap), rest)
    requires SingleSession(reported.tracked[h].status, h, events).ending == Open
    requires h in Run(Run(reported, gap), rest).tracked
    ensures var report := reported.tracked[h].status;
      var subscribed := Run(reported, gap); var end := Run(subscribed, rest);
      Last(SingleSession(report, h, events).sent, h) == Some(end.tracked[h].status) <==>
        Last(Since(subscribed, rest), h).Some? || (h in subscribed.tracked && subscribed.tracked[h].status == report)
  {
    var report, subscribed := reported.tracked[h].status, Run(reported, gap);
    InvRun(reported, gap);
    InvRun(subscribed, rest);
    OpenSessionSentLast(report, h, events);
    LastConcat(echo, Since(subscribed, rest), h);
    LastSnoc([], report, h);
    assert [] + [report] == [report];
    if Last(Since(subscribed, rest), h).Some? {
      BroadcastsSince(subscribed, rest);
      LastConcat(Broadcasts(subscribed.log), Since(subscribed, rest), h);
    } else {
      QuietIsUnchanged(subscribed, rest, h);
    }
  }

  /** A track request, then new blocks in which its order turns out to be filled. */
  function FilledInGap(order: Order, reply: Answers, tip: BlockTip, cached: set<Hash>,
                       answers: Hash -> Answers): seq<Step> {
    [Step(TrackRequested(order, reply), []), Step(NewBlocks(tip, cached, answers), [order.hash])]
  }

  /**
   The gap is real: in a run of the event loop an order is reported Pending, then filled and evicted
   before the session subscribes. However the run goes on, unless the order is registered anew, the
   session stays open for good.
   */
  lemma TerminalMissedInGap(env: Settings, order: Order, reply: Answers, tip: BlockTip, cached: set<Hash>,
                            answers: Hash -> Answers, rest: seq<Action>, events: seq<SessionEvent>)
    requires reply.nonce == Ok(false) && reply.now <= order.deadline && answers(order.hash).nonce == Ok(true)
    requires var subscribed := Steps(env, START, FilledInGap(order, reply, tip, cached, answers));
      && Allowed(subscribed, rest) && (forall i :: 0 <= i < |rest| ==> !Registers(rest[i], order.hash))
      && Stays(events) && UpdatesOf(events, |events|) == Since(subscribed, rest)
    ensures var steps := FilledInGap(order, reply, tip, cached, answers);
      var report := StatusOf(order, true, FindingsOf(order, reply, env.ids));
      && LegalSteps(env, START, steps)
      && Steps(env, START, steps[..1]).tracked == map[order.hash := Tracked(order, report)]
      && report.Pending?
      && order.hash !in Steps(env, START, steps).tracked
      && SingleSession(report, order.hash, events).ending == Open
  {
    var h, steps := order.hash, FilledInGap(order, reply, tip, cached, answers);
    var subscribed := Steps(env, START, steps);
    GapIsLegal(env, order, reply, tip, cached, answers);
    StepsAreActions(env, START, steps);
    Invariant(ActionsOfSteps(env, START, steps));
    FinishesSince(subscribed, rest, h);
    CountIsPositive(rest, a => Registers(a, h), |rest|);
    ClosedIffFinished(StatusOf(order, true, FindingsOf(order, reply, env.ids)), h, events);
  }

  lemma GapIsLegal(env: Settings, order: Order, reply: Answers, tip: BlockTip, cached: set<Hash>,
                   answers: Hash -> Answers)
    requires reply.nonce == Ok(false) && reply.now <= order.deadline && answers(order.hash).nonce == Ok(true)
    ensures var steps := FilledInGap(order, reply, tip, cached, answers);
      var report := StatusOf(order, true, FindingsOf(order, reply, env.ids));
      && LegalSteps(env, START, steps)
      && Steps(env, START, steps[..1]).tracked == map[order.hash := Tracked(order, report)]
      && Steps(env, START, steps).tracked == map[]
  {
    var a, b := Step(TrackRequested(order, reply), []), Step(NewBlocks(tip, cached, answers), [order.hash]);
    var m := StepTo(env, START, a);
    RegisterStep(env, START, a);
    PrefixOfTwo(a, b);
    StepsSnoc(env, START, [], a);
    StepsTwo(env, START, a, b);
    AllFilled(env, m, order.hash, tip, cached, answers);
  }

  /** New blocks in which the only tracked order turns out to be filled. */
  lemma AllFilled(env: Settings, m: Manager, h: Hash, tip: BlockTip, cached: set<Hash>, answers: Hash -> Answers)
    requires m.tracked.Keys == {h} && m.tracked[h].status.Pending? && answers(h).nonce == Ok(true)
    ensures var step := Step(NewBlocks(tip, cached, answers), [h]);
      Legal(m, step) && StepTo(env, m, step).tracked == map[]
  {
    assert PendingOf(m.tracked) == {h};
    NewBlocksEffect(env, m, tip, cached, answers, [h]);
    var updates := RefreshUpdates(m, cached, FindingsFor(env, m.tracked, answers));
    assert updates.Keys == {h} && updates[h].Filled?;
  }
}

/** A client's view of the orders: the last status received for each, in a list. */
module OrderViews {
  import opened Wrappers
  import opened OrderTypes
  import opened Lifecycle
  import opened Sequences

  function Position(orders: seq<OrderStatus>, h: Hash): (position: Option<nat>)
    ensures position.None? <==> forall i :: 0 <= i < |orders| ==> orders[i].hash != h
    ensures position.Some? ==> position.value < |orders| && orders[position.value].hash == h
    ensures position.Some? ==> forall i :: 0 <= i < position.value ==> orders[i].hash != h
  {
    First(orders, (status: OrderStatus) => status.hash == h)
  }

  /** The status shown for an order. */
  function Shown(orders: seq<OrderStatus>, h: Hash): Option<OrderStatus> {
    match Position(orders, h)
    case None => None
    case Some(i) => Some(orders[i])
  }

  function Upsert(orders: seq<OrderStatus>, status: OrderStatus): seq<OrderStatus> {
    match Position(orders, status.hash)
    case None => orders + [status]
    case Some(i) => orders[i := status]
  }

  ghost predicate OneEach(orders: seq<OrderStatus>) {
    forall i, j :: 0 <= i < j < |orders| ==> orders[i].hash != orders[j].hash
  }

  function Replay(orders: seq<OrderStatus>, messages: seq<OrderStatus>): seq<OrderStatus>
    decreases |messages|
  {
    if messages == [] then orders
    else Upsert(Replay(orders, messages[..|messages| - 1]), messages[|messages| - 1])
  }

  lemma UpsertShows(orders: seq<OrderStatus>, status: OrderStatus, h: Hash)
    requires OneEach(orders)
    ensures OneEach(Upsert(orders, status))
    ensures Shown(Upsert(orders, status), h) == if status.hash == h then Some(status) else Shown(orders, h)
  {
    var after := Upsert(orders, status);
    var p := Position(orders, h);
    if status.hash != h && p.Some? {
      assert after[p.value].hash == h;
    }
    if status.hash == h {
      var q := Position(orders, status.hash);
      assert after[if q.Some? then q.value else |orders|].hash == h;
    }
  }

  /** However long the stream, the view shows the last message about each order, once. */
  lemma {:induction false} ReplayShowsLast(messages: seq<OrderStatus>, h: Hash)
    ensures OneEach(Replay([], messages))
    ensures Shown(Replay([], messages), h) == Last(messages, h)
    decreases |messages|
  {
    if messages == [] {
    } else {
      var n := |messages| - 1;
      ReplayShowsLast(messages[..n], h);
      UpsertShows(Replay([], messages[..n]), messages[n], h);
    }
  }

  // ----- the terminal client

  class App {
    var orders: seq<OrderStatus>
    var selected: Option<nat>

    /** One row per order, and no selection past the last row. */
    ghost predicate Valid()
      reads this
    {
      OneEach(orders) && (selected.Some? ==> selected.value < |orders|)
    }

    constructor ()
      ensures Valid() && orders == []
    {
      orders, selected := [], None;
    }

    method UpdateOrder(status: OrderStatus)
      requires Valid()
      modifies this
      ensures Valid() && orders == Upsert(old(orders), status)
      ensures (forall i :: 0 <= i < old(|orders|) ==> old(orders)[i].hash != status.hash) ==>
        orders == old(orders) + [status]
      ensures forall i :: 0 <= i < old(|orders|) && old(orders)[i].hash == status.hash ==>
        orders == old(orders)[i := status]
      ensures selected == if |orders| > old(|orders|) && old(selected).None? then Some(0) else old(selected)
    {
      UpsertShows(orders, status, status.hash);
      for i := 0 to |orders|
        invariant forall j :: 0 <= j < i ==> orders[j].hash != status.hash
        invariant orders == old(orders) && selected == old(selected)
      {
        if orders[i].hash == status.hash {
          assert Position(orders, status.hash) == Some(i);
          orders := orders[i := status];
          return;
        }
      }
      orders := orders + [status];
      if selected.None? {
        selected := Some(0);
      }
    }

    /** The client's loop over received messages. */
    method Receive(messages: seq<OrderStatus>)
      requires Valid()
      modifies this
      ensures Valid() && orders == Replay(old(orders), messages)
    {
      for i := 0 to |messages|
        invariant Valid() && orders == Replay(old(orders), messages[..i])
      {
        UpdateOrder(messages[i]);
        assert messages[..i + 1][..i] == messages[..i];
      }
      assert messages[..|messages|] == messages;
    }

    method SelectNext()
      requires Valid()
      modifies this`selected
      ensures Valid()
      ensures selected ==
              if orders == [] then old(selected)
              else if old(selected).Some? && old(selected).value + 1 < |orders| then Some(old(selected).value + 1)
              else if old(selected).Some? then old(selected)
              else Some(0)
    {
      if orders == [] {
        return;
      }
      match selected {
        case Some(current) => selected := Some(if current + 1 < |orders| then current + 1 else |orders| - 1);
        case None => selected := Some(0);
      }
    }

    method SelectPrev()
      requires Valid()
      modifies this`selected
      ensures Valid()
      ensures selected ==
              if orders == [] then old(selected)
              else if old(selected).Some? && old(selected).value > 0 then Some(old(selected).value - 1)
              else Some(0)
    {
      if orders == [] {
        return;
      }
      match selected {
        case Some(current) => selected := Some(if current > 0 then current - 1 else 0);
        case None => selected := Some(0);
      }
    }

    method Counts() returns (pending: nat, filled: nat, expired: nat)
      ensures pending == Count(orders, (s: OrderStatus) => s.Pending?, |orders|)
      ensures filled == Count(orders, (s: OrderStatus) => s.Filled?, |orders|)
      ensures expired == Count(orders, (s: OrderStatus) => s.Expired?, |orders|)
      ensures pending + filled + expired == |orders|
    {
      pending, filled, expired := 0, 0, 0;
      for i := 0 to |orders|
        invariant pending == Count(orders, (s: OrderStatus) => s.Pending?, i)
        invariant filled == Count(orders, (s: OrderStatus) => s.Filled?, i)
        invariant expired == Count(orders, (s: OrderStatus) => s.Expired?, i)
        invariant pending + filled + expired == i
      {
        match orders[i] {
          case Pending(_, _, _) => pending := pending + 1;
          case Filled(_, _, _) => filled := filled + 1;
          case Expired(_, _, _) => expired := expired + 1;
        }
      }
    }
  }
}

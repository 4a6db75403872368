/**
 * Orders of the client-side store: the status enum and its fixed forward order, the
 * order and user records, the pure values `placeOrder`, the chained timer callbacks and
 * `rateOrder` compute, and the lifecycle invariant that ties the pending callbacks to the
 * order list.
 */
module Orders {
  import opened Wrappers
  import opened CartLines

  datatype Status = Pending | Accepted | Preparing | Delivering | Delivered

  /** Position of a status in `pending -> accepted -> preparing -> delivering -> delivered`. */
  function Rank(s: Status): (r: nat)
    ensures r < 5
  {
    match s
    case Pending => 0
    case Accepted => 1
    case Preparing => 2
    case Delivering => 3
    case Delivered => 4
  }

  /** The status one step further on. */
  function Next(s: Status): (r: Status)
    requires s != Delivered
    ensures Rank(r) == Rank(s) + 1
  {
    match s
    case Pending => Accepted
    case Accepted => Preparing
    case Preparing => Delivering
    case Delivering => Delivered
  }

  datatype User = User(id: int, name: string, email: string, phone: string, address: string)

  datatype Order = Order(
    id: int,
    userId: int,
    restaurantId: int,
    driverId: Option<int>,
    items: seq<CartLine>,
    status: Status,
    total: int,
    createdAt: string,
    deliveryAddress: string,
    userRating: Option<int>,
    driverRating: Option<int>)

  /**
   * What the store's `currentOrder` can hold. Each timer callback writes
   * `{...state.currentOrder, status}`; when `currentOrder` is null at that moment the spread
   * gives an object with only `status` (and `driverId` on acceptance): a Fragment, which has
   * no id.
   */
  datatype CurrentOrder = NoOrder | Whole(order: Order) | Fragment(status: Status, driverId: Option<int>)

  /** A `setTimeout` callback that has been scheduled and has not run: it writes `target`. */
  datatype Timer = Timer(orderId: int, target: Status)

  /** JavaScript truthiness of a `number | null` (0 is falsy). */
  predicate Truthy(x: Option<int>)
  {
    x.Some? && x.value != 0
  }

  // ---------------------------------------------------------------------------------------
  // placeOrder

  /** The three guards of `placeOrder`: a user, a (truthy) restaurant, a non-empty cart. */
  predicate CanPlaceOrder(user: Option<User>, restaurant: Option<int>, cart: seq<CartLine>)
  {
    user.Some? && Truthy(restaurant) && |cart| > 0
  }

  /** The order `placeOrder` builds; `now` and `createdAt` stand for the clock readings. */
  function NewOrder(menu: seq<MenuItem>, user: User, restaurantId: int, cart: seq<CartLine>,
                    now: int, createdAt: string, deliveryAddress: string): Order
  {
    Order(now, user.id, restaurantId, None, cart, Pending, OrderTotal(menu, cart),
          createdAt, deliveryAddress, None, None)
  }

  // ---------------------------------------------------------------------------------------
  // The timer chain

  /** Driver id written by a callback: only the accepting one writes the random draw. */
  function DriverFor(target: Status, draw: int): Option<int>
  {
    if target == Accepted then Some(draw) else None
  }

  /** The order with the callback's status, and the drawn driver when the callback assigns one. */
  function Retarget(o: Order, target: Status, driver: Option<int>): Order
  {
    o.(status := target, driverId := if driver.Some? then driver else o.driverId)
  }

  /** A callback's update of the order list: every order with the id is retargeted, the others kept. */
  function StepOrders(orders: seq<Order>, id: int, target: Status, driver: Option<int>): seq<Order>
  {
    seq(|orders|, i requires 0 <= i < |orders| =>
      if orders[i].id == id then Retarget(orders[i], target, driver) else orders[i])
  }

  /** The current order re-spread with the callback's status, whatever its id. */
  function Respread(c: CurrentOrder, target: Status, driver: Option<int>): (r: CurrentOrder)
    ensures r != NoOrder
  {
    match c
    case NoOrder => Fragment(target, driver)
    case Whole(o) => Whole(Retarget(o, target, driver))
    case Fragment(_, d) => Fragment(target, if driver.Some? then driver else d)
  }

  /** The callback a callback schedules once it has run; the delivering one schedules none. */
  function FollowUp(t: Timer): seq<Timer>
  {
    if t.target == Delivered then [] else [Timer(t.orderId, Next(t.target))]
  }

  /** The pending callbacks once the k-th has run. */
  function Fired(timers: seq<Timer>, k: nat): seq<Timer>
    requires k < |timers|
  {
    timers[..k] + timers[k + 1..] + FollowUp(timers[k])
  }

  // ---------------------------------------------------------------------------------------
  // rateOrder

  /**
   * Every order with the id gets the user rating, and the driver rating too when that is
   * truthy; the others are kept. `orderId` is None for `undefined`, which no order's id equals.
   */
  function RateOrders(orders: seq<Order>, orderId: Option<int>, userRating: int, driverRating: Option<int>): seq<Order>
  {
    seq(|orders|, i requires 0 <= i < |orders| =>
      if orderId == Some(orders[i].id)
      then orders[i].(userRating := Some(userRating),
                      driverRating := if Truthy(driverRating) then driverRating else orders[i].driverRating)
      else orders[i])
  }

  // ---------------------------------------------------------------------------------------
  // The lifecycle invariant

  function IdsOf(orders: seq<Order>): set<int>
  {
    set i | 0 <= i < |orders| :: orders[i].id
  }

  /**
   * The pending callbacks drive each order through the five statuses one step at a time:
   * at most one pending callback per order id, each for an existing order, and every order
   * with that id sits exactly one step before the status the callback writes.
   */
  ghost predicate Tracked(orders: seq<Order>, timers: seq<Timer>)
  {
    && (forall k :: 0 <= k < |timers| ==> timers[k].target != Pending)
    && (forall k, j :: 0 <= k < j < |timers| ==> timers[k].orderId != timers[j].orderId)
    && (forall k :: 0 <= k < |timers| ==> timers[k].orderId in IdsOf(orders))
    && (forall k, i :: 0 <= k < |timers| && 0 <= i < |orders| && orders[i].id == timers[k].orderId ==>
          Rank(orders[i].status) + 1 == Rank(timers[k].target))
  }

  // =======================================================================================
  // Lemmas

  /**
   * Running a pending callback moves every order with its id exactly one status forward,
   * assigns the drawn driver on acceptance, and leaves every other order as it was.
   */
  lemma FireAdvancesOne(orders: seq<Order>, timers: seq<Timer>, k: nat, draw: int)
    requires Tracked(orders, timers)
    requires k < |timers|
    ensures var t := timers[k];
      var r := StepOrders(orders, t.orderId, t.target, DriverFor(t.target, draw));
      && |r| == |orders|
      && forall i :: 0 <= i < |orders| ==>
           if orders[i].id == t.orderId then
             && orders[i].status != Delivered
             && r[i].status == Next(orders[i].status)
             && r[i].driverId == (if orders[i].status == Pending then Some(draw) else orders[i].driverId)
             && r[i] == orders[i].(status := r[i].status, driverId := r[i].driverId)
           else r[i] == orders[i]
  {
    var t := timers[k];
    var r := StepOrders(orders, t.orderId, t.target, DriverFor(t.target, draw));
    forall i | 0 <= i < |orders| && orders[i].id == t.orderId
      ensures orders[i].status != Delivered && r[i].status == Next(orders[i].status)
    {
      assert Rank(orders[i].status) + 1 == Rank(t.target);
      RankInjective(r[i].status, Next(orders[i].status));
    }
  }

  lemma RankInjective(a: Status, b: Status)
    requires Rank(a) == Rank(b)
    ensures a == b
  {
  }

  lemma StepOrdersKeepsIds(orders: seq<Order>, id: int, target: Status, driver: Option<int>)
    ensures IdsOf(StepOrders(orders, id, target, driver)) == IdsOf(orders)
  {
    var r := StepOrders(orders, id, target, driver);
    assert forall i :: 0 <= i < |orders| ==> r[i].id == orders[i].id;
    forall x | x in IdsOf(orders) ensures x in IdsOf(r) {
      var i :| 0 <= i < |orders| && orders[i].id == x;
      assert r[i].id == x;
    }
  }

  /** Running any pending callback keeps the lifecycle invariant. */
  lemma FirePreservesTracked(orders: seq<Order>, timers: seq<Timer>, k: nat, draw: int)
    requires Tracked(orders, timers)
    requires k < |timers|
    ensures Tracked(StepOrders(orders, timers[k].orderId, timers[k].target, DriverFor(timers[k].target, draw)),
                    Fired(timers, k))
  {
    var t := timers[k];
    var r := StepOrders(orders, t.orderId, t.target, DriverFor(t.target, draw));
    var rest := timers[..k] + timers[k + 1..];
    var f := Fired(timers, k);
    FireAdvancesOne(orders, timers, k, draw);
    StepOrdersKeepsIds(orders, t.orderId, t.target, DriverFor(t.target, draw));
    // every remaining callback was in the old list, at an index other than k
    assert forall j :: 0 <= j < |rest| ==> rest[j] == timers[if j < k then j else j + 1];
    assert forall j :: 0 <= j < |rest| ==> rest[j].orderId != t.orderId;
    assert |f| == |rest| + |FollowUp(t)|;
    forall j | 0 <= j < |f|
      ensures f[j].target != Pending
      ensures f[j].orderId in IdsOf(r)
      ensures forall i :: 0 <= i < |r| && r[i].id == f[j].orderId ==> Rank(r[i].status) + 1 == Rank(f[j].target)
    {
      if j < |rest| {
        assert f[j] == rest[j];
      } else {
        assert f[j] == Timer(t.orderId, Next(t.target));
      }
    }
    forall j, j' | 0 <= j < j' < |f| ensures f[j].orderId != f[j'].orderId {
      if j' < |rest| {
        assert f[j] == rest[j] && f[j'] == rest[j'];
      } else {
        assert f[j] == rest[j];
      }
    }
  }

  lemma RateOrdersKeepsLifecycle(orders: seq<Order>, orderId: Option<int>, u: int, d: Option<int>)
    ensures var r := RateOrders(orders, orderId, u, d);
      |r| == |orders| && IdsOf(r) == IdsOf(orders) &&
      forall i :: 0 <= i < |orders| ==> r[i].id == orders[i].id && r[i].status == orders[i].status
  {
    var r := RateOrders(orders, orderId, u, d);
    forall x | x in IdsOf(orders) ensures x in IdsOf(r) {
      var i :| 0 <= i < |orders| && orders[i].id == x;
      assert r[i].id == x;
    }
  }

  /**
   * rateOrder changes only the orders with that id: their user rating becomes `u`, and their
   * driver rating becomes `d` only when `d` is truthy. It keeps the lifecycle invariant.
   */
  lemma RateOrdersSpec(orders: seq<Order>, timers: seq<Timer>, orderId: Option<int>, u: int, d: Option<int>)
    ensures var r := RateOrders(orders, orderId, u, d);
      && |r| == |orders|
      && (forall i :: 0 <= i < |orders| ==>
            if orderId == Some(orders[i].id) then
              && r[i].userRating == Some(u)
              && r[i].driverRating == (if Truthy(d) then d else orders[i].driverRating)
              && r[i] == orders[i].(userRating := r[i].userRating, driverRating := r[i].driverRating)
            else r[i] == orders[i])
      && (Tracked(orders, timers) ==> Tracked(r, timers))
  {
    RateOrdersKeepsLifecycle(orders, orderId, u, d);
  }

  /**
   * Placing an order with a fresh id appends a pending order and schedules its accepting
   * callback; the lifecycle invariant carries over.
   */
  lemma PlacePreservesTracked(orders: seq<Order>, timers: seq<Timer>, o: Order)
    requires Tracked(orders, timers)
    requires o.status == Pending
    requires o.id !in IdsOf(orders)
    ensures Tracked(orders + [o], timers + [Timer(o.id, Accepted)])
  {
    var r := orders + [o];
    var f := timers + [Timer(o.id, Accepted)];
    assert forall i :: 0 <= i < |orders| ==> r[i] == orders[i];
    assert IdsOf(r) == IdsOf(orders) + {o.id} by {
      forall x | x in IdsOf(r) ensures x in IdsOf(orders) + {o.id} {
        var i :| 0 <= i < |r| && r[i].id == x;
        if i < |orders| { assert r[i] == orders[i]; }
      }
      assert r[|orders|] == o;
    }
    assert forall k :: 0 <= k < |timers| ==> f[k] == timers[k];
    forall k, i | 0 <= k < |f| && 0 <= i < |r| && r[i].id == f[k].orderId
      ensures Rank(r[i].status) + 1 == Rank(f[k].target)
    {
      if k < |timers| && i == |orders| {
        assert false;
      }
    }
  }

  /** The callback chain of an order writes the five statuses in their fixed order. */
  lemma ChainOrder(t: Timer)
    requires t.target != Delivered
    ensures |FollowUp(t)| == 1 && FollowUp(t)[0].orderId == t.orderId
    ensures Rank(FollowUp(t)[0].target) == Rank(t.target) + 1
  {
  }
}

/**
 * The order-tracking panel: the five-step progress display driven by the current order's
 * status, and the rating form with its component state (the two ratings and whether they
 * were sent), which resets whenever the current order's id changes.
 */
module OrderTracking {
  import opened Wrappers
  import opened Orders
  import opened Store
  import opened RatingStars

  /** The keys of `statusSteps`, in display order. */
  const StatusSteps: seq<Status> := [Pending, Accepted, Preparing, Delivering, Delivered]

  /** The status on show, when there is a current order. */
  function StatusOf(c: CurrentOrder): Option<Status>
  {
    match c
    case NoOrder => None
    case Whole(o) => Some(o.status)
    case Fragment(s, _) => Some(s)
  }

  /** The id of the current order; a Fragment has none. */
  function IdOf(c: CurrentOrder): Option<int>
  {
    if c.Whole? then Some(c.order.id) else None
  }

  /** The restaurant of the current order; a Fragment has none. */
  function RestaurantIdOf(c: CurrentOrder): Option<int>
  {
    if c.Whole? then Some(c.order.restaurantId) else None
  }

  /** The first position of a step with that key, or -1. */
  function FindStep(steps: seq<Status>, key: Option<Status>): (r: int)
    ensures -1 <= r < |steps|
    ensures r == -1 <==> forall j :: 0 <= j < |steps| ==> key != Some(steps[j])
    ensures 0 <= r ==> key == Some(steps[r]) && forall j :: 0 <= j < r ==> key != Some(steps[j])
  {
    if |steps| == 0 then -1
    else if key == Some(steps[0]) then 0
    else
      var r := FindStep(steps[1..], key);
      if r == -1 then -1 else r + 1
  }

  function CurrentStepIndex(c: CurrentOrder): int
  {
    FindStep(StatusSteps, StatusOf(c))
  }

  /** A step up to the current index is drawn completed. */
  predicate IsCompleted(index: int, current: int)
  {
    index <= current
  }

  /** The step at the current index is drawn as current. */
  predicate IsCurrent(index: int, current: int)
  {
    index == current
  }

  /** How many of the first n steps are drawn completed. */
  function CountCompleted(n: nat, current: int): nat
  {
    if n == 0 then 0 else CountCompleted(n - 1, current) + (if IsCompleted(n - 1, current) then 1 else 0)
  }

  /** How many of the first n steps are drawn as the current one. */
  function CountCurrent(n: nat, current: int): nat
  {
    if n == 0 then 0 else CountCurrent(n - 1, current) + (if IsCurrent(n - 1, current) then 1 else 0)
  }

  /** The panel draws anything at all only with a current order whose restaurant it finds. */
  predicate Renders(c: CurrentOrder, restaurants: seq<Restaurant>)
  {
    c != NoOrder && exists k :: 0 <= k < |restaurants| && RestaurantIdOf(c) == Some(restaurants[k].id)
  }

  /** The rating form shows for a delivered current order not yet rated, inside a panel that renders. */
  predicate RatingFormShown(c: CurrentOrder, restaurants: seq<Restaurant>, hasRated: bool)
  {
    Renders(c, restaurants) && StatusOf(c) == Some(Delivered) && !hasRated
  }

  /** The driver id of the current order, if it has one. */
  function DriverOf(c: CurrentOrder): Option<int>
  {
    match c
    case NoOrder => None
    case Whole(o) => o.driverId
    case Fragment(_, d) => d
  }

  /**
   * The driver's stars are drawn only inside the rating form, and only when the current
   * order's driver id is truthy and the driver list holds a driver with that id.
   */
  predicate DriverShown(c: CurrentOrder, restaurants: seq<Restaurant>, drivers: seq<Driver>, hasRated: bool)
  {
    && RatingFormShown(c, restaurants, hasRated)
    && Truthy(DriverOf(c))
    && exists k :: 0 <= k < |drivers| && drivers[k].id == DriverOf(c).value
  }

  /** The Submit button is disabled while no food rating is chosen. */
  predicate SubmitDisabled(userRating: int)
  {
    userRating == 0
  }

  // =======================================================================================
  // Lemmas

  /** The displayed step of a status is its place in the lifecycle; -1 without a current order. */
  lemma StepIndexIsRank(c: CurrentOrder)
    ensures CurrentStepIndex(c) == -1 <==> c == NoOrder
    ensures c != NoOrder ==> CurrentStepIndex(c) == Rank(StatusOf(c).value)
  {
    if c != NoOrder {
      var s := StatusOf(c).value;
      var r := CurrentStepIndex(c);
      assert StatusSteps[Rank(s)] == s;
      assert 0 <= r && StatusSteps[r] == s;
      RankInjective(s, StatusSteps[Rank(s)]);
      assert Rank(StatusSteps[r]) == r;
    }
  }

  lemma {:induction false} CountsUpTo(n: nat, current: int)
    requires -1 <= current < n
    ensures CountCompleted(n, current) == current + 1
    ensures CountCurrent(n, current) == if current >= 0 then 1 else 0
  {
    if n > 0 {
      if current < n - 1 {
        CountsUpTo(n - 1, current);
      } else {
        CountsBelow(n - 1, current);
      }
    }
  }

  lemma {:induction false} CountsBelow(n: nat, current: int)
    requires n <= current
    ensures CountCompleted(n, current) == n
    ensures CountCurrent(n, current) == 0
  {
    if n > 0 {
      CountsBelow(n - 1, current);
    }
  }

  /**
   * For any current order the steps up to its status are completed and no later one is,
   * and the one step drawn as current is its status; without a current order no step is
   * either.
   */
  lemma ProgressDisplay(c: CurrentOrder)
    ensures var idx := CurrentStepIndex(c);
      && (c != NoOrder ==> forall i :: 0 <= i < |StatusSteps| ==>
            (IsCompleted(i, idx) <==> i <= Rank(StatusOf(c).value)) &&
            (IsCurrent(i, idx) <==> StatusSteps[i] == StatusOf(c).value))
      && (c == NoOrder ==> forall i :: 0 <= i < |StatusSteps| ==> !IsCompleted(i, idx) && !IsCurrent(i, idx))
      && CountCompleted(|StatusSteps|, idx) == idx + 1
      && CountCurrent(|StatusSteps|, idx) == (if c == NoOrder then 0 else 1)
  {
    StepIndexIsRank(c);
    CountsUpTo(|StatusSteps|, CurrentStepIndex(c));
  }

  /** One step forward in the lifecycle completes exactly one more step of the display. */
  lemma AdvanceCompletesOneMore(c: CurrentOrder, target: Status, driver: Option<int>)
    requires StatusOf(c).Some? && StatusOf(c).value != Delivered
    requires target == Next(StatusOf(c).value)
    ensures CountCompleted(|StatusSteps|, CurrentStepIndex(Respread(c, target, driver))) ==
            CountCompleted(|StatusSteps|, CurrentStepIndex(c)) + 1
  {
    var c' := Respread(c, target, driver);
    ProgressDisplay(c);
    ProgressDisplay(c');
    StepIndexIsRank(c);
    StepIndexIsRank(c');
  }

  /** A timer callback always shows its own status on the panel, whatever order is current. */
  lemma CallbackShowsItsStatus(c: CurrentOrder, target: Status, driver: Option<int>)
    ensures CurrentStepIndex(Respread(c, target, driver)) == Rank(target)
  {
    StepIndexIsRank(Respread(c, target, driver));
  }

  /** The rating form shows only for a delivered current order (with its restaurant) not yet rated. */
  lemma RatingFormCondition(c: CurrentOrder, restaurants: seq<Restaurant>, hasRated: bool)
    ensures RatingFormShown(c, restaurants, hasRated) <==>
      && c.Whole?
      && c.order.status == Delivered
      && !hasRated
      && exists k :: 0 <= k < |restaurants| && restaurants[k].id == c.order.restaurantId
  {
  }

  // =======================================================================================
  // The panel's state

  class TrackingPanel {
    var userRating: int
    var driverRating: int
    var hasRated: bool
    /** The current order's id the reset effect last ran for. */
    var lastOrderId: Option<int>

    /** Ratings stay within the widget's range. */
    ghost predicate Valid()
      reads this
    {
      0 <= userRating <= StarCount && 0 <= driverRating <= StarCount
    }

    /** The initial state, and the reset effect run on mount. */
    constructor (current: CurrentOrder)
      ensures Valid()
      ensures userRating == 0 && driverRating == 0 && !hasRated && lastOrderId == IdOf(current)
    {
      userRating := 0;
      driverRating := 0;
      hasRated := false;
      lastOrderId := IdOf(current);
    }

    /** The reset effect: it runs when the current order's id differs from the last run. */
    method Sync(current: CurrentOrder)
      requires Valid()
      modifies this
      ensures Valid()
      ensures lastOrderId == IdOf(current)
      ensures IdOf(current) != old(lastOrderId) ==> userRating == 0 && driverRating == 0 && !hasRated
      ensures IdOf(current) == old(lastOrderId) ==>
        userRating == old(userRating) && driverRating == old(driverRating) && hasRated == old(hasRated)
    {
      if IdOf(current) != lastOrderId {
        userRating := 0;
        driverRating := 0;
        hasRated := false;
        lastOrderId := IdOf(current);
      }
    }

    /**
     * A click on star `index` of the food rating. The stars exist only while the rating form
     * shows, so a click at any other time changes nothing. A click is a user event, so the
     * reset effect for the current order's id has already run.
     */
    method ClickUserStar(index: int, current: CurrentOrder, restaurants: seq<Restaurant>)
      requires Valid()
      requires lastOrderId == IdOf(current)
      requires 0 <= index < StarCount
      modifies this`userRating
      ensures Valid()
      ensures RatingFormShown(current, restaurants, hasRated) ==>
        userRating == index + 1 && !SubmitDisabled(userRating)
      ensures !RatingFormShown(current, restaurants, hasRated) ==> userRating == old(userRating)
    {
      if RatingFormShown(current, restaurants, hasRated) {
        var reported := HandleClick(index, false, true);
        userRating := reported.value;
      }
    }

    /**
     * A click on star `index` of the driver rating: these stars exist only while the form
     * shows and the current order's driver is found.
     */
    method ClickDriverStar(index: int, current: CurrentOrder, restaurants: seq<Restaurant>, drivers: seq<Driver>)
      requires Valid()
      requires lastOrderId == IdOf(current)
      requires 0 <= index < StarCount
      modifies this`driverRating
      ensures Valid()
      ensures DriverShown(current, restaurants, drivers, hasRated) ==> driverRating == index + 1
      ensures !DriverShown(current, restaurants, drivers, hasRated) ==> driverRating == old(driverRating)
    {
      if DriverShown(current, restaurants, drivers, hasRated) {
        var reported := HandleClick(index, false, true);
        driverRating := reported.value;
      }
    }

    /**
     * The rating handler: nothing without a current order; otherwise the store rates the
     * order with the current id (None for a Fragment, which rates nothing) and the panel
     * records that it has rated.
     */
    method SubmitRating(store: DeliveryStore)
      requires Valid()
      requires lastOrderId == IdOf(store.currentOrder)
      modifies this`hasRated, store`orders
      ensures store.currentOrder == NoOrder ==> hasRated == old(hasRated) && store.orders == old(store.orders)
      ensures store.currentOrder != NoOrder ==>
        hasRated && store.orders == RateOrders(old(store.orders), IdOf(store.currentOrder), userRating, Some(driverRating))
      ensures old(store.Lifecycle()) ==> store.Lifecycle()
    {
      if store.currentOrder == NoOrder {
        return;
      }
      store.RateOrder(IdOf(store.currentOrder), userRating, Some(driverRating));
      hasRated := true;
    }

    /**
     * The Submit button. It exists only while the rating form shows and is disabled while no
     * food rating is chosen; pressing it then runs the rating handler. So the store is asked
     * to rate only the id of a whole current order that shows Delivered, with a food rating
     * in 1..5, and the form then closes until the current order's id changes. A press is a
     * user event, so the reset effect for the current id has already run: the ratings sent
     * are those chosen since the current order's id last changed.
     */
    method PressSubmit(store: DeliveryStore) returns (asked: bool)
      requires Valid()
      requires lastOrderId == IdOf(store.currentOrder)
      modifies this`hasRated, store`orders
      ensures asked <==> old(RatingFormShown(store.currentOrder, store.restaurants, hasRated)) && !SubmitDisabled(userRating)
      ensures !asked ==> hasRated == old(hasRated) && store.orders == old(store.orders)
      ensures asked ==>
        && IdOf(store.currentOrder).Some?
        && StatusOf(store.currentOrder) == Some(Delivered)
        && 1 <= userRating <= StarCount
        && store.orders == RateOrders(old(store.orders), IdOf(store.currentOrder), userRating, Some(driverRating))
        && hasRated
        && !RatingFormShown(store.currentOrder, store.restaurants, hasRated)
      ensures old(store.Lifecycle()) ==> store.Lifecycle()
    {
      asked := RatingFormShown(store.currentOrder, store.restaurants, hasRated) && !SubmitDisabled(userRating);
      if asked {
        SubmitRating(store);
      }
    }
  }
}

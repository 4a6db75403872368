/**
 * The client-side store: one object whose fields the actions replace. The timers the
 * store arms are modelled by the field `scheduled`, the callbacks armed and not yet run;
 * the environment runs any one of them with `FireTimer`, passing the random driver draw.
 */
module Store {
  import opened Wrappers
  import opened CartLines
  import opened Orders

  datatype Restaurant = Restaurant(id: int, name: string, address: string)

  datatype Driver = Driver(id: int, name: string, vehicle: string, completedDeliveries: int)

  /** The catalogue the store starts with. Every price is a whole number. */
  function MockMenuItems(): (menu: seq<MenuItem>)
    ensures forall k :: 0 <= k < |menu| ==> menu[k].price > 0
    ensures forall k, j :: 0 <= k < j < |menu| ==> menu[k].id != menu[j].id
  {
    [ MenuItem(1, 1, "Pap and Wors", 85),
      MenuItem(2, 1, "Bunny Chow", 95),
      MenuItem(3, 1, "Bobotie", 110),
      MenuItem(4, 2, "Butter Chicken", 120),
      MenuItem(5, 2, "Lamb Biryani", 140),
      MenuItem(6, 3, "Seafood Paella", 160),
      MenuItem(7, 3, "Grilled Lamb Chops", 180) ]
  }

  function MockRestaurants(): seq<Restaurant>
  {
    [ Restaurant(1, "Mama Africa Kitchen", "123 Mandela St, Johannesburg"),
      Restaurant(2, "Spice Route", "45 Gandhi Rd, Durban"),
      Restaurant(3, "Cape Vineyard Bistro", "78 Wine Ave, Cape Town") ]
  }

  function MockDrivers(): seq<Driver>
  {
    [ Driver(1, "Thabo Nkosi", "Motorcycle", 342),
      Driver(2, "Zanele Dube", "Car", 521),
      Driver(3, "Sipho Mthembu", "Bicycle", 187) ]
  }

  const TestEmail: string := "user@example.com"
  const TestPassword: string := "password"

  /** The user the mock login signs in. */
  function TestUser(): User
  {
    User(1, "Test User", TestEmail, "+27 123 456 7890", "123 Main St, Johannesburg")
  }

  /** The random driver choice lies in 1..3. */
  predicate DriverDraw(draw: int)
  {
    1 <= draw <= 3
  }

  class DeliveryStore {
    var user: Option<User>
    var orders: seq<Order>
    const restaurants: seq<Restaurant>
    const menuItems: seq<MenuItem>
    const drivers: seq<Driver>
    var cart: seq<CartLine>
    var selectedRestaurant: Option<int>
    var selectedDriver: Option<int>
    var currentOrder: CurrentOrder
    /** The `setTimeout` callbacks armed by `placeOrder` (and by each other) that have not run. */
    var scheduled: seq<Timer>

    /** The cart holds at most one line per menu item, each for an item of the catalogue. */
    ghost predicate Valid()
      reads this
    {
      WellFormedCart(menuItems, cart)
    }

    /** The pending callbacks and the order list agree on where each order is in its lifecycle. */
    ghost predicate Lifecycle()
      reads this
    {
      Tracked(orders, scheduled)
    }

    constructor ()
      ensures Valid() && Lifecycle()
      ensures user == None && orders == [] && cart == [] && scheduled == []
      ensures selectedRestaurant == None && selectedDriver == None && currentOrder == NoOrder
      ensures menuItems == MockMenuItems() && restaurants == MockRestaurants() && drivers == MockDrivers()
    {
      user := None;
      orders := [];
      restaurants := MockRestaurants();
      menuItems := MockMenuItems();
      drivers := MockDrivers();
      cart := [];
      selectedRestaurant := None;
      selectedDriver := None;
      currentOrder := NoOrder;
      scheduled := [];
    }

    // -------------------------------------------------------------------------------------
    // Auth actions

    /** Mock login: only the test credentials sign in, as the test user. */
    method Login(email: string, password: string) returns (ok: bool)
      modifies this`user
      ensures ok <==> email == TestEmail && password == TestPassword
      ensures user == if ok then Some(TestUser()) else old(user)
    {
      if email == TestEmail && password == TestPassword {
        user := Some(TestUser());
        ok := true;
      } else {
        ok := false;
      }
    }

    /** `signup`: the new user's id is the clock reading `now`. */
    method Signup(now: int, name: string, email: string, phone: string, address: string)
      modifies this`user
      ensures user == Some(User(now, name, email, phone, address))
    {
      user := Some(User(now, name, email, phone, address));
    }

    /** Clears the user, the cart, both selections and the current order; keeps the order list. */
    method Logout()
      requires Valid()
      modifies this`user, this`cart, this`selectedRestaurant, this`selectedDriver, this`currentOrder
      ensures Valid()
      ensures user == None && cart == [] && selectedRestaurant == None
      ensures selectedDriver == None && currentOrder == NoOrder
    {
      user := None;
      cart := [];
      selectedRestaurant := None;
      selectedDriver := None;
      currentOrder := NoOrder;
    }

    // -------------------------------------------------------------------------------------
    // Cart actions

    method AddToCart(menuItemId: int, quantity: int)
      requires Valid()
      modifies this`cart
      ensures Valid()
      ensures cart == AddLine(menuItems, old(cart), menuItemId, quantity)
    {
      AddLineWellFormed(menuItems, cart, menuItemId, quantity);
      cart := AddLine(menuItems, cart, menuItemId, quantity);
    }

    method RemoveFromCart(menuItemId: int)
      requires Valid()
      modifies this`cart
      ensures Valid()
      ensures cart == RemoveLines(old(cart), menuItemId)
    {
      RemoveWellFormed(menuItems, cart, menuItemId);
      cart := RemoveLines(cart, menuItemId);
    }

    method ClearCart()
      requires Valid()
      modifies this`cart
      ensures Valid() && cart == []
    {
      cart := [];
    }

    // -------------------------------------------------------------------------------------
    // placeOrder and the timer chain

    /**
     * Without a user, a truthy selected restaurant or a non-empty cart nothing changes and
     * no order is returned. Otherwise the new pending order (priced by the cart, its items
     * the old cart) is appended and becomes current, the cart empties and the accepting
     * callback is armed. `now` and `createdAt` are the clock readings.
     */
    method PlaceOrder(deliveryAddress: string, now: int, createdAt: string) returns (placed: Option<Order>)
      requires Valid()
      modifies this`orders, this`currentOrder, this`cart, this`scheduled
      ensures Valid()
      ensures placed.Some? <==> CanPlaceOrder(user, selectedRestaurant, old(cart))
      ensures placed.None? ==>
        orders == old(orders) && currentOrder == old(currentOrder) && cart == old(cart) &&
        scheduled == old(scheduled)
      ensures placed.Some? ==>
        && placed.value == NewOrder(menuItems, user.value, selectedRestaurant.value, old(cart),
                                    now, createdAt, deliveryAddress)
        && orders == old(orders) + [placed.value]
        && currentOrder == Whole(placed.value)
        && cart == []
        && scheduled == old(scheduled) + [Timer(now, Accepted)]
      ensures old(Lifecycle()) && now !in IdsOf(old(orders)) ==> Lifecycle()
    {
      if !CanPlaceOrder(user, selectedRestaurant, cart) {
        return None;
      }
      var order := NewOrder(menuItems, user.value, selectedRestaurant.value, cart,
                            now, createdAt, deliveryAddress);
      if Lifecycle() && now !in IdsOf(orders) {
        PlacePreservesTracked(orders, scheduled, order);
      }
      orders := orders + [order];
      currentOrder := Whole(order);
      cart := [];
      scheduled := scheduled + [Timer(now, Accepted)];
      placed := Some(order);
    }

    /**
     * The k-th armed callback runs: every order with its id takes the status it writes (and
     * the drawn driver on acceptance), the current order is re-spread with that status
     * whatever its id, and the next callback of the chain is armed.
     */
    method FireTimer(k: nat, draw: int)
      requires k < |scheduled|
      requires DriverDraw(draw)
      modifies this`orders, this`currentOrder, this`selectedDriver, this`scheduled
      ensures var t := old(scheduled[k]);
        && orders == StepOrders(old(orders), t.orderId, t.target, DriverFor(t.target, draw))
        && currentOrder == Respread(old(currentOrder), t.target, DriverFor(t.target, draw))
        && selectedDriver == (if t.target == Accepted then Some(draw) else old(selectedDriver))
        && scheduled == Fired(old(scheduled), k)
      ensures old(Lifecycle()) ==> Lifecycle()
      ensures old(Lifecycle()) ==>
        |orders| == |old(orders)| &&
        forall i :: 0 <= i < |orders| ==>
          if old(orders[i].id) == old(scheduled[k].orderId)
          then Rank(orders[i].status) == Rank(old(orders[i].status)) + 1
          else orders[i] == old(orders[i])
    {
      var t := scheduled[k];
      var driver := DriverFor(t.target, draw);
      if Lifecycle() {
        FireAdvancesOne(orders, scheduled, k, draw);
        FirePreservesTracked(orders, scheduled, k, draw);
      }
      orders := StepOrders(orders, t.orderId, t.target, driver);
      currentOrder := Respread(currentOrder, t.target, driver);
      if t.target == Accepted {
        selectedDriver := Some(draw);
      }
      scheduled := Fired(scheduled, k);
    }

    // -------------------------------------------------------------------------------------
    // rateOrder

    /** Rates the orders with that id; the driver rating is stored only when truthy. */
    method RateOrder(orderId: Option<int>, userRating: int, driverRating: Option<int>)
      modifies this`orders
      ensures orders == RateOrders(old(orders), orderId, userRating, driverRating)
      ensures |orders| == |old(orders)|
      ensures old(Lifecycle()) ==> Lifecycle()
    {
      RateOrdersSpec(orders, scheduled, orderId, userRating, driverRating);
      orders := RateOrders(orders, orderId, userRating, driverRating);
    }

    // -------------------------------------------------------------------------------------
    // Selection actions

    /** A truthy restaurant id empties the cart; `null` (or 0) keeps it. */
    method SelectRestaurant(restaurantId: Option<int>)
      requires Valid()
      modifies this`selectedRestaurant, this`cart
      ensures Valid()
      ensures selectedRestaurant == restaurantId
      ensures cart == if Truthy(restaurantId) then [] else old(cart)
    {
      selectedRestaurant := restaurantId;
      if Truthy(restaurantId) {
        cart := [];
      }
    }

    method SelectDriver(driverId: Option<int>)
      modifies this`selectedDriver
      ensures selectedDriver == driverId
    {
      selectedDriver := driverId;
    }
  }
}

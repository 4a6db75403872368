/**
 * The cart panel: the displayed subtotal, delivery fee and total, and the place-order
 * handler with its two early returns before it calls the store. The toast a handler shows
 * is returned as a value.
 */
module CartView {
  import opened Wrappers
  import opened CartLines
  import opened Orders
  import opened Store

  /** An entry of the panel's joined cart: the catalogue price and the line's quantity. */
  datatype PricedLine = PricedLine(price: int, quantity: int)

  /** Each cart line joined with its catalogue entry; a missing entry has price 0. */
  function CartItems(menu: seq<MenuItem>, cart: seq<CartLine>): (r: seq<PricedLine>)
    ensures |r| == |cart|
  {
    seq(|cart|, i requires 0 <= i < |cart| => PricedLine(PriceOf(menu, cart[i].menuItemId), cart[i].quantity))
  }

  /** The displayed subtotal: price times quantity summed over the entries, left to right. */
  function Subtotal(items: seq<PricedLine>): int
  {
    if |items| == 0 then 0
    else Subtotal(items[..|items| - 1]) + items[|items| - 1].price * items[|items| - 1].quantity
  }

  const FlatDeliveryFee: int := 25

  /** The flat fee, charged only when the subtotal is positive. */
  function DeliveryFee(subtotal: int): int
  {
    if subtotal > 0 then FlatDeliveryFee else 0
  }

  /** The displayed total: the subtotal plus the fee. */
  function DisplayedTotal(subtotal: int): (total: int)
    ensures total - subtotal == FlatDeliveryFee <==> subtotal > 0
    ensures total == subtotal <==> subtotal <= 0
  {
    subtotal + DeliveryFee(subtotal)
  }

  /** The characters `String.prototype.trim` strips: WhiteSpace and LineTerminator. */
  predicate IsTrimmed(c: char)
  {
    || c == '\t' || c == '\n' || c == '\U{000B}' || c == '\U{000C}' || c == '\r' || c == ' '
    || c == '\U{00A0}' || c == '\U{1680}' || ('\U{2000}' <= c <= '\U{200A}')
    || c == '\U{2028}' || c == '\U{2029}' || c == '\U{202F}' || c == '\U{205F}'
    || c == '\U{3000}' || c == '\U{FEFF}'
  }

  predicate IsBlank(s: string)
  {
    forall i :: 0 <= i < |s| ==> IsTrimmed(s[i])
  }

  /** Length of the run of whitespace the string starts with. */
  function LeadingSpace(s: string): (n: nat)
    ensures n <= |s|
    ensures forall i :: 0 <= i < n ==> IsTrimmed(s[i])
    ensures n < |s| ==> !IsTrimmed(s[n])
  {
    if |s| > 0 && IsTrimmed(s[0]) then
      var n := LeadingSpace(s[1..]);
      assert forall i :: 1 <= i < n + 1 ==> s[i] == s[1..][i - 1];
      n + 1
    else 0
  }

  /** Length of the run of whitespace the string ends with. */
  function TrailingSpace(s: string): (n: nat)
    ensures n <= |s|
    ensures forall i :: |s| - n <= i < |s| ==> IsTrimmed(s[i])
    ensures n < |s| ==> !IsTrimmed(s[|s| - n - 1])
  {
    if |s| > 0 && IsTrimmed(s[|s| - 1]) then
      var n := TrailingSpace(s[..|s| - 1]);
      assert forall i :: |s| - 1 - n <= i < |s| - 1 ==> s[i] == s[..|s| - 1][i];
      n + 1
    else 0
  }

  /** `String.prototype.trim`: both runs of whitespace removed. */
  function Trim(s: string): string
  {
    var t := s[LeadingSpace(s)..];
    t[..|t| - TrailingSpace(t)]
  }

  /** What the handler tells the user. */
  datatype Toast = PleaseLogIn | AddressRequired | OrderPlaced | NoToast

  /** The address field starts as the signed-in user's address, or empty without one. */
  function InitialAddress(user: Option<User>): string
  {
    if user.Some? then user.value.address else ""
  }

  // =======================================================================================
  // Lemmas

  /** The blank-address guard: trimming leaves nothing exactly when every character is whitespace. */
  lemma TrimEmptyIffBlank(s: string)
    ensures Trim(s) == "" <==> IsBlank(s)
  {
    var lead := LeadingSpace(s);
    var t := s[lead..];
    if lead < |s| {
      assert t[0] == s[lead];
      assert !IsTrimmed(t[0]);
      assert TrailingSpace(t) < |t|;
    }
  }

  /** The panel's subtotal equals the total the store computes for the same cart. */
  lemma {:induction false} SubtotalIsOrderTotal(menu: seq<MenuItem>, cart: seq<CartLine>)
    ensures Subtotal(CartItems(menu, cart)) == OrderTotal(menu, cart)
  {
    if |cart| > 0 {
      var n := |cart|;
      var items := CartItems(menu, cart);
      assert items[..n - 1] == CartItems(menu, cart[..n - 1]);
      SubtotalIsOrderTotal(menu, cart[..n - 1]);
    }
  }

  /**
   * The total stored on a placed order is the displayed subtotal, not the displayed total:
   * it leaves out the flat fee, which is charged whenever the subtotal is positive.
   */
  lemma StoredTotalLeavesOutFee(menu: seq<MenuItem>, user: User, restaurantId: int, cart: seq<CartLine>,
                                now: int, createdAt: string, address: string)
    ensures var o := NewOrder(menu, user, restaurantId, cart, now, createdAt, address);
      var sub := Subtotal(CartItems(menu, cart));
      o.total == sub && DisplayedTotal(sub) - o.total == DeliveryFee(sub)
  {
    SubtotalIsOrderTotal(menu, cart);
  }

  /**
   * For the store's catalogue, a non-empty cart of known items with quantities of at least
   * one (as the menu cards add them) always pays the delivery fee.
   */
  lemma NonEmptyCartPaysFee(cart: seq<CartLine>)
    requires KnownItems(MockMenuItems(), cart)
    requires PositiveQuantities(cart)
    requires |cart| > 0
    ensures DeliveryFee(Subtotal(CartItems(MockMenuItems(), cart))) == FlatDeliveryFee
  {
    SubtotalIsOrderTotal(MockMenuItems(), cart);
    PositiveTotal(MockMenuItems(), cart);
  }

  // =======================================================================================
  // The panel's state

  class CartPanel {
    var deliveryAddress: string

    constructor (user: Option<User>)
      ensures deliveryAddress == InitialAddress(user)
    {
      deliveryAddress := InitialAddress(user);
    }

    /** The address input's `onChange`. */
    method EditAddress(text: string)
      modifies this
      ensures deliveryAddress == text
    {
      deliveryAddress := text;
    }

    /**
     * `handlePlaceOrder`: without a user, or with a blank address, it returns before calling
     * the store, which is then unchanged; otherwise it calls `placeOrder` with the address
     * as typed (not trimmed) and reports success only when an order came back.
     */
    method HandlePlaceOrder(store: DeliveryStore, now: int, createdAt: string) returns (toast: Toast)
      requires store.Valid()
      modifies store`orders, store`currentOrder, store`cart, store`scheduled
      ensures store.Valid()
      ensures toast == PleaseLogIn <==> store.user.None?
      ensures toast == AddressRequired <==> store.user.Some? && IsBlank(deliveryAddress)
      ensures toast == OrderPlaced <==>
        !IsBlank(deliveryAddress) && CanPlaceOrder(store.user, store.selectedRestaurant, old(store.cart))
      ensures toast != OrderPlaced ==>
        store.orders == old(store.orders) && store.currentOrder == old(store.currentOrder) &&
        store.cart == old(store.cart) && store.scheduled == old(store.scheduled)
      ensures toast == OrderPlaced ==>
        var o := NewOrder(store.menuItems, store.user.value, store.selectedRestaurant.value, old(store.cart),
                          now, createdAt, deliveryAddress);
        && store.orders == old(store.orders) + [o]
        && store.currentOrder == Whole(o)
        && store.cart == []
        && store.scheduled == old(store.scheduled) + [Timer(now, Accepted)]
    {
      if store.user.None? {
        return PleaseLogIn;
      }
      TrimEmptyIffBlank(deliveryAddress);
      if Trim(deliveryAddress) == "" {
        return AddressRequired;
      }
      var order := store.PlaceOrder(deliveryAddress, now, createdAt);
      toast := if order.Some? then OrderPlaced else NoToast;
    }
  }
}

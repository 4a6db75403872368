/**
 * A menu card: the quantity stepper, which starts at 1 and never goes below it, and the
 * Add button, which hands the item's id and the current quantity to the store.
 */
module MenuItemCard {
  import opened CartLines
  import opened Store

  /** The decrease button: one less, but never below 1. */
  function Decreased(q: int): (r: int)
    ensures r >= 1
    ensures r <= q || q < 1
  {
    if q - 1 > 1 then q - 1 else 1
  }

  datatype Press = Plus | Minus

  /** The quantity after a sequence of presses of the two stepper buttons. */
  function AfterPresses(q: int, presses: seq<Press>): int
  {
    if |presses| == 0 then q
    else
      var before := AfterPresses(q, presses[..|presses| - 1]);
      if presses[|presses| - 1] == Plus then before + 1 else Decreased(before)
  }

  // =======================================================================================
  // Lemmas

  /** From 1, no sequence of presses brings the quantity below 1. */
  lemma {:induction false} PressesKeepAtLeastOne(q: int, presses: seq<Press>)
    requires q >= 1
    ensures AfterPresses(q, presses) >= 1
  {
    if |presses| > 0 {
      PressesKeepAtLeastOne(q, presses[..|presses| - 1]);
    }
  }

  /** A quantity never exceeds the start plus the number of presses. */
  lemma {:induction false} PressesBound(q: int, presses: seq<Press>)
    requires q >= 1
    ensures AfterPresses(q, presses) <= q + |presses|
  {
    if |presses| > 0 {
      PressesBound(q, presses[..|presses| - 1]);
      PressesKeepAtLeastOne(q, presses[..|presses| - 1]);
    }
  }

  /** Minus undoes Plus from any valid quantity; Plus undoes Minus above 1; Minus stops at 1. */
  lemma StepperRoundTrip(q: int)
    requires q >= 1
    ensures Decreased(q + 1) == q
    ensures q >= 2 ==> Decreased(q) + 1 == q
    ensures q == 1 ==> Decreased(q) == 1
  {
  }

  // =======================================================================================
  // The card's state

  class Card {
    const item: MenuItem
    var quantity: int

    ghost predicate Valid()
      reads this
    {
      quantity >= 1
    }

    /** The stepper starts at 1. */
    constructor (item: MenuItem)
      ensures Valid() && this.item == item && quantity == 1
    {
      this.item := item;
      quantity := 1;
    }

    method IncreaseQuantity()
      requires Valid()
      modifies this`quantity
      ensures Valid() && quantity == old(quantity) + 1
    {
      quantity := quantity + 1;
    }

    method DecreaseQuantity()
      requires Valid()
      modifies this`quantity
      ensures Valid() && quantity == Decreased(old(quantity))
    {
      quantity := Decreased(quantity);
    }

    /** The Add button hands the item's id and the current quantity to the store's `addToCart`. */
    method Add(store: DeliveryStore)
      requires Valid() && store.Valid()
      modifies store`cart
      ensures store.Valid()
      ensures quantity >= 1
      ensures store.cart == AddLine(store.menuItems, old(store.cart), item.id, quantity)
    {
      store.AddToCart(item.id, quantity);
    }
  }
}

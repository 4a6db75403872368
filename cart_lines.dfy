/**
 * The cart of the client-side store as a sequence of `{menuItemId, quantity}` lines, with
 * the pure value computations behind `addToCart`, `removeFromCart` and the `reduce` that
 * prices an order. A cart is meant as a keyed multiset: at most one line per menu item,
 * `QuantityOf` giving the multiplicity of each key.
 */
module CartLines {
  import opened Wrappers

  /** A catalogue entry, with the fields the store's logic reads. */
  datatype MenuItem = MenuItem(id: int, restaurantId: int, name: string, price: int)

  /** One cart line. */
  datatype CartLine = CartLine(menuItemId: int, quantity: int)

  // ---------------------------------------------------------------------------------------
  // Catalogue lookup

  /** The catalogue lookup: the first entry with that id, if any. */
  function FindMenuItem(menu: seq<MenuItem>, id: int): (r: Option<MenuItem>)
    ensures r.None? <==> forall k :: 0 <= k < |menu| ==> menu[k].id != id
    ensures r.Some? ==> r.value in menu && r.value.id == id
    ensures r.Some? ==>
      exists k :: 0 <= k < |menu| && menu[k] == r.value && forall j :: 0 <= j < k ==> menu[j].id != id
  {
    if |menu| == 0 then None
    else if menu[0].id == id then Some(menu[0])
    else FindMenuItem(menu[1..], id)
  }

  /** The price of the item, 0 when the id is not in the catalogue. */
  function PriceOf(menu: seq<MenuItem>, id: int): int
  {
    match FindMenuItem(menu, id)
    case Some(m) => m.price
    case None => 0
  }

  predicate InMenu(menu: seq<MenuItem>, id: int)
  {
    FindMenuItem(menu, id).Some?
  }

  // ---------------------------------------------------------------------------------------
  // Cart shape

  predicate HasLine(cart: seq<CartLine>, id: int)
  {
    exists i :: 0 <= i < |cart| && cart[i].menuItemId == id
  }

  /** No two lines share a menu item id. */
  predicate UniqueIds(cart: seq<CartLine>)
  {
    forall i, j :: 0 <= i < j < |cart| ==> cart[i].menuItemId != cart[j].menuItemId
  }

  /** Every line refers to an item of the catalogue. */
  predicate KnownItems(menu: seq<MenuItem>, cart: seq<CartLine>)
  {
    forall i :: 0 <= i < |cart| ==> InMenu(menu, cart[i].menuItemId)
  }

  /** The invariant the store's cart keeps. */
  predicate WellFormedCart(menu: seq<MenuItem>, cart: seq<CartLine>)
  {
    UniqueIds(cart) && KnownItems(menu, cart)
  }

  /** Every line has a quantity of at least one. */
  predicate PositiveQuantities(cart: seq<CartLine>)
  {
    forall i :: 0 <= i < |cart| ==> cart[i].quantity >= 1
  }

  /** Total quantity held under one key: the multiplicity of `id` in the keyed multiset. */
  function QuantityOf(cart: seq<CartLine>, id: int): int
  {
    if |cart| == 0 then 0
    else (if cart[0].menuItemId == id then cart[0].quantity else 0) + QuantityOf(cart[1..], id)
  }

  // ---------------------------------------------------------------------------------------
  // addToCart

  /** Every line for `id` has its quantity raised by `q` in place; the other lines are kept. */
  function MergeLine(cart: seq<CartLine>, id: int, q: int): (r: seq<CartLine>)
  {
    seq(|cart|, i requires 0 <= i < |cart| =>
      if cart[i].menuItemId == id then cart[i].(quantity := cart[i].quantity + q) else cart[i])
  }

  /**
   * The cart `addToCart(id, q)` leaves: unchanged for an id outside the catalogue, the
   * existing line(s) for `id` raised by `q` in place, or one new line at the end.
   */
  function AddLine(menu: seq<MenuItem>, cart: seq<CartLine>, id: int, q: int): (r: seq<CartLine>)
    ensures !InMenu(menu, id) ==> r == cart
    ensures InMenu(menu, id) && HasLine(cart, id) ==>
      |r| == |cart| &&
      forall i :: 0 <= i < |cart| ==>
        r[i].menuItemId == cart[i].menuItemId &&
        r[i].quantity == (if cart[i].menuItemId == id then cart[i].quantity + q else cart[i].quantity)
    ensures InMenu(menu, id) && !HasLine(cart, id) ==> r == cart + [CartLine(id, q)]
  {
    if !InMenu(menu, id) then cart
    else if HasLine(cart, id) then MergeLine(cart, id, q)
    else cart + [CartLine(id, q)]
  }

  // ---------------------------------------------------------------------------------------
  // removeFromCart

  /** The cart without its lines for `id`, the others kept in their order. */
  function RemoveLines(cart: seq<CartLine>, id: int): (r: seq<CartLine>)
    ensures |r| <= |cart|
    ensures forall l :: l in r <==> l in cart && l.menuItemId != id
  {
    if |cart| == 0 then []
    else (if cart[0].menuItemId == id then [] else [cart[0]]) + RemoveLines(cart[1..], id)
  }

  // ---------------------------------------------------------------------------------------
  // The order total: the sum over the lines of the catalogue price (0 when missing) times the quantity

  function LineTotal(menu: seq<MenuItem>, line: CartLine): int
  {
    PriceOf(menu, line.menuItemId) * line.quantity
  }

  /** A left fold, as `reduce` computes it. */
  function OrderTotal(menu: seq<MenuItem>, cart: seq<CartLine>): int
  {
    if |cart| == 0 then 0
    else OrderTotal(menu, cart[..|cart| - 1]) + LineTotal(menu, cart[|cart| - 1])
  }

  // =======================================================================================
  // Lemmas

  /** The total of a concatenation is the sum of the totals. */
  lemma {:induction false} OrderTotalConcat(menu: seq<MenuItem>, a: seq<CartLine>, b: seq<CartLine>)
    ensures OrderTotal(menu, a + b) == OrderTotal(menu, a) + OrderTotal(menu, b)
  {
    if |b| == 0 {
      assert a + b == a;
    } else {
      var n := |b|;
      assert (a + b)[..|a + b| - 1] == a + b[..n - 1];
      assert (a + b)[|a + b| - 1] == b[n - 1];
      OrderTotalConcat(menu, a, b[..n - 1]);
    }
  }

  /** A line for an id the cart does not hold leaves MergeLine without effect. */
  lemma MergeAbsent(cart: seq<CartLine>, id: int, q: int)
    requires !HasLine(cart, id)
    ensures MergeLine(cart, id, q) == cart
  {
  }

  /** Adding q of a catalogue item raises the order total by its price times q. */
  lemma {:induction false} AddLineTotal(menu: seq<MenuItem>, cart: seq<CartLine>, id: int, q: int)
    requires UniqueIds(cart)
    requires InMenu(menu, id)
    ensures OrderTotal(menu, AddLine(menu, cart, id, q)) == OrderTotal(menu, cart) + PriceOf(menu, id) * q
  {
    if HasLine(cart, id) {
      MergeLineTotal(menu, cart, id, q);
    } else {
      var r := cart + [CartLine(id, q)];
      assert r[..|r| - 1] == cart;
    }
  }

  lemma {:induction false} MergeLineTotal(menu: seq<MenuItem>, cart: seq<CartLine>, id: int, q: int)
    requires UniqueIds(cart)
    requires HasLine(cart, id)
    ensures OrderTotal(menu, MergeLine(cart, id, q)) == OrderTotal(menu, cart) + PriceOf(menu, id) * q
  {
    var n := |cart|;
    var r := MergeLine(cart, id, q);
    var init := cart[..n - 1];
    assert r[..n - 1] == MergeLine(init, id, q);
    var last := cart[n - 1];
    if last.menuItemId == id {
      assert !HasLine(init, id);
      MergeAbsent(init, id, q);
      var p := PriceOf(menu, id);
      assert LineTotal(menu, r[n - 1]) == p * (last.quantity + q);
      assert p * (last.quantity + q) == p * last.quantity + p * q;
    } else {
      assert r[n - 1] == last;
      assert HasLine(init, id);
      MergeLineTotal(menu, init, id, q);
    }
  }

  /** Keyed-multiset reading of AddLine: the key gains q, every other key is unchanged. */
  lemma {:induction false} AddLineQuantities(menu: seq<MenuItem>, cart: seq<CartLine>, id: int, q: int, other: int)
    requires UniqueIds(cart)
    requires InMenu(menu, id)
    requires other != id
    ensures QuantityOf(AddLine(menu, cart, id, q), id) == QuantityOf(cart, id) + q
    ensures QuantityOf(AddLine(menu, cart, id, q), other) == QuantityOf(cart, other)
  {
    if HasLine(cart, id) {
      MergeQuantities(cart, id, q, other);
    } else {
      QuantityOfAppend(cart, CartLine(id, q), id);
      QuantityOfAppend(cart, CartLine(id, q), other);
      AbsentQuantity(cart, id);
    }
  }

  lemma {:induction false} MergeQuantities(cart: seq<CartLine>, id: int, q: int, other: int)
    requires UniqueIds(cart)
    requires HasLine(cart, id)
    requires other != id
    ensures QuantityOf(MergeLine(cart, id, q), id) == QuantityOf(cart, id) + q
    ensures QuantityOf(MergeLine(cart, id, q), other) == QuantityOf(cart, other)
  {
    var r := MergeLine(cart, id, q);
    var tail := cart[1..];
    assert r[1..] == MergeLine(tail, id, q);
    if cart[0].menuItemId == id {
      assert !HasLine(tail, id) by {
        forall i | 0 <= i < |tail| ensures tail[i].menuItemId != id {
          assert tail[i] == cart[i + 1];
        }
      }
      MergeAbsent(tail, id, q);
    } else {
      assert HasLine(tail, id) by {
        var i :| 0 <= i < |cart| && cart[i].menuItemId == id;
        assert tail[i - 1] == cart[i];
      }
      MergeQuantities(tail, id, q, other);
    }
  }

  lemma {:induction false} QuantityOfAppend(cart: seq<CartLine>, line: CartLine, key: int)
    ensures QuantityOf(cart + [line], key) ==
            QuantityOf(cart, key) + (if line.menuItemId == key then line.quantity else 0)
  {
    if |cart| == 0 {
      assert ([] + [line])[1..] == [];
    } else {
      assert (cart + [line])[1..] == cart[1..] + [line];
      QuantityOfAppend(cart[1..], line, key);
    }
  }

  lemma {:induction false} AbsentQuantity(cart: seq<CartLine>, id: int)
    requires !HasLine(cart, id)
    ensures QuantityOf(cart, id) == 0
  {
    if |cart| > 0 {
      assert !HasLine(cart[1..], id) by {
        forall i | 0 <= i < |cart| - 1 ensures cart[1..][i].menuItemId != id {
          assert cart[1..][i] == cart[i + 1];
        }
      }
      AbsentQuantity(cart[1..], id);
    }
  }

  /** addToCart keeps the store's cart invariant, and keeps quantities positive for q >= 1. */
  lemma AddLineWellFormed(menu: seq<MenuItem>, cart: seq<CartLine>, id: int, q: int)
    requires WellFormedCart(menu, cart)
    ensures WellFormedCart(menu, AddLine(menu, cart, id, q))
    ensures PositiveQuantities(cart) && q >= 1 ==> PositiveQuantities(AddLine(menu, cart, id, q))
  {
    var r := AddLine(menu, cart, id, q);
    if InMenu(menu, id) && HasLine(cart, id) {
      assert forall i :: 0 <= i < |r| ==> r[i].menuItemId == cart[i].menuItemId;
    } else if InMenu(menu, id) {
      assert r == cart + [CartLine(id, q)];
      assert forall i :: 0 <= i < |cart| ==> r[i] == cart[i];
    }
  }

  /** Filtering distributes over concatenation, so the kept lines stay in their order. */
  lemma {:induction false} RemoveConcat(a: seq<CartLine>, b: seq<CartLine>, id: int)
    ensures RemoveLines(a + b, id) == RemoveLines(a, id) + RemoveLines(b, id)
  {
    if |a| == 0 {
      assert a + b == b;
    } else {
      var c := a + b;
      assert c[0] == a[0] && c[1..] == a[1..] + b;
      var h := if a[0].menuItemId == id then [] else [a[0]];
      RemoveConcat(a[1..], b, id);
      calc {
        RemoveLines(c, id);
        h + RemoveLines(a[1..] + b, id);
        h + (RemoveLines(a[1..], id) + RemoveLines(b, id));
        (h + RemoveLines(a[1..], id)) + RemoveLines(b, id);
      }
    }
  }

  /** A single line is dropped exactly when it carries the id. */
  lemma RemoveSingle(line: CartLine, id: int)
    ensures RemoveLines([line], id) == if line.menuItemId == id then [] else [line]
  {
    assert [line][1..] == [];
  }

  /** Removing an id the cart does not hold leaves it as it is. */
  lemma {:induction false} RemoveAbsent(cart: seq<CartLine>, id: int)
    requires !HasLine(cart, id)
    ensures RemoveLines(cart, id) == cart
  {
    if |cart| > 0 {
      assert !HasLine(cart[1..], id) by {
        forall i | 0 <= i < |cart| - 1 ensures cart[1..][i].menuItemId != id {
          assert cart[1..][i] == cart[i + 1];
        }
      }
      RemoveAbsent(cart[1..], id);
      assert cart == [cart[0]] + cart[1..];
    }
  }

  /** Keyed-multiset reading of RemoveLines: the key drops to 0, every other key is unchanged. */
  lemma {:induction false} RemoveQuantities(cart: seq<CartLine>, id: int, other: int)
    requires other != id
    ensures QuantityOf(RemoveLines(cart, id), id) == 0
    ensures QuantityOf(RemoveLines(cart, id), other) == QuantityOf(cart, other)
  {
    if |cart| > 0 {
      var head := if cart[0].menuItemId == id then [] else [cart[0]];
      var rest := RemoveLines(cart[1..], id);
      RemoveQuantities(cart[1..], id, other);
      if head == [] {
        assert RemoveLines(cart, id) == rest;
      } else {
        assert (head + rest)[0] == cart[0];
        assert (head + rest)[1..] == rest;
      }
    }
  }

  /** removeFromCart keeps the store's cart invariant and positive quantities. */
  lemma RemoveWellFormed(menu: seq<MenuItem>, cart: seq<CartLine>, id: int)
    requires WellFormedCart(menu, cart)
    ensures WellFormedCart(menu, RemoveLines(cart, id))
    ensures PositiveQuantities(cart) ==> PositiveQuantities(RemoveLines(cart, id))
  {
    var r := RemoveLines(cart, id);
    forall i | 0 <= i < |r|
      ensures InMenu(menu, r[i].menuItemId)
      ensures PositiveQuantities(cart) ==> r[i].quantity >= 1
    {
      assert r[i] in cart;
    }
    RemoveUnique(cart, id);
  }

  lemma {:induction false} RemoveUnique(cart: seq<CartLine>, id: int)
    requires UniqueIds(cart)
    ensures UniqueIds(RemoveLines(cart, id))
  {
    if |cart| > 0 {
      var tail := cart[1..];
      assert UniqueIds(tail) by {
        forall i, j | 0 <= i < j < |tail| ensures tail[i].menuItemId != tail[j].menuItemId {
          assert tail[i] == cart[i + 1] && tail[j] == cart[j + 1];
        }
      }
      RemoveUnique(tail, id);
      var rest := RemoveLines(tail, id);
      if cart[0].menuItemId != id {
        var r := [cart[0]] + rest;
        assert forall j :: 0 <= j < |rest| ==> rest[j].menuItemId != cart[0].menuItemId by {
          forall j | 0 <= j < |rest| ensures rest[j].menuItemId != cart[0].menuItemId {
            assert rest[j] in tail;
            var k :| 0 <= k < |tail| && tail[k] == rest[j];
            assert tail[k] == cart[k + 1];
          }
        }
        assert forall j :: 1 <= j < |r| ==> r[j] == rest[j - 1];
      }
    }
  }

  /** With positive prices and quantities, a non-empty cart has a positive total. */
  lemma {:induction false} PositiveTotal(menu: seq<MenuItem>, cart: seq<CartLine>)
    requires forall k :: 0 <= k < |menu| ==> menu[k].price > 0
    requires KnownItems(menu, cart)
    requires PositiveQuantities(cart)
    ensures |cart| > 0 ==> OrderTotal(menu, cart) > 0
    ensures OrderTotal(menu, cart) >= 0
  {
    if |cart| > 0 {
      var n := |cart|;
      var init := cart[..n - 1];
      assert KnownItems(menu, init) && PositiveQuantities(init) by {
        forall i | 0 <= i < |init| ensures init[i] == cart[i] { }
      }
      PositiveTotal(menu, init);
      var last := cart[n - 1];
      assert InMenu(menu, last.menuItemId);
      var p := PriceOf(menu, last.menuItemId);
      assert p > 0;
      assert p * last.quantity > 0;
    }
  }
}

/**
 What the cart operations of src/hooks/useCart.ts promise: the cart invariant is
 preserved, repeat adds merge, updates and removals touch only their key, and
 the totals and invoice lines agree with the cart.
 */
module CartProperties {
  import opened SalesTypes
  import Seqs
  import opened CartSums
  import opened Cart

  // ---------------------------------------------------------------------
  // Adding

  /** In a cart without duplicate keys, adding an existing key bumps exactly that line, in place. */
  lemma AddToExistingLine(cart: seq<CartItem>, i: int, productName: string, variant: ProductVariant,
                          image: string, quantity: int)
    requires KeysUnique(cart) && 0 <= i < |cart| && cart[i].variant.sku == variant.sku
    ensures AddToCart(cart, cart[i].productId, productName, variant, image, quantity)
            == cart[i := cart[i].(quantity := cart[i].quantity + quantity)]
  {
    UniqueKeyPosition(cart, i);
    var k := FindIndex(cart, cart[i].productId, variant.sku);
    assert k == i;
  }

  /** Adding a key the cart does not hold appends one line at the end. */
  lemma AddNewLine(cart: seq<CartItem>, productId: string, productName: string, variant: ProductVariant,
                   image: string, quantity: int)
    requires !KeyIn(cart, productId, variant.sku)
    ensures AddToCart(cart, productId, productName, variant, image, quantity)
            == cart + [CartItem(productId, productName, variant, quantity, image)]
  {
  }

  /** Two adds of the same key amount to one add of the summed quantity. */
  lemma AddTwiceMerges(cart: seq<CartItem>, productId: string, productName: string, variant: ProductVariant,
                       image: string, q1: int, q2: int)
    ensures AddToCart(AddToCart(cart, productId, productName, variant, image, q1),
                      productId, productName, variant, image, q2)
            == AddToCart(cart, productId, productName, variant, image, q1 + q2)
  {
    var once := AddToCart(cart, productId, productName, variant, image, q1);
    var i := FindIndex(cart, productId, variant.sku);
    var k := FindIndex(once, productId, variant.sku);
    if i >= 0 {
      assert k == i;
    } else {
      assert k == |cart|;
    }
  }

  /** Adding with a positive quantity keeps the cart valid. */
  lemma AddPreservesValid(cart: seq<CartItem>, productId: string, productName: string, variant: ProductVariant,
                          image: string, quantity: int)
    requires Valid(cart) && quantity >= 1
    ensures Valid(AddToCart(cart, productId, productName, variant, image, quantity))
  {
    var r := AddToCart(cart, productId, productName, variant, image, quantity);
    var i := FindIndex(cart, productId, variant.sku);
    if i >= 0 {
      assert forall j :: 0 <= j < |r| ==> SameKey(r[j], cart[j]) && SameKey(cart[j], r[j]);
      forall a, b | 0 <= a < b < |r| ensures !SameKey(r[a], r[b]) {
        assert !SameKey(cart[a], cart[b]);
      }
    } else {
      forall a, b | 0 <= a < b < |r| ensures !SameKey(r[a], r[b]) {
        if b == |cart| {
          assert !HasKey(cart[a], productId, variant.sku);
        } else {
          assert !SameKey(cart[a], cart[b]);
        }
      }
    }
  }

  // ---------------------------------------------------------------------
  // Removing

  /** Removing a key the cart does not hold leaves it unchanged. */
  lemma RemoveAbsentKey(cart: seq<CartItem>, productId: string, sku: string)
    requires !KeyIn(cart, productId, sku)
    ensures RemoveFromCart(cart, productId, sku) == cart
  {
    Seqs.FilterAllKept(cart, OtherKey(productId, sku));
  }

  /** In a cart without duplicate keys, removing the key at `i` deletes exactly that line. */
  lemma RemoveDeletesOneLine(cart: seq<CartItem>, i: int)
    requires KeysUnique(cart) && 0 <= i < |cart|
    ensures RemoveFromCart(cart, cart[i].productId, cart[i].variant.sku) == cart[..i] + cart[i + 1..]
  {
    UniqueKeyPosition(cart, i);
    Seqs.FilterRemovesOne(cart, OtherKey(cart[i].productId, cart[i].variant.sku), i);
  }

  /** Removing twice is the same as removing once. */
  lemma RemoveIdempotent(cart: seq<CartItem>, productId: string, sku: string)
    ensures RemoveFromCart(RemoveFromCart(cart, productId, sku), productId, sku)
            == RemoveFromCart(cart, productId, sku)
  {
    Seqs.FilterIdempotent(cart, OtherKey(productId, sku));
  }

  /** Removing keeps the cart valid. */
  lemma RemovePreservesValid(cart: seq<CartItem>, productId: string, sku: string)
    requires Valid(cart)
    ensures Valid(RemoveFromCart(cart, productId, sku))
  {
    var r := RemoveFromCart(cart, productId, sku);
    FilterKeepsUnique(cart, OtherKey(productId, sku));
  }

  lemma {:induction false} FilterKeepsUnique(cart: seq<CartItem>, keep: CartItem -> bool)
    requires Valid(cart)
    ensures Valid(Seqs.Filter(cart, keep))
    decreases |cart|
  {
    if cart != [] {
      FilterKeepsUnique(cart[1..], keep);
      var rest := Seqs.Filter(cart[1..], keep);
      if keep(cart[0]) {
        var r := [cart[0]] + rest;
        assert Seqs.Filter(cart, keep) == r;
        forall a, b | 0 <= a < b < |r| ensures !SameKey(r[a], r[b]) {
          if a == 0 {
            var m :| 0 <= m < |cart[1..]| && cart[1..][m] == r[b];
            assert !SameKey(cart[0], cart[m + 1]);
          } else {
            assert !SameKey(rest[a - 1], rest[b - 1]);
          }
        }
        forall a | 0 <= a < |r| ensures r[a].quantity >= 1 {
          if a > 0 {
            assert r[a] == rest[a - 1];
          }
        }
      }
    }
  }

  // ---------------------------------------------------------------------
  // Updating

  /** A positive update of a key the cart does not hold creates nothing and changes nothing. */
  lemma UpdateAbsentKey(cart: seq<CartItem>, productId: string, sku: string, quantity: int)
    requires !KeyIn(cart, productId, sku)
    ensures UpdateQuantity(cart, productId, sku, quantity) == cart
  {
    if quantity <= 0 {
      RemoveAbsentKey(cart, productId, sku);
    }
  }

  /** In a cart without duplicate keys, a positive update overwrites exactly the key's line. */
  lemma UpdateOverwritesOneLine(cart: seq<CartItem>, i: int, quantity: int)
    requires KeysUnique(cart) && 0 <= i < |cart| && quantity > 0
    ensures UpdateQuantity(cart, cart[i].productId, cart[i].variant.sku, quantity)
            == cart[i := cart[i].(quantity := quantity)]
  {
    UniqueKeyPosition(cart, i);
  }

  /** Updating keeps the cart valid, whatever the quantity. */
  lemma UpdatePreservesValid(cart: seq<CartItem>, productId: string, sku: string, quantity: int)
    requires Valid(cart)
    ensures Valid(UpdateQuantity(cart, productId, sku, quantity))
  {
    if quantity <= 0 {
      RemovePreservesValid(cart, productId, sku);
    } else {
      var r := UpdateQuantity(cart, productId, sku, quantity);
      assert forall j :: 0 <= j < |r| ==> SameKey(r[j], cart[j]) && SameKey(cart[j], r[j]);
      forall a, b | 0 <= a < b < |r| ensures !SameKey(r[a], r[b]) {
        assert !SameKey(cart[a], cart[b]);
      }
    }
  }

  // ---------------------------------------------------------------------
  // The cart as a key-to-quantity table

  /** Adding raises the quantity under the added key by the amount added and leaves every other key alone. */
  lemma AddQuantityOf(cart: seq<CartItem>, productId: string, productName: string, variant: ProductVariant,
                      image: string, quantity: int, otherId: string, otherSku: string)
    ensures var r := AddToCart(cart, productId, productName, variant, image, quantity);
            && QuantityOf(r, productId, variant.sku) == QuantityOf(cart, productId, variant.sku) + quantity
            && ((otherId, otherSku) != (productId, variant.sku) ==>
                  QuantityOf(r, otherId, otherSku) == QuantityOf(cart, otherId, otherSku))
  {
    var r := AddToCart(cart, productId, productName, variant, image, quantity);
    var i := FindIndex(cart, productId, variant.sku);
    var x := CartItem(productId, productName, variant, quantity, image);
    if i >= 0 {
      SumIntUpdate(cart, i, r[i], KeyQuantity(productId, variant.sku));
      SumIntUpdate(cart, i, r[i], KeyQuantity(otherId, otherSku));
    } else {
      SumIntAppend(cart, [x], KeyQuantity(productId, variant.sku));
      SumIntAppend(cart, [x], KeyQuantity(otherId, otherSku));
    }
  }

  /** After a removal the key holds nothing, and every other key holds what it held. */
  lemma RemoveQuantityOf(cart: seq<CartItem>, productId: string, sku: string, otherId: string, otherSku: string)
    ensures QuantityOf(RemoveFromCart(cart, productId, sku), productId, sku) == 0
    ensures (otherId, otherSku) != (productId, sku) ==>
              QuantityOf(RemoveFromCart(cart, productId, sku), otherId, otherSku) == QuantityOf(cart, otherId, otherSku)
  {
    var r := RemoveFromCart(cart, productId, sku);
    SumIntAllZero(r, KeyQuantity(productId, sku));
    if (otherId, otherSku) != (productId, sku) {
      SumIntFilterDropsZeros(cart, OtherKey(productId, sku), KeyQuantity(otherId, otherSku));
    }
  }

  /** A positive update sets the key's quantity (when it is held) and leaves every other key alone. */
  lemma UpdateQuantityOf(cart: seq<CartItem>, productId: string, sku: string, quantity: int,
                         otherId: string, otherSku: string)
    requires KeysUnique(cart) && quantity > 0
    ensures QuantityOf(UpdateQuantity(cart, productId, sku, quantity), productId, sku)
            == if KeyIn(cart, productId, sku) then quantity else 0
    ensures (otherId, otherSku) != (productId, sku) ==>
              QuantityOf(UpdateQuantity(cart, productId, sku, quantity), otherId, otherSku)
              == QuantityOf(cart, otherId, otherSku)
  {
    var r := UpdateQuantity(cart, productId, sku, quantity);
    var i := FindIndex(cart, productId, sku);
    if i >= 0 {
      UpdateOverwritesOneLine(cart, i, quantity);
      UniqueKeyPosition(cart, i);
      SumIntUpdate(cart, i, r[i], KeyQuantity(productId, sku));
      SumIntUpdate(cart, i, r[i], KeyQuantity(otherId, otherSku));
      UniqueKeyPosition(r, i);
      assert forall j :: 0 <= j < |cart| ==> SameKey(r[j], cart[j]);
      assert KeysUnique(r) by {
        UpdatePreservesUniqueKeys(cart, productId, sku, quantity);
      }
      assert forall j :: 0 <= j < |r| && j != i ==> KeyQuantity(productId, sku)(r[j]) == 0;
      assert QuantityOf(cart, productId, sku) == cart[i].quantity by {
        OnlyLineCounts(cart, i, productId, sku);
      }
    } else {
      UpdateAbsentKey(cart, productId, sku, quantity);
      SumIntAllZero(cart, KeyQuantity(productId, sku));
    }
  }

  lemma UpdatePreservesUniqueKeys(cart: seq<CartItem>, productId: string, sku: string, quantity: int)
    requires KeysUnique(cart) && quantity > 0
    ensures KeysUnique(UpdateQuantity(cart, productId, sku, quantity))
  {
    var r := UpdateQuantity(cart, productId, sku, quantity);
    assert forall j :: 0 <= j < |r| ==> SameKey(r[j], cart[j]) && SameKey(cart[j], r[j]);
    forall a, b | 0 <= a < b < |r| ensures !SameKey(r[a], r[b]) {
      assert !SameKey(cart[a], cart[b]);
    }
  }

  /** When only line `i` carries the key, the key's quantity is that line's quantity. */
  lemma OnlyLineCounts(cart: seq<CartItem>, i: int, productId: string, sku: string)
    requires 0 <= i < |cart| && HasKey(cart[i], productId, sku)
    requires forall j :: 0 <= j < |cart| && j != i ==> !HasKey(cart[j], productId, sku)
    ensures QuantityOf(cart, productId, sku) == cart[i].quantity
  {
    var f := KeyQuantity(productId, sku);
    var zeroed := cart[i := cart[i].(productId := cart[i].productId + "#")];
    assert forall j :: 0 <= j < |zeroed| ==> f(zeroed[j]) == 0;
    SumIntAllZero(zeroed, f);
    SumIntUpdate(zeroed, i, cart[i], f);
    assert zeroed[i := cart[i]] == cart;
  }

  // ---------------------------------------------------------------------
  // Totals

  /** The emptied cart has all-zero totals. */
  lemma ClearedTotals()
    ensures TotalsOf(ClearCart()) == Totals(0.0, 0.0, 0.0, 0)
  {
  }

  /** The worked example: 2 × 450 and 1 × 280 give 1180, 212.4, 1392.4 and 3 units. */
  lemma TotalsExample(a: ProductVariant, b: ProductVariant)
    requires a.price == 450.0 && b.price == 280.0
    ensures TotalsOf([CartItem("1", "Premium Engine Oil", a, 2, "/placeholder.svg"),
                      CartItem("2", "Brake Fluid DOT 4", b, 1, "/placeholder.svg")])
            == Totals(1180.0, 212.4, 1392.4, 3)
  {
    var cart := [CartItem("1", "Premium Engine Oil", a, 2, "/placeholder.svg"),
                 CartItem("2", "Brake Fluid DOT 4", b, 1, "/placeholder.svg")];
    assert cart[1..][0] == cart[1] && cart[1..][1..] == [];
    assert SumReal(cart[1..], LineAmount) == 280.0;
    assert SumInt(cart[1..], Quantity) == 1;
  }

  /** Adding raises the unit count by the quantity and the subtotal by that many units of the line's price. */
  lemma AddTotals(cart: seq<CartItem>, i: int, productId: string, productName: string, variant: ProductVariant,
                  image: string, quantity: int)
    requires i == FindIndex(cart, productId, variant.sku)
    ensures ItemCount(AddToCart(cart, productId, productName, variant, image, quantity))
            == ItemCount(cart) + quantity
    ensures Subtotal(AddToCart(cart, productId, productName, variant, image, quantity))
            == Subtotal(cart) + (if i >= 0 then cart[i].variant.price else variant.price) * quantity as real
  {
    if i >= 0 {
      AddExistingTotals(cart, i, productId, productName, variant, image, quantity);
    } else {
      AddNewTotals(cart, productId, productName, variant, image, quantity);
    }
  }

  lemma AddNewTotals(cart: seq<CartItem>, productId: string, productName: string, variant: ProductVariant,
                     image: string, quantity: int)
    requires FindIndex(cart, productId, variant.sku) < 0
    ensures ItemCount(AddToCart(cart, productId, productName, variant, image, quantity)) == ItemCount(cart) + quantity
    ensures Subtotal(AddToCart(cart, productId, productName, variant, image, quantity))
            == Subtotal(cart) + variant.price * quantity as real
  {
    AppendTotals(cart, CartItem(productId, productName, variant, quantity, image));
  }

  lemma AddExistingTotals(cart: seq<CartItem>, i: int, productId: string, productName: string, variant: ProductVariant,
                          image: string, quantity: int)
    requires 0 <= i == FindIndex(cart, productId, variant.sku)
    ensures AddToCart(cart, productId, productName, variant, image, quantity) == BumpLine(cart, i, quantity)
    ensures ItemCount(BumpLine(cart, i, quantity)) == ItemCount(cart) + quantity
    ensures Subtotal(BumpLine(cart, i, quantity)) == Subtotal(cart) + cart[i].variant.price * quantity as real
  {
    BumpTotals(cart, i, quantity);
  }

  /** Raising the quantity of line `i` raises the unit count and the subtotal accordingly. */
  lemma BumpTotals(cart: seq<CartItem>, i: int, quantity: int)
    requires 0 <= i < |cart|
    ensures var r := BumpLine(cart, i, quantity);
            && ItemCount(r) == ItemCount(cart) + quantity
            && Subtotal(r) == Subtotal(cart) + cart[i].variant.price * quantity as real
  {
    var x := cart[i].(quantity := cart[i].quantity + quantity);
    SumIntUpdate(cart, i, x, Quantity);
    SumRealUpdate(cart, i, x, LineAmount);
    LineAmountGrows(cart[i], quantity);
  }

  /** Appending a line adds its units and its amount. */
  lemma AppendTotals(cart: seq<CartItem>, x: CartItem)
    ensures ItemCount(cart + [x]) == ItemCount(cart) + x.quantity
    ensures Subtotal(cart + [x]) == Subtotal(cart) + LineAmount(x)
  {
    SumIntAppend(cart, [x], Quantity);
    SumRealAppend(cart, [x], LineAmount);
  }

  lemma LineAmountGrows(item: CartItem, quantity: int)
    ensures LineAmount(item.(quantity := item.quantity + quantity))
            == LineAmount(item) + item.variant.price * quantity as real
  {
    var p := item.variant.price;
    assert p * (item.quantity + quantity) as real == p * item.quantity as real + p * quantity as real;
  }

  /** Removing a line of a cart without duplicate keys takes exactly that line out of the totals. */
  lemma RemoveTotals(cart: seq<CartItem>, i: int)
    requires KeysUnique(cart) && 0 <= i < |cart|
    ensures var r := RemoveFromCart(cart, cart[i].productId, cart[i].variant.sku);
            && TotalsOf(r).itemCount == TotalsOf(cart).itemCount - cart[i].quantity
            && TotalsOf(r).subtotal == TotalsOf(cart).subtotal - cart[i].variant.price * cart[i].quantity as real
  {
    RemoveDeletesOneLine(cart, i);
    DeleteTotals(cart, i);
  }

  /** Deleting the line at `i` takes exactly that line out of the totals. */
  lemma DeleteTotals(cart: seq<CartItem>, i: int)
    requires 0 <= i < |cart|
    ensures TotalsOf(cart[..i] + cart[i + 1..]).itemCount == TotalsOf(cart).itemCount - cart[i].quantity
    ensures TotalsOf(cart[..i] + cart[i + 1..]).subtotal
            == TotalsOf(cart).subtotal - cart[i].variant.price * cart[i].quantity as real
  {
    SumIntDelete(cart, i, Quantity);
    SumRealDelete(cart, i, LineAmount);
  }

  /** With non-negative prices the figures of a valid cart are ordered as a receipt expects. */
  lemma TotalsBounds(cart: seq<CartItem>)
    requires Valid(cart)
    requires forall i :: 0 <= i < |cart| ==> cart[i].variant.price >= 0.0
    ensures 0.0 <= TotalsOf(cart).subtotal <= TotalsOf(cart).total
    ensures TotalsOf(cart).itemCount >= |cart|
    ensures TotalsOf(cart).itemCount == 0 <==> cart == []
  {
    SumRealNonNegative(cart, LineAmount);
    SumIntAtLeastLength(cart, Quantity);
  }

  // ---------------------------------------------------------------------
  // Invoice lines

  /** The invoice lines' amounts add up to the cart's subtotal. */
  lemma {:induction false} InvoiceAmountIsSubtotal(cart: seq<CartItem>)
    ensures InvoiceAmount(ToInvoiceItems(cart)) == TotalsOf(cart).subtotal
    decreases |cart|
  {
    if cart != [] {
      InvoiceAmountIsSubtotal(cart[1..]);
      assert ToInvoiceItems(cart)[1..] == ToInvoiceItems(cart[1..]);
    }
  }

  /** Each invoice line's amount is its price times its quantity. */
  lemma InvoiceLineAmounts(cart: seq<CartItem>)
    ensures forall i :: 0 <= i < |cart| ==>
              ToInvoiceItems(cart)[i].tamount == ToInvoiceItems(cart)[i].price * ToInvoiceItems(cart)[i].qty as real
  {
  }
}

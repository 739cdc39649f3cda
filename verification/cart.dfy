/**
 The cart aggregator of src/hooks/useCart.ts: a sequence of cart lines keyed by
 (productId, variant.sku), updated functionally, with derived totals and the
 projection to invoice lines.
 */
module Cart {
  import opened SalesTypes
  import Seqs
  import opened CartSums

  // ---------------------------------------------------------------------
  // Keys and the cart invariant

  /** The line belongs to the given (productId, sku) key. */
  predicate HasKey(item: CartItem, productId: string, sku: string) {
    item.productId == productId && item.variant.sku == sku
  }

  predicate SameKey(a: CartItem, b: CartItem) {
    HasKey(a, b.productId, b.variant.sku)
  }

  predicate KeyIn(cart: seq<CartItem>, productId: string, sku: string) {
    exists i :: 0 <= i < |cart| && HasKey(cart[i], productId, sku)
  }

  /** No two lines share a (productId, sku) key. */
  predicate KeysUnique(cart: seq<CartItem>) {
    forall i, j :: 0 <= i < j < |cart| ==> !SameKey(cart[i], cart[j])
  }

  predicate QuantitiesPositive(cart: seq<CartItem>) {
    forall i :: 0 <= i < |cart| ==> cart[i].quantity >= 1
  }

  /** The invariant every reachable cart satisfies. */
  predicate Valid(cart: seq<CartItem>) {
    KeysUnique(cart) && QuantitiesPositive(cart)
  }

  /** In a cart without duplicate keys, a key present at `i` is present nowhere else. */
  lemma UniqueKeyPosition(cart: seq<CartItem>, i: int)
    requires KeysUnique(cart) && 0 <= i < |cart|
    ensures forall j :: 0 <= j < |cart| && j != i ==> !HasKey(cart[j], cart[i].productId, cart[i].variant.sku)
  {
    forall j | 0 <= j < |cart| && j != i
      ensures !HasKey(cart[j], cart[i].productId, cart[i].variant.sku)
    {
      if j < i {
        assert !SameKey(cart[j], cart[i]);
      } else {
        assert !SameKey(cart[i], cart[j]);
      }
    }
  }

  // ---------------------------------------------------------------------
  // Operations

  /** `findIndex`: the first line with the key, or -1 when there is none. */
  function FindIndex(cart: seq<CartItem>, productId: string, sku: string): (r: int)
    ensures -1 <= r < |cart|
    ensures r == -1 <==> !KeyIn(cart, productId, sku)
    ensures r >= 0 ==> HasKey(cart[r], productId, sku)
    ensures r >= 0 ==> forall j :: 0 <= j < r ==> !HasKey(cart[j], productId, sku)
    decreases |cart|
  {
    if cart == [] then -1
    else if HasKey(cart[0], productId, sku) then 0
    else
      var j := FindIndex(cart[1..], productId, sku);
      assert forall k :: 1 <= k < |cart| ==> cart[k] == cart[1..][k - 1];
      if j < 0 then -1 else j + 1
  }

  /** The quantity `addToCart` uses when none is given. */
  const DefaultQuantity: int := 1

  /**
   `addToCart`: a repeat add of a key bumps the first line with that key in place;
   a new key is appended as a fresh line.
   */
  function AddToCart(cart: seq<CartItem>, productId: string, productName: string,
                     variant: ProductVariant, image: string, quantity: int): (r: seq<CartItem>)
    ensures KeyIn(r, productId, variant.sku)
    ensures |r| == if KeyIn(cart, productId, variant.sku) then |cart| else |cart| + 1
    ensures forall j :: 0 <= j < |cart| && j != FindIndex(cart, productId, variant.sku) ==> r[j] == cart[j]
    ensures !KeyIn(cart, productId, variant.sku) ==>
              r[|cart|] == CartItem(productId, productName, variant, quantity, image)
    ensures KeyIn(cart, productId, variant.sku) ==>
              var i := FindIndex(cart, productId, variant.sku);
              r[i].quantity == cart[i].quantity + quantity
              && r[i] == cart[i].(quantity := r[i].quantity)
  {
    var i := FindIndex(cart, productId, variant.sku);
    if i >= 0 then
      BumpLine(cart, i, quantity)
    else
      var r := cart + [CartItem(productId, productName, variant, quantity, image)];
      assert HasKey(r[|cart|], productId, variant.sku);
      r
  }

  /** The cart with `quantity` more units on line `i`. */
  function BumpLine(cart: seq<CartItem>, i: int, quantity: int): seq<CartItem>
    requires 0 <= i < |cart|
  {
    cart[i := cart[i].(quantity := cart[i].quantity + quantity)]
  }

  /** The test `removeFromCart` and `updateQuantity` filter with: keep lines of other keys. */
  function OtherKey(productId: string, sku: string): CartItem -> bool {
    item => !HasKey(item, productId, sku)
  }

  /** `removeFromCart`: drops every line with the key, keeping the rest in order. */
  function RemoveFromCart(cart: seq<CartItem>, productId: string, sku: string): (r: seq<CartItem>)
    ensures !KeyIn(r, productId, sku)
    ensures forall j :: 0 <= j < |cart| && !HasKey(cart[j], productId, sku) ==> cart[j] in r
    ensures forall j :: 0 <= j < |r| ==> r[j] in cart
    ensures Seqs.IsSubsequence(r, cart)
    ensures forall x :: multiset(r)[x] == if HasKey(x, productId, sku) then 0 else multiset(cart)[x]
  {
    Seqs.FilterIsSubsequence(cart, OtherKey(productId, sku));
    Seqs.Filter(cart, OtherKey(productId, sku))
  }

  /**
   `updateQuantity`: a quantity of zero or less removes the key; a positive one
   overwrites the quantity of every line with the key and never adds a line.
   */
  function UpdateQuantity(cart: seq<CartItem>, productId: string, sku: string, quantity: int): (r: seq<CartItem>)
    ensures quantity <= 0 ==> r == RemoveFromCart(cart, productId, sku)
    ensures quantity > 0 ==> |r| == |cart|
    ensures quantity > 0 ==> forall j :: 0 <= j < |cart| ==>
              if HasKey(cart[j], productId, sku) then r[j] == cart[j].(quantity := quantity) else r[j] == cart[j]
  {
    if quantity <= 0 then RemoveFromCart(cart, productId, sku)
    else seq(|cart|, j requires 0 <= j < |cart| =>
                      if HasKey(cart[j], productId, sku) then cart[j].(quantity := quantity) else cart[j])
  }

  /** `clearCart`. */
  function ClearCart(): (r: seq<CartItem>)
    ensures Valid(r) && |r| == 0
  {
    []
  }

  // ---------------------------------------------------------------------
  // Totals and the invoice projection

  function LineAmount(item: CartItem): real {
    item.variant.price * item.quantity as real
  }

  function Quantity(item: CartItem): int {
    item.quantity
  }

  /** Σ price × quantity over the cart. */
  function Subtotal(cart: seq<CartItem>): real {
    SumReal(cart, LineAmount)
  }

  /** Σ quantity over the cart. */
  function ItemCount(cart: seq<CartItem>): int {
    SumInt(cart, Quantity)
  }

  /** The GST rate, in percent. */
  const TaxPercent: real := 18.0

  /** `totals`: subtotal, 18% GST on it, their sum, and the number of units. */
  function TotalsOf(cart: seq<CartItem>): (t: Totals)
    ensures t.total == t.subtotal * 118.0 / 100.0
    ensures t.total - t.subtotal == t.tax
  {
    var subtotal := Subtotal(cart);
    var tax := subtotal * TaxPercent / 100.0;
    Totals(subtotal, tax, subtotal + tax, ItemCount(cart))
  }

  /** One invoice line: "<product> - <size>", the quantity, the unit price and the line amount. */
  function ToInvoiceItem(item: CartItem): (line: InvoiceItem)
    ensures line.tamount == line.price * line.qty as real
  {
    InvoiceItem(item.productName + " - " + item.variant.size, item.quantity, item.variant.price, LineAmount(item))
  }

  /** `toInvoiceItems`: one invoice line per cart line, in cart order. */
  function ToInvoiceItems(cart: seq<CartItem>): (items: seq<InvoiceItem>)
    ensures |items| == |cart|
    ensures forall i :: 0 <= i < |cart| ==>
              && items[i].name == cart[i].productName + " - " + cart[i].variant.size
              && items[i].qty == cart[i].quantity
              && items[i].price == cart[i].variant.price
  {
    seq(|cart|, i requires 0 <= i < |cart| => ToInvoiceItem(cart[i]))
  }

  /** Σ tamount over invoice lines. */
  function InvoiceAmount(items: seq<InvoiceItem>): real
    decreases |items|
  {
    if items == [] then 0.0 else items[0].tamount + InvoiceAmount(items[1..])
  }

  /** Units held under one key: the cart viewed as a key-to-quantity table. */
  function QuantityOf(cart: seq<CartItem>, productId: string, sku: string): int {
    SumInt(cart, KeyQuantity(productId, sku))
  }

  function KeyQuantity(productId: string, sku: string): CartItem -> int {
    item => if HasKey(item, productId, sku) then item.quantity else 0
  }
}

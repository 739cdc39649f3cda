/**
 The sales page of src/pages/Index.tsx: the catalog/review view switch, the
 search box, the cart the page owns, and the handlers the child components call.
 The page is a value; each user action is an event that steps it.
 */
module Storefront {
  import opened Wrappers
  import opened SalesTypes
  import opened Cart
  import CartProperties
  import ProductSearch
  import Seqs

  datatype View = Catalog | Review

  /**
   The page's state: which view is shown, the search box text and the cart, and
   whether the mounted invoice review has generated its invoice (its
   `invoiceGenerated`; the review is mounted afresh each time it is shown).
   */
  datatype PageState = PageState(view: View, searchQuery: string, cart: seq<CartItem>, generated: bool)

  function InitialPage(): PageState {
    PageState(Catalog, "", [], false)
  }

  /**
   `filteredProducts`: nothing while the products have not loaded, everything
   for an empty query, otherwise the products that match it.
   */
  function FilteredProducts(products: Option<seq<Product>>, searchQuery: string): (r: seq<Product>)
    ensures products.None? ==> r == []
    ensures products.Some? && searchQuery == "" ==> r == products.value
    ensures products.Some? ==> Seqs.IsSubsequence(r, products.value)
    ensures products.Some? ==>
              forall p :: multiset(r)[p] == if ProductSearch.MatchesQuery(p, searchQuery) then multiset(products.value)[p] else 0
    ensures products.Some? && searchQuery != "" ==>
              && (forall i :: 0 <= i < |r| ==> ProductSearch.MatchesQuery(r[i], searchQuery))
              && (forall i :: 0 <= i < |products.value| && ProductSearch.MatchesQuery(products.value[i], searchQuery)
                    ==> products.value[i] in r)
  {
    match products
    case None => []
    case Some(ps) =>
      if searchQuery == "" then
        ProductSearch.EmptyQueryMatchesAll();
        Seqs.SubsequenceReflexive(ps);
        ps
      else ProductSearch.FilterByQuery(ps, searchQuery)
  }

  /** `handleAddToCart`: one unit of the chosen variant, under the product's id, name and image. */
  function HandleAddToCart(page: PageState, product: Product, variant: ProductVariant): (r: PageState)
    ensures r.view == page.view && r.searchQuery == page.searchQuery
    ensures KeyIn(r.cart, product.id, variant.sku)
    ensures QuantityOf(r.cart, product.id, variant.sku) == QuantityOf(page.cart, product.id, variant.sku) + 1
    ensures !KeyIn(page.cart, product.id, variant.sku) ==>
              r.cart == page.cart + [CartItem(product.id, product.name, variant, 1, product.image)]
    ensures forall id, sku :: (id, sku) != (product.id, variant.sku) ==>
              QuantityOf(r.cart, id, sku) == QuantityOf(page.cart, id, sku)
    ensures KeyIn(page.cart, product.id, variant.sku) ==>
              var i := FindIndex(page.cart, product.id, variant.sku);
              && |r.cart| == |page.cart|
              && r.cart[i] == page.cart[i].(quantity := page.cart[i].quantity + 1)
              && forall j :: 0 <= j < |page.cart| && j != i ==> r.cart[j] == page.cart[j]
    ensures r.generated == page.generated
  {
    AddKeepsOtherKeys(page.cart, product, variant);
    page.(cart := AddToCart(page.cart, product.id, product.name, variant, product.image, DefaultQuantity))
  }

  /** Adding a unit of one key leaves the quantity of every other key as it was. */
  lemma AddKeepsOtherKeys(cart: seq<CartItem>, product: Product, variant: ProductVariant)
    ensures var r := AddToCart(cart, product.id, product.name, variant, product.image, DefaultQuantity);
            && QuantityOf(r, product.id, variant.sku) == QuantityOf(cart, product.id, variant.sku) + DefaultQuantity
            && forall id, sku :: (id, sku) != (product.id, variant.sku) ==> QuantityOf(r, id, sku) == QuantityOf(cart, id, sku)
  {
    forall id, sku
      ensures (id, sku) != (product.id, variant.sku) ==>
                QuantityOf(AddToCart(cart, product.id, product.name, variant, product.image, DefaultQuantity), id, sku)
                == QuantityOf(cart, id, sku)
    {
      CartProperties.AddQuantityOf(cart, product.id, product.name, variant, product.image, DefaultQuantity, id, sku);
    }
    CartProperties.AddQuantityOf(cart, product.id, product.name, variant, product.image, DefaultQuantity,
                                 product.id, variant.sku);
  }

  /** `handleCheckout`: show a fresh review of the same cart; the search is kept. */
  function HandleCheckout(page: PageState): (r: PageState)
    ensures r.view == Review && !r.generated
    ensures r.cart == page.cart && r.searchQuery == page.searchQuery
  {
    page.(view := Review, generated := false)
  }

  /** `handleBackToCatalog`: show the catalog again, keeping the cart and the search. */
  function HandleBackToCatalog(page: PageState): (r: PageState)
    ensures r.view == Catalog && !r.generated
    ensures r.cart == page.cart && r.searchQuery == page.searchQuery
  {
    page.(view := Catalog, generated := false)
  }

  /** `handleOrderComplete`: empty the cart, show the catalog and clear the search. */
  function HandleOrderComplete(page: PageState): (r: PageState)
    ensures r == InitialPage()
    ensures r.cart == [] && r.searchQuery == "" && r.view == Catalog
  {
    page.(cart := ClearCart(), view := Catalog, searchQuery := "", generated := false)
  }

  /**
   What the user can do. The catalog view renders the search box, the product
   cards and the floating cart. The review view renders the back button and the
   generate buttons until an invoice is generated, and from then on only the
   confirmation with its "New Order" button.
   */
  datatype Event =
    | TypeQuery(text: string)
    | AddProduct(product: Product, variant: ProductVariant)
    | ChangeQuantity(productId: string, sku: string, quantity: int)
    | RemoveLine(productId: string, sku: string)
    | Checkout
    | BackToCatalog
    | InvoiceGenerated
    | OrderComplete

  /**
   Line i of the floating cart carries the key and its minus or plus button
   asks for that line's quantity one lower or one higher.
   */
  predicate StepsLine(cart: seq<CartItem>, i: int, productId: string, sku: string, quantity: int) {
    && 0 <= i < |cart|
    && HasKey(cart[i], productId, sku)
    && (quantity == cart[i].quantity - 1 || quantity == cart[i].quantity + 1)
  }

  /**
   Whether the rendered view offers the event. A product card offers only its
   own variants and disables those with a stock of zero; the floating cart, and
   with it its checkout button, is not rendered while the cart is empty, and it
   offers, per line, only that line's own key with its quantity one lower or one
   higher, and the removal of that key.
   `InvoiceGenerated` stands for a run of `handleGenerateInvoice` that succeeded.
   */
  predicate Offered(page: PageState, e: Event) {
    match e
    case TypeQuery(_) => page.view == Catalog
    case AddProduct(product, variant) => page.view == Catalog && variant in product.variants && variant.stock != 0
    case ChangeQuantity(productId, sku, quantity) =>
      page.view == Catalog && exists i :: 0 <= i < |page.cart| && StepsLine(page.cart, i, productId, sku, quantity)
    case RemoveLine(productId, sku) => page.view == Catalog && KeyIn(page.cart, productId, sku)
    case Checkout => page.view == Catalog && page.cart != []
    case BackToCatalog => page.view == Review && !page.generated
    case InvoiceGenerated => page.view == Review && !page.generated
    case OrderComplete => page.view == Review && page.generated
  }

  /** One user action; an action the current view does not offer changes nothing. */
  function Step(page: PageState, e: Event): (r: PageState)
    ensures !Offered(page, e) ==> r == page
    ensures Offered(page, e) && !e.TypeQuery? && !e.OrderComplete? ==> r.searchQuery == page.searchQuery
    ensures page.view == Review && Offered(page, e) ==> r.cart == page.cart || e.OrderComplete?
  {
    if !Offered(page, e) then page
    else
      match e
      case TypeQuery(text) => page.(searchQuery := text)
      case AddProduct(product, variant) => HandleAddToCart(page, product, variant)
      case ChangeQuantity(productId, sku, quantity) =>
        page.(cart := UpdateQuantity(page.cart, productId, sku, quantity))
      case RemoveLine(productId, sku) => page.(cart := RemoveFromCart(page.cart, productId, sku))
      case Checkout => HandleCheckout(page)
      case BackToCatalog => HandleBackToCatalog(page)
      case InvoiceGenerated => page.(generated := true)
      case OrderComplete => HandleOrderComplete(page)
  }

  /** The page after a sequence of actions, the first applied first. */
  function Run(page: PageState, events: seq<Event>): PageState
    decreases |events|
  {
    if events == [] then page else Run(Step(page, events[0]), events[1..])
  }

  /**
   What holds of every page the user can reach: a valid cart, a review only of a
   non-empty cart, and a generated invoice only while the review is shown.
   */
  predicate PageInvariant(page: PageState) {
    && Valid(page.cart)
    && (page.view == Review ==> page.cart != [])
    && (page.view == Catalog ==> !page.generated)
  }

  /** Every action keeps the page invariant. */
  lemma StepKeepsInvariant(page: PageState, e: Event)
    requires PageInvariant(page)
    ensures PageInvariant(Step(page, e))
  {
    if Offered(page, e) {
      match e
      case TypeQuery(_) =>
      case AddProduct(product, variant) =>
        CartProperties.AddPreservesValid(page.cart, product.id, product.name, variant, product.image, DefaultQuantity);
      case ChangeQuantity(productId, sku, quantity) =>
        CartProperties.UpdatePreservesValid(page.cart, productId, sku, quantity);
      case RemoveLine(productId, sku) =>
        CartProperties.RemovePreservesValid(page.cart, productId, sku);
      case Checkout =>
      case BackToCatalog =>
      case InvoiceGenerated =>
      case OrderComplete =>
    }
  }

  /** Every page reachable from the initial one keeps the invariant. */
  lemma {:induction false} RunKeepsInvariant(page: PageState, events: seq<Event>)
    requires PageInvariant(page)
    ensures PageInvariant(Run(page, events))
    decreases |events|
  {
    if events != [] {
      StepKeepsInvariant(page, events[0]);
      RunKeepsInvariant(Step(page, events[0]), events[1..]);
    }
  }

  lemma ReachableInvariant(events: seq<Event>)
    ensures Valid(Run(InitialPage(), events).cart)
    ensures Run(InitialPage(), events).view == Review ==> Run(InitialPage(), events).cart != []
    ensures Run(InitialPage(), events).generated ==> Run(InitialPage(), events).view == Review
  {
    RunKeepsInvariant(InitialPage(), events);
  }

  /**
   Checking out opens a fresh review and going back before generating shows the
   catalog; neither touches the cart or the search.
   */
  lemma ViewSwitches(page: PageState)
    ensures page.view == Catalog && page.cart != [] ==>
              Step(page, Checkout) == PageState(Review, page.searchQuery, page.cart, false)
    ensures page.view == Review && !page.generated ==>
              Step(page, BackToCatalog) == PageState(Catalog, page.searchQuery, page.cart, false)
  {
  }

  /**
   Once the invoice is generated the review offers only "New Order": no going
   back, no second invoice; and "New Order" is offered only then.
   */
  lemma GeneratedOnlyCompletes(page: PageState, e: Event)
    requires page.view == Review
    ensures page.generated && Offered(page, e) ==> e == OrderComplete
    ensures Offered(page, OrderComplete) <==> page.generated
  {
  }

  /** Completing an order returns the page to its initial state, whatever it was. */
  lemma OrderCompleteResets(page: PageState)
    requires page.view == Review && page.generated
    ensures Step(page, OrderComplete) == InitialPage()
  {
  }

  /** Leaving the review before generating and coming back keeps the cart and the search. */
  lemma BackThenCheckout(page: PageState)
    requires page.view == Review && page.cart != [] && !page.generated
    ensures Run(page, [BackToCatalog, Checkout]) == page
  {
    var back := Step(page, BackToCatalog);
    assert back == page.(view := Catalog);
    assert [BackToCatalog, Checkout][1..] == [Checkout];
  }

  /** The page's filter and the `queryFn` filter of the products hook select the same products. */
  lemma FilteredAgreesWithQuery(products: seq<Product>, searchQuery: string)
    ensures FilteredProducts(Some(products), searchQuery)
            == ProductSearch.QueryProducts(Success(products), searchQuery).value
  {
  }
}

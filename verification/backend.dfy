/**
 The backend function of supabase/functions/mongodb/index.ts with the HTTP layer
 stripped away: a dispatcher over four actions, a fixed product catalog and a
 process-wide, append-only invoice list.
 */
module Backend {
  import opened Wrappers
  import opened SalesTypes

  /** JSON values as they arrive in a request body. */
  datatype Json =
    | JNull
    | JBool(b: bool)
    | JNum(n: real)
    | JStr(s: string)
    | JArr(elems: seq<Json>)
    | JObj(fields: map<string, Json>)

  /** A JSON object. */
  type Record = map<string, Json>

  /** The process-wide state: the invoices created since start-up, oldest first. */
  datatype Store = Store(invoices: seq<Record>)

  function InitialStore(): Store {
    Store([])
  }

  /** A parsed request body; an absent `data` is the empty object. */
  datatype Body = Body(action: string, data: Record)

  /** A request: the CORS preflight, or a POST whose body either parsed or raised the given error. */
  datatype HttpRequest = Options | Post(body: Result<Body, string>)

  /** The reply, by the shape of its JSON payload. */
  datatype Response =
    | Preflight
    | ProductDocuments(products: seq<Product>)
    | InvoiceDocuments(invoices: seq<Record>)
    | Created(insertedId: Json, invoice: Record)
    | StockUpdated(modifiedCount: int, message: string)
    | ErrorReply(message: string)

  /** The HTTP status of a reply: only errors carry 500. */
  function Status(r: Response): int {
    if r.ErrorReply? then 500 else 200
  }

  /** What the server-side environment supplies for one request. */
  datatype Environment = Environment(uuid: string, now: string)

  datatype Handled = Handled(response: Response, store: Store)

  /**
   The invoice record `createInvoice` stores: a fresh `_id`, then the caller's
   fields (which override it), then `createdAt` (which overrides the caller's).
   */
  function NewInvoiceRecord(data: Record, env: Environment): (rec: Record)
    ensures "_id" in rec && "createdAt" in rec
    ensures rec["createdAt"] == JStr(env.now)
    ensures rec["_id"] == if "_id" in data then data["_id"] else JStr(env.uuid)
    ensures forall k :: k in data && k != "createdAt" ==> k in rec && rec[k] == data[k]
    ensures rec.Keys == data.Keys + {"_id", "createdAt"}
  {
    map["_id" := JStr(env.uuid)] + data + map["createdAt" := JStr(env.now)]
  }

  /** One request against the store. */
  function Handle(store: Store, req: HttpRequest, env: Environment): (h: Handled)
    ensures req.Options? ==> h == Handled(Preflight, store)
    ensures req.Post? && req.body.Failure? ==> h == Handled(ErrorReply(req.body.error), store)
    ensures h.response.ErrorReply? ==> h.store == store
    ensures store.invoices <= h.store.invoices
    ensures |h.store.invoices| <= |store.invoices| + 1
  {
    match req
    case Options => Handled(Preflight, store)
    case Post(Failure(message)) => Handled(ErrorReply(message), store)
    case Post(Success(body)) => Dispatch(store, body, env)
  }

  /** The `switch (action)` of the handler. */
  function Dispatch(store: Store, body: Body, env: Environment): (h: Handled)
    ensures store.invoices <= h.store.invoices
    ensures body.action != "createInvoice" ==> h.store == store
    ensures body.action == "createInvoice" ==> |h.store.invoices| == |store.invoices| + 1
  {
    match body.action
    case "getProducts" => Handled(ProductDocuments(SampleProducts), store)
    case "createInvoice" =>
      var invoice := NewInvoiceRecord(body.data, env);
      Handled(Created(invoice["_id"], invoice), Store(store.invoices + [invoice]))
    case "updateStock" => Handled(StockUpdated(1, "Stock updated successfully"), store)
    case "getInvoices" => Handled(InvoiceDocuments(store.invoices), store)
    case _ => Handled(ErrorReply("Unknown action: " + body.action), store)
  }

  // ---------------------------------------------------------------------
  // The fixed catalog

  function V(size: string, price: real, stock: int, sku: string): ProductVariant {
    ProductVariant(size, price, stock, sku)
  }

  const EngineOil := Product("1", "Premium Engine Oil", "High-quality synthetic engine oil for all vehicles",
    "/placeholder.svg", "Lubricants",
    [V("1L Bottle", 450.0, 100, "OIL-1L"), V("5L Jar", 1800.0, 50, "OIL-5L"), V("15L Tin", 4500.0, 25, "OIL-15L")])
  const BrakeFluid := Product("2", "Brake Fluid DOT 4", "Premium brake fluid for all vehicles",
    "/placeholder.svg", "Fluids",
    [V("500ml", 280.0, 150, "BF-500"), V("1L Bottle", 480.0, 80, "BF-1L")])
  const Coolant := Product("3", "Coolant Antifreeze", "All-season engine coolant for optimal performance",
    "/placeholder.svg", "Fluids",
    [V("1L Bottle", 320.0, 120, "COOL-1L"), V("5L Jar", 1400.0, 40, "COOL-5L"), V("20L Drum", 4800.0, 15, "COOL-20L")])
  const TransmissionFluid := Product("4", "Transmission Fluid ATF", "Automatic transmission fluid for smooth gear shifts",
    "/placeholder.svg", "Lubricants",
    [V("1L Bottle", 550.0, 90, "TF-1L"), V("4L Pack", 1900.0, 35, "TF-4L")])
  const SteeringFluid := Product("5", "Power Steering Fluid", "Universal power steering fluid for smooth handling",
    "/placeholder.svg", "Fluids",
    [V("500ml", 220.0, 200, "PS-500"), V("1L Bottle", 380.0, 100, "PS-1L")])
  const DieselOil := Product("6", "Diesel Engine Oil 15W-40", "Heavy-duty diesel engine oil for commercial vehicles",
    "/placeholder.svg", "Lubricants",
    [V("5L Jar", 2200.0, 60, "DEO-5L"), V("10L Drum", 4000.0, 30, "DEO-10L"), V("20L Drum", 7500.0, 20, "DEO-20L")])
  const GearOil := Product("7", "Gear Oil 80W-90", "Multi-grade gear oil for manual transmissions",
    "/placeholder.svg", "Lubricants",
    [V("1L Bottle", 350.0, 75, "GO-1L"), V("5L Jar", 1500.0, 40, "GO-5L")])
  const WasherFluid := Product("8", "Windshield Washer Fluid", "Clear visibility windshield cleaner concentrate",
    "/placeholder.svg", "Fluids",
    [V("1L Bottle", 150.0, 200, "WW-1L"), V("5L Jar", 600.0, 80, "WW-5L")])

  /** `sampleProducts`: the eight products `getProducts` serves. */
  const SampleProducts: seq<Product> :=
    [EngineOil, BrakeFluid, Coolant, TransmissionFluid, SteeringFluid, DieselOil, GearOil, WasherFluid]

  /** Skus are distinct within the product, prices positive and stock non-negative. */
  predicate ProductWellFormed(p: Product) {
    && |p.variants| >= 1
    && (forall i, j :: 0 <= i < j < |p.variants| ==> p.variants[i].sku != p.variants[j].sku)
    && (forall i :: 0 <= i < |p.variants| ==> p.variants[i].price > 0.0 && p.variants[i].stock >= 0)
  }

  /** Every catalog product has at least one variant, distinct skus, positive prices and non-negative stock. */
  lemma CatalogWellFormed()
    ensures |SampleProducts| == 8
    ensures forall k :: 0 <= k < |SampleProducts| ==> ProductWellFormed(SampleProducts[k])
  {
    LubricantsWellFormed();
    FluidsWellFormed();
    MoreLubricantsWellFormed();
    MoreFluidsWellFormed();
  }

  lemma LubricantsWellFormed()
    ensures ProductWellFormed(EngineOil) && ProductWellFormed(TransmissionFluid)
  {
  }

  lemma MoreLubricantsWellFormed()
    ensures ProductWellFormed(DieselOil) && ProductWellFormed(GearOil)
  {
  }

  lemma FluidsWellFormed()
    ensures ProductWellFormed(BrakeFluid) && ProductWellFormed(Coolant)
  {
  }

  lemma MoreFluidsWellFormed()
    ensures ProductWellFormed(SteeringFluid) && ProductWellFormed(WasherFluid)
  {
  }

  /** The catalog's product ids are "1" to "8", hence distinct. */
  lemma CatalogIdsDistinct()
    ensures forall k, l :: 0 <= k < l < |SampleProducts| ==> SampleProducts[k].id != SampleProducts[l].id
  {
    var ids := seq(|SampleProducts|, k requires 0 <= k < |SampleProducts| => SampleProducts[k].id);
    assert ids == ["1", "2", "3", "4", "5", "6", "7", "8"];
    forall k, l | 0 <= k < l < |SampleProducts| ensures SampleProducts[k].id != SampleProducts[l].id {
      assert ids[k][0] != ids[l][0];
    }
  }

  // ---------------------------------------------------------------------
  // Properties of single actions

  /** `createInvoice` appends exactly its record and reports that record's `_id`. */
  lemma CreateInvoiceAppends(store: Store, data: Record, env: Environment)
    ensures var h := Dispatch(store, Body("createInvoice", data), env);
            && h.store.invoices == store.invoices + [NewInvoiceRecord(data, env)]
            && h.response.Created?
            && h.response.insertedId == h.store.invoices[|store.invoices|]["_id"]
            && h.response.invoice == h.store.invoices[|store.invoices|]
  {
  }

  /** A caller that sends no `_id` gets the server-generated one; `createdAt` is always the server's. */
  lemma CreateInvoiceIds(store: Store, data: Record, env: Environment)
    requires "_id" !in data
    ensures var h := Dispatch(store, Body("createInvoice", data), env);
            && h.response.Created?
            && h.response.insertedId == JStr(env.uuid)
            && h.response.invoice["createdAt"] == JStr(env.now)
  {
  }

  /** `updateStock` acknowledges one modified document and changes nothing. */
  lemma UpdateStockIsNoOp(store: Store, data: Record, env: Environment)
    ensures Dispatch(store, Body("updateStock", data), env)
            == Handled(StockUpdated(1, "Stock updated successfully"), store)
  {
  }

  /** `getProducts` returns the fixed catalog whatever the state or data. */
  lemma GetProductsIsCatalog(store: Store, data: Record, env: Environment)
    ensures Dispatch(store, Body("getProducts", data), env) == Handled(ProductDocuments(SampleProducts), store)
  {
  }

  predicate KnownAction(action: string) {
    action in {"getProducts", "createInvoice", "updateStock", "getInvoices"}
  }

  /** Any other action is answered with status 500 and leaves the state alone. */
  lemma UnknownActionFails(store: Store, body: Body, env: Environment)
    requires !KnownAction(body.action)
    ensures var h := Handle(store, Post(Success(body)), env);
            && h.store == store
            && Status(h.response) == 500
            && h.response == ErrorReply("Unknown action: " + body.action)
  {
  }

  // ---------------------------------------------------------------------
  // Runs of requests

  datatype Call = Call(req: HttpRequest, env: Environment)

  /** The state after serving `calls` in order; no call removes an invoice, and each adds at most one. */
  function Serve(store: Store, calls: seq<Call>): (r: Store)
    ensures store.invoices <= r.invoices
    ensures |r.invoices| <= |store.invoices| + |calls|
    decreases |calls|
  {
    if calls == [] then store
    else
      var last := calls[|calls| - 1];
      Handle(Serve(store, calls[..|calls| - 1]), last.req, last.env).store
  }

  /** The records the `createInvoice` calls among `calls` store, in order. */
  function CreatedBy(calls: seq<Call>): seq<Record>
    decreases |calls|
  {
    if calls == [] then []
    else
      var last := calls[|calls| - 1];
      var created := match last.req
        case Post(Success(Body("createInvoice", data))) => [NewInvoiceRecord(data, last.env)]
        case _ => [];
      CreatedBy(calls[..|calls| - 1]) + created
  }

  /** The invoice list only ever grows, by exactly the records created, in creation order. */
  lemma {:induction false} ServeAppendsCreated(store: Store, calls: seq<Call>)
    ensures Serve(store, calls).invoices == store.invoices + CreatedBy(calls)
    decreases |calls|
  {
    if calls != [] {
      ServeAppendsCreated(store, calls[..|calls| - 1]);
    }
  }

  /** From a fresh start, `getInvoices` returns every invoice created so far, oldest first. */
  lemma GetInvoicesReturnsHistory(calls: seq<Call>, data: Record, env: Environment)
    ensures Handle(Serve(InitialStore(), calls), Post(Success(Body("getInvoices", data))), env).response
            == InvoiceDocuments(CreatedBy(calls))
  {
    ServeAppendsCreated(InitialStore(), calls);
  }
}

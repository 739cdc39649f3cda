/**
 The checkout of src/components/sales/InvoiceReview.tsx: the invoice-number
 format and the run of `handleGenerateInvoice`, which validates the customer
 name, creates the invoice, then asks for one stock decrement per cart line.
 The clock and the random number are parameters; the backend's replies are inputs.
 */
module Checkout {
  import opened SalesTypes
  import opened Text
  import Backend
  import Seqs

  // ---------------------------------------------------------------------
  // Invoice numbers

  /** The calendar fields `new Date()` supplies; `month0` is 0-based as `getMonth()` returns it. */
  datatype CalendarDate = CalendarDate(year: nat, month0: nat, day: nat)

  /** The range `Math.floor(Math.random() * 10000)` lands in. */
  const RandomBound: nat := 10000

  /** A field of at least two digits, zero-padded. */
  function Pad2(n: nat): (r: string)
    ensures |r| >= 2 && AllDigits(r)
  {
    PadDigits(NatToString(n), 2);
    PadStart(NatToString(n), 2, '0')
  }

  /** `YYYYMMDD`: the year, then the 1-based month and the day, each padded to two digits. */
  function DatePart(date: CalendarDate): (r: string)
    ensures |r| >= 5 && AllDigits(r)
  {
    var y := NatToString(date.year);
    var m := Pad2(date.month0 + 1);
    var d := Pad2(date.day);
    AllDigitsAppend(y, m);
    AllDigitsAppend(y + m, d);
    y + m + d
  }

  /**
   `generateInvoiceNumber`: `INV-`, the date digits, `-` and the random value
   padded to four digits. Whatever the date, a value below the bound reads back
   from the last four digits.
   */
  function InvoiceNumber(date: CalendarDate, random: nat): (r: string)
    ensures |r| >= 14 && r[..4] == "INV-"
    ensures random < RandomBound ==>
              && r[|r| - 5] == '-'
              && (forall i :: 4 <= i < |r| ==> i == |r| - 5 || IsDigit(r[i]))
              && DigitsValue(r[|r| - 4..]) == random
  {
    NumberShape(DatePart(date), random);
    "INV-" + DatePart(date) + "-" + PadStart(NatToString(random), 4, '0')
  }

  /** The contract of `InvoiceNumber`, for any digit string in place of the date. */
  lemma NumberShape(digits: string, random: nat)
    requires AllDigits(digits) && |digits| >= 5
    ensures var r := "INV-" + digits + "-" + PadStart(NatToString(random), 4, '0');
            && |r| >= 14 && r[..4] == "INV-"
            && (random < RandomBound ==>
                  && r[|r| - 5] == '-'
                  && (forall i :: 4 <= i < |r| ==> i == |r| - 5 || IsDigit(r[i]))
                  && DigitsValue(r[|r| - 4..]) == random)
  {
    var suffix := PadStart(NatToString(random), 4, '0');
    var r := "INV-" + digits + "-" + suffix;
    NumberLayout(digits, suffix);
    if random < RandomBound {
      assert Pow10(4) == 10000;
      ZeroPadRoundTrip(random, 4);
      forall i | 4 <= i < |r| && i != |r| - 5
        ensures IsDigit(r[i])
      {
        if i < |r| - 5 {
          assert r[i] == r[4..|digits| + 4][i - 4];
        } else {
          assert r[i] == r[|digits| + 5..][i - |digits| - 5];
        }
      }
    }
  }

  /** Where the pieces of `INV-<digits>-<suffix>` sit. */
  lemma NumberLayout(digits: string, suffix: string)
    ensures var r := "INV-" + digits + "-" + suffix;
            && |r| == |digits| + |suffix| + 5
            && r[..4] == "INV-"
            && r[4..|digits| + 4] == digits
            && r[|digits| + 4] == '-'
            && r[|digits| + 5..] == suffix
  {
    var r := "INV-" + digits + "-" + suffix;
  }

  /**
   For a four-digit year and a real calendar date the number is 17 characters,
   `INV-YYYYMMDD-RRRR`, with the date and random value readable back from it.
   */
  lemma InvoiceNumberLayout(date: CalendarDate, random: nat)
    requires 1000 <= date.year < 10000 && date.month0 < 12 && 1 <= date.day <= 31
    requires random < RandomBound
    ensures var s := InvoiceNumber(date, random);
            && |s| == 17
            && s[..4] == "INV-" && s[3] == '-' && s[12] == '-'
            && AllDigits(s[4..12]) && AllDigits(s[13..])
            && DigitsValue(s[4..12]) == date.year * 10000 + (date.month0 + 1) * 100 + date.day
            && DigitsValue(s[13..]) == random
  {
    var suffix := PadStart(NatToString(random), 4, '0');
    DatePartDigits(date);
    assert Pow10(4) == 10000;
    ZeroPadRoundTrip(random, 4);
    NumberLayout(DatePart(date), suffix);
  }

  /** For a four-digit year and a real calendar date the date part is eight digits reading `YYYYMMDD`. */
  lemma DatePartDigits(date: CalendarDate)
    requires 1000 <= date.year < 10000 && date.month0 < 12 && 1 <= date.day <= 31
    ensures |DatePart(date)| == 8 && AllDigits(DatePart(date))
    ensures DigitsValue(DatePart(date)) == date.year * 10000 + (date.month0 + 1) * 100 + date.day
  {
    var y := NatToString(date.year);
    var m := Pad2(date.month0 + 1);
    var d := Pad2(date.day);
    assert DatePart(date) == y + m + d;
    FourDigitYear(date.year);
    TwoDigitField(date.month0 + 1);
    TwoDigitField(date.day);
    ThreeFieldValue(y, m, d);
    assert DigitsValue(y + m + d) == date.year * 10000 + (date.month0 + 1) * 100 + date.day;
  }

  lemma FourDigitYear(year: nat)
    requires 1000 <= year < 10000
    ensures |NatToString(year)| == 4 && DigitsValue(NatToString(year)) == year
  {
    assert Pow10(3) == 1000 && Pow10(4) == 10000;
    NatToStringShort(year, 4);
    NatToStringLong(year, 3);
    NatToStringRoundTrip(year);
  }

  lemma TwoDigitField(n: nat)
    requires n < 100
    ensures |Pad2(n)| == 2 && AllDigits(Pad2(n)) && DigitsValue(Pad2(n)) == n
  {
    assert Pow10(2) == 100;
    ZeroPadRoundTrip(n, 2);
  }

  /** The value of three digit fields written side by side, the last two two digits wide. */
  lemma ThreeFieldValue(y: string, m: string, d: string)
    requires AllDigits(y) && AllDigits(m) && AllDigits(d) && |m| == 2 && |d| == 2
    ensures AllDigits(y + m + d)
    ensures DigitsValue(y + m + d) == DigitsValue(y) * 10000 + DigitsValue(m) * 100 + DigitsValue(d)
  {
    assert Pow10(2) == 100;
    DigitsValueAppend(y, m);
    DigitsValueAppend(y + m, d);
    var vy, vm, vd := DigitsValue(y), DigitsValue(m), DigitsValue(d);
    assert DigitsValue(y + m + d) == (vy * 100 + vm) * 100 + vd;
  }

  // ---------------------------------------------------------------------
  // The checkout run

  /** The screen's own state. */
  datatype ReviewState = ReviewState(
    customerName: string,
    customerPhone: string,
    isProcessing: bool,
    invoiceGenerated: bool,
    invoiceNumber: string,
    paymentStatus: InvoiceStatus)

  /** The `data` of a `createInvoice` request. */
  datatype InvoiceData = InvoiceData(
    invoiceNumber: string,
    items: seq<InvoiceItem>,
    subtotal: real,
    tax: real,
    total: real,
    status: InvoiceStatus,
    customerName: string,
    customerPhone: string)

  datatype BackendRequest =
    | CreateInvoice(data: InvoiceData)
    | UpdateStock(productId: string, sku: string, quantity: int)

  /** A request as issued, with the value of `isProcessing` at that moment. */
  datatype Sent = Sent(request: BackendRequest, processing: bool)

  /** What the backend call reported: no error, or the error it returned. */
  datatype Reply = Ok | Err(message: string)

  /** The toast the run ends with. */
  datatype Notice = NameMissing | Generated(number: string) | GenerationFailed

  /** The stock decrement asked for one cart line. */
  function StockRequest(item: CartItem): BackendRequest {
    UpdateStock(item.productId, item.variant.sku, -item.quantity)
  }

  /** The guard `!customerName.trim()`: the trimmed name is empty exactly when the name is blank. */
  function NameIsBlank(name: string): (b: bool)
    ensures b <==> IsBlank(name)
  {
    TrimEmptyIff(name);
    Trim(name) == ""
  }

  /**
   `handleGenerateInvoice`. A blank name stops before any request. Otherwise
   `createInvoice` is sent; on an error reply nothing else is sent and the
   invoice is not marked generated; on success one stock request per cart line
   follows in cart order, their replies are not looked at, and the invoice is
   marked generated. `isProcessing` is set for every request and cleared at the end.
   */
  method GenerateInvoice(st: ReviewState, status: InvoiceStatus, cart: seq<CartItem>, totals: Totals,
                         invoiceItems: seq<InvoiceItem>, date: CalendarDate, random: nat,
                         createReply: Reply, stockReplies: seq<Reply>)
    returns (sent: seq<Sent>, final: ReviewState, notice: Notice)
    requires |stockReplies| == |cart|
    ensures IsBlank(st.customerName) ==> sent == [] && final == st && notice == NameMissing
    ensures !IsBlank(st.customerName) ==>
              && |sent| >= 1
              && sent[0].request == CreateInvoice(InvoiceData(InvoiceNumber(date, random), invoiceItems,
                                     totals.subtotal, totals.tax, totals.total, status,
                                     st.customerName, st.customerPhone))
              && (forall j :: 0 <= j < |sent| ==> sent[j].processing)
              && !final.isProcessing
              && final.paymentStatus == status
              && final.customerName == st.customerName && final.customerPhone == st.customerPhone
    ensures !IsBlank(st.customerName) && createReply.Err? ==>
              && |sent| == 1
              && final.invoiceGenerated == st.invoiceGenerated
              && final.invoiceNumber == st.invoiceNumber
              && notice == GenerationFailed
    ensures !IsBlank(st.customerName) && createReply.Ok? ==>
              && |sent| == |cart| + 1
              && (forall j :: 0 <= j < |cart| ==> sent[j + 1].request == StockRequest(cart[j]))
              && final.invoiceGenerated
              && final.invoiceNumber == InvoiceNumber(date, random)
              && notice == Generated(InvoiceNumber(date, random))
  {
    if NameIsBlank(st.customerName) {
      return [], st, NameMissing;
    }
    var number := InvoiceNumber(date, random);
    sent, final, notice := SubmitInvoice(st, status, cart, totals, invoiceItems, number, createReply, stockReplies);
  }

  /**
   The part of `handleGenerateInvoice` after the name check, for a given invoice
   number: the `createInvoice` request, then the stock requests when it succeeded.
   */
  method SubmitInvoice(st: ReviewState, status: InvoiceStatus, cart: seq<CartItem>, totals: Totals,
                       invoiceItems: seq<InvoiceItem>, number: string, createReply: Reply, stockReplies: seq<Reply>)
    returns (sent: seq<Sent>, final: ReviewState, notice: Notice)
    requires |stockReplies| == |cart|
    ensures |sent| >= 1
    ensures sent[0].request == CreateInvoice(InvoiceData(number, invoiceItems, totals.subtotal, totals.tax,
                                 totals.total, status, st.customerName, st.customerPhone))
    ensures forall j :: 0 <= j < |sent| ==> sent[j].processing
    ensures !final.isProcessing && final.paymentStatus == status
    ensures final.customerName == st.customerName && final.customerPhone == st.customerPhone
    ensures createReply.Err? ==>
              && |sent| == 1
              && final.invoiceGenerated == st.invoiceGenerated
              && final.invoiceNumber == st.invoiceNumber
              && notice == GenerationFailed
    ensures createReply.Ok? ==>
              && |sent| == |cart| + 1
              && (forall j :: 0 <= j < |cart| ==> sent[j + 1].request == StockRequest(cart[j]))
              && final.invoiceGenerated
              && final.invoiceNumber == number
              && notice == Generated(number)
  {
    var s := st.(isProcessing := true, paymentStatus := status);
    var data := InvoiceData(number, invoiceItems, totals.subtotal, totals.tax, totals.total, status,
                            s.customerName, s.customerPhone);
    sent := [Sent(CreateInvoice(data), s.isProcessing)];
    if createReply.Err? {
      return sent, s.(isProcessing := false), GenerationFailed;
    }
    var stock := SendStockRequests(cart, stockReplies, s.isProcessing);
    Seqs.ConsShift(sent[0], stock);
    sent := [sent[0]] + stock;
    s := s.(invoiceNumber := number, invoiceGenerated := true);
    final := s.(isProcessing := false);
    notice := Generated(number);
  }

  /**
   The `for` loop over the cart: one stock request per line, in cart order, each
   replied to and the reply dropped; `processing` is the review's `isProcessing`
   while the loop runs, and every request goes out under it.
   */
  method SendStockRequests(cart: seq<CartItem>, stockReplies: seq<Reply>, processing: bool) returns (sent: seq<Sent>)
    requires |stockReplies| == |cart|
    ensures |sent| == |cart|
    ensures forall j :: 0 <= j < |cart| ==> sent[j] == Sent(StockRequest(cart[j]), processing)
  {
    sent := [];
    var k := 0;
    while k < |cart|
      invariant 0 <= k <= |cart|
      invariant |sent| == k
      invariant forall j :: 0 <= j < k ==> sent[j] == Sent(StockRequest(cart[j]), processing)
    {
      sent := sent + [Sent(StockRequest(cart[k]), processing)];
      var ignored := stockReplies[k];
      k := k + 1;
    }
  }

  // ---------------------------------------------------------------------
  // The request bodies as the backend receives them

  function StatusText(status: InvoiceStatus): string {
    match status
    case Pending => "pending"
    case Paid => "paid"
  }

  function EncodeItem(item: InvoiceItem): Backend.Json {
    Backend.JObj(map["name" := Backend.JStr(item.name), "qty" := Backend.JNum(item.qty as real),
                     "price" := Backend.JNum(item.price), "tamount" := Backend.JNum(item.tamount)])
  }

  function EncodeItems(items: seq<InvoiceItem>): Backend.Json {
    Backend.JArr(seq(|items|, i requires 0 <= i < |items| => EncodeItem(items[i])))
  }

  /** The fields every invoice record carries, whatever its origin. */
  function InvoiceFields(number: string, items: seq<InvoiceItem>, subtotal: real, tax: real, total: real,
                         status: InvoiceStatus): Backend.Record {
    map["invoiceNumber" := Backend.JStr(number), "items" := EncodeItems(items),
        "subtotal" := Backend.JNum(subtotal), "tax" := Backend.JNum(tax), "total" := Backend.JNum(total),
        "status" := Backend.JStr(StatusText(status))]
  }

  /** A string field that is present only when the value is. */
  function OptionalField(key: string, value: Wrappers.Option<string>): Backend.Record {
    if value.Some? then map[key := Backend.JStr(value.value)] else map[]
  }

  function EncodeData(d: InvoiceData): Backend.Record {
    InvoiceFields(d.invoiceNumber, d.items, d.subtotal, d.tax, d.total, d.status)
    + map["customerName" := Backend.JStr(d.customerName)] + map["customerPhone" := Backend.JStr(d.customerPhone)]
  }

  function EncodeRequest(req: BackendRequest): Backend.Body {
    match req
    case CreateInvoice(d) => Backend.Body("createInvoice", EncodeData(d))
    case UpdateStock(p, sku, q) =>
      Backend.Body("updateStock", map["productId" := Backend.JStr(p), "sku" := Backend.JStr(sku),
                                      "quantity" := Backend.JNum(q as real)])
  }

  /** The JSON form of a stored invoice; absent optional fields are left out. */
  function EncodeInvoice(inv: Invoice): Backend.Record {
    OptionalField("_id", inv.id)
    + InvoiceFields(inv.invoiceNumber, inv.items, inv.subtotal, inv.tax, inv.total, inv.status)
    + OptionalField("customerName", inv.customerName) + OptionalField("customerPhone", inv.customerPhone)
    + OptionalField("salesmanId", inv.salesmanId)
    + map["createdAt" := Backend.JStr(inv.createdAt)]
  }

  /** An invoice with an id and customer details but no salesman encodes as the union of its parts. */
  lemma StoredShape(inv: Invoice)
    requires inv.id.Some? && inv.customerName.Some? && inv.customerPhone.Some? && inv.salesmanId.None?
    ensures EncodeInvoice(inv)
            == map["_id" := Backend.JStr(inv.id.value)]
               + InvoiceFields(inv.invoiceNumber, inv.items, inv.subtotal, inv.tax, inv.total, inv.status)
               + map["customerName" := Backend.JStr(inv.customerName.value)]
               + map["customerPhone" := Backend.JStr(inv.customerPhone.value)]
               + map["createdAt" := Backend.JStr(inv.createdAt)]
  {
    var front := map["_id" := Backend.JStr(inv.id.value)]
                 + InvoiceFields(inv.invoiceNumber, inv.items, inv.subtotal, inv.tax, inv.total, inv.status)
                 + map["customerName" := Backend.JStr(inv.customerName.value)]
                 + map["customerPhone" := Backend.JStr(inv.customerPhone.value)];
    MergeEmpty(front);
  }

  /** The checkout never sends an `_id`, so the server picks it. */
  lemma DataHasNoId(d: InvoiceData)
    ensures "_id" !in EncodeData(d)
  {
    forall k | k in EncodeData(d) ensures k[0] != '_' {
    }
  }

  lemma MergeAssociative<K, V>(a: map<K, V>, b: map<K, V>, c: map<K, V>)
    ensures a + (b + c) == a + b + c
  {
  }

  lemma MergeEmpty<K, V>(a: map<K, V>)
    ensures a + map[] == a
  {
  }

  /**
   The checkout's `createInvoice` request makes the backend store the invoice with
   the server's id and timestamp and the checkout's fields, and report that id.
   */
  lemma CheckoutInvoiceStored(store: Backend.Store, d: InvoiceData, env: Backend.Environment)
    ensures var h := Backend.Dispatch(store, EncodeRequest(CreateInvoice(d)), env);
            var inv := Invoice(Wrappers.Some(env.uuid), d.invoiceNumber, d.items, d.subtotal, d.tax, d.total,
                               d.status, Wrappers.Some(d.customerName), Wrappers.Some(d.customerPhone),
                               Wrappers.None, env.now);
            && h.store.invoices == store.invoices + [EncodeInvoice(inv)]
            && h.response == Backend.Created(Backend.JStr(env.uuid), EncodeInvoice(inv))
  {
    var inv := Invoice(Wrappers.Some(env.uuid), d.invoiceNumber, d.items, d.subtotal, d.tax, d.total,
                       d.status, Wrappers.Some(d.customerName), Wrappers.Some(d.customerPhone),
                       Wrappers.None, env.now);
    var id := map["_id" := Backend.JStr(env.uuid)];
    var fields := InvoiceFields(d.invoiceNumber, d.items, d.subtotal, d.tax, d.total, d.status);
    var name := map["customerName" := Backend.JStr(d.customerName)];
    var phone := map["customerPhone" := Backend.JStr(d.customerPhone)];
    var created := map["createdAt" := Backend.JStr(env.now)];
    var rec := Backend.NewInvoiceRecord(EncodeData(d), env);
    assert rec == id + (fields + name + phone) + created;
    MergeAssociative(id, fields + name, phone);
    MergeAssociative(id, fields, name);
    StoredShape(inv);
    DataHasNoId(d);
    Backend.CreateInvoiceAppends(store, EncodeData(d), env);
    Backend.CreateInvoiceIds(store, EncodeData(d), env);
  }

  /** Serving a successful checkout's requests in order adds exactly the one invoice it created. */
  lemma {:induction false} CheckoutAddsOneInvoice(store: Backend.Store, d: InvoiceData, cart: seq<CartItem>,
                                                  envs: seq<Backend.Environment>)
    requires |envs| == |cart| + 1
    ensures var requests := [CreateInvoice(d)] + seq(|cart|, j requires 0 <= j < |cart| => StockRequest(cart[j]));
            var calls := seq(|requests|, j requires 0 <= j < |requests| =>
                           Backend.Call(Backend.Post(Wrappers.Success(EncodeRequest(requests[j]))), envs[j]));
            Backend.Serve(store, calls).invoices
            == store.invoices + [Backend.NewInvoiceRecord(EncodeData(d), envs[0])]
    decreases |cart|
  {
    var requests := [CreateInvoice(d)] + seq(|cart|, j requires 0 <= j < |cart| => StockRequest(cart[j]));
    var calls := seq(|requests|, j requires 0 <= j < |requests| =>
                   Backend.Call(Backend.Post(Wrappers.Success(EncodeRequest(requests[j]))), envs[j]));
    Backend.ServeAppendsCreated(store, calls);
    OnlyFirstCreates(calls, d, envs[0]);
  }

  /** When only the first call is a `createInvoice`, the run creates exactly its record. */
  lemma {:induction false} OnlyFirstCreates(calls: seq<Backend.Call>, d: InvoiceData, env: Backend.Environment)
    requires |calls| >= 1
    requires calls[0] == Backend.Call(Backend.Post(Wrappers.Success(EncodeRequest(CreateInvoice(d)))), env)
    requires forall j :: 1 <= j < |calls| ==>
               calls[j].req.Post? && calls[j].req.body.Success? && calls[j].req.body.value.action == "updateStock"
    ensures Backend.CreatedBy(calls) == [Backend.NewInvoiceRecord(EncodeData(d), env)]
    decreases |calls|
  {
    if |calls| > 1 {
      var prefix := calls[..|calls| - 1];
      OnlyFirstCreates(prefix, d, env);
    } else {
      assert calls[..0] == [];
    }
  }
}

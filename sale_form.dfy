/**
 * The create/edit invoice dialog: its validation schema, the editable list of
 * line items with the subtotal and total derived from it, the reset that
 * fills the form from a stored sale (or a fresh invoice number), and the
 * submit rule that either refuses, fails or produces one create/update
 * request with its payload.
 */
module SaleForm {
  import opened Wrappers
  import opened Text
  import opened Calendar
  import opened Catalog
  import opened Sales

  /** The schema-checked fields; `notes` is optional in the schema. */
  datatype FormValues = FormValues(
    invoiceNumber: string,
    date: string,
    customerName: string,
    customerEmail: string,
    customerPhone: string,
    tax: real,
    discount: real,
    notes: Option<string>)

  /** The schema's checks, in the order the schema runs them. */
  datatype Rule =
    | InvoiceNumberRequired
    | DateRequired
    | CustomerNameRequired
    | EmailInvalid
    | EmailRequired
    | PhoneRequired
    | TaxNegative
    | DiscountNegative

  /** The form field a rule reports on. */
  function FieldOf(r: Rule): string {
    match r
    case InvoiceNumberRequired => "invoice_number"
    case DateRequired => "date"
    case CustomerNameRequired => "customer_name"
    case EmailInvalid | EmailRequired => "customer_email"
    case PhoneRequired => "customer_phone"
    case TaxNegative => "tax_amount"
    case DiscountNegative => "discount_amount"
  }

  /** The message a rule reports. */
  function Message(r: Rule): string {
    match r
    case InvoiceNumberRequired => "Invoice number is required"
    case DateRequired => "Date is required"
    case CustomerNameRequired => "Customer name is required"
    case EmailInvalid => "Invalid email"
    case EmailRequired => "Email is required"
    case PhoneRequired => "Phone number is required"
    case TaxNegative => "Tax must be non-negative"
    case DiscountNegative => "Discount must be non-negative"
  }

  /** When a rule fails; the e-mail syntax test is the validator library's, a parameter here. */
  predicate Fails(r: Rule, v: FormValues, isEmail: string -> bool) {
    match r
    case InvoiceNumberRequired => v.invoiceNumber == ""
    case DateRequired => v.date == ""
    case CustomerNameRequired => v.customerName == ""
    case EmailInvalid => !isEmail(v.customerEmail)
    case EmailRequired => v.customerEmail == ""
    case PhoneRequired => v.customerPhone == ""
    case TaxNegative => v.tax < 0.0
    case DiscountNegative => v.discount < 0.0
  }

  /** What the schema accepts. */
  predicate SchemaValid(v: FormValues, isEmail: string -> bool) {
    v.invoiceNumber != "" && v.date != "" && v.customerName != ""
    && isEmail(v.customerEmail) && v.customerEmail != "" && v.customerPhone != ""
    && v.tax >= 0.0 && v.discount >= 0.0
  }

  /** The schema's rules in the order it runs them; the e-mail field runs both of its checks. */
  const SchemaOrder: seq<Rule> := [InvoiceNumberRequired, DateRequired, CustomerNameRequired,
                                   EmailInvalid, EmailRequired, PhoneRequired, TaxNegative, DiscountNegative]

  /** The rules of `rules` that fail, in their order. */
  function Failing(rules: seq<Rule>, v: FormValues, isEmail: string -> bool): (issues: seq<Rule>)
    ensures forall r :: r in issues <==> r in rules && Fails(r, v, isEmail)
    ensures |issues| <= |rules|
  {
    if rules == [] then []
    else (if Fails(rules[0], v, isEmail) then [rules[0]] else []) + Failing(rules[1..], v, isEmail)
  }

  /** The schema order lists every rule. */
  lemma SchemaOrderIsComplete()
    ensures forall r :: r in SchemaOrder
  {
    forall r: Rule ensures r in SchemaOrder {
      match r
      case InvoiceNumberRequired => assert SchemaOrder[0] == r;
      case DateRequired => assert SchemaOrder[1] == r;
      case CustomerNameRequired => assert SchemaOrder[2] == r;
      case EmailInvalid => assert SchemaOrder[3] == r;
      case EmailRequired => assert SchemaOrder[4] == r;
      case PhoneRequired => assert SchemaOrder[5] == r;
      case TaxNegative => assert SchemaOrder[6] == r;
      case DiscountNegative => assert SchemaOrder[7] == r;
    }
  }

  /** The schema accepts exactly the values no rule fails on. */
  lemma ValidIffNoRuleFails(v: FormValues, isEmail: string -> bool)
    ensures SchemaValid(v, isEmail) <==> forall r :: !Fails(r, v, isEmail)
  {
    if !SchemaValid(v, isEmail) {
      var r :=
        if v.invoiceNumber == "" then InvoiceNumberRequired
        else if v.date == "" then DateRequired
        else if v.customerName == "" then CustomerNameRequired
        else if !isEmail(v.customerEmail) then EmailInvalid
        else if v.customerEmail == "" then EmailRequired
        else if v.customerPhone == "" then PhoneRequired
        else if v.tax < 0.0 then TaxNegative
        else DiscountNegative;
      assert Fails(r, v, isEmail);
    }
  }

  /** Every rule that fails, in schema order, so an empty e-mail reports two issues. */
  function SchemaIssues(v: FormValues, isEmail: string -> bool): (issues: seq<Rule>)
    ensures issues == [] <==> SchemaValid(v, isEmail)
    ensures forall r :: r in issues <==> Fails(r, v, isEmail)
  {
    var issues := Failing(SchemaOrder, v, isEmail);
    SchemaOrderIsComplete();
    ValidIffNoRuleFails(v, isEmail);
    assert issues != [] ==> issues[0] in issues;
    issues
  }

  /** One row of the line-item table; the quantity input yields any number. */
  datatype LineItem = LineItem(product: Option<Product>, quantity: real, price: real)

  /** The row "add product" appends. */
  const Blank := LineItem(None, 1.0, 0.0)

  /** A row that counts towards the subtotal and passes the submit check. */
  predicate Complete(item: LineItem) {
    item.product.Some? && item.quantity > 0.0
  }

  predicate AllComplete(items: seq<LineItem>) {
    forall i :: 0 <= i < |items| ==> Complete(items[i])
  }

  /** What one row adds to the subtotal. */
  function Contribution(item: LineItem): real {
    if Complete(item) then item.price * item.quantity else 0.0
  }

  /** The subtotal, a left fold over the rows starting from 0. */
  function Subtotal(items: seq<LineItem>): (r: real)
    ensures (forall i :: 0 <= i < |items| ==> !Complete(items[i])) ==> r == 0.0
  {
    if items == [] then 0.0 else Subtotal(items[..|items| - 1]) + Contribution(items[|items| - 1])
  }

  /** Price times quantity summed over every row, complete or not. */
  function GrossSum(items: seq<LineItem>): real {
    if items == [] then 0.0 else GrossSum(items[..|items| - 1]) + items[|items| - 1].price * items[|items| - 1].quantity
  }

  /** The subtotal is additive over concatenation. */
  lemma {:induction false} SubtotalAppend(a: seq<LineItem>, b: seq<LineItem>)
    ensures Subtotal(a + b) == Subtotal(a) + Subtotal(b)
    decreases |b|
  {
    if b == [] {
      assert a + b == a;
    } else {
      var b' := b[..|b| - 1];
      assert (a + b)[..|a + b| - 1] == a + b';
      assert (a + b)[|a + b| - 1] == b[|b| - 1];
      SubtotalAppend(a, b');
    }
  }

  /** When every row is complete, the subtotal is the plain sum of price times quantity. */
  lemma {:induction false} SubtotalOfCompleteRows(items: seq<LineItem>)
    requires AllComplete(items)
    ensures Subtotal(items) == GrossSum(items)
  {
    if items != [] {
      SubtotalOfCompleteRows(items[..|items| - 1]);
    }
  }

  /** With non-negative prices the subtotal is never negative. */
  lemma {:induction false} SubtotalNonNegative(items: seq<LineItem>)
    requires forall i :: 0 <= i < |items| ==> items[i].price >= 0.0
    ensures Subtotal(items) >= 0.0
  {
    if items != [] {
      SubtotalNonNegative(items[..|items| - 1]);
    }
  }

  /**
   * The total shown and sent: subtotal plus tax minus discount. A sale stored
   * from the payload has this total by the reports' formula `Sales.SaleTotal`
   * (StoredTotalMatchesForm).
   */
  function Total(items: seq<LineItem>, tax: real, discount: real): (t: real)
    ensures t - tax + discount == Subtotal(items)
  {
    Subtotal(items) + tax - discount
  }

  /** `filter((_, i) => i !== index)`: drop position `index`, keep the order of the rest. */
  function RemoveAt(items: seq<LineItem>, index: int): (r: seq<LineItem>)
    ensures 0 <= index < |items| ==> |r| == |items| - 1
    ensures 0 <= index < |items| ==> forall j :: 0 <= j < index ==> r[j] == items[j]
    ensures 0 <= index < |items| ==> forall j :: index <= j < |r| ==> r[j] == items[j + 1]
    ensures !(0 <= index < |items|) ==> r == items
  {
    if 0 <= index < |items| then items[..index] + items[index + 1..] else items
  }

  /** The field an edit of a row targets. */
  datatype Field = SetProduct(p: Product) | SetQuantity(q: real) | OtherField

  /** The edited row: a product brings its own price along; any other field leaves the row as it was. */
  function Apply(item: LineItem, f: Field): (r: LineItem)
    ensures f.SetProduct? ==> r.product == Some(f.p) && r.price == f.p.price && r.quantity == item.quantity
    ensures f.SetQuantity? ==> r.quantity == f.q && r.product == item.product && r.price == item.price
    ensures f.OtherField? ==> r == item
  {
    match f
    case SetProduct(p) => item.(product := Some(p), price := p.price)
    case SetQuantity(q) => item.(quantity := q)
    case OtherField => item
  }

  /** Appending the blank row leaves the subtotal as it was. */
  lemma AddKeepsSubtotal(items: seq<LineItem>)
    ensures Subtotal(items + [Blank]) == Subtotal(items)
  {
    assert (items + [Blank])[..|items|] == items;
  }

  /** A one-row list contributes that row. */
  lemma SubtotalSingle(x: LineItem)
    ensures Subtotal([x]) == Contribution(x)
  {
    assert [x][..0] == [];
  }

  /** Dropping the middle row of a three-part split takes off exactly its contribution. */
  lemma DropMiddleSubtotal(front: seq<LineItem>, x: LineItem, back: seq<LineItem>)
    ensures Subtotal(front + back) == Subtotal(front + [x] + back) - Contribution(x)
  {
    SubtotalAppend(front + [x], back);
    SubtotalAppend(front, [x]);
    SubtotalSingle(x);
    SubtotalAppend(front, back);
  }

  /** A sequence is the part before position i, the element at i and the part after it. */
  lemma SplitAround(items: seq<LineItem>, i: int)
    requires 0 <= i < |items|
    ensures items == items[..i] + [items[i]] + items[i + 1..]
  {
  }

  /** Removing a row takes exactly that row's contribution off the subtotal. */
  lemma RemoveSubtotal(items: seq<LineItem>, index: int)
    requires 0 <= index < |items|
    ensures Subtotal(RemoveAt(items, index)) == Subtotal(items) - Contribution(items[index])
  {
    SplitAround(items, index);
    DropMiddleSubtotal(items[..index], items[index], items[index + 1..]);
  }

  /** Editing a row swaps that row's contribution and nothing else. */
  lemma UpdateSubtotal(items: seq<LineItem>, index: int, f: Field)
    requires 0 <= index < |items|
    ensures Subtotal(items[index := Apply(items[index], f)])
      == Subtotal(items) - Contribution(items[index]) + Contribution(Apply(items[index], f))
  {
    var x := Apply(items[index], f);
    var updated := items[index := x];
    assert items == items[..index] + [items[index]] + items[index + 1..];
    assert updated == items[..index] + [x] + items[index + 1..];
    SubtotalAppend(items[..index] + [items[index]], items[index + 1..]);
    SubtotalAppend(items[..index], [items[index]]);
    SubtotalAppend(items[..index] + [x], items[index + 1..]);
    SubtotalAppend(items[..index], [x]);
    assert [items[index]][..0] == [];
    assert [x][..0] == [];
  }

  /** `Array.find` over the fetched catalogue: the first product that matches. */
  function Find(catalog: seq<Product>, matches: Product -> bool): (r: Option<Product>)
    ensures r.None? <==> forall i :: 0 <= i < |catalog| ==> !matches(catalog[i])
    ensures r.Some? ==> exists i :: (0 <= i < |catalog| && catalog[i] == r.value
                                     && forall j :: 0 <= j < i ==> !matches(catalog[j]))
    ensures r.Some? ==> matches(r.value)
  {
    if catalog == [] then None
    else if matches(catalog[0]) then Some(catalog[0])
    else
      var rest := Find(catalog[1..], matches);
      assert forall i :: 0 <= i < |catalog| - 1 ==> catalog[1..][i] == catalog[i + 1];
      if rest.Some? then
        var i :| 0 <= i < |catalog| - 1 && catalog[1..][i] == rest.value
                 && forall j :: 0 <= j < i ==> !matches(catalog[1..][j]);
        assert catalog[i + 1] == rest.value;
        rest
      else rest
  }

  /** The product with this id, as the loader looks it up. */
  function FindById(catalog: seq<Product>, id: int): Option<Product> {
    Find(catalog, (p: Product) => p.id == id)
  }

  /** The product with this document id, as the row's product picker looks it up. */
  function FindByDocumentId(catalog: seq<Product>, documentId: string): Option<Product> {
    Find(catalog, (p: Product) => p.documentId == documentId)
  }

  /** The product `FindById` falls back to: the stored reference, priced at the stored line price, stock 0. */
  function Stub(stored: SaleItem): Product {
    Product(stored.product.id, stored.product.documentId, stored.product.name, "", stored.price, 0, None, None, [])
  }

  /**
   * The rows loaded from a stored sale: the catalogue's current product when
   * it is known, otherwise a stub; quantity and price always come from the
   * stored line, never from the product's current price.
   */
  function LoadedItems(stored: seq<SaleItem>, catalog: seq<Product>): (items: seq<LineItem>)
    ensures |items| == |stored|
    ensures forall i :: 0 <= i < |items| ==>
      items[i].price == stored[i].price && items[i].quantity == stored[i].quantity as real
    ensures forall i :: 0 <= i < |items| ==>
      items[i].product.Some? && items[i].product.value.id == stored[i].product.id
    ensures forall i :: 0 <= i < |items| ==>
      items[i].product.value == FindById(catalog, stored[i].product.id).GetOr(Stub(stored[i]))
  {
    seq(|stored|, i requires 0 <= i < |stored| =>
      LineItem(Some(FindById(catalog, stored[i].product.id).GetOr(Stub(stored[i]))),
               stored[i].quantity as real, stored[i].price))
  }

  /** A stub keeps the stored line's identity and price and reports no stock. */
  lemma UnknownProductIsStub(stored: seq<SaleItem>, catalog: seq<Product>, i: int)
    requires 0 <= i < |stored|
    requires FindById(catalog, stored[i].product.id).None?
    ensures LoadedItems(stored, catalog)[i].product.value.documentId == stored[i].product.documentId
    ensures LoadedItems(stored, catalog)[i].product.value.price == stored[i].price
    ensures LoadedItems(stored, catalog)[i].product.value.stock == 0
  {
  }

  /** Loaded rows reproduce the stored subtotal whenever every stored quantity is positive. */
  lemma {:induction false} LoadedSubtotal(stored: seq<SaleItem>, catalog: seq<Product>)
    requires forall i :: 0 <= i < |stored| ==> stored[i].quantity > 0
    ensures Subtotal(LoadedItems(stored, catalog)) == StoredLineSum(stored)
  {
    if stored != [] {
      var n := |stored|;
      var front, items := stored[..n - 1], LoadedItems(stored, catalog);
      var c := stored[n - 1].price * (stored[n - 1].quantity as real);
      assert StoredLineSum(stored) == StoredLineSum(front) + c;
      assert Contribution(items[n - 1]) == c;
      LoadedPrefix(stored, catalog);
      LoadedSubtotal(front, catalog);
    }
  }

  /** Loading drops nothing and reorders nothing: the rows of a prefix are a prefix of the rows. */
  lemma LoadedPrefix(stored: seq<SaleItem>, catalog: seq<Product>)
    requires stored != []
    ensures LoadedItems(stored, catalog)[..|stored| - 1] == LoadedItems(stored[..|stored| - 1], catalog)
  {
  }

  /** Price times quantity summed over the stored lines of a sale. */
  function StoredLineSum(stored: seq<SaleItem>): real {
    if stored == [] then 0.0
    else StoredLineSum(stored[..|stored| - 1]) + stored[|stored| - 1].price * (stored[|stored| - 1].quantity as real)
  }

  /** `INV-` and the last eight digits of the clock's millisecond count. */
  function NewInvoiceNumber(nowMs: nat): (r: string)
    ensures StartsWith(r, "INV-") && 5 <= |r| <= 12
    ensures forall i :: 4 <= i < |r| ==> IsDigit(r[i])
  {
    "INV-" + TakeLast(NatToString(nowMs), 8)
  }

  /** The digits after `INV-` read back as the clock value modulo 10^8, and there are eight of them once the clock has eight digits. */
  lemma InvoiceNumberDigits(nowMs: nat)
    ensures ParseNat(NewInvoiceNumber(nowMs)[4..]) == nowMs % Pow10(8)
    ensures nowMs >= Pow10(7) ==> |NewInvoiceNumber(nowMs)| == 12
  {
    var s := NatToString(nowMs);
    assert NewInvoiceNumber(nowMs)[4..] == TakeLast(s, 8);
    LastDigits(nowMs, 8);
    NatToStringLength(nowMs);
    if nowMs >= Pow10(7) && |s| <= 7 {
      Pow10Monotone(|s|, 7);
    }
  }

  /** The form's contents when the dialog opens: the stored sale's fields, or a new invoice dated today. */
  function ResetValues(item: Option<Sale>, today: Date, nowMs: nat): (v: FormValues)
    requires today.Valid() && (item.Some? ==> item.value.date.Valid())
    ensures item.None? ==> (v.invoiceNumber == NewInvoiceNumber(nowMs) && v.date == IsoDay(today)
                            && v.customerName == "" && v.customerEmail == "" && v.customerPhone == ""
                            && v.tax == 0.0 && v.discount == 0.0 && v.notes == Some(""))
    ensures item.Some? ==> (v.invoiceNumber == item.value.invoiceNumber && v.date == IsoDay(item.value.date)
                            && v.customerName == item.value.customerName
                            && v.customerEmail == item.value.customerEmail
                            && v.customerPhone == item.value.customerPhone && v.tax == item.value.tax
                            && v.discount == item.value.discount && v.notes == Some(item.value.notes))
  {
    match item
    case None => FormValues(NewInvoiceNumber(nowMs), IsoDay(today), "", "", "", 0.0, 0.0, Some(""))
    case Some(s) =>
      FormValues(s.invoiceNumber, IsoDay(s.date), s.customerName, s.customerEmail, s.customerPhone,
                 s.tax, s.discount, Some(s.notes))
  }

  /**
   * The date text the dialog opens with parses back as midnight of the
   * stored sale's day, or of today for a new sale, so saving an edited
   * sale keeps its day.
   */
  lemma ResetDateParsesBack(item: Option<Sale>, today: Date, nowMs: nat)
    requires today.Valid() && (item.Some? ==> item.value.date.Valid())
    requires var d := if item.Some? then item.value.date else today; 0 <= d.year <= 9999
    ensures var d := if item.Some? then item.value.date else today;
            ParseIsoDay(ResetValues(item, today, nowMs).date) == Some(Date(d.year, d.month, d.day, 0))
  {
    var d := if item.Some? then item.value.date else today;
    ParseIsoDayOfIsoDay(d);
  }

  /** One product line of the payload: the product's document id, quantity and unit price. */
  datatype PayloadItem = PayloadItem(product: string, quantity: real, price: real)

  datatype Payload = Payload(
    invoiceNumber: string,
    date: string,
    customerName: string,
    customerEmail: string,
    customerPhone: string,
    subtotal: real,
    tax: real,
    discount: real,
    notes: string,
    total: real,
    products: seq<PayloadItem>)

  /** The request a successful submit sends. */
  datatype Request = Create(body: Payload) | Update(path: string, body: Payload)

  /** The result of pressing "save". */
  datatype SubmitOutcome =
    | Ignored                              // the button is disabled while a save runs
    | Invalid(issues: seq<Rule>)           // the schema refused the values
    | Rejected(message: string)            // the line items refused, no request
    | Failed(message: string)              // the date could not be turned into an instant
    | Sent(request: Request)

  /** The payload built from checked values and complete rows; `date` is the parsed day as an ISO instant. */
  function BuildPayload(v: FormValues, items: seq<LineItem>, date: Date): (p: Payload)
    requires AllComplete(items) && date.Valid()
    ensures |p.products| == |items|
    ensures forall i :: 0 <= i < |items| ==>
      p.products[i] == PayloadItem(items[i].product.value.documentId, items[i].quantity, items[i].price)
    ensures p.subtotal == GrossSum(items)
    ensures p.total == p.subtotal + v.tax - v.discount
    ensures p.notes == v.notes.GetOr("") && p.date == IsoString(date)
    ensures p.invoiceNumber == v.invoiceNumber && p.customerName == v.customerName
      && p.customerEmail == v.customerEmail && p.customerPhone == v.customerPhone
      && p.tax == v.tax && p.discount == v.discount
  {
    SubtotalOfCompleteRows(items);
    Payload(v.invoiceNumber, IsoString(date), v.customerName, v.customerEmail, v.customerPhone,
            Subtotal(items), v.tax, v.discount, v.notes.GetOr(""), Total(items, v.tax, v.discount),
            seq(|items|, i requires 0 <= i < |items| =>
              PayloadItem(items[i].product.value.documentId, items[i].quantity, items[i].price)))
  }

  /** A sale stored from the payload has, by the reports' own formula, the total the form showed. */
  lemma StoredTotalMatchesForm(v: FormValues, items: seq<LineItem>, date: Date, stored: Sale)
    requires AllComplete(items) && date.Valid()
    requires stored.subtotal == BuildPayload(v, items, date).subtotal
    requires stored.tax == v.tax && stored.discount == v.discount
    ensures SaleTotal(stored) == Total(items, v.tax, v.discount)
  {
    SubtotalOfCompleteRows(items);
  }

  /** Editing a stored sale (one with a non-zero id) updates it; anything else creates a new one. */
  function RequestFor(item: Option<Sale>, body: Payload): (r: Request)
    ensures r.body == body
    ensures r.Update? <==> item.Some? && item.value.id != 0
    ensures r.Update? ==> r.path == "/api/sales/" + item.value.documentId
  {
    if item.Some? && item.value.id != 0 then Update("/api/sales/" + item.value.documentId, body) else Create(body)
  }

  /** The message shown when the request answers. */
  function SaveMessage(r: Request, ok: bool): (message: string)
    ensures !ok ==> message == "Failed to save invoice"
    ensures ok && r.Update? ==> message == "Invoice updated successfully"
    ensures ok && r.Create? ==> message == "Invoice created successfully"
  {
    if !ok then "Failed to save invoice"
    else if r.Update? then "Invoice updated successfully" else "Invoice created successfully"
  }

  class Form {
    var values: FormValues
    var items: seq<LineItem>
    var loading: bool
    var catalog: seq<Product>

    /** A fresh dialog: today's date, empty fields, no rows, no catalogue yet. */
    constructor(today: Date)
      requires today.Valid()
      ensures values == FormValues("", IsoDay(today), "", "", "", 0.0, 0.0, Some(""))
      ensures items == [] && !loading && catalog == []
    {
      values := FormValues("", IsoDay(today), "", "", "", 0.0, 0.0, Some(""));
      items := [];
      loading := false;
      catalog := [];
    }

    /** The subtotal shown under the table. */
    function ShownSubtotal(): real
      reads this
    {
      Subtotal(items)
    }

    /** The dialog opened (or its inputs changed while open): reset the fields and the rows. */
    method Sync(isOpen: bool, item: Option<Sale>, today: Date, nowMs: nat)
      requires today.Valid() && (item.Some? ==> item.value.date.Valid())
      modifies this
      ensures !isOpen ==> values == old(values) && items == old(items)
      ensures isOpen ==> values == ResetValues(item, today, nowMs)
      ensures isOpen && item.Some? ==> items == LoadedItems(item.value.products, catalog)
      ensures isOpen && item.None? ==> items == []
      ensures loading == old(loading) && catalog == old(catalog)
    {
      if isOpen {
        var reset := ResetValues(item, today, nowMs);
        var rows := if item.Some? then LoadedItems(item.value.products, catalog) else [];
        values, items := reset, rows;
      }
    }

    /** The catalogue fetch answered; an open dialog resets again, because the catalogue is one of its inputs. */
    method CatalogLoaded(products: seq<Product>, isOpen: bool, item: Option<Sale>, today: Date, nowMs: nat)
      requires today.Valid() && (item.Some? ==> item.value.date.Valid())
      modifies this
      ensures catalog == products && loading == old(loading)
      ensures !isOpen ==> values == old(values) && items == old(items)
      ensures isOpen ==> values == ResetValues(item, today, nowMs)
      ensures isOpen && item.Some? ==> items == LoadedItems(item.value.products, products)
      ensures isOpen && item.None? ==> items == []
    {
      catalog := products;
      Sync(isOpen, item, today, nowMs);
    }

    /** The user typed into the schema-checked fields. */
    method Edit(v: FormValues)
      modifies this
      ensures values == v && items == old(items) && loading == old(loading) && catalog == old(catalog)
    {
      values := v;
    }

    /** "Add product": one blank row at the end, the others untouched. */
    method AddLineItem()
      modifies this
      ensures items == old(items) + [Blank]
      ensures ShownSubtotal() == old(ShownSubtotal())
      ensures values == old(values) && loading == old(loading) && catalog == old(catalog)
    {
      AddKeepsSubtotal(items);
      items := items + [Blank];
    }

    /** The trash button of row `index`. */
    method RemoveLineItem(index: int)
      modifies this
      ensures items == RemoveAt(old(items), index)
      ensures 0 <= index < |old(items)| ==> ShownSubtotal() == old(ShownSubtotal()) - Contribution(old(items)[index])
      ensures values == old(values) && loading == old(loading) && catalog == old(catalog)
    {
      if 0 <= index < |items| {
        RemoveSubtotal(items, index);
      }
      items := RemoveAt(items, index);
    }

    /** An edit of row `index`; every other row keeps its value. */
    method UpdateLineItem(index: int, f: Field)
      requires 0 <= index < |items|
      modifies this
      ensures |items| == |old(items)| && items[index] == Apply(old(items)[index], f)
      ensures forall j :: 0 <= j < |items| && j != index ==> items[j] == old(items)[j]
      ensures ShownSubtotal() == old(ShownSubtotal()) - Contribution(old(items)[index]) + Contribution(items[index])
      ensures values == old(values) && loading == old(loading) && catalog == old(catalog)
    {
      UpdateSubtotal(items, index, f);
      items := items[index := Apply(items[index], f)];
    }

    /** The product picker of row `index`: a document id found in the catalogue sets that product; otherwise nothing happens. */
    method SelectProduct(index: int, documentId: string)
      requires 0 <= index < |items|
      modifies this
      ensures FindByDocumentId(catalog, documentId).None? ==> items == old(items)
      ensures FindByDocumentId(catalog, documentId).Some? ==>
                items == old(items)[index := Apply(old(items)[index], SetProduct(FindByDocumentId(catalog, documentId).value))]
      ensures values == old(values) && loading == old(loading) && catalog == old(catalog)
    {
      var found := FindByDocumentId(catalog, documentId);
      if found.Some? {
        UpdateLineItem(index, SetProduct(found.value));
      }
    }

    /**
     * "Save": refused while a save runs or when the schema, the row list or a
     * row fails; otherwise the request is built and `loading` stays set until
     * it answers. A date text that is not a calendar day makes
     * `new Date(text).toISOString()` throw, and the save fails at once.
     */
    method Submit(item: Option<Sale>, isEmail: string -> bool) returns (out: SubmitOutcome)
      modifies this
      ensures old(loading) ==> out == Ignored
      ensures !old(loading) && !SchemaValid(values, isEmail) ==> out == Invalid(SchemaIssues(values, isEmail))
      ensures (!old(loading) && SchemaValid(values, isEmail) && items == []) ==>
                out == Rejected("Please add at least one product")
      ensures (!old(loading) && SchemaValid(values, isEmail) && items != [] && !AllComplete(items)) ==>
                out == Rejected("Please select products and enter valid quantities")
      ensures (!old(loading) && SchemaValid(values, isEmail) && items != [] && AllComplete(items)) ==>
                if ParseIsoDay(values.date).Some?
                then out == Sent(RequestFor(item, BuildPayload(values, items, ParseIsoDay(values.date).value)))
                else out == Failed("Failed to save invoice")
      ensures loading == (old(loading) || out.Sent?)
      ensures values == old(values) && items == old(items) && catalog == old(catalog)
    {
      if loading {
        return Ignored;
      }
      if !SchemaValid(values, isEmail) {
        return Invalid(SchemaIssues(values, isEmail));
      }
      if items == [] {
        return Rejected("Please add at least one product");
      }
      if !AllComplete(items) {
        return Rejected("Please select products and enter valid quantities");
      }
      loading := true;
      var parsed := ParseIsoDay(values.date);
      if parsed.None? {
        loading := false;
        return Failed("Failed to save invoice");
      }
      out := Sent(RequestFor(item, BuildPayload(values, items, parsed.value)));
    }

    /** The request answered: its message, and the button is enabled again. */
    method SaveFinished(r: Request, ok: bool) returns (message: string)
      modifies this
      ensures message == SaveMessage(r, ok) && !loading
      ensures values == old(values) && items == old(items) && catalog == old(catalog)
    {
      loading := false;
      message := SaveMessage(r, ok);
    }
  }
}

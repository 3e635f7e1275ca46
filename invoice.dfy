/**
 * The invoice preview a report row opens, the page loop that cuts its
 * captured image into A4 pages, and the table cells of the report row.
 * The document is modelled by its content (rows, totals, notes, file name),
 * not its markup; amounts are rendered by a caller-supplied number
 * formatter, and the long date by a caller-supplied date formatter.
 */
module Invoice {
  import opened Wrappers
  import opened Text
  import opened Calendar
  import opened Sales

  /** One line of the items table: product name, quantity, unit price and line amount. */
  datatype ItemRow = ItemRow(product: string, quantity: string, price: string, amount: string)

  /** The items table's body: one row per line item, or the single "No items" placeholder row. */
  datatype Body = Rows(rows: seq<ItemRow>) | Placeholder(text: string)

  /** A caption and amount of the totals block. */
  datatype TotalsLine = TotalsLine(caption: string, amount: string)

  datatype Document = Document(
    heading: string,
    date: string,
    customer: string,
    email: string,
    phone: string,
    body: Body,
    totals: seq<TotalsLine>,
    notes: Option<string>,
    pdfName: string)

  /** An amount as the invoice prints it. */
  function Money(x: real, num: real -> string): string {
    "₹" + num(x)
  }

  /** The table row of one stored line item. */
  function RowOf(item: SaleItem, num: real -> string): (row: ItemRow)
    ensures row.product == item.product.name
    ensures ParseInt(row.quantity) == item.quantity
    ensures row.price == Money(item.price, num)
    ensures row.amount == Money(item.quantity as real * item.price, num)
  {
    ParseIntOfIntToString(item.quantity);
    ItemRow(item.product.name, IntToString(item.quantity), Money(item.price, num),
            Money(item.quantity as real * item.price, num))
  }

  /** The rows for a list of items; the empty list leaves the table without rows, so the placeholder takes their place. */
  function BodyOf(items: seq<SaleItem>, num: real -> string): (b: Body)
    ensures b.Placeholder? <==> items == []
    ensures b.Placeholder? ==> b.text == "No items"
    ensures b.Rows? ==> |b.rows| == |items|
    ensures b.Rows? ==> forall i :: 0 <= i < |items| ==> b.rows[i] == RowOf(items[i], num)
  {
    var rows := seq(|items|, i requires 0 <= i < |items| => RowOf(items[i], num));
    if rows == [] then Placeholder("No items") else Rows(rows)
  }

  /** The totals block: subtotal, tax, the discount with a leading minus, and the grand total. */
  function TotalsOf(sale: Sale, num: real -> string): (lines: seq<TotalsLine>)
    ensures |lines| == 4
    ensures lines[0] == TotalsLine("Subtotal:", Money(sale.subtotal, num))
    ensures lines[1] == TotalsLine("Tax:", Money(sale.tax, num))
    ensures lines[2] == TotalsLine("Discount:", "-" + Money(sale.discount, num))
    ensures lines[3] == TotalsLine("Total:", Money(SaleTotal(sale), num))
  {
    [ TotalsLine("Subtotal:", Money(sale.subtotal, num)),
      TotalsLine("Tax:", Money(sale.tax, num)),
      TotalsLine("Discount:", "-" + Money(sale.discount, num)),
      TotalsLine("Total:", Money(sale.subtotal + sale.tax - sale.discount, num)) ]
  }

  /** The name the PDF is saved under. */
  function PdfName(invoiceNumber: string): (name: string)
    ensures StartsWith(name, "Invoice-") && |name| == |invoiceNumber| + 12
    ensures name[8..|name| - 4] == invoiceNumber && name[|name| - 4..] == ".pdf"
  {
    "Invoice-" + invoiceNumber + ".pdf"
  }

  /** The preview document of a stored sale. */
  function Preview(sale: Sale, num: real -> string, longDate: Date -> string): (d: Document)
    ensures d.heading == "Invoice #: " + sale.invoiceNumber && d.date == longDate(sale.date)
    ensures d.customer == sale.customerName && d.email == sale.customerEmail && d.phone == sale.customerPhone
    ensures d.body == BodyOf(sale.products, num)
    ensures d.totals == TotalsOf(sale, num)
    ensures d.notes.Some? <==> sale.notes != ""
    ensures d.notes.Some? ==> d.notes.value == sale.notes
    ensures d.pdfName == PdfName(sale.invoiceNumber)
  {
    Document("Invoice #: " + sale.invoiceNumber, longDate(sale.date), sale.customerName,
             sale.customerEmail, sale.customerPhone, BodyOf(sale.products, num), TotalsOf(sale, num),
             if sale.notes != "" then Some(sale.notes) else None, PdfName(sale.invoiceNumber))
  }

  /** The report table's "Total" cell. */
  function TotalCell(sale: Sale, num: real -> string): string {
    Money(sale.subtotal + sale.tax - sale.discount, num)
  }

  /** The preview's grand total and the table's "Total" cell print the same amount, the one the reports sum. */
  lemma PreviewTotalMatchesTable(sale: Sale, num: real -> string, longDate: Date -> string)
    ensures Preview(sale, num, longDate).totals[3].amount == TotalCell(sale, num)
    ensures TotalCell(sale, num) == Money(SaleTotal(sale), num)
  {
  }

  /** The e-mail and phone cells of the report table. */
  function ContactCell(s: string): (cell: string)
    ensures s != "" ==> cell == s
    ensures s == "" ==> cell == "N/A"
  {
    if s != "" then s else "N/A"
  }

  /** A4 height in millimetres. */
  const PAGE_HEIGHT: real := 297.0

  /** How many pages an image of this height (in millimetres) is cut into. */
  function PageCount(imgHeight: real): (n: int)
    requires imgHeight >= 0.0
    ensures n >= 1
  {
    1 + (imgHeight / PAGE_HEIGHT).Floor
  }

  /** The pages cover the image, and the last one starts inside it or exactly at its end. */
  lemma PagesCoverImage(imgHeight: real)
    requires imgHeight >= 0.0
    ensures (PageCount(imgHeight) - 1) as real * PAGE_HEIGHT <= imgHeight
    ensures imgHeight < PageCount(imgHeight) as real * PAGE_HEIGHT
  {
    var q := imgHeight / PAGE_HEIGHT;
    assert q.Floor as real <= q < q.Floor as real + 1.0;
    assert imgHeight == q * PAGE_HEIGHT;
  }

  /** An image exactly k pages tall still gets a further, empty page. */
  lemma ExactMultipleAddsPage(k: nat)
    ensures PageCount(k as real * PAGE_HEIGHT) == k + 1
  {
    assert k as real * PAGE_HEIGHT / PAGE_HEIGHT == k as real;
  }

  /**
   * The download loop: the first page places the image at offset 0, and
   * while some of it is left another page places it 297 mm higher.
   * Returns the vertical offset used on each page, in page order.
   */
  method PdfPages(imgHeight: real) returns (positions: seq<real>)
    requires imgHeight >= 0.0
    ensures |positions| == PageCount(imgHeight)
    ensures forall k :: 0 <= k < |positions| ==> positions[k] == -PAGE_HEIGHT * k as real
  {
    var heightLeft := imgHeight;
    var position := 0.0;
    positions := [position];
    heightLeft := heightLeft - PAGE_HEIGHT;
    while heightLeft >= 0.0
      invariant |positions| >= 1
      invariant heightLeft == imgHeight - PAGE_HEIGHT * |positions| as real
      invariant (|positions| - 1) as real * PAGE_HEIGHT <= imgHeight
      invariant forall k :: 0 <= k < |positions| ==> positions[k] == -PAGE_HEIGHT * k as real
      decreases (heightLeft + PAGE_HEIGHT).Floor
    {
      position := heightLeft - imgHeight;
      positions := positions + [position];
      heightLeft := heightLeft - PAGE_HEIGHT;
    }
    var q := imgHeight / PAGE_HEIGHT;
    assert (|positions| - 1) as real <= q < |positions| as real;
    assert q.Floor == |positions| - 1;
  }
}

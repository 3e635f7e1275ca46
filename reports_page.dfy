/**
 * The sales reports page: the sales of the selected period (daily, weekly
 * or monthly tab), filtered and paginated like the other list pages, with
 * four statistics over the rows on screen and a CSV export of those rows.
 */
module ReportsPage {
  import opened Wrappers
  import opened Text
  import opened Calendar
  import opened DateRanges
  import opened SearchParams
  import opened Sales
  import opened Pagination

  /** `searchParams.get("tab") || "daily"`. */
  function TabFromUrl(param: Option<string>): (tab: string)
    ensures param.Some? && param.value != "" ==> tab == param.value
    ensures param.None? || param.value == "" ==> tab == "daily"
  {
    if param.Some? && param.value != "" then param.value else "daily"
  }

  /** The six parameters every reports query carries, in the order they are set. */
  function BaseParams(page: string, pageSize: string, gte: string, lte: string): Entries {
    [("pagination[page]", page),
     ("pagination[pageSize]", pageSize),
     ("sort[0]", "date:desc"),
     ("populate[0]", "products.product"),
     ("filters[date][$gte]", gte),
     ("filters[date][$lte]", lte)]
  }

  /** The six `set` calls on an empty query give the six parameters in order. */
  lemma BaseParamsAreSet(p: string, ps: string, gte: string, lte: string)
    ensures var e1 := SetEntry([], "pagination[page]", p);
            var e2 := SetEntry(e1, "pagination[pageSize]", ps);
            var e3 := SetEntry(e2, "sort[0]", "date:desc");
            var e4 := SetEntry(e3, "populate[0]", "products.product");
            var e5 := SetEntry(e4, "filters[date][$gte]", gte);
            SetEntry(e5, "filters[date][$lte]", lte) == BaseParams(p, ps, gte, lte)
  {
    var e2 := [("pagination[page]", p), ("pagination[pageSize]", ps)];
    var e4 := e2 + [("sort[0]", "date:desc"), ("populate[0]", "products.product")];
    SetTwoNewNames([], "pagination[page]", p, "pagination[pageSize]", ps);
    SetTwoNewNames(e2, "sort[0]", "date:desc", "populate[0]", "products.product");
    SetTwoNewNames(e4, "filters[date][$gte]", gte, "filters[date][$lte]", lte);
  }

  lemma BaseParamsNames(p: string, ps: string, gte: string, lte: string)
    ensures forall i :: 0 <= i < |BaseParams(p, ps, gte, lte)| ==>
              BaseParams(p, ps, gte, lte)[i].0 != "filters[customer_name][$containsi]"
              && BaseParams(p, ps, gte, lte)[i].0 != "filters[invoice_number][$containsi]"
  {
  }

  /** `buildQuery()`: page, page size, newest first, line items populated, the tab's window and the column filters. */
  method ReportsQuery(page: int, pageSize: int, filters: map<string, string>, tab: string, now: Date)
    returns (entries: Entries)
    requires now.Valid()
    ensures var w := ReportsWindow(tab, now);
            w.start.Valid() && w.end.Valid()
            && entries == BaseParams(IntToString(page), IntToString(pageSize), IsoString(w.start), IsoString(w.end))
                          + OptionalParam("filters[customer_name][$containsi]", FilterValue(filters, "customer_name"))
                          + OptionalParam("filters[invoice_number][$containsi]", FilterValue(filters, "invoice_number"))
  {
    var p := IntToString(page);
    var ps := IntToString(pageSize);
    var query := new Query();
    query.Set("pagination[page]", p);
    query.Set("pagination[pageSize]", ps);
    query.Set("sort[0]", "date:desc");
    query.Set("populate[0]", "products.product");
    var range := ReportsDateRange(tab, now);
    var gte := IsoString(range.start);
    var lte := IsoString(range.end);
    query.Set("filters[date][$gte]", gte);
    query.Set("filters[date][$lte]", lte);
    var base := BaseParams(p, ps, gte, lte);
    BaseParamsAreSet(p, ps, gte, lte);
    BaseParamsNames(p, ps, gte, lte);
    assert query.entries == base;
    var name := FilterValue(filters, "customer_name");
    var invoice := FilterValue(filters, "invoice_number");
    if name != "" {
      query.Set("filters[customer_name][$containsi]", name);
    }
    if invoice != "" {
      query.Set("filters[invoice_number][$containsi]", invoice);
    }
    SetTwoIfPresent(base, "filters[customer_name][$containsi]", name, "filters[invoice_number][$containsi]", invoice);
    entries := query.entries;
  }

  /**
   * Reading the query back: each column filter is present exactly when its
   * text is non-empty, whatever the date window and the page are.
   */
  lemma ReportsQueryReadsBack(p: string, ps: string, gte: string, lte: string, name: string, invoice: string)
    ensures var q := BaseParams(p, ps, gte, lte) + OptionalParam("filters[customer_name][$containsi]", name)
                                                 + OptionalParam("filters[invoice_number][$containsi]", invoice);
            && Get(q, "filters[customer_name][$containsi]") == (if name != "" then Some(name) else None)
            && Get(q, "filters[invoice_number][$containsi]") == (if invoice != "" then Some(invoice) else None)
  {
    var base := BaseParams(p, ps, gte, lte);
    var n1, n2 := "filters[customer_name][$containsi]", "filters[invoice_number][$containsi]";
    BaseParamsNames(p, ps, gte, lte);
    GetOptionalParams(base, n1, name, n2, invoice, n1);
    GetOptionalParams(base, n1, name, n2, invoice, n2);
  }

  /** The period line under "Total Invoices": "Daily period", "Weekly period", ... */
  function PeriodSubtitle(tab: string): (r: string)
    ensures |r| == |tab| + 7 && r[|tab|..] == " period"
    ensures tab != "" ==> r[0] == UpperChar(tab[0]) && r[1..|tab|] == tab[1..]
  {
    Capitalize(tab) + " period"
  }

  const CsvHeader: seq<string> :=
    ["Invoice #", "Date", "Customer", "Email", "Phone", "Subtotal", "Tax", "Discount", "Total"]

  /**
   * The nine fields of a sale's CSV row. `num` is how a number prints and
   * `dateText` the browser's locale date.
   */
  function CsvFields(s: Sale, num: real -> string, dateText: Date -> string): (fields: seq<string>)
    ensures |fields| == |CsvHeader|
    ensures fields[8] == num(SaleTotal(s))
  {
    [s.invoiceNumber, dateText(s.date), s.customerName, s.customerEmail, s.customerPhone,
     num(s.subtotal), num(s.tax), num(s.discount), num(SaleTotal(s))]
  }

  /** A sale's line: its fields joined by commas; with plain fields it is one line that splits back into them. */
  function CsvRow(s: Sale, num: real -> string, dateText: Date -> string): (line: string)
    ensures PlainFields(s, num, dateText) ==> '\n' !in line && Split(line, ',') == CsvFields(s, num, dateText)
  {
    var fields := CsvFields(s, num, dateText);
    if PlainFields(s, num, dateText) then
      PlainLineReadsBack(fields);
      Join(fields, ",")
    else Join(fields, ",")
  }

  /** The header line followed by one comma-joined line per sale. */
  function CsvLines(sales: seq<Sale>, num: real -> string, dateText: Date -> string): (lines: seq<string>)
    ensures |lines| == |sales| + 1
  {
    [Join(CsvHeader, ",")] + seq(|sales|, i requires 0 <= i < |sales| => CsvRow(sales[i], num, dateText))
  }

  /** The file: the lines joined with newlines. */
  function CsvContent(sales: seq<Sale>, num: real -> string, dateText: Date -> string): (content: string)
    ensures StartsWith(content, Join(CsvHeader, ","))
    ensures sales == [] ==> content == Join(CsvHeader, ",")
  {
    Join(CsvLines(sales, num, dateText), "\n")
  }

  /** `${Type}_Sales_Report_${today as YYYY-MM-DD}.csv`. */
  function CsvFileName(tab: string, today: Date): (name: string)
    requires today.Valid()
    ensures name == Capitalize(tab) + "_Sales_Report_" + IsoDay(today) + ".csv"
    ensures |name| >= 4 && name[|name| - 4..] == ".csv"
  {
    Capitalize(tab) + "_Sales_Report_" + Split(IsoString(today), 'T')[0] + ".csv"
  }

  /** A field free of both separators. */
  predicate PlainField(f: string) {
    ',' !in f && '\n' !in f
  }

  predicate PlainFields(s: Sale, num: real -> string, dateText: Date -> string) {
    forall j :: 0 <= j < |CsvHeader| ==> PlainField(CsvFields(s, num, dateText)[j])
  }

  lemma {:induction false} JoinHasNoChar(parts: seq<string>, sep: string, c: char)
    requires c !in sep
    requires forall i :: 0 <= i < |parts| ==> c !in parts[i]
    ensures c !in Join(parts, sep)
    decreases |parts|
  {
    if |parts| > 1 {
      JoinHasNoChar(parts[1..], sep, c);
    }
  }

  /** Comma-joined plain fields make one line that splits back into those fields. */
  lemma PlainLineReadsBack(fields: seq<string>)
    requires |fields| >= 1
    requires forall j :: 0 <= j < |fields| ==> PlainField(fields[j])
    ensures '\n' !in Join(fields, ",")
    ensures Split(Join(fields, ","), ',') == fields
  {
    JoinHasNoChar(fields, ",", '\n');
    SplitJoin(fields, ',');
  }

  lemma HeaderReadsBack()
    ensures '\n' !in Join(CsvHeader, ",")
    ensures Split(Join(CsvHeader, ","), ',') == CsvHeader
  {
    assert forall j :: 0 <= j < |CsvHeader| ==> PlainField(CsvHeader[j]);
    PlainLineReadsBack(CsvHeader);
  }

  lemma CsvLineAt(sales: seq<Sale>, num: real -> string, dateText: Date -> string, i: int)
    requires 0 <= i < |sales|
    ensures CsvLines(sales, num, dateText)[i + 1] == CsvRow(sales[i], num, dateText)
  {
  }

  /** Every line of a plain export is free of newlines, and each row line splits into its sale's fields. */
  lemma CsvLinesArePlain(sales: seq<Sale>, num: real -> string, dateText: Date -> string)
    requires forall i :: 0 <= i < |sales| ==> PlainFields(sales[i], num, dateText)
    ensures var lines := CsvLines(sales, num, dateText);
            (forall i :: 0 <= i < |lines| ==> '\n' !in lines[i])
            && Split(lines[0], ',') == CsvHeader
            && forall i :: 0 <= i < |sales| ==> Split(lines[i + 1], ',') == CsvFields(sales[i], num, dateText)
  {
    var lines := CsvLines(sales, num, dateText);
    HeaderReadsBack();
    assert lines[0] == Join(CsvHeader, ",");
    forall i | 0 <= i < |lines| ensures '\n' !in lines[i] {
      if i > 0 {
        CsvLineAt(sales, num, dateText, i - 1);
        PlainLineReadsBack(CsvFields(sales[i - 1], num, dateText));
      }
    }
    forall i | 0 <= i < |sales|
      ensures Split(lines[i + 1], ',') == CsvFields(sales[i], num, dateText)
    {
      CsvLineAt(sales, num, dateText, i);
      PlainLineReadsBack(CsvFields(sales[i], num, dateText));
    }
  }

  /**
   * When no field holds a comma or a newline, the export reads back as one
   * line per sale after the header, each splitting into the sale's nine fields.
   * Fields are written unquoted; this condition is enough for the file to parse back.
   */
  lemma CsvReadsBack(sales: seq<Sale>, num: real -> string, dateText: Date -> string)
    requires forall i :: 0 <= i < |sales| ==> PlainFields(sales[i], num, dateText)
    ensures var lines := Split(CsvContent(sales, num, dateText), '\n');
            |lines| == |sales| + 1
            && Split(lines[0], ',') == CsvHeader
            && forall i :: 0 <= i < |sales| ==> Split(lines[i + 1], ',') == CsvFields(sales[i], num, dateText)
  {
    CsvLinesArePlain(sales, num, dateText);
    SplitJoin(CsvLines(sales, num, dateText), '\n');
  }

  /** A row's Total column is the sale's revenue, the same figure the statistics add up. */
  lemma CsvTotalIsRevenue(s: Sale, num: real -> string, dateText: Date -> string)
    requires PlainFields(s, num, dateText)
    ensures var parts := Split(Join(CsvFields(s, num, dateText), ","), ',');
            |parts| == 9 && parts[8] == num(s.subtotal + s.tax - s.discount)
  {
    PlainLineReadsBack(CsvFields(s, num, dateText));
  }

  /** The reports page: the shared table state plus the active tab and the statistics of the rows on screen. */
  class Page {
    const table: ListPage<Sale>
    var activeTab: string
    var stats: ReportStats

    /** The statistics always describe the rows on screen. */
    ghost predicate Valid()
      reads this, table
    {
      table.Valid() && stats == ComputeStats(table.rows)
    }

    constructor(tabParam: Option<string>)
      ensures Valid() && fresh(table)
      ensures activeTab == TabFromUrl(tabParam) && stats == EmptyStats
      ensures table.rows == [] && table.loading && table.meta == None && table.page == 1 && table.pageSize == 10
      ensures table.filters == map["customer_name" := "", "invoice_number" := ""]
    {
      table := new ListPage({"customer_name", "invoice_number"});
      activeTab := TabFromUrl(tabParam);
      stats := EmptyStats;
      new;
      assert table.filters == map["customer_name" := "", "invoice_number" := ""];
    }

    /** The URL's tab changed. */
    method SyncTab(tabParam: Option<string>)
      requires Valid()
      modifies this
      ensures Valid()
      ensures activeTab == TabFromUrl(tabParam) && stats == old(stats)
    {
      activeTab := TabFromUrl(tabParam);
    }

    /** A tab was clicked; the page number is kept. */
    method SelectTab(tab: string)
      requires Valid()
      modifies this
      ensures Valid()
      ensures activeTab == tab && stats == old(stats)
    {
      activeTab := tab;
    }

    /** A fetch answered: rows, meta and statistics are replaced together. */
    method FetchSucceeded(data: seq<Sale>, m: Meta)
      requires Valid()
      modifies this, table
      ensures Valid()
      ensures table.rows == data && table.meta == Some(m) && !table.loading
      ensures stats == ComputeStats(data) && activeTab == old(activeTab)
      ensures table.page == old(table.page) && table.pageSize == old(table.pageSize)
      ensures table.filters == old(table.filters)
      ensures table.dialogOpen == old(table.dialogOpen) && table.selected == old(table.selected)
    {
      table.FetchSucceeded(data, m);
      stats := ComputeStats(data);
    }

    /** A fetch failed: rows, meta and statistics stay as they were. */
    method FetchFailed()
      requires Valid()
      modifies table
      ensures Valid()
      ensures !table.loading && table.rows == old(table.rows) && table.meta == old(table.meta)
      ensures table.page == old(table.page) && table.pageSize == old(table.pageSize)
      ensures table.filters == old(table.filters)
      ensures table.dialogOpen == old(table.dialogOpen) && table.selected == old(table.selected)
      ensures stats == old(stats) && activeTab == old(activeTab)
    {
      table.FetchFailed();
    }

    /** "Export Report": the file name and content for the rows on screen. */
    method ExportReport(today: Date, num: real -> string, dateText: Date -> string)
      returns (fileName: string, content: string)
      requires today.Valid()
      ensures fileName == Capitalize(activeTab) + "_Sales_Report_" + IsoDay(today) + ".csv"
      ensures content == CsvContent(table.rows, num, dateText)
    {
      fileName := CsvFileName(activeTab, today);
      content := CsvContent(table.rows, num, dateText);
    }
  }
}

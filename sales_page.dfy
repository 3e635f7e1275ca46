/** The sales and invoices list page: newest sales first, filtered by customer and invoice number. */
module SalesPage {
  import opened Wrappers
  import opened Text
  import opened SearchParams
  import opened Sales
  import opened Pagination

  /** The four parameters every sales query carries, in the order they are set. */
  function BaseParams(page: string, pageSize: string): Entries {
    [("pagination[page]", page),
     ("pagination[pageSize]", pageSize),
     ("sort[0]", "date:desc"),
     ("populate[0]", "products.product")]
  }

  lemma BaseParamsAreSet(p: string, ps: string)
    ensures var e1 := SetEntry([], "pagination[page]", p);
            var e2 := SetEntry(e1, "pagination[pageSize]", ps);
            var e3 := SetEntry(e2, "sort[0]", "date:desc");
            SetEntry(e3, "populate[0]", "products.product") == BaseParams(p, ps)
    ensures forall i :: 0 <= i < |BaseParams(p, ps)| ==>
              BaseParams(p, ps)[i].0 != "filters[customer_name][$containsi]"
              && BaseParams(p, ps)[i].0 != "filters[invoice_number][$containsi]"
  {
    var e2 := [("pagination[page]", p), ("pagination[pageSize]", ps)];
    SetTwoNewNames([], "pagination[page]", p, "pagination[pageSize]", ps);
    SetTwoNewNames(e2, "sort[0]", "date:desc", "populate[0]", "products.product");
  }

  /** The pairs `buildQuery()` sets for a page, page size and filters, in order. */
  function ListQuery(page: int, pageSize: int, filters: map<string, string>): Entries {
    BaseParams(IntToString(page), IntToString(pageSize))
      + OptionalParam("filters[customer_name][$containsi]", FilterValue(filters, "customer_name"))
      + OptionalParam("filters[invoice_number][$containsi]", FilterValue(filters, "invoice_number"))
  }

  /** `buildQuery()`: page, page size, newest first, line items populated, then the non-empty filters. */
  method SalesQuery(page: int, pageSize: int, filters: map<string, string>) returns (entries: Entries)
    ensures entries == ListQuery(page, pageSize, filters)
  {
    var p := IntToString(page);
    var ps := IntToString(pageSize);
    var query := new Query();
    query.Set("pagination[page]", p);
    query.Set("pagination[pageSize]", ps);
    query.Set("sort[0]", "date:desc");
    query.Set("populate[0]", "products.product");
    BaseParamsAreSet(p, ps);
    var base := query.entries;
    var name := FilterValue(filters, "customer_name");
    var invoice := FilterValue(filters, "invoice_number");
    if name != "" {
      query.Set("filters[customer_name][$containsi]", name);
    }
    if invoice != "" {
      query.Set("filters[invoice_number][$containsi]", invoice);
    }
    SetTwoIfPresent(base, "filters[customer_name][$containsi]", name, "filters[invoice_number][$containsi]", invoice);
    entries := query.entries;
  }

  /**
   * Reading the query back: each column filter is present exactly when its
   * text is non-empty, whatever the base parameters are.
   */
  lemma SalesQueryReadsBack(p: string, ps: string, name: string, invoice: string)
    ensures var q := BaseParams(p, ps) + OptionalParam("filters[customer_name][$containsi]", name)
                                       + OptionalParam("filters[invoice_number][$containsi]", invoice);
            && Get(q, "filters[customer_name][$containsi]") == (if name != "" then Some(name) else None)
            && Get(q, "filters[invoice_number][$containsi]") == (if invoice != "" then Some(invoice) else None)
  {
    var base := BaseParams(p, ps);
    var n1, n2 := "filters[customer_name][$containsi]", "filters[invoice_number][$containsi]";
    BaseParamsAreSet(p, ps);
    GetOptionalParams(base, n1, name, n2, invoice, n1);
    GetOptionalParams(base, n1, name, n2, invoice, n2);
  }

  /** The confirmation question for deleting a sale. */
  function DeletePrompt(item: Sale): (question: string)
    ensures var p := "Are you sure you want to delete invoice \"";
            |question| == |p| + |item.invoiceNumber| + 2 && question[..|p|] == p
            && question[|p|..|question| - 2] == item.invoiceNumber && question[|question| - 2..] == "\"?"
  {
    "Are you sure you want to delete invoice \"" + item.invoiceNumber + "\"?"
  }

  /**
   * `handleDelete(item)`: nothing happens unless the user confirms; then the
   * sale's document is deleted, and on success the list is fetched again
   * with the page's current query (`refetch`) before the success toast.
   */
  function HandleDelete(item: Sale, page: int, pageSize: int, filters: map<string, string>,
                        confirmed: bool, requestSucceeded: bool): (r: DeleteOutcome)
    ensures r.Cancelled? <==> !confirmed
    ensures !r.Cancelled? ==> r.path == "/api/sales/" + item.documentId
    ensures r.Deleted? <==> confirmed && requestSucceeded
    ensures r.Deleted? ==> r.refetch == ListQuery(page, pageSize, filters)
    ensures r.Deleted? ==> r.message == "Sale deleted successfully"
    ensures r.DeleteFailed? ==> r.message == "Failed to delete sale"
  {
    if !confirmed then Cancelled
    else if requestSucceeded then Deleted("/api/sales/" + item.documentId, ListQuery(page, pageSize, filters), "Sale deleted successfully")
    else DeleteFailed("/api/sales/" + item.documentId, "Failed to delete sale")
  }
}

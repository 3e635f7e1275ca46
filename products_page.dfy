/** The products list page: products with their category and image, filtered by name and description. */
module ProductsPage {
  import opened Wrappers
  import opened Text
  import opened SearchParams
  import opened Catalog
  import opened Pagination

  /** The four parameters every products query carries, in the order they are set; no sort is requested. */
  function BaseParams(page: string, pageSize: string): Entries {
    [("pagination[page]", page),
     ("pagination[pageSize]", pageSize),
     ("populate[0]", "category"),
     ("populate[1]", "image")]
  }

  lemma BaseParamsAreSet(p: string, ps: string)
    ensures var e1 := SetEntry([], "pagination[page]", p);
            var e2 := SetEntry(e1, "pagination[pageSize]", ps);
            var e3 := SetEntry(e2, "populate[0]", "category");
            SetEntry(e3, "populate[1]", "image") == BaseParams(p, ps)
    ensures forall i :: 0 <= i < |BaseParams(p, ps)| ==>
              BaseParams(p, ps)[i].0 != "filters[name][$containsi]"
              && BaseParams(p, ps)[i].0 != "filters[description][$containsi]"
  {
    var e2 := [("pagination[page]", p), ("pagination[pageSize]", ps)];
    SetTwoNewNames([], "pagination[page]", p, "pagination[pageSize]", ps);
    SetTwoNewNames(e2, "populate[0]", "category", "populate[1]", "image");
  }

  /** The pairs `buildQuery()` sets for a page, page size and filters, in order. */
  function ListQuery(page: int, pageSize: int, filters: map<string, string>): Entries {
    BaseParams(IntToString(page), IntToString(pageSize))
      + OptionalParam("filters[name][$containsi]", FilterValue(filters, "name"))
      + OptionalParam("filters[description][$containsi]", FilterValue(filters, "description"))
  }

  /** `buildQuery()`: page, page size, category and image populated, then the non-empty filters. */
  method ProductsQuery(page: int, pageSize: int, filters: map<string, string>) returns (entries: Entries)
    ensures entries == ListQuery(page, pageSize, filters)
  {
    var p := IntToString(page);
    var ps := IntToString(pageSize);
    var query := new Query();
    query.Set("pagination[page]", p);
    query.Set("pagination[pageSize]", ps);
    query.Set("populate[0]", "category");
    query.Set("populate[1]", "image");
    BaseParamsAreSet(p, ps);
    var base := query.entries;
    var name := FilterValue(filters, "name");
    var description := FilterValue(filters, "description");
    if name != "" {
      query.Set("filters[name][$containsi]", name);
    }
    if description != "" {
      query.Set("filters[description][$containsi]", description);
    }
    SetTwoIfPresent(base, "filters[name][$containsi]", name, "filters[description][$containsi]", description);
    entries := query.entries;
  }

  /**
   * Reading the query back: each column filter is present exactly when its
   * text is non-empty, whatever the base parameters are.
   */
  lemma ProductsQueryReadsBack(p: string, ps: string, name: string, description: string)
    ensures var q := BaseParams(p, ps) + OptionalParam("filters[name][$containsi]", name)
                                       + OptionalParam("filters[description][$containsi]", description);
            && Get(q, "filters[name][$containsi]") == (if name != "" then Some(name) else None)
            && Get(q, "filters[description][$containsi]") == (if description != "" then Some(description) else None)
  {
    var base := BaseParams(p, ps);
    var n1, n2 := "filters[name][$containsi]", "filters[description][$containsi]";
    BaseParamsAreSet(p, ps);
    GetOptionalParams(base, n1, name, n2, description, n1);
    GetOptionalParams(base, n1, name, n2, description, n2);
  }

  /** The confirmation question for deleting a product. */
  function DeletePrompt(item: Product): (question: string)
    ensures var p := "Are you sure you want to delete \"";
            |question| == |p| + |item.name| + 2 && question[..|p|] == p
            && question[|p|..|question| - 2] == item.name && question[|question| - 2..] == "\"?"
  {
    "Are you sure you want to delete \"" + item.name + "\"?"
  }

  /**
   * `handleDelete(item)`: nothing happens unless the user confirms; then the
   * product's document is deleted, and on success the list is fetched again
   * with the page's current query (`refetch`) before the success toast.
   */
  function HandleDelete(item: Product, page: int, pageSize: int, filters: map<string, string>,
                        confirmed: bool, requestSucceeded: bool): (r: DeleteOutcome)
    ensures r.Cancelled? <==> !confirmed
    ensures !r.Cancelled? ==> r.path == "/api/products/" + item.documentId
    ensures r.Deleted? <==> confirmed && requestSucceeded
    ensures r.Deleted? ==> r.refetch == ListQuery(page, pageSize, filters)
    ensures r.Deleted? ==> r.message == "Product deleted successfully"
    ensures r.DeleteFailed? ==> r.message == "Failed to delete product"
  {
    if !confirmed then Cancelled
    else if requestSucceeded then Deleted("/api/products/" + item.documentId, ListQuery(page, pageSize, filters), "Product deleted successfully")
    else DeleteFailed("/api/products/" + item.documentId, "Failed to delete product")
  }
}

/**
 * The state every list page (sales, products, reports) keeps around its
 * table: rows, loading flag, pagination meta of the last response, page,
 * page size, column filters and the create/edit dialog. The three pages
 * hold the same fields and update them the same way.
 */
module Pagination {
  import opened Wrappers
  import opened SearchParams

  /** `meta.pagination` of a list response. */
  datatype Meta = Meta(page: int, pageSize: int, pageCount: nat, total: nat)

  /** `meta?.pageCount || 1`: the page count, or 1 when unknown or zero. */
  function PageCountOr1(meta: Option<Meta>): (n: int)
    ensures n >= 1
    ensures meta.Some? && meta.value.pageCount > 0 ==> n == meta.value.pageCount
    ensures meta.None? || meta.value.pageCount == 0 ==> n == 1
  {
    if meta.Some? && meta.value.pageCount != 0 then meta.value.pageCount else 1
  }

  /** The "‹" button: one page back, never below 1. */
  function PrevPage(page: int): (p: int)
    ensures p >= 1
    ensures page > 1 ==> p == page - 1
    ensures page <= 1 ==> p == 1
  {
    if page - 1 > 1 then page - 1 else 1
  }

  /** The "›" button: one page on, never past the last page. */
  function NextPage(page: int, meta: Option<Meta>): (p: int)
    requires page >= 1
    ensures 1 <= p <= PageCountOr1(meta) && p <= page + 1
    ensures page < PageCountOr1(meta) ==> p == page + 1
    ensures page >= PageCountOr1(meta) ==> p == PageCountOr1(meta)
  {
    if page + 1 < PageCountOr1(meta) then page + 1 else PageCountOr1(meta)
  }

  /** "«" and "‹" are disabled on page 1. */
  predicate BackDisabled(page: int) {
    page == 1
  }

  /** "›" and "»" are disabled when the page equals `meta?.pageCount`, never while meta is unknown. */
  predicate ForwardDisabled(page: int, meta: Option<Meta>) {
    meta.Some? && page == meta.value.pageCount
  }

  /** The back buttons are disabled exactly when "‹" would not move. */
  lemma BackDisabledIffStuck(page: int)
    requires page >= 1
    ensures BackDisabled(page) <==> PrevPage(page) == page
  {
  }

  /** Within the known pages, the forward buttons are disabled exactly when "›" would not move. */
  lemma ForwardDisabledIffStuck(page: int, meta: Option<Meta>)
    requires meta.Some? && 1 <= page <= meta.value.pageCount
    ensures ForwardDisabled(page, meta) <==> NextPage(page, meta) == page
    ensures ForwardDisabled(page, meta) <==> page == PageCountOr1(meta)
  {
  }

  /** The line under the table: nothing before the first response, "No rows", or "Showing a to b of n rows". */
  datatype RowsSummary = Hidden | NoRows | Showing(from: int, to: int, total: nat)

  function Summary(meta: Option<Meta>, rowCount: nat): (r: RowsSummary)
    ensures meta.None? <==> r.Hidden?
    ensures meta.Some? && rowCount == 0 <==> r.NoRows?
    ensures r.Showing? ==> r.to - r.from + 1 == rowCount && r.total == meta.value.total
    ensures r.Showing? ==> r.from - 1 == (meta.value.page - 1) * meta.value.pageSize
  {
    match meta
    case None => Hidden
    case Some(m) =>
      if rowCount == 0 then NoRows
      else
        var first := (m.page - 1) * m.pageSize;
        Showing(first + 1, first + rowCount, m.total)
  }

  /** With a full page of `pageSize` rows, page k shows rows (k-1)*size+1 to k*size. */
  lemma SummaryOfFullPage(m: Meta, k: int)
    requires m.page == k && m.pageSize >= 1
    ensures Summary(Some(m), m.pageSize) == Showing((k - 1) * m.pageSize + 1, k * m.pageSize, m.total)
  {
  }

  /** `filters[key]`, where a key the record does not hold reads as "" (falsy). */
  function FilterValue(filters: map<string, string>, key: string): string {
    if key in filters then filters[key] else ""
  }

  /** The table state of one list page, over its row type `T`. */
  class ListPage<T> {
    var rows: seq<T>
    var loading: bool
    var meta: Option<Meta>
    var page: int
    var pageSize: int
    var filters: map<string, string>
    var dialogOpen: bool
    var selected: Option<T>

    /** The page number never drops below 1. */
    ghost predicate Valid()
      reads this
    {
      page >= 1
    }

    /** The initial state: no rows yet, loading, page 1 of 10 rows, every filter empty, dialog closed. */
    constructor(filterKeys: set<string>)
      ensures Valid()
      ensures rows == [] && loading && meta == None
      ensures page == 1 && pageSize == 10
      ensures filters == map k | k in filterKeys :: ""
      ensures !dialogOpen && selected == None
    {
      rows := [];
      loading := true;
      meta := None;
      page := 1;
      pageSize := 10;
      filters := map k | k in filterKeys :: "";
      dialogOpen := false;
      selected := None;
    }

    /** A column filter changed: store it and go back to page 1. */
    method HandleFilterChange(key: string, value: string)
      modifies this
      ensures Valid()
      ensures filters == old(filters)[key := value] && page == 1
      ensures rows == old(rows) && loading == old(loading) && meta == old(meta) && pageSize == old(pageSize)
      ensures dialogOpen == old(dialogOpen) && selected == old(selected)
    {
      filters := filters[key := value];
      page := 1;
    }

    /** A new page size was chosen: store it and go back to page 1. */
    method HandlePageSizeChange(size: int)
      modifies this
      ensures Valid()
      ensures pageSize == size && page == 1
      ensures rows == old(rows) && loading == old(loading) && meta == old(meta) && filters == old(filters)
      ensures dialogOpen == old(dialogOpen) && selected == old(selected)
    {
      pageSize := size;
      page := 1;
    }

    /** "«". */
    method GoFirst()
      modifies this
      ensures Valid() && page == 1
      ensures rows == old(rows) && loading == old(loading) && meta == old(meta)
      ensures pageSize == old(pageSize) && filters == old(filters)
      ensures dialogOpen == old(dialogOpen) && selected == old(selected)
    {
      page := 1;
    }

    /** "‹". */
    method GoPrev()
      modifies this
      ensures Valid() && page == PrevPage(old(page))
      ensures rows == old(rows) && loading == old(loading) && meta == old(meta)
      ensures pageSize == old(pageSize) && filters == old(filters)
      ensures dialogOpen == old(dialogOpen) && selected == old(selected)
    {
      page := PrevPage(page);
    }

    /** "›". */
    method GoNext()
      requires Valid()
      modifies this
      ensures Valid() && page == NextPage(old(page), old(meta))
      ensures rows == old(rows) && loading == old(loading) && meta == old(meta)
      ensures pageSize == old(pageSize) && filters == old(filters)
      ensures dialogOpen == old(dialogOpen) && selected == old(selected)
    {
      page := NextPage(page, meta);
    }

    /** "»". */
    method GoLast()
      modifies this
      ensures Valid() && page == PageCountOr1(old(meta))
      ensures rows == old(rows) && loading == old(loading) && meta == old(meta)
      ensures pageSize == old(pageSize) && filters == old(filters)
      ensures dialogOpen == old(dialogOpen) && selected == old(selected)
    {
      page := PageCountOr1(meta);
    }

    /** A fetch starts. */
    method BeginFetch()
      modifies this
      ensures loading
      ensures rows == old(rows) && meta == old(meta) && page == old(page)
      ensures pageSize == old(pageSize) && filters == old(filters)
      ensures dialogOpen == old(dialogOpen) && selected == old(selected)
    {
      loading := true;
    }

    /** A fetch answered: its rows and pagination meta replace the old ones and loading ends. */
    method FetchSucceeded(data: seq<T>, m: Meta)
      modifies this
      ensures rows == data && meta == Some(m) && !loading
      ensures page == old(page) && pageSize == old(pageSize) && filters == old(filters)
      ensures dialogOpen == old(dialogOpen) && selected == old(selected)
    {
      rows := data;
      meta := Some(m);
      loading := false;
    }

    /** A fetch failed: the previous rows and meta stay and loading ends. */
    method FetchFailed()
      modifies this
      ensures !loading
      ensures rows == old(rows) && meta == old(meta) && page == old(page)
      ensures pageSize == old(pageSize) && filters == old(filters)
      ensures dialogOpen == old(dialogOpen) && selected == old(selected)
    {
      loading := false;
    }

    /** The create button: open the dialog with nothing selected. */
    method OpenCreate()
      modifies this
      ensures dialogOpen && selected == None
      ensures rows == old(rows) && loading == old(loading) && meta == old(meta)
      ensures page == old(page) && pageSize == old(pageSize) && filters == old(filters)
    {
      selected := None;
      dialogOpen := true;
    }

    /** The edit action of a row: open the dialog on that row. */
    method OpenEdit(item: T)
      modifies this
      ensures dialogOpen && selected == Some(item)
      ensures rows == old(rows) && loading == old(loading) && meta == old(meta)
      ensures page == old(page) && pageSize == old(pageSize) && filters == old(filters)
    {
      selected := Some(item);
      dialogOpen := true;
    }

    /** The dialog's own open/close requests. */
    method SetDialogOpen(open: bool)
      modifies this
      ensures dialogOpen == open && selected == old(selected)
      ensures rows == old(rows) && loading == old(loading) && meta == old(meta)
      ensures page == old(page) && pageSize == old(pageSize) && filters == old(filters)
    {
      dialogOpen := open;
    }

    /**
     * The form saved (`onSuccess`): close the dialog and fetch again, so the
     * list is loading with the same page, page size and filters.
     */
    method DialogSucceeded()
      modifies this
      ensures !dialogOpen && selected == old(selected)
      ensures loading
      ensures rows == old(rows) && meta == old(meta)
      ensures page == old(page) && pageSize == old(pageSize) && filters == old(filters)
    {
      dialogOpen := false;
      BeginFetch();
    }
  }

  /** The outcome of a row's delete action. */
  datatype DeleteOutcome =
    | Cancelled
    | Deleted(path: string, refetch: Entries, message: string)
    | DeleteFailed(path: string, message: string)
}

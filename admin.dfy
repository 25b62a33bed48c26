/**
 * The admin list table of activity records (includes/admin.php): the
 * columns it shows, which of them sort, and the adapter that turns the
 * abstract sort keys `severity`, `username` and `when` into native
 * WP_Query ordering fields.
 */
module Admin {
  import opened Php

  /** The value of one WP_Query variable: a single string or a list of strings. */
  datatype QueryVar = Str(s: string) | Arr(items: seq<string>)

  type QueryVars = map<string, QueryVar>

  function Lookup(vars: QueryVars, key: string): Option<QueryVar> {
    if key in vars then Some(vars[key]) else None
  }

  /** PHP's `empty()` on a query variable that may be absent. */
  predicate IsEmptyVar(v: Option<QueryVar>) {
    match v
    case None => true
    case Some(Str(s)) => s == "" || s == "0"
    case Some(Arr(items)) => items == []
  }

  /** PHP's `(array)` cast: a string becomes a one-element list. */
  function AsArray(v: QueryVar): seq<string> {
    match v
    case Str(s) => [s]
    case Arr(items) => items
  }

  /** The requested post type is non-empty and lists `activity`. */
  predicate IsActivityQuery(query: QueryVars) {
    !IsEmptyVar(Lookup(query, "post_type")) && "activity" in AsArray(query["post_type"])
  }

  /** The part of WP_Query the adapter touches. */
  class Query {
    /** The arguments the query was made with (`WP_Query::$query`). */
    var query: QueryVars
    /** The parsed query variables (`WP_Query::$query_vars`), which `set` writes. */
    var queryVars: QueryVars

    constructor (query: QueryVars, queryVars: QueryVars)
      ensures this.query == query && this.queryVars == queryVars
    {
      this.query := query;
      this.queryVars := queryVars;
    }

    /** `WP_Query::set`: one variable takes the given value, the others keep theirs. */
    method Set(key: string, value: QueryVar)
      modifies this`queryVars
      ensures queryVars == old(queryVars)[key := value]
    {
      queryVars := queryVars[key := value];
    }
  }

  const DefaultOrder := "DESC"

  /**
   * The `order` the adapter sets, as the code is written: the guard on line
   * 93 tests the default 'DESC' instead of the lower-cased request value,
   * and 'DESC' is never one of 'asc' and 'desc', so any non-empty request
   * value is taken lower-cased and unchecked.
   */
  function RequestedOrder(requestOrder: Option<string>): (order: string)
    ensures order == "DESC" <==> IsEmptyString(requestOrder)
    ensures !IsEmptyString(requestOrder) ==> order == ToLower(requestOrder.value)
  {
    if IsEmptyString(requestOrder) then DefaultOrder
    else
      var newOrder := ToLower(requestOrder.value);
      if DefaultOrder !in ["asc", "desc"] then newOrder else DefaultOrder
  }

  /** `ASC` in the request becomes `asc`, `Desc` becomes `desc`. */
  lemma RequestedOrderNormalisesCase()
    ensures RequestedOrder(Some("ASC")) == "asc"
    ensures RequestedOrder(Some("Desc")) == "desc"
  {
  }

  /**
   * The defect of line 93, on one input: the request order `foo` is set as
   * the query's order, although it is neither a direction nor the default;
   * the corrected normalisation falls back to 'DESC' for it.
   */
  lemma RequestedOrderAcceptsAnyValue()
    ensures RequestedOrder(Some("foo")) == "foo"
    ensures RequestedOrder(Some("foo")) !in {"asc", "desc", "DESC"}
    ensures IntendedOrder(Some("foo")) == "DESC"
  {
  }

  /**
   * The order lines 88-96 evidently mean to compute: a request value that
   * is 'asc' or 'desc' in any case is taken lower-cased, anything else
   * keeps the default 'DESC'.
   */
  function IntendedOrder(requestOrder: Option<string>): (order: string)
    ensures order in {"asc", "desc", "DESC"}
    ensures !IsEmptyString(requestOrder) && ToLower(requestOrder.value) in {"asc", "desc"} ==>
              order == ToLower(requestOrder.value)
    ensures (IsEmptyString(requestOrder) || ToLower(requestOrder.value) !in {"asc", "desc"}) ==>
              order == DefaultOrder
  {
    if IsEmptyString(requestOrder) then DefaultOrder
    else
      var newOrder := ToLower(requestOrder.value);
      if newOrder in ["asc", "desc"] then newOrder else DefaultOrder
  }

  /** The native WP_Query field that the requested `orderby` selects (the switch of lines 99-119). */
  function NativeOrderby(orderby: Option<QueryVar>): (field: string)
    ensures field == "post_status" <==> orderby == Some(Str("severity"))
    ensures field == "post_author" <==> orderby == Some(Str("username"))
    ensures field == "post_date" <==> orderby != Some(Str("severity")) && orderby != Some(Str("username"))
  {
    if orderby == Some(Str("severity")) then "post_status"
    else if orderby == Some(Str("username")) then "post_author"
    else "post_date"
  }

  /**
   * The query variables after the adapter has run on a query made with
   * `query`: unchanged unless it is an activity query, and otherwise
   * `order` and `orderby` set and nothing else changed.
   */
  function SortedVars(query: QueryVars, vars: QueryVars, requestOrder: Option<string>): (r: QueryVars)
    ensures !IsActivityQuery(query) ==> r == vars
    ensures IsActivityQuery(query) ==>
              && r.Keys == vars.Keys + {"order", "orderby"}
              && r["order"] == Str(RequestedOrder(requestOrder))
              && r["orderby"] == Str(NativeOrderby(Lookup(query, "orderby")))
              && forall k :: k in vars && k != "order" && k != "orderby" ==> r[k] == vars[k]
  {
    if !IsActivityQuery(query) then vars
    else vars["order" := Str(RequestedOrder(requestOrder))]
             ["orderby" := Str(NativeOrderby(Lookup(query, "orderby")))]
  }

  /**
   * `wp_user_activity_maybe_sort_by_fields`: on an activity query, sets the
   * order taken from the request and the native field for the requested
   * sort key; on any other query, does nothing.
   */
  method MaybeSortByFields(wpQuery: Query, requestOrder: Option<string>)
    modifies wpQuery`queryVars
    ensures wpQuery.queryVars == SortedVars(wpQuery.query, old(wpQuery.queryVars), requestOrder)
  {
    if IsEmptyVar(Lookup(wpQuery.query, "post_type")) || "activity" !in AsArray(wpQuery.query["post_type"]) {
      return;
    }

    var order := DefaultOrder;
    if !IsEmptyString(requestOrder) {
      var newOrder := ToLower(requestOrder.value);
      if order !in ["asc", "desc"] {
        order := newOrder;
      }
    }

    var orderby := Lookup(wpQuery.query, "orderby");
    if orderby == Some(Str("severity")) {
      wpQuery.Set("order", Str(order));
      wpQuery.Set("orderby", Str("post_status"));
    } else if orderby == Some(Str("username")) {
      wpQuery.Set("order", Str(order));
      wpQuery.Set("orderby", Str("post_author"));
    } else {
      wpQuery.Set("order", Str(order));
      wpQuery.Set("orderby", Str("post_date"));
    }
  }

  /** The header of the bulk-selection column. */
  const CheckboxHeader := "<input type=\"checkbox\" />"

  /** The header of the severity column: a screen-reader label and a shield icon. */
  const SeverityHeader := "<span class=\"screen-reader-text\">Severity</span><span class=\"dashicons dashicons-shield\" title=\"Severity\"></span>"

  /** `wp_user_activity_manage_posts_columns` before its filter: the given columns are replaced. */
  function ManagePostsColumns(columns: Assoc): (r: Assoc)
    ensures Keys(r) == ["cb", "severity", "username", "when"]
  {
    [ ("cb", CheckboxHeader),
      ("severity", SeverityHeader),
      ("username", "Action"),
      ("when", "Date") ]
  }

  /** `wp_user_activity_list_table_primary_column` */
  function PrimaryColumn(name: string, screenId: string): (r: string)
    ensures screenId == "edit-activity" ==> r == "username"
    ensures screenId != "edit-activity" ==> r == name
  {
    if screenId == "edit-activity" then "username" else name
  }

  /** `wp_user_activity_sortable_columns`: each sortable column sorts by its own key. */
  function SortableColumns(columns: Assoc): (r: Assoc)
    ensures Keys(r) == ["severity", "username", "when"]
    ensures forall i :: 0 <= i < |r| ==> r[i].1 == r[i].0
  {
    [("severity", "severity"), ("username", "username"), ("when", "when")]
  }

  /** `wp_user_activity_disable_months_dropdown` */
  function DisableMonthsDropdown(disabled: bool, postType: string): (r: bool)
    ensures postType == "activity" ==> r
    ensures postType != "activity" ==> r == disabled
  {
    if postType == "activity" then true else disabled
  }

  /** The native field each entry of a list of sortable columns sorts by. */
  function NativeFields(columns: Assoc): (fields: seq<string>)
    ensures |fields| == |columns|
    ensures forall i :: 0 <= i < |columns| ==> fields[i] == NativeOrderby(Some(Str(columns[i].1)))
  {
    if columns == [] then [] else [NativeOrderby(Some(Str(columns[0].1)))] + NativeFields(columns[1..])
  }

  /** Every sortable column is a column of the table (`cb`, the checkbox, is the one that does not sort). */
  lemma SortableColumnsAreShown(columns: Assoc, shown: Assoc)
    ensures forall k :: k in Keys(SortableColumns(columns)) ==> k in Keys(ManagePostsColumns(shown))
    ensures "cb" in Keys(ManagePostsColumns(shown)) && "cb" !in Keys(SortableColumns(columns))
  {
    var sortable, table := Keys(SortableColumns(columns)), Keys(ManagePostsColumns(shown));
    assert table == ["cb"] + sortable;
  }

  /** The three sortable columns sort by three different native fields: status, author, date. */
  lemma SortableColumnsSortNatively(columns: Assoc)
    ensures NativeFields(SortableColumns(columns)) == ["post_status", "post_author", "post_date"]
  {
  }
}

/** The values the walker computes for parse-tree nodes and the abstract
    request and connection records it hands to the search client. */
module Values {
  import opened Wrappers

  /** The exceptions that abort the evaluation of a statement. */
  datatype Error =
    | NumberFormat(text: string)          // Integer.parseInt rejected the token
    | SortIndexOutOfBounds(index: nat)    // more directions than keys in a sort clause
    | NullSortOrder(key: string)          // a sort entry whose direction was never set
    | NotConnected                        // a query before any connect statement

  /** A transport endpoint. */
  datatype HostPort = HostPort(host: string, port: int)

  /** The direction of one sort key. */
  datatype Order = Ascending | Descending | Unspecified

  /** One entry of a sort clause; `orderBy` is `None` while the entry's
      direction has not been set (a null field). */
  datatype QuerySort = QuerySort(key: string, orderBy: Option<Order>)

  /** Pagination of a return clause. */
  datatype Return = Return(size: Option<int>, lower: Option<int>, upper: Option<int>)

  /** The value a term filter compares against. */
  datatype TermValue = IntTerm(i: int) | StringTerm(s: string)

  /** A compiled filter. `NullRef` is the null filter reference that a
      predicate holds when its rest clause produced no value. */
  datatype Filter =
    | Term(field: string, value: TermValue)
    | And(children: seq<Filter>)
    | Or(children: seq<Filter>)
    | NullRef

  /** The backend's sort order. */
  datatype SortOrder = Asc | Desc

  /** The backend query: match everything, optionally restricted by a filter. */
  datatype Query = MatchAll | Filtered(base: Query, filter: Filter)

  /** The abstract search request assembled for one query statement. */
  datatype SearchRequest = SearchRequest(
    index: string,
    query: Query,
    fields: seq<string>,
    size: Option<int>,
    from: Option<int>,
    sorts: seq<(string, SortOrder)>)

  /** An entry of the walker's node-keyed attribute table. */
  datatype Value =
    | HostPortValue(hp: HostPort)
    | OrderValue(order: Order)
    | ReturnValue(ret: Return)
    | FilterValue(filter: Filter)
    | SortsValue(sorts: seq<QuerySort>)
    | FieldsValue(fields: seq<string>)
}

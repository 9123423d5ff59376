/** The leaf and clause evaluators: the values `exitHostport`,
    `exitAscdesc`, `exitReturn_stmt` and `exitSort_stmt` store for their
    nodes, as pure functions of the token text and the children's values. */
module Clauses {
  import opened Wrappers
  import opened Values
  import opened Literals
  import opened Syntax

  /** A `host:port` pair, the port parsed as a Java `int`. */
  function EvalHostport(h: Hostport): (r: Result<HostPort, Error>)
    ensures r.Ok? <==> ParseInt(h.port).Ok?
    ensures r.Ok? ==> r.value.host == h.host && Ok(r.value.port) == ParseInt(h.port)
    ensures r.Err? ==> r.error == NumberFormat(h.port)
  {
    var port :- ParseInt(h.port);
    Ok(HostPort(h.host, port))
  }

  /** A direction marker: `asc` wins over `desc`; with neither, unspecified. */
  function AscdescOrder(a: Ascdesc): (o: Order)
    ensures o == Ascending <==> a.asc
    ensures o == Descending <==> !a.asc && a.desc
    ensures o == Unspecified <==> !a.asc && !a.desc
  {
    if a.asc then Ascending else if a.desc then Descending else Unspecified
  }

  /** An optional integer token, parsed when present. */
  function ParseOptional(t: Option<string>): (r: Result<Option<int>, Error>)
    ensures t.None? ==> r == Ok(None)
    ensures t.Some? ==> match ParseInt(t.value)
                        case Ok(i) => r == Ok(Some(i))
                        case Err(e) => r == Err(e)
  {
    match t
    case None => Ok(None)
    case Some(s) =>
      var i :- ParseInt(s);
      Ok(Some(i))
  }

  /** A return clause: the size and the lower offset, each set exactly when
      its token is present and parsed on its own; the upper bound is never
      set. The size token is parsed first. */
  function EvalReturn(rs: ReturnStmt): (r: Result<Return, Error>)
    ensures r.Ok? ==> r.value.upper == None
    ensures r.Ok? ==> (r.value.size.Some? <==> rs.size.Some?) && (r.value.lower.Some? <==> rs.lower.Some?)
    ensures r.Ok? && rs.size.Some? ==> ParseInt(rs.size.value) == Ok(r.value.size.value)
    ensures r.Ok? && rs.lower.Some? ==> ParseInt(rs.lower.value) == Ok(r.value.lower.value)
    ensures r.Err? <==> (rs.size.Some? && ParseInt(rs.size.value).Err?) ||
                        (rs.lower.Some? && ParseInt(rs.lower.value).Err?)
    ensures r.Err? && rs.size.Some? && ParseInt(rs.size.value).Err? ==> r.error == NumberFormat(rs.size.value)
  {
    var size :- ParseOptional(rs.size);
    var lower :- ParseOptional(rs.lower);
    Ok(Return(size, lower, None))
  }

  /** Keys paired with directions by position; a key past the last
      direction keeps an unset direction. */
  function Zip(keys: seq<string>, dirs: seq<Order>): (r: seq<QuerySort>)
    ensures |r| == |keys|
    ensures forall i :: 0 <= i < |keys| ==> r[i].key == keys[i]
  {
    if keys == [] then []
    else [QuerySort(keys[0], if dirs == [] then None else Some(dirs[0]))] +
         Zip(keys[1..], if dirs == [] then [] else dirs[1..])
  }

  /** Entry `i` of the zip holds the `i`-th key and, if there is one, the
      `i`-th direction. */
  lemma {:induction false} ZipAt(keys: seq<string>, dirs: seq<Order>, i: nat)
    requires i < |keys|
    ensures Zip(keys, dirs)[i] == QuerySort(keys[i], if i < |dirs| then Some(dirs[i]) else None)
  {
    if i > 0 {
      ZipAt(keys[1..], if dirs == [] then [] else dirs[1..], i - 1);
    }
  }

  /** The sort list of a sort clause: one entry per key. A direction with
      no key of its own indexes past the end of the entries. */
  function SortList(keys: seq<string>, dirs: seq<Order>): (r: Result<seq<QuerySort>, Error>)
    ensures r.Ok? <==> |dirs| <= |keys|
    ensures r.Err? ==> r.error == SortIndexOutOfBounds(|keys|)
    ensures r.Ok? ==> |r.value| == |keys| && forall i :: 0 <= i < |keys| ==> r.value[i].key == keys[i]
  {
    if |dirs| > |keys| then Err(SortIndexOutOfBounds(|keys|)) else Ok(Zip(keys, dirs))
  }

  /** The directions of a sort clause's markers, in order. */
  function SortOrders(ads: seq<Ascdesc>): (r: seq<Order>)
    ensures |r| == |ads| && forall i :: 0 <= i < |ads| ==> r[i] == AscdescOrder(ads[i])
  {
    seq(|ads|, i requires 0 <= i < |ads| => AscdescOrder(ads[i]))
  }

  /** A sort clause: its keys paired with its markers' directions. */
  function EvalSortStmt(s: SortStmt): (r: Result<seq<QuerySort>, Error>)
    ensures r.Ok? <==> |s.sorts| <= |s.keys|
    ensures r.Ok? ==> |r.value| == |s.keys|
  {
    SortList(s.keys, SortOrders(s.sorts))
  }

  /** A sort clause has exactly one entry per key, in key order, entry `i`
      taking the `i`-th direction; it fails exactly when there are more
      directions than keys. */
  lemma SortStmtEntries(s: SortStmt)
    ensures EvalSortStmt(s).Ok? <==> |s.sorts| <= |s.keys|
    ensures EvalSortStmt(s).Err? ==> EvalSortStmt(s).error == SortIndexOutOfBounds(|s.keys|)
    ensures EvalSortStmt(s).Ok? ==>
      var l := EvalSortStmt(s).value;
      |l| == |s.keys| &&
      forall i :: 0 <= i < |l| ==>
        l[i].key == s.keys[i] &&
        l[i].orderBy == (if i < |s.sorts| then Some(AscdescOrder(s.sorts[i])) else None)
  {
    var dirs := SortOrders(s.sorts);
    forall i | 0 <= i < |s.keys|
      ensures Zip(s.keys, dirs)[i] == QuerySort(s.keys[i], if i < |dirs| then Some(dirs[i]) else None)
    {
      ZipAt(s.keys, dirs, i);
    }
  }
}

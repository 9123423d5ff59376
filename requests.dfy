/** Request assembly and connection set-up as pure functions: what
    `exitQuery_stmt` and `exitConnect_stmt` hand to the search client, and
    the effect of a whole script on the current client. */
module Requests {
  import opened Wrappers
  import opened Values
  import opened Literals
  import opened Syntax
  import opened Filters
  import opened Clauses

  /** The sorts the request builder receives: ascending and descending
      entries in list order, unspecified ones skipped; switching on an
      entry whose direction was never set fails. */
  function ApplySorts(l: seq<QuerySort>): (r: Result<seq<(string, SortOrder)>, Error>)
    ensures r.Err? ==> exists i :: 0 <= i < |l| && l[i].orderBy == None && r.error == NullSortOrder(l[i].key)
    ensures r.Ok? ==> |r.value| <= |l|
  {
    if l == [] then Ok([])
    else
      var prev :- ApplySorts(l[..|l| - 1]);
      var e := l[|l| - 1];
      match e.orderBy
      case None => Err(NullSortOrder(e.key))
      case Some(Ascending) => Ok(prev + [(e.key, Asc)])
      case Some(Descending) => Ok(prev + [(e.key, Desc)])
      case Some(Unspecified) => Ok(prev)
  }

  /** The query of a request: match-all, wrapped in a filtered query only
      when there is a filter. */
  function BaseQuery(filter: Option<Filter>): (q: Query)
    ensures filter.None? <==> q == MatchAll
    ensures filter.Some? ==> q == Filtered(MatchAll, filter.value)
  {
    if filter.Some? then Filtered(MatchAll, filter.value) else MatchAll
  }

  /** The request for a target key from the clause values of a query. */
  function BuildRequest(key: string, filter: Option<Filter>, fields: Option<seq<string>>,
                        ret: Option<Return>, sorts: Option<seq<QuerySort>>): (r: Result<SearchRequest, Error>)
    ensures r.Ok? <==> (sorts.Some? ==> ApplySorts(sorts.value).Ok?)
    ensures r.Err? ==> sorts.Some? && r.error == ApplySorts(sorts.value).error
    ensures r.Ok? ==>
      && r.value.index == key && r.value.query == BaseQuery(filter)
      && r.value.fields == (if fields.Some? then fields.value else [])
      && r.value.size == (if ret.Some? then ret.value.size else None)
      && r.value.from == (if ret.Some? then ret.value.lower else None)
      && r.value.sorts == (if sorts.Some? then ApplySorts(sorts.value).value else [])
  {
    var applied :- if sorts.Some? then ApplySorts(sorts.value) else Ok([]);
    Ok(SearchRequest(
      key,
      BaseQuery(filter),
      if fields.Some? then fields.value else [],
      if ret.Some? then ret.value.size else None,
      if ret.Some? then ret.value.lower else None,
      applied))
  }

  function OptFilter(f: Option<FilterStmt>): Result<Option<Filter>, Error>
  {
    if f.None? then Ok(None) else var v :- CompileFilterStmt(f.value); Ok(Some(v))
  }

  function OptReturn(r: Option<ReturnStmt>): Result<Option<Return>, Error>
  {
    if r.None? then Ok(None) else var v :- EvalReturn(r.value); Ok(Some(v))
  }

  function OptSort(s: Option<SortStmt>): Result<Option<seq<QuerySort>>, Error>
  {
    if s.None? then Ok(None) else var v :- EvalSortStmt(s.value); Ok(Some(v))
  }

  function OptFields(l: Option<FieldList>): Option<seq<string>>
  {
    if l.None? then None else Some(l.value.fields)
  }

  /** A query statement: its clauses are evaluated first (filter, field
      list, return, sort), then the connection is checked, then the request
      is built. */
  function EvalQueryStmt(connected: bool, q: QueryStmt): (r: Result<SearchRequest, Error>)
    ensures EvalClauses(q).Err? ==> r == Err(EvalClauses(q).error)
    ensures EvalClauses(q).Ok? && !connected ==> r == Err(NotConnected)
    ensures r.Ok? ==> connected && r.value.index == q.key
  {
    var c :- EvalClauses(q);
    if !connected then Err(NotConnected)
    else BuildRequest(q.key, c.filter, OptFields(q.fieldList), c.ret, c.sorts)
  }

  /** The values of a query statement's clauses that can fail. */
  datatype ClauseValues = ClauseValues(filter: Option<Filter>, ret: Option<Return>, sorts: Option<seq<QuerySort>>)

  /** The clauses of a query statement, evaluated in textual order: the
      filter, the return clause, the sort clause; the first failure wins. */
  function EvalClauses(q: QueryStmt): (r: Result<ClauseValues, Error>)
    ensures r.Ok? <==> OptFilter(q.filter).Ok? && OptReturn(q.ret).Ok? && OptSort(q.sort).Ok?
    ensures OptFilter(q.filter).Err? ==> r == Err(OptFilter(q.filter).error)
    ensures r.Ok? ==> && (r.value.filter.Some? <==> q.filter.Some?)
                      && (r.value.ret.Some? <==> q.ret.Some?)
                      && (r.value.sorts.Some? <==> q.sort.Some?)
  {
    var filter :- OptFilter(q.filter);
    var ret :- OptReturn(q.ret);
    var sorts :- OptSort(q.sort);
    Ok(ClauseValues(filter, ret, sorts))
  }

  /** The configuration of a connection: cluster name and endpoints. */
  datatype Connection = Connection(clusterName: Option<string>, endpoints: seq<HostPort>)

  /** The endpoints of a list of host:port pairs, in order; the first
      port that does not parse fails the list. */
  function EvalHostports(hps: seq<Hostport>): (r: Result<seq<HostPort>, Error>)
    ensures r.Ok? ==> |r.value| == |hps| && forall i :: 0 <= i < |hps| ==> r.value[i].host == hps[i].host
    ensures r.Err? ==> exists i :: 0 <= i < |hps| && r.error == NumberFormat(hps[i].port)
  {
    if hps == [] then Ok([])
    else
      var prev :- EvalHostports(hps[..|hps| - 1]);
      var hp :- EvalHostport(hps[|hps| - 1]);
      Ok(prev + [hp])
  }

  /** A connect statement: its host:port pairs are evaluated first. */
  function EvalConnectStmt(c: ConnectStmt): (r: Result<Connection, Error>)
    ensures r.Ok? ==> r.value.clusterName == c.clusterName && |r.value.endpoints| == |c.hps|
    ensures r.Err? ==> exists i :: 0 <= i < |c.hps| && r.error == NumberFormat(c.hps[i].port)
  {
    var eps :- EvalHostports(c.hps);
    Ok(Connection(c.clusterName, eps))
  }

  lemma {:induction false} HostportsAt(hps: seq<Hostport>)
    ensures EvalHostports(hps).Ok? <==> forall i :: 0 <= i < |hps| ==> ParseInt(hps[i].port).Ok?
    ensures EvalHostports(hps).Ok? ==>
      var eps := EvalHostports(hps).value;
      |eps| == |hps| &&
      forall i :: 0 <= i < |hps| ==> eps[i] == HostPort(hps[i].host, ParseInt(hps[i].port).value)
  {
    if hps != [] {
      var pre := hps[..|hps| - 1];
      HostportsAt(pre);
      assert forall i :: 0 <= i < |pre| ==> pre[i] == hps[i];
    }
  }

  /** A connect statement yields exactly one endpoint per host:port pair,
      in declaration order, with the port parsed as an integer, and the
      cluster name exactly when one is given; it fails exactly when some
      port does not parse. */
  lemma ConnectEndpoints(c: ConnectStmt)
    ensures EvalConnectStmt(c).Ok? <==> forall i :: 0 <= i < |c.hps| ==> ParseInt(c.hps[i].port).Ok?
    ensures EvalConnectStmt(c).Ok? ==>
      var conn := EvalConnectStmt(c).value;
      conn.clusterName == c.clusterName && |conn.endpoints| == |c.hps| &&
      forall i :: 0 <= i < |c.hps| ==>
        conn.endpoints[i] == HostPort(c.hps[i].host, ParseInt(c.hps[i].port).value)
  {
    HostportsAt(c.hps);
  }

  lemma {:induction false} ApplySortsOk(l: seq<QuerySort>)
    ensures ApplySorts(l).Ok? <==> forall i :: 0 <= i < |l| ==> l[i].orderBy.Some?
  {
    if l != [] {
      var pre := l[..|l| - 1];
      ApplySortsOk(pre);
      assert forall i :: 0 <= i < |pre| ==> pre[i] == l[i];
    }
  }

  /** A sort entry whose direction is ascending or descending. */
  predicate Directed(e: QuerySort)
  {
    e.orderBy == Some(Ascending) || e.orderBy == Some(Descending)
  }

  /** When every entry is ascending or descending, each is applied, one for
      one and in list order. */
  lemma {:induction false} ApplySortsAllDirected(l: seq<QuerySort>)
    requires forall i :: 0 <= i < |l| ==> Directed(l[i])
    ensures ApplySorts(l).Ok?
    ensures var a := ApplySorts(l).value;
      |a| == |l| && forall i :: 0 <= i < |l| ==> a[i] == (l[i].key, if l[i].orderBy == Some(Ascending) then Asc else Desc)
  {
    if l != [] {
      var pre := l[..|l| - 1];
      assert forall i :: 0 <= i < |pre| ==> pre[i] == l[i];
      ApplySortsAllDirected(pre);
    }
  }

  /** An unspecified entry contributes nothing, wherever it stands. */
  lemma {:induction false} ApplySortsSkipsUnspecified(l: seq<QuerySort>, k: string, m: seq<QuerySort>)
    ensures ApplySorts(l + [QuerySort(k, Some(Unspecified))] + m) == ApplySorts(l + m)
    decreases |m|
  {
    var a := l + [QuerySort(k, Some(Unspecified))] + m;
    if m == [] {
      assert a[..|a| - 1] == l && l + m == l;
    } else {
      var m' := m[..|m| - 1];
      ApplySortsSkipsUnspecified(l, k, m');
      assert a[..|a| - 1] == l + [QuerySort(k, Some(Unspecified))] + m';
      assert (l + m)[..|l + m| - 1] == l + m';
      assert a[|a| - 1] == (l + m)[|l + m| - 1];
    }
  }

  /** A sort clause with one ascending or descending marker per key reaches
      the request as exactly those keys and directions, in key order. */
  lemma SortClauseApplied(s: SortStmt)
    requires |s.sorts| == |s.keys|
    requires forall i :: 0 <= i < |s.sorts| ==> s.sorts[i].asc || s.sorts[i].desc
    ensures EvalSortStmt(s).Ok? && ApplySorts(EvalSortStmt(s).value).Ok?
    ensures var a := ApplySorts(EvalSortStmt(s).value).value;
      |a| == |s.keys| &&
      forall i :: 0 <= i < |a| ==> a[i] == (s.keys[i], if s.sorts[i].asc then Asc else Desc)
  {
    SortStmtEntries(s);
    ApplySortsAllDirected(EvalSortStmt(s).value);
  }

  /** Without a connection no request is ever built; once the clauses
      evaluate, the statement fails with NotConnected. */
  lemma QueryNotConnected(q: QueryStmt)
    ensures EvalQueryStmt(false, q).Err?
    ensures OptFilter(q.filter).Ok? && OptReturn(q.ret).Ok? && OptSort(q.sort).Ok? ==>
      EvalQueryStmt(false, q) == Err(NotConnected)
  {
  }

  /** The request of a connected query: the target key; match-all, filtered
      exactly when a filter clause is present; the projected fields; size
      and from only when the return clause gives them; the sort entries. */
  lemma QueryRequest(q: QueryStmt)
    requires EvalQueryStmt(true, q).Ok?
    ensures var req := EvalQueryStmt(true, q).value;
      && req.index == q.key
      && (q.filter.None? ==> req.query == MatchAll)
      && (q.filter.Some? ==> CompilePred(q.filter.value.pred).Ok? &&
                             req.query == Filtered(MatchAll, CompilePred(q.filter.value.pred).value))
      && req.fields == (if q.fieldList.Some? then q.fieldList.value.fields else [])
      && (req.size.Some? <==> q.ret.Some? && q.ret.value.size.Some?)
      && (req.from.Some? <==> q.ret.Some? && q.ret.value.lower.Some?)
      && (req.size.Some? ==> ParseInt(q.ret.value.size.value) == Ok(req.size.value))
      && (req.from.Some? ==> ParseInt(q.ret.value.lower.value) == Ok(req.from.value))
      && (q.sort.None? ==> req.sorts == [])
      && (q.sort.Some? ==> EvalSortStmt(q.sort.value).Ok? &&
                           ApplySorts(EvalSortStmt(q.sort.value).value) == Ok(req.sorts))
  {
  }

  // The effect of a script on the current client.

  /** The observable state of a transport client. */
  datatype ClientState = ClientState(clusterName: Option<string>, endpoints: seq<HostPort>,
                                     executed: seq<SearchRequest>)

  /** One statement: a connect replaces the client, a query executes one
      request on it; a failing statement changes nothing. */
  function RunStmt(st: Option<ClientState>, s: Stmt): (r: (Option<ClientState>, Outcome<Error>))
    ensures r.1.Fail? ==> r.0 == st
    ensures s.Connect? && r.1.Pass? ==>
      r.0.Some? && r.0.value.clusterName == s.connect.clusterName && r.0.value.executed == []
    ensures s.Query? && st.None? ==> r.1.Fail?
    ensures s.Query? && st.Some? ==>
      && r.0.Some? && r.0.value.clusterName == st.value.clusterName
      && r.0.value.endpoints == st.value.endpoints
      && (r.1.Pass? <==> EvalQueryStmt(true, s.query).Ok?)
      && r.0.value.executed == st.value.executed +
           (if EvalQueryStmt(true, s.query).Ok? then [EvalQueryStmt(true, s.query).value] else [])
  {
    match s
    case Connect(c) =>
      (match EvalConnectStmt(c)
       case Ok(conn) => (Some(ClientState(conn.clusterName, conn.endpoints, [])), Pass)
       case Err(e) => (st, Fail(e)))
    case Query(q) =>
      (match st
       case None => (st, ToOutcome(EvalQueryStmt(false, q)))
       case Some(cs) =>
         match EvalQueryStmt(true, q)
         case Ok(req) => (Some(cs.(executed := cs.executed + [req])), Pass)
         case Err(e) => (st, Fail(e)))
  }

  /** A script: statements in order, stopping at the first failure. */
  function RunScript(st: Option<ClientState>, stmts: seq<Stmt>): (r: (Option<ClientState>, Outcome<Error>))
    ensures st.Some? ==> r.0.Some?
    ensures (forall i :: 0 <= i < |stmts| ==> stmts[i].Query?) ==>
      && (st.None? ==> r.0 == None && (r.1.Pass? <==> stmts == []))
      && (st.Some? ==> r.0.value.endpoints == st.value.endpoints && st.value.executed <= r.0.value.executed)
    decreases |stmts|
  {
    if stmts == [] then (st, Pass)
    else
      var (st', o) := RunStmt(st, stmts[0]);
      if o.Fail? then (st', o) else RunScript(st', stmts[1..])
  }

  /** A query before any connect statement fails and leaves no client. */
  lemma QueryBeforeConnect(q: QueryStmt, rest: seq<Stmt>)
    ensures RunScript(None, [Query(q)] + rest).0 == None
    ensures RunScript(None, [Query(q)] + rest).1.Fail?
  {
    QueryNotConnected(q);
    assert ([Query(q)] + rest)[0] == Query(q);
  }

  /** A query on a connected client keeps its cluster name and endpoints
      and keeps the requests executed so far; it adds exactly one executed
      request when it succeeds and none when it fails. */
  lemma {:induction false} ExecutedGrowsByOne(st: Option<ClientState>, s: Stmt)
    requires s.Query? && st.Some?
    ensures var (st', o) := RunStmt(st, s);
      st'.Some? && st'.value.endpoints == st.value.endpoints && st'.value.clusterName == st.value.clusterName &&
      |st'.value.executed| == |st.value.executed| + (if o.Pass? then 1 else 0) &&
      st'.value.executed[..|st.value.executed|] == st.value.executed
  {
    var (st', o) := RunStmt(st, s);
    assert st'.value.executed[..|st.value.executed|] == st.value.executed;
  }

  /** The first port that does not parse decides the error of the list. */
  lemma {:induction false} HostportsFirstErr(hps: seq<Hostport>, i: nat)
    requires i < |hps|
    requires forall j :: 0 <= j < i ==> ParseInt(hps[j].port).Ok?
    requires ParseInt(hps[i].port).Err?
    ensures EvalHostports(hps) == Err(NumberFormat(hps[i].port))
  {
    var pre := hps[..|hps| - 1];
    assert forall j :: 0 <= j < |pre| ==> pre[j] == hps[j];
    if i == |hps| - 1 {
      HostportsAt(pre);
    } else {
      HostportsFirstErr(pre, i);
    }
  }

  /** Once a prefix of a sort list fails, the whole list fails with the
      same error. */
  lemma {:induction false} ApplySortsErrPersists(l: seq<QuerySort>, k: nat)
    requires k <= |l|
    requires ApplySorts(l[..k]).Err?
    ensures ApplySorts(l) == Err(ApplySorts(l[..k]).error)
    decreases |l|
  {
    if k < |l| {
      var pre := l[..|l| - 1];
      assert pre[..k] == l[..k];
      ApplySortsErrPersists(pre, k);
    } else {
      assert l[..k] == l;
    }
  }
}

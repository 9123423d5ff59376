/** The walker itself: the node-keyed attribute table, the exit rule of
    each node kind, and the post-order walk of a script that drives them.
    The search client is a recording stand-in: it keeps its configuration
    and the requests executed on it. */
module Walker {
  import opened Wrappers
  import opened Values
  import opened Literals
  import opened Syntax
  import opened Filters
  import opened Clauses
  import opened Requests

  /** A transport client: cluster name, transport endpoints and the
      requests executed through it. */
  class TransportClient {
    const clusterName: Option<string>
    var addresses: seq<HostPort>
    var executed: seq<SearchRequest>

    constructor (clusterName: Option<string>)
      ensures this.clusterName == clusterName && addresses == [] && executed == []
    {
      this.clusterName := clusterName;
      addresses := [];
      executed := [];
    }

    method AddTransportAddress(hp: HostPort)
      modifies this
      ensures addresses == old(addresses) + [hp] && executed == old(executed)
    {
      addresses := addresses + [hp];
    }

    /** One synchronous round trip; the response is not modelled. */
    method Execute(req: SearchRequest)
      modifies this
      ensures executed == old(executed) + [req] && addresses == old(addresses)
    {
      executed := executed + [req];
    }

    function State(): ClientState
      reads this
    {
      ClientState(clusterName, addresses, executed)
    }
  }

  /** The session state shared with the statement driver: the current
      client, if any. */
  class RuntimeContext {
    var client: TransportClient?

    constructor ()
      ensures client == null
    {
      client := null;
    }
  }

  /** A search request under construction, for one target index. */
  class SearchRequestBuilder {
    const index: string
    var query: Query
    var fields: seq<string>
    var size: Option<int>
    var from: Option<int>
    var sorts: seq<(string, SortOrder)>

    constructor (index: string, query: Query)
      ensures this.index == index && this.query == query
      ensures fields == [] && size == None && from == None && sorts == []
    {
      this.index := index;
      this.query := query;
      fields := [];
      size := None;
      from := None;
      sorts := [];
    }

    method AddField(f: string)
      modifies this
      ensures fields == old(fields) + [f]
      ensures query == old(query) && size == old(size) && from == old(from) && sorts == old(sorts)
    {
      fields := fields + [f];
    }

    method SetSize(n: int)
      modifies this
      ensures size == Some(n)
      ensures query == old(query) && fields == old(fields) && from == old(from) && sorts == old(sorts)
    {
      size := Some(n);
    }

    method SetFrom(n: int)
      modifies this
      ensures from == Some(n)
      ensures query == old(query) && fields == old(fields) && size == old(size) && sorts == old(sorts)
    {
      from := Some(n);
    }

    method AddSort(key: string, order: SortOrder)
      modifies this
      ensures sorts == old(sorts) + [(key, order)]
      ensures query == old(query) && fields == old(fields) && size == old(size) && from == old(from)
    {
      sorts := sorts + [(key, order)];
    }

    /** The request built so far. */
    function Request(): SearchRequest
      reads this
    {
      SearchRequest(index, query, fields, size, from, sorts)
    }
  }

  /** Adds each field to the builder, in order. */
  method AddFields(b: SearchRequestBuilder, fields: seq<string>)
    modifies b
    ensures b.fields == old(b.fields) + fields
    ensures b.query == old(b.query) && b.size == old(b.size) && b.from == old(b.from) && b.sorts == old(b.sorts)
  {
    var i := 0;
    while i < |fields|
      invariant 0 <= i <= |fields| && b.fields == old(b.fields) + fields[..i]
      invariant b.query == old(b.query) && b.size == old(b.size) && b.from == old(b.from) && b.sorts == old(b.sorts)
    {
      b.AddField(fields[i]);
      i := i + 1;
    }
    assert fields[..i] == fields;
  }

  /** Adds the ascending and descending entries of a sort list to the
      builder, in order, skipping unspecified ones; an entry without a
      direction fails, leaving the entries before it added. */
  method AddSorts(b: SearchRequestBuilder, sorts: seq<QuerySort>) returns (o: Outcome<Error>)
    modifies b
    ensures o == ToOutcome(ApplySorts(sorts))
    ensures o.Pass? ==> b.sorts == old(b.sorts) + ApplySorts(sorts).value
    ensures b.query == old(b.query) && b.fields == old(b.fields) && b.size == old(b.size) && b.from == old(b.from)
  {
    var i := 0;
    while i < |sorts|
      invariant 0 <= i <= |sorts| && ApplySorts(sorts[..i]).Ok?
      invariant b.sorts == old(b.sorts) + ApplySorts(sorts[..i]).value
      invariant b.query == old(b.query) && b.fields == old(b.fields) && b.size == old(b.size) && b.from == old(b.from)
    {
      var s := sorts[i];
      assert sorts[..i + 1][..i] == sorts[..i];
      match s.orderBy {
        case None =>
          ApplySortsErrPersists(sorts, i + 1);
          return Fail(NullSortOrder(s.key));
        case Some(Ascending) =>
          b.AddSort(s.key, Asc);
        case Some(Descending) =>
          b.AddSort(s.key, Desc);
        case Some(Unspecified) =>
      }
      i := i + 1;
    }
    assert sorts[..i] == sorts;
    o := Pass;
  }

  /** The predicates' values in `m` are exactly `fs`, in order. */
  predicate StoredIn(m: map<NodeId, Value>, ps: seq<FilterPred>, fs: seq<Filter>)
  {
    |ps| == |fs| &&
    forall k :: 0 <= k < |ps| ==> ps[k].id in m && m[ps[k].id].FilterValue? && m[ps[k].id].filter == fs[k]
  }

  lemma StoredInKept(m: map<NodeId, Value>, m': map<NodeId, Value>, ps: seq<FilterPred>, fs: seq<Filter>)
    requires StoredIn(m, ps, fs)
    requires forall k :: k in m ==> k in m' && m'[k] == m[k]
    ensures StoredIn(m', ps, fs)
  {
  }

  lemma StoredInSnoc(m: map<NodeId, Value>, ps: seq<FilterPred>, fs: seq<Filter>, p: FilterPred, f: Filter)
    requires StoredIn(m, ps, fs) && p.id in m && m[p.id] == FilterValue(f)
    ensures StoredIn(m, ps + [p], fs + [f])
  {
  }

  /** Once sibling `i` of a rest clause holds its compiled value, and the
      entries of the siblings before it are kept, the first `i + 1`
      siblings hold theirs. */
  lemma StoredInNext(m: map<NodeId, Value>, m': map<NodeId, Value>, r: FilterRest, i: nat)
    requires i < |r.items| && CompileItems(r, i).Ok? && CompilePred(r.items[i].pred).Ok?
    requires StoredIn(m, Ands(r.items[..i]), CompileItems(r, i).value.0)
    requires StoredIn(m, Ors(r.items[..i]), CompileItems(r, i).value.1)
    requires forall k :: k in m ==> k in m' && m'[k] == m[k]
    requires r.items[i].pred.id in m' && m'[r.items[i].pred.id] == FilterValue(CompilePred(r.items[i].pred).value)
    ensures CompileItems(r, i + 1).Ok?
    ensures StoredIn(m', Ands(r.items[..i + 1]), CompileItems(r, i + 1).value.0)
    ensures StoredIn(m', Ors(r.items[..i + 1]), CompileItems(r, i + 1).value.1)
  {
    var pred := r.items[i].pred;
    var ands, ors := Ands(r.items[..i]), Ors(r.items[..i]);
    var vs := CompileItems(r, i).value;
    var v := CompilePred(pred).value;
    StoredInKept(m, m', ands, vs.0);
    StoredInKept(m, m', ors, vs.1);
    AndsPrefix(r.items, i + 1);
    assert CompileItems(r, i + 1) ==
      Ok(if r.items[i].AndPred? then (vs.0 + [v], vs.1) else (vs.0, vs.1 + [v]));
    if r.items[i].AndPred? {
      StoredInSnoc(m', ands, vs.0, pred, v);
    } else {
      StoredInSnoc(m', ors, vs.1, pred, v);
    }
  }

  class EqlWalker {
    /** The attribute table: the value computed for each node, by id. */
    var values: map<NodeId, Value>
    const runtimeCtx: RuntimeContext

    constructor (ctx: RuntimeContext)
      ensures runtimeCtx == ctx && values == map[]
    {
      runtimeCtx := ctx;
      values := map[];
    }

    /** Stores a node's value, replacing any earlier one. */
    method SetValue(node: NodeId, value: Value)
      modifies this`values
      ensures values == old(values)[node := value]
    {
      values := values[node := value];
    }

    /** Looks up a node's value; a node without one yields `None`. */
    method GetValue(node: NodeId) returns (r: Option<Value>)
      ensures node in values ==> r == Some(values[node])
      ensures node !in values ==> r == None
    {
      if node in values {
        r := Some(values[node]);
      } else {
        r := None;
      }
    }

    predicate HasFilter(node: NodeId) reads this { node in values && values[node].FilterValue? }
    predicate HasHostPort(node: NodeId) reads this { node in values && values[node].HostPortValue? }
    predicate HasOrder(node: NodeId) reads this { node in values && values[node].OrderValue? }
    predicate HasReturn(node: NodeId) reads this { node in values && values[node].ReturnValue? }
    predicate HasSorts(node: NodeId) reads this { node in values && values[node].SortsValue? }
    predicate HasFields(node: NodeId) reads this { node in values && values[node].FieldsValue? }

    /** No entry of the table is lost or changed since `old`. */
    twostate predicate KeepsEntries()
      reads this
    {
      forall k :: k in old(values) ==> k in values && values[k] == old(values)[k]
    }

    function ClientStateOf(): Option<ClientState>
      reads this, runtimeCtx, runtimeCtx.client
    {
      if runtimeCtx.client == null then None else Some(runtimeCtx.client.State())
    }

    // Exit rules, one per node kind.

    method ExitHostport(h: Hostport) returns (o: Outcome<Error>)
      modifies this`values
      ensures o == ToOutcome(EvalHostport(h))
      ensures o.Pass? ==> values == old(values)[h.id := HostPortValue(EvalHostport(h).value)]
      ensures o.Fail? ==> values == old(values)
    {
      var host := h.host;
      var port := ParseInt(h.port);
      if port.Err? {
        return Fail(port.error);
      }
      SetValue(h.id, HostPortValue(HostPort(host, port.value)));
      o := Pass;
    }

    /** Replaces the current client by a new one, named when the statement
        names a cluster, then adds the endpoint of each host:port child in
        order. */
    method ExitConnectStmt(c: ConnectStmt)
      requires forall i :: 0 <= i < |c.hps| ==> HasHostPort(c.hps[i].id)
      modifies runtimeCtx
      ensures values == old(values)
      ensures fresh(runtimeCtx.client)
      ensures runtimeCtx.client.clusterName == c.clusterName && runtimeCtx.client.executed == []
      ensures runtimeCtx.client.addresses == StoredHostPorts(c.hps)
    {
      if c.clusterName.Some? {
        var clusterName := c.clusterName.value;
        runtimeCtx.client := new TransportClient(Some(clusterName));
      } else {
        runtimeCtx.client := new TransportClient(None);
      }
      var i := 0;
      while i < |c.hps|
        invariant 0 <= i <= |c.hps|
        invariant fresh(runtimeCtx.client)
        invariant runtimeCtx.client.clusterName == c.clusterName && runtimeCtx.client.executed == []
        invariant runtimeCtx.client.addresses == StoredHostPorts(c.hps)[..i]
      {
        var v := GetValue(c.hps[i].id);
        var hp := v.value.hp;
        var tc := runtimeCtx.client;
        tc.AddTransportAddress(hp);
        i := i + 1;
      }
    }

    /** The endpoints stored for some host:port nodes, in order. */
    function StoredHostPorts(hps: seq<Hostport>): seq<HostPort>
      reads this
      requires forall i :: 0 <= i < |hps| ==> HasHostPort(hps[i].id)
    {
      seq(|hps|, i reads this requires 0 <= i < |hps| && HasHostPort(hps[i].id) => values[hps[i].id].hp)
    }

    method ExitAscdesc(a: Ascdesc)
      modifies this`values
      ensures values == old(values)[a.id := OrderValue(AscdescOrder(a))]
    {
      if a.asc {
        SetValue(a.id, OrderValue(Ascending));
      } else if a.desc {
        SetValue(a.id, OrderValue(Descending));
      } else {
        SetValue(a.id, OrderValue(Unspecified));
      }
    }

    /** The directions stored for a sort clause's markers. */
    function StoredOrders(ads: seq<Ascdesc>): seq<Order>
      reads this
      requires forall i :: 0 <= i < |ads| ==> HasOrder(ads[i].id)
    {
      seq(|ads|, i reads this requires 0 <= i < |ads| && HasOrder(ads[i].id) => values[ads[i].id].order)
    }

    /** Fills one entry per key, then sets the directions by position. */
    method ExitSortStmt(s: SortStmt) returns (o: Outcome<Error>)
      requires forall i :: 0 <= i < |s.sorts| ==> HasOrder(s.sorts[i].id)
      modifies this`values
      ensures o == ToOutcome(SortList(s.keys, old(StoredOrders(s.sorts))))
      ensures o.Pass? ==> values == old(values)[s.id := SortsValue(SortList(s.keys, old(StoredOrders(s.sorts))).value)]
      ensures o.Fail? ==> values == old(values)
    {
      ghost var dirs := StoredOrders(s.sorts);
      var sorts := new QuerySort[|s.keys|](_ => QuerySort("", None));
      var keyindex := 0;
      while keyindex < |s.keys|
        invariant 0 <= keyindex <= |s.keys| && values == old(values)
        invariant forall j :: 0 <= j < keyindex ==> sorts[j] == QuerySort(s.keys[j], None)
      {
        sorts[keyindex] := QuerySort(s.keys[keyindex], None);
        keyindex := keyindex + 1;
      }
      var dirindex := 0;
      while dirindex < |s.sorts|
        invariant 0 <= dirindex <= |s.sorts| && dirindex <= sorts.Length
        invariant values == old(values)
        invariant forall j :: 0 <= j < sorts.Length ==>
          sorts[j] == QuerySort(s.keys[j], if j < dirindex then Some(dirs[j]) else None)
      {
        var v := GetValue(s.sorts[dirindex].id);
        var order := v.value.order;
        if dirindex >= sorts.Length {
          return Fail(SortIndexOutOfBounds(dirindex));
        }
        sorts[dirindex] := sorts[dirindex].(orderBy := Some(order));
        dirindex := dirindex + 1;
      }
      forall j | 0 <= j < |s.keys|
        ensures Zip(s.keys, dirs)[j] == sorts[..][j]
      {
        ZipAt(s.keys, dirs, j);
      }
      assert Zip(s.keys, dirs) == sorts[..];
      SetValue(s.id, SortsValue(sorts[..]));
      o := Pass;
    }

    /** Parses the size and the lower offset, each only when present. */
    method ExitReturnStmt(rs: ReturnStmt) returns (o: Outcome<Error>)
      modifies this`values
      ensures o == ToOutcome(EvalReturn(rs))
      ensures o.Pass? ==> values == old(values)[rs.id := ReturnValue(EvalReturn(rs).value)]
      ensures o.Fail? ==> values == old(values)
    {
      var count: Option<int> := None;
      var lower: Option<int> := None;
      var upper: Option<int> := None;
      if rs.size.Some? {
        var c := ParseInt(rs.size.value);
        if c.Err? {
          return Fail(c.error);
        }
        count := Some(c.value);
      }
      if rs.lower.Some? {
        var l := ParseInt(rs.lower.value);
        if l.Err? {
          return Fail(l.error);
        }
        lower := Some(l.value);
      }
      SetValue(rs.id, ReturnValue(Return(count, lower, upper)));
      o := Pass;
    }

    /** Collects the field tokens in order. */
    method ExitFieldList(fl: FieldList)
      modifies this`values
      ensures values == old(values)[fl.id := FieldsValue(fl.fields)]
    {
      var fields: seq<string> := [];
      var i := 0;
      while i < |fl.fields|
        invariant 0 <= i <= |fl.fields| && fields == fl.fields[..i]
        invariant values == old(values)
      {
        fields := fields + [fl.fields[i]];
        i := i + 1;
      }
      assert fields == fl.fields;
      SetValue(fl.id, FieldsValue(fields));
    }

    /** Passes the predicate's value up. */
    method ExitFilterStmt(f: FilterStmt)
      requires HasFilter(f.pred.id)
      modifies this`values
      ensures values == old(values)[f.id := old(values)[f.pred.id]]
    {
      var v := GetValue(f.pred.id);
      SetValue(f.id, v.value);
    }

    /** The stored value of a rest clause, if it has one. */
    function RestValueOf(rest: Option<FilterRest>): Option<Filter>
      reads this
    {
      if rest.Some? && HasFilter(rest.value.id) then Some(values[rest.value.id].filter) else None
    }

    /** A parenthesised predicate takes its inner predicate's value; a
        comparison builds its own term and, with a rest clause, appends it
        to the rest clause's And or Or node, which becomes its value. */
    method ExitFilterPred(p: FilterPred) returns (o: Outcome<Error>)
      requires p.Paren? ==> HasFilter(p.childpred.id)
      requires p.Compare? && p.rest.Some? && p.rest.value.id in values ==> HasFilter(p.rest.value.id)
      modifies this`values
      ensures p.Paren? ==> o == Pass && values == old(values)[p.id := old(values)[p.childpred.id]]
      ensures p.Compare? ==> o == ToOutcome(TermOf(p.name, p.literal))
      ensures p.Compare? && o.Pass? ==>
        values == old(values)[p.id := FilterValue(
          if p.rest.Some? then Attach(old(RestValueOf(p.rest)), TermOf(p.name, p.literal).value)
          else TermOf(p.name, p.literal).value)]
      ensures o.Fail? ==> values == old(values)
    {
      if p.Paren? {
        var v := GetValue(p.childpred.id);
        SetValue(p.id, v.value);
        return Pass;
      }
      var first: Filter;
      if p.literal.IntLit? {
        var i := ParseInt(p.literal.text);
        if i.Err? {
          return Fail(i.error);
        }
        first := Term(p.name, IntTerm(i.value));
      } else {
        var v := StripQuotes(p.literal.text);
        first := Term(p.name, StringTerm(v));
      }
      if p.rest.Some? {
        var rv := GetValue(p.rest.value.id);
        var restBuilder := if rv.Some? then rv.value.filter else NullRef;
        match restBuilder {
          case And(cs) => restBuilder := And(cs + [first]);
          case Or(cs) => restBuilder := Or(cs + [first]);
          case _ =>
        }
        SetValue(p.id, FilterValue(restBuilder));
      } else {
        SetValue(p.id, FilterValue(first));
      }
      o := Pass;
    }

    /** The stored values of some predicates, in order. */
    function StoredFilters(ps: seq<FilterPred>): seq<Filter>
      reads this
      requires forall i :: 0 <= i < |ps| ==> HasFilter(ps[i].id)
    {
      seq(|ps|, i reads this requires 0 <= i < |ps| && HasFilter(ps[i].id) => values[ps[i].id].filter)
    }

    /** Builds an And node of the AND siblings' values when there is an AND
        sibling, else an Or node of the OR siblings' values when there is
        one, and stores nothing otherwise. */
    method ExitFilterRest(r: FilterRest)
      requires forall i :: 0 <= i < |Ands(r.items)| ==> HasFilter(Ands(r.items)[i].id)
      requires forall i :: 0 <= i < |Ors(r.items)| ==> HasFilter(Ors(r.items)[i].id)
      modifies this`values
      ensures var v := Combine(old(StoredFilters(Ands(r.items))), old(StoredFilters(Ors(r.items))));
        && (v.Some? ==> values == old(values)[r.id := FilterValue(v.value)])
        && (v.None? ==> values == old(values))
    {
      var ands := Ands(r.items);
      var ors := Ors(r.items);
      if |ands| > 0 {
        var afb: seq<Filter> := [];
        var i := 0;
        while i < |ands|
          invariant 0 <= i <= |ands| && values == old(values)
          invariant |afb| == i && forall j :: 0 <= j < i ==> afb[j] == values[ands[j].id].filter
        {
          var v := GetValue(ands[i].id);
          afb := afb + [v.value.filter];
          i := i + 1;
        }
        assert afb == StoredFilters(ands);
        SetValue(r.id, FilterValue(And(afb)));
      } else if |ors| > 0 {
        var ofb: seq<Filter> := [];
        var i := 0;
        while i < |ors|
          invariant 0 <= i <= |ors| && values == old(values)
          invariant |ofb| == i && forall j :: 0 <= j < i ==> ofb[j] == values[ors[j].id].filter
        {
          var v := GetValue(ors[i].id);
          ofb := ofb + [v.value.filter];
          i := i + 1;
        }
        assert ofb == StoredFilters(ors);
        SetValue(r.id, FilterValue(Or(ofb)));
      }
    }

    /** The request a query statement's stored clause values describe. */
    function StoredRequest(q: QueryStmt): Result<SearchRequest, Error>
      reads this
      requires q.filter.Some? ==> HasFilter(q.filter.value.id)
      requires q.fieldList.Some? ==> HasFields(q.fieldList.value.id)
      requires q.ret.Some? ==> HasReturn(q.ret.value.id)
      requires q.sort.Some? ==> HasSorts(q.sort.value.id)
    {
      BuildRequest(q.key,
        if q.filter.Some? then Some(values[q.filter.value.id].filter) else None,
        if q.fieldList.Some? then Some(values[q.fieldList.value.id].fields) else None,
        if q.ret.Some? then Some(values[q.ret.value.id].ret) else None,
        if q.sort.Some? then Some(values[q.sort.value.id].sorts) else None)
    }

    /** Builds the request of a query statement step by step from its
        clause values: the query, then the fields, the size and offset,
        and the sort entries. */
    method PrepareSearch(q: QueryStmt) returns (b: SearchRequestBuilder, o: Outcome<Error>)
      requires q.filter.Some? ==> HasFilter(q.filter.value.id)
      requires q.fieldList.Some? ==> HasFields(q.fieldList.value.id)
      requires q.ret.Some? ==> HasReturn(q.ret.value.id)
      requires q.sort.Some? ==> HasSorts(q.sort.value.id)
      ensures fresh(b)
      ensures o == ToOutcome(StoredRequest(q))
      ensures o.Pass? ==> StoredRequest(q) == Ok(b.Request())
    {
      var qb := MatchAll;
      if q.filter.Some? {
        var fb := GetValue(q.filter.value.id);
        qb := Filtered(qb, fb.value.filter);
      }
      b := new SearchRequestBuilder(q.key, qb);
      if q.fieldList.Some? {
        var v := GetValue(q.fieldList.value.id);
        AddFields(b, v.value.fields);
      }
      if q.ret.Some? {
        var v := GetValue(q.ret.value.id);
        var r := v.value.ret;
        if r.size.Some? {
          b.SetSize(r.size.value);
        }
        if r.lower.Some? {
          b.SetFrom(r.lower.value);
        }
      }
      assert b.query == BaseQuery(if q.filter.Some? then Some(values[q.filter.value.id].filter) else None);
      assert b.fields == if q.fieldList.Some? then values[q.fieldList.value.id].fields else [];
      assert b.size == if q.ret.Some? then values[q.ret.value.id].ret.size else None;
      assert b.from == if q.ret.Some? then values[q.ret.value.id].ret.lower else None;
      assert b.sorts == [];
      o := Pass;
      if q.sort.Some? {
        var v := GetValue(q.sort.value.id);
        o := AddSorts(b, v.value.sorts);
        assert o.Pass? ==> ApplySorts(v.value.sorts).Ok?;
        assert o.Pass? ==> b.sorts == ApplySorts(v.value.sorts).value;
      }
    }

    /** Fails with NotConnected when there is no client; otherwise builds
        the request from the clause values and executes it once on the
        current client. */
    method ExitQueryStmt(q: QueryStmt) returns (o: Outcome<Error>)
      requires q.filter.Some? ==> HasFilter(q.filter.value.id)
      requires q.fieldList.Some? ==> HasFields(q.fieldList.value.id)
      requires q.ret.Some? ==> HasReturn(q.ret.value.id)
      requires q.sort.Some? ==> HasSorts(q.sort.value.id)
      modifies runtimeCtx.client
      ensures runtimeCtx.client == null ==> o == Fail(NotConnected)
      ensures runtimeCtx.client != null ==>
        && o == ToOutcome(StoredRequest(q))
        && runtimeCtx.client.addresses == old(runtimeCtx.client.addresses)
        && runtimeCtx.client.executed == old(runtimeCtx.client.executed) +
             (if o.Pass? then [StoredRequest(q).value] else [])
    {
      if runtimeCtx.client == null {
        return Fail(NotConnected);
      }
      var b;
      b, o := PrepareSearch(q);
      if o.Fail? {
        return;
      }
      var tc := runtimeCtx.client;
      tc.Execute(b.Request());
    }

    // The post-order walk: every child's exit rule runs before its parent's.

    /** Walks a predicate. Its value is the compiled predicate, and the walk
        adds entries only for the predicate's own nodes. */
    method WalkPred(p: FilterPred) returns (o: Outcome<Error>)
      requires PredUnique(p) && PredIds(p) !! values.Keys
      modifies this`values
      ensures o == ToOutcome(CompilePred(p))
      ensures o.Pass? ==> HasFilter(p.id) && values[p.id].filter == CompilePred(p).value
      ensures values.Keys <= old(values.Keys) + PredIds(p)
      ensures KeepsEntries()
      decreases p, 0
    {
      match p
      case Paren(_, c) =>
        o := WalkPred(c);
        if o.Fail? {
          return;
        }
        o := ExitFilterPred(p);
      case Compare(_, _, _, rest) =>
        if rest.Some? {
          o := WalkRest(rest.value);
          if o.Fail? {
            return;
          }
        }
        o := ExitFilterPred(p);
    }

    /** Walks a rest clause: its siblings, then the clause itself; a clause
        that compiles to no value leaves no entry. */
    method WalkRest(r: FilterRest) returns (o: Outcome<Error>)
      requires RestUnique(r) && RestIds(r) !! values.Keys
      modifies this`values
      ensures o == ToOutcome(CompileRest(r))
      ensures o.Pass? ==> RestValueOf(Some(r)) == CompileRest(r).value
      ensures o.Pass? && CompileRest(r).value.None? ==> r.id !in values
      ensures values.Keys <= old(values.Keys) + RestIds(r)
      ensures KeepsEntries()
      decreases r, |r.items| + 1
    {
      o := WalkSiblings(r);
      if o.Fail? {
        return;
      }
      ghost var vs := CompileItems(r, |r.items|).value;
      assert StoredFilters(Ands(r.items)) == vs.0;
      assert StoredFilters(Ors(r.items)) == vs.1;
      ExitFilterRest(r);
    }

    /** Walks the siblings of a rest clause in textual order, stopping at
        the first that fails; each AND and each OR sibling is left holding
        its compiled value. */
    method WalkSiblings(r: FilterRest) returns (o: Outcome<Error>)
      requires ItemsUnique(r, |r.items|) && ItemsIds(r, |r.items|) !! values.Keys
      modifies this`values
      ensures o == ToOutcome(CompileItems(r, |r.items|))
      ensures o.Pass? ==> StoredIn(values, Ands(r.items), CompileItems(r, |r.items|).value.0)
      ensures o.Pass? ==> StoredIn(values, Ors(r.items), CompileItems(r, |r.items|).value.1)
      ensures values.Keys <= old(values.Keys) + ItemsIds(r, |r.items|)
      ensures KeepsEntries()
      decreases r, |r.items|
    {
      var i := 0;
      while i < |r.items|
        invariant 0 <= i <= |r.items| && CompileItems(r, i).Ok?
        invariant StoredIn(values, Ands(r.items[..i]), CompileItems(r, i).value.0)
        invariant StoredIn(values, Ors(r.items[..i]), CompileItems(r, i).value.1)
        invariant values.Keys <= old(values.Keys) + ItemsIds(r, i)
        invariant KeepsEntries()
      {
        o := WalkSibling(r, i, old(values.Keys));
        if o.Fail? {
          ItemsErrPersists(r, i + 1, |r.items|);
          ItemsIdsGrow(r, i + 1, |r.items|);
          return;
        }
        i := i + 1;
      }
      assert r.items[..i] == r.items;
      o := Pass;
    }

    /** Walks sibling `i` of a rest clause once the siblings before it hold
        their values; afterwards the first `i + 1` siblings hold theirs. */
    method WalkSibling(r: FilterRest, i: nat, ghost base: set<NodeId>) returns (o: Outcome<Error>)
      requires i < |r.items| && ItemsUnique(r, |r.items|) && ItemsIds(r, |r.items|) !! base
      requires values.Keys <= base + ItemsIds(r, i) && CompileItems(r, i).Ok?
      requires StoredIn(values, Ands(r.items[..i]), CompileItems(r, i).value.0)
      requires StoredIn(values, Ors(r.items[..i]), CompileItems(r, i).value.1)
      modifies this`values
      ensures o == ToOutcome(CompilePred(r.items[i].pred))
      ensures o.Pass? ==> CompileItems(r, i + 1).Ok?
      ensures o.Pass? ==> StoredIn(values, Ands(r.items[..i + 1]), CompileItems(r, i + 1).value.0)
      ensures o.Pass? ==> StoredIn(values, Ors(r.items[..i + 1]), CompileItems(r, i + 1).value.1)
      ensures values.Keys <= base + ItemsIds(r, i + 1)
      ensures KeepsEntries()
      decreases r, i
    {
      var pred := r.items[i].pred;
      ItemsIdsGrow(r, i, |r.items|);
      ItemsUniquePrefix(r, i + 1, |r.items|);
      ItemsIdsGrow(r, i, i + 1);
      ghost var before := values;
      o := WalkPred(pred);
      if o.Fail? {
        return;
      }
      StoredInNext(before, values, r, i);
    }

    /** Walks a filter clause: its predicate, then the clause. */
    method WalkFilterStmt(f: FilterStmt) returns (o: Outcome<Error>)
      requires f.id !in PredIds(f.pred) && PredUnique(f.pred) && FilterStmtIds(f) !! values.Keys
      modifies this`values
      ensures o == ToOutcome(CompileFilterStmt(f))
      ensures o.Pass? ==> HasFilter(f.id) && values[f.id].filter == CompileFilterStmt(f).value
      ensures values.Keys <= old(values.Keys) + FilterStmtIds(f)
      ensures KeepsEntries()
    {
      o := WalkPred(f.pred);
      if o.Fail? {
        return;
      }
      ExitFilterStmt(f);
    }

    /** Walks a sort clause: each direction marker, then the clause. */
    method WalkSortStmt(s: SortStmt) returns (o: Outcome<Error>)
      requires SortUnique(s) && SortIds(s) !! values.Keys
      modifies this`values
      ensures o == ToOutcome(EvalSortStmt(s))
      ensures o.Pass? ==> HasSorts(s.id) && values[s.id].sorts == EvalSortStmt(s).value
      ensures values.Keys <= old(values.Keys) + SortIds(s)
      ensures KeepsEntries()
    {
      var i := 0;
      while i < |s.sorts|
        invariant 0 <= i <= |s.sorts|
        invariant forall j :: 0 <= j < i ==>
          HasOrder(s.sorts[j].id) && values[s.sorts[j].id].order == AscdescOrder(s.sorts[j])
        invariant values.Keys <= old(values.Keys) + AscdescIds(s.sorts)
        invariant KeepsEntries()
      {
        assert s.sorts[i] in s.sorts;
        ExitAscdesc(s.sorts[i]);
        i := i + 1;
      }
      assert StoredOrders(s.sorts) == SortOrders(s.sorts);
      o := ExitSortStmt(s);
    }

    /** Walks a connect statement: each host:port pair in order, then the
        statement. A failing pair leaves the current client in place. */
    method WalkConnect(c: ConnectStmt) returns (o: Outcome<Error>)
      requires ConnectUnique(c) && ConnectIds(c) !! values.Keys
      modifies this`values, runtimeCtx
      ensures o == ToOutcome(EvalConnectStmt(c))
      ensures o.Pass? ==> fresh(runtimeCtx.client)
      ensures o.Pass? ==>
        runtimeCtx.client.State() == ClientState(c.clusterName, EvalConnectStmt(c).value.endpoints, [])
      ensures o.Fail? ==> runtimeCtx.client == old(runtimeCtx.client)
      ensures values.Keys <= old(values.Keys) + ConnectIds(c)
      ensures KeepsEntries()
    {
      var i := 0;
      while i < |c.hps|
        invariant 0 <= i <= |c.hps|
        invariant forall j :: 0 <= j < i ==>
          ParseInt(c.hps[j].port).Ok? && HasHostPort(c.hps[j].id) &&
          values[c.hps[j].id].hp == HostPort(c.hps[j].host, ParseInt(c.hps[j].port).value)
        invariant runtimeCtx.client == old(runtimeCtx.client)
        invariant values.Keys <= old(values.Keys) + HostportIds(c.hps)
        invariant KeepsEntries()
      {
        assert c.hps[i] in c.hps;
        o := ExitHostport(c.hps[i]);
        if o.Fail? {
          HostportsFirstErr(c.hps, i);
          return;
        }
        i := i + 1;
      }
      HostportsAt(c.hps);
      assert StoredHostPorts(c.hps) == EvalHostports(c.hps).value;
      ExitConnectStmt(c);
      o := Pass;
    }

    /** The clause values a query statement's children have stored. */
    predicate StoredClauses(q: QueryStmt, c: ClauseValues)
      reads this
    {
      && (q.filter.Some? <==> c.filter.Some?)
      && (q.filter.Some? ==> HasFilter(q.filter.value.id) && values[q.filter.value.id].filter == c.filter.value)
      && (q.fieldList.Some? ==> HasFields(q.fieldList.value.id) && values[q.fieldList.value.id].fields == q.fieldList.value.fields)
      && (q.ret.Some? <==> c.ret.Some?)
      && (q.ret.Some? ==> HasReturn(q.ret.value.id) && values[q.ret.value.id].ret == c.ret.value)
      && (q.sort.Some? <==> c.sorts.Some?)
      && (q.sort.Some? ==> HasSorts(q.sort.value.id) && values[q.sort.value.id].sorts == c.sorts.value)
    }

    /** Walks the clauses of a query statement in textual order: the
        filter, the field list, the return clause, the sort clause. */
    method WalkClauses(q: QueryStmt) returns (o: Outcome<Error>)
      requires QueryUnique(q) && QueryChildIds(q) !! values.Keys
      modifies this`values
      ensures o == ToOutcome(EvalClauses(q))
      ensures o.Pass? ==> StoredClauses(q, EvalClauses(q).value)
      ensures values.Keys <= old(values.Keys) + QueryChildIds(q)
      ensures KeepsEntries()
    {
      o := Pass;
      if q.filter.Some? {
        o := WalkFilterStmt(q.filter.value);
        if o.Fail? {
          return;
        }
      }
      if q.fieldList.Some? {
        ExitFieldList(q.fieldList.value);
      }
      if q.ret.Some? {
        o := ExitReturnStmt(q.ret.value);
        if o.Fail? {
          return;
        }
      }
      if q.sort.Some? {
        o := WalkSortStmt(q.sort.value);
      }
    }

    /** Walks a query statement: its clauses, then the statement, which
        executes one request when there is a client. */
    method WalkQuery(q: QueryStmt) returns (o: Outcome<Error>)
      requires QueryUnique(q) && QueryIds(q) !! values.Keys
      modifies this`values, runtimeCtx.client
      ensures var r := EvalQueryStmt(runtimeCtx.client != null, q);
        && o == ToOutcome(r)
        && (runtimeCtx.client != null ==>
              && runtimeCtx.client.addresses == old(runtimeCtx.client.addresses)
              && runtimeCtx.client.executed == old(runtimeCtx.client.executed) + (if r.Ok? then [r.value] else []))
      ensures values.Keys <= old(values.Keys) + QueryIds(q)
      ensures KeepsEntries()
    {
      o := WalkClauses(q);
      if o.Fail? {
        return;
      }
      ghost var c := EvalClauses(q).value;
      assert StoredRequest(q) == BuildRequest(q.key, c.filter, OptFields(q.fieldList), c.ret, c.sorts);
      o := ExitQueryStmt(q);
    }

    /** Walks one statement. */
    method WalkStmt(s: Stmt) returns (o: Outcome<Error>)
      requires StmtUnique(s) && StmtIds(s) !! values.Keys
      modifies this`values, runtimeCtx, runtimeCtx.client
      ensures (ClientStateOf(), o) == RunStmt(old(ClientStateOf()), s)
      ensures runtimeCtx.client == old(runtimeCtx.client) || fresh(runtimeCtx.client)
      ensures values.Keys <= old(values.Keys) + StmtIds(s)
    {
      match s
      case Connect(c) =>
        o := WalkConnect(c);
      case Query(q) =>
        o := WalkQuery(q);
        if runtimeCtx.client != null && o.Fail? {
          assert old(runtimeCtx.client.executed) + [] == old(runtimeCtx.client.executed);
        }
    }

    /** Runs a script statement by statement, stopping at the first
        failure; the client ends as the script's semantics says. */
    method Run(stmts: seq<Stmt>) returns (o: Outcome<Error>)
      requires ScriptUnique(stmts)
      requires forall i :: 0 <= i < |stmts| ==> StmtIds(stmts[i]) !! values.Keys
      modifies this`values, runtimeCtx, runtimeCtx.client
      ensures (ClientStateOf(), o) == RunScript(old(ClientStateOf()), stmts)
    {
      var i := 0;
      while i < |stmts|
        invariant 0 <= i <= |stmts|
        invariant RunScript(ClientStateOf(), stmts[i..]) == RunScript(old(ClientStateOf()), stmts)
        invariant forall j :: i <= j < |stmts| ==> StmtIds(stmts[j]) !! values.Keys
        invariant runtimeCtx.client == old(runtimeCtx.client) || fresh(runtimeCtx.client)
      {
        ghost var keys := values.Keys;
        ghost var st := ClientStateOf();
        assert stmts[i..][0] == stmts[i] && stmts[i..][1..] == stmts[i + 1..];
        o := WalkStmt(stmts[i]);
        if o.Fail? {
          return;
        }
        assert forall j :: i < j < |stmts| ==> StmtIds(stmts[j]) !! StmtIds(stmts[i]);
        i := i + 1;
      }
      o := Pass;
    }
  }
}

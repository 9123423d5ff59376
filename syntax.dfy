/** The parse tree the external parser hands to the walker: one datatype per
    node kind, each node carrying a stable integer id (the identity its
    computed value is keyed by) and the raw text of its tokens. */
module Syntax {
  import opened Wrappers

  type NodeId = nat

  /** The value token of a comparison: `intval` or `stringval`. */
  datatype Literal = IntLit(text: string) | StringLit(text: string)

  /** `filter_pred`: either `( childpred )`, or `name = value` followed by
      an optional rest clause. */
  datatype FilterPred =
    | Paren(id: NodeId, childpred: FilterPred)
    | Compare(id: NodeId, name: string, literal: Literal, rest: Option<FilterRest>)

  /** `filter_rest`: the sibling predicates in textual order, each joined by
      `and` or by `or`. */
  datatype FilterRest = FilterRest(id: NodeId, items: seq<Joined>)

  datatype Joined = AndPred(pred: FilterPred) | OrPred(pred: FilterPred)

  datatype FilterStmt = FilterStmt(id: NodeId, pred: FilterPred)

  datatype Hostport = Hostport(id: NodeId, host: string, port: string)

  datatype ConnectStmt = ConnectStmt(id: NodeId, clusterName: Option<string>, hps: seq<Hostport>)

  /** `ascdesc`: which of the `asc` and `desc` tokens are present. */
  datatype Ascdesc = Ascdesc(id: NodeId, asc: bool, desc: bool)

  /** `sort_stmt`: the key tokens and the direction nodes, each in textual order. */
  datatype SortStmt = SortStmt(id: NodeId, keys: seq<string>, sorts: seq<Ascdesc>)

  /** `return_stmt`: the optional size and lower-offset tokens. */
  datatype ReturnStmt = ReturnStmt(id: NodeId, size: Option<string>, lower: Option<string>)

  datatype FieldList = FieldList(id: NodeId, fields: seq<string>)

  datatype QueryStmt = QueryStmt(
    id: NodeId,
    key: string,
    filter: Option<FilterStmt>,
    fieldList: Option<FieldList>,
    ret: Option<ReturnStmt>,
    sort: Option<SortStmt>)

  datatype Stmt = Connect(connect: ConnectStmt) | Query(query: QueryStmt)

  /** `ctx.ands`: the AND-joined siblings of a rest clause, in order. */
  function Ands(items: seq<Joined>): (r: seq<FilterPred>)
    ensures |r| <= |items|
  {
    if items == [] then []
    else Ands(items[..|items| - 1]) + (if items[|items| - 1].AndPred? then [items[|items| - 1].pred] else [])
  }

  /** `ctx.ors`: the OR-joined siblings of a rest clause, in order. */
  function Ors(items: seq<Joined>): (r: seq<FilterPred>)
    ensures |r| <= |items|
  {
    if items == [] then []
    else Ors(items[..|items| - 1]) + (if items[|items| - 1].OrPred? then [items[|items| - 1].pred] else [])
  }

  // Node ids of each subtree.

  function PredIds(p: FilterPred): set<NodeId>
    decreases p, 0
  {
    match p
    case Paren(id, c) => {id} + PredIds(c)
    case Compare(id, _, _, rest) => {id} + (if rest.Some? then RestIds(rest.value) else {})
  }

  function RestIds(r: FilterRest): set<NodeId>
    decreases r, |r.items| + 1
  {
    {r.id} + ItemsIds(r, |r.items|)
  }

  /** The ids of the first `n` siblings of a rest clause. */
  function ItemsIds(r: FilterRest, n: nat): set<NodeId>
    requires n <= |r.items|
    decreases r, n
  {
    if n == 0 then {}
    else ItemsIds(r, n - 1) + PredIds(r.items[n - 1].pred)
  }

  /** No two nodes of a predicate share an id. */
  predicate PredUnique(p: FilterPred)
    decreases p, 0
  {
    match p
    case Paren(id, c) => id !in PredIds(c) && PredUnique(c)
    case Compare(id, _, _, rest) =>
      rest.Some? ==> id !in RestIds(rest.value) && RestUnique(rest.value)
  }

  predicate RestUnique(r: FilterRest)
    decreases r, |r.items| + 1
  {
    r.id !in ItemsIds(r, |r.items|) && ItemsUnique(r, |r.items|)
  }

  /** No two nodes among the first `n` siblings of a rest clause share an id. */
  predicate ItemsUnique(r: FilterRest, n: nat)
    requires n <= |r.items|
    decreases r, n
  {
    n == 0 ||
    (var last := r.items[n - 1].pred;
     ItemsUnique(r, n - 1) && PredUnique(last) && ItemsIds(r, n - 1) !! PredIds(last))
  }

  function HostportIds(hps: seq<Hostport>): set<NodeId>
  {
    set h | h in hps :: h.id
  }

  function AscdescIds(ads: seq<Ascdesc>): set<NodeId>
  {
    set a | a in ads :: a.id
  }

  function SortIds(s: SortStmt): set<NodeId>
  {
    {s.id} + AscdescIds(s.sorts)
  }

  function FilterStmtIds(f: FilterStmt): set<NodeId>
  {
    {f.id} + PredIds(f.pred)
  }

  function QueryChildIds(q: QueryStmt): set<NodeId>
  {
    (if q.filter.Some? then FilterStmtIds(q.filter.value) else {}) +
    (if q.fieldList.Some? then {q.fieldList.value.id} else {}) +
    (if q.ret.Some? then {q.ret.value.id} else {}) +
    (if q.sort.Some? then SortIds(q.sort.value) else {})
  }

  function QueryIds(q: QueryStmt): set<NodeId>
  {
    {q.id} + QueryChildIds(q)
  }

  function ConnectIds(c: ConnectStmt): set<NodeId>
  {
    {c.id} + HostportIds(c.hps)
  }

  function StmtIds(s: Stmt): set<NodeId>
  {
    match s
    case Connect(c) => ConnectIds(c)
    case Query(q) => QueryIds(q)
  }

  predicate SortUnique(s: SortStmt)
  {
    s.id !in AscdescIds(s.sorts) &&
    forall i, j :: 0 <= i < j < |s.sorts| ==> s.sorts[i].id != s.sorts[j].id
  }

  predicate ConnectUnique(c: ConnectStmt)
  {
    c.id !in HostportIds(c.hps) &&
    forall i, j :: 0 <= i < j < |c.hps| ==> c.hps[i].id != c.hps[j].id
  }

  /** No two nodes of a query statement share an id. */
  predicate QueryUnique(q: QueryStmt)
  {
    var f := if q.filter.Some? then FilterStmtIds(q.filter.value) else {};
    var l := if q.fieldList.Some? then {q.fieldList.value.id} else {};
    var r := if q.ret.Some? then {q.ret.value.id} else {};
    var s := if q.sort.Some? then SortIds(q.sort.value) else {};
    q.id !in QueryChildIds(q) &&
    f !! l && f !! r && f !! s && l !! r && l !! s && r !! s &&
    (q.filter.Some? ==> q.filter.value.id !in PredIds(q.filter.value.pred) && PredUnique(q.filter.value.pred)) &&
    (q.sort.Some? ==> SortUnique(q.sort.value))
  }

  predicate StmtUnique(s: Stmt)
  {
    match s
    case Connect(c) => ConnectUnique(c)
    case Query(q) => QueryUnique(q)
  }

  /** No two nodes of a script share an id. */
  predicate ScriptUnique(stmts: seq<Stmt>)
  {
    (forall i :: 0 <= i < |stmts| ==> StmtUnique(stmts[i])) &&
    forall i, j :: 0 <= i < j < |stmts| ==> StmtIds(stmts[i]) !! StmtIds(stmts[j])
  }

  /** The ids of a prefix of the siblings are among those of a longer
      prefix, and so are those of each sibling in it. */
  lemma {:induction false} ItemsIdsGrow(r: FilterRest, i: nat, n: nat)
    requires i <= n <= |r.items|
    ensures ItemsIds(r, i) <= ItemsIds(r, n)
    ensures i < n ==> PredIds(r.items[i].pred) <= ItemsIds(r, n)
    decreases n
  {
    if i < n - 1 {
      ItemsIdsGrow(r, i, n - 1);
    }
  }

  lemma {:induction false} ItemsUniquePrefix(r: FilterRest, i: nat, n: nat)
    requires i <= n <= |r.items|
    requires ItemsUnique(r, n)
    ensures ItemsUnique(r, i)
    decreases n
  {
    if i < n {
      ItemsUniquePrefix(r, i, n - 1);
    }
  }
}

/** The end-to-end example of the language: a connect statement followed by
    a query with a two-term conjunction, a size limit and a descending sort. */
module Scenario {
  import opened Wrappers
  import opened Values
  import opened Literals
  import opened Syntax
  import opened Filters
  import opened Clauses
  import opened Requests
  import opened Walker

  /** `connect localhost:9200;` */
  function ConnectLocal(): ConnectStmt
  {
    ConnectStmt(0, None, [Hostport(1, "localhost", "9200")])
  }

  /** `query logs where level="ERROR" and service="api" return 20 sort ts desc;` */
  function QueryLogs(): QueryStmt
  {
    var service := Compare(6, "service", StringLit("\"api\""), None);
    var level := Compare(4, "level", StringLit("\"ERROR\""), Some(FilterRest(5, [AndPred(service)])));
    QueryStmt(2, "logs", Some(FilterStmt(3, level)), None,
              Some(ReturnStmt(7, Some("20"), None)),
              Some(SortStmt(8, ["ts"], [Ascdesc(9, false, true)])))
  }

  function Script(): seq<Stmt>
  {
    [Connect(ConnectLocal()), Query(QueryLogs())]
  }

  /** The request the query must produce: the conjunction holds the
      sibling's term first and the level's own term last. */
  function ExpectedRequest(): SearchRequest
  {
    SearchRequest("logs",
      Filtered(MatchAll, And([Term("service", StringTerm("api")), Term("level", StringTerm("ERROR"))])),
      [], Some(20), None, [("ts", Desc)])
  }

  lemma ParsePort()
    ensures ParseInt("9200") == Ok(9200) && ParseInt("20") == Ok(20)
  {
    assert Magnitude("9200") == "9200" && Magnitude("20") == "20";
    assert "9200"[..3] == "920" && "920"[..2] == "92" && "92"[..1] == "9" && "9"[..0] == "";
    assert "20"[..1] == "2" && "2"[..0] == "";
  }

  lemma StripTokens()
    ensures StripQuotes("\"api\"") == "api" && StripQuotes("\"ERROR\"") == "ERROR"
  {
    assert "\"api\""[1..4] == "api";
    assert "\"ERROR\""[1..6] == "ERROR";
  }

  /** The filter clause compiles to the expected conjunction. */
  lemma FilterOutcome()
    ensures CompileFilterStmt(QueryLogs().filter.value) ==
      Ok(And([Term("service", StringTerm("api")), Term("level", StringTerm("ERROR"))]))
  {
    StripTokens();
    var level := QueryLogs().filter.value.pred;
    var r := level.rest.value;
    var service := r.items[0].pred;
    var ts := Term("service", StringTerm("api"));
    assert CompilePred(service) == Ok(ts);
    assert CompileItems(r, 0) == Ok(([], []));
    assert [] + [ts] == [ts];
    assert CompileItems(r, 1) == Ok(([ts], []));
    assert CompileRest(r) == Ok(Some(And([ts])));
    var tl := Term("level", StringTerm("ERROR"));
    assert TermOf("level", level.literal) == Ok(tl);
    assert Attach(Some(And([ts])), tl) == And([ts, tl]);
  }

  /** The sort clause yields one descending entry for `ts`. */
  lemma SortOutcome()
    ensures OptSort(QueryLogs().sort) == Ok(Some([QuerySort("ts", Some(Descending))]))
    ensures ApplySorts([QuerySort("ts", Some(Descending))]) == Ok([("ts", Desc)])
  {
    var s := QueryLogs().sort.value;
    var sorts := [QuerySort("ts", Some(Descending))];
    assert SortOrders(s.sorts) == [Descending];
    assert ["ts"][1..] == [] && [Descending][1..] == [];
    assert Zip(["ts"], [Descending]) == sorts;
    assert sorts[..0] == [];
    assert ApplySorts(sorts[..0]) == Ok([]);
    assert [] + [("ts", Desc)] == [("ts", Desc)];
  }

  /** The query, once connected, builds exactly the expected request. */
  lemma QueryOutcome()
    ensures EvalQueryStmt(true, QueryLogs()) == Ok(ExpectedRequest())
  {
    ParsePort();
    FilterOutcome();
    SortOutcome();
    assert EvalReturn(QueryLogs().ret.value) == Ok(Return(Some(20), None, None));
  }

  /** The connect statement yields the one endpoint `localhost:9200`. */
  lemma ConnectOutcome()
    ensures EvalConnectStmt(ConnectLocal()) == Ok(Connection(None, [HostPort("localhost", 9200)]))
  {
    ParsePort();
    var hps := ConnectLocal().hps;
    assert hps[..0] == [];
    assert EvalHostports(hps[..0]) == Ok([]);
    assert EvalHostport(hps[0]) == Ok(HostPort("localhost", 9200));
    assert [] + [HostPort("localhost", 9200)] == [HostPort("localhost", 9200)];
  }

  /** The script leaves one client with the one endpoint `localhost:9200`,
      on which exactly the expected request has been executed. */
  lemma ScriptOutcome()
    ensures RunScript(None, Script()) ==
      (Some(ClientState(None, [HostPort("localhost", 9200)], [ExpectedRequest()])), Pass)
  {
    QueryOutcome();
    ConnectOutcome();
    var q := QueryLogs();
    var cs := ClientState(None, [HostPort("localhost", 9200)], []);
    assert RunStmt(None, Connect(ConnectLocal())) == (Some(cs), Pass);
    assert cs.executed + [ExpectedRequest()] == [ExpectedRequest()];
    assert RunStmt(Some(cs), Query(q)) == (Some(cs.(executed := [ExpectedRequest()])), Pass);
    assert Script()[1..] == [Query(q)] && [Query(q)][1..] == [];
    assert RunScript(Some(cs), [Query(q)]) == (Some(cs.(executed := [ExpectedRequest()])), Pass);
  }

  /** The script's nodes carry distinct ids. */
  lemma ScriptIdsDistinct()
    ensures ScriptUnique(Script())
    ensures StmtIds(Script()[0]) == {0, 1}
    ensures StmtIds(Script()[1]) == {2, 3, 4, 5, 6, 7, 8, 9}
  {
    var c := ConnectLocal();
    assert HostportIds(c.hps) == {1};
    assert ConnectUnique(c);
    var q := QueryLogs();
    var level := q.filter.value.pred;
    var r := level.rest.value;
    assert ItemsIds(r, 0) == {};
    assert PredIds(r.items[0].pred) == {6};
    assert ItemsIds(r, 1) == {6};
    assert RestIds(r) == {5, 6};
    assert RestUnique(r);
    assert PredIds(level) == {4, 5, 6};
    assert AscdescIds(q.sort.value.sorts) == {9};
    assert SortIds(q.sort.value) == {8, 9};
    assert QueryChildIds(q) == {3, 4, 5, 6, 7, 8, 9};
    assert QueryUnique(q);
  }

  /** The walker, run on the script from a fresh session, ends in the same
      state. */
  method RunScriptOnWalker() returns (st: Option<ClientState>, o: Outcome<Error>)
    ensures st == Some(ClientState(None, [HostPort("localhost", 9200)], [ExpectedRequest()]))
    ensures o == Pass
  {
    var ctx := new RuntimeContext();
    var w := new EqlWalker(ctx);
    ScriptOutcome();
    ScriptIdsDistinct();
    o := w.Run(Script());
    st := w.ClientStateOf();
  }
}

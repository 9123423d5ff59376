# EQL walker

A model, in Dafny, of the semantic layer of the EQL interpreter, an ANTLR
parse-tree listener in `EQLWalker.java`. The listener's exit callback for each
node kind runs after the callbacks of the node's children. Each callback
computes a value for its node and stores it in a side table keyed by node.
Parents read their children's values from that table. The statement-level
callbacks use those values to do two things:

- a connect statement installs a transport client (cluster name and
  host:port endpoints) in the runtime context;
- a query statement builds one search request (target index, match-all or
  filtered query, projected fields, size and offset, sort entries) and
  executes it on the current client.

The model has three layers:

- **Pure compilation.** Modules `Literals`, `Filters`, `Clauses` and
  `Requests` give the value each callback computes as a function of the
  parse tree (`Syntax`). This includes the filter tree's composition
  rule: parentheses are transparent; with a rest clause, the level's own
  term is appended to the And node of its AND siblings, or else to the Or
  node of its OR siblings. `RunScript` gives the effect of a whole script
  on the client.
- **The imperative listener.** Module `Walker` holds the class
  `EqlWalker`:
  - its `values` map is the side table;
  - each `Exit…` method is one callback, with the source's loops, its
    sort array and its request builder;
  - each `Walk…` method is the post-order traversal that drives the
    callbacks.

  Every callback and every walk is proved against the pure layer. For
  example, `WalkPred` leaves exactly `CompilePred(p)` at the predicate's
  node, and `Run` leaves the client in the state `RunScript` computes.
- **The end-to-end example.** Module `Scenario` runs
  `connect localhost:9200;` followed by
  `query logs where level="ERROR" and service="api" return 20 sort ts desc;`.

Nodes are identified by a `NodeId`, standing for the identity of an ANTLR
parse-tree object. The walks require the ids of a script to be distinct.

The model's error outcomes stand for the exceptions the callbacks raise:

- a malformed integer token (`NumberFormatException`) is `NumberFormat`;
- more direction markers than sort keys (`ArrayIndexOutOfBoundsException`)
  is `SortIndexOutOfBounds`;
- a sort entry whose direction was never set (a `NullPointerException` in
  the `switch`) is `NullSortOrder`;
- a query with no client is `NotConnected`.

An exception ends the walk, so a failing statement is modelled as a
`Fail` outcome that stops the script.

## Model

| member | source | states |
|---|---|---|
| Wrappers.ToOutcome | src/main/java/com/metadave/eql/parser/runtime/EQLWalker.java:93-95 | a step passes exactly when its computation succeeds, and fails with that computation's error |
| Literals.ParseInt | src/main/java/com/metadave/eql/parser/runtime/EQLWalker.java:86 | `Integer.parseInt`: an optional sign and at least one decimal digit, with a value in the 32-bit `int` range; any other text is an error naming the token |
| Literals.ParseIntDigits | src/main/java/com/metadave/eql/parser/runtime/EQLWalker.java:86 | a digit string, bare or after `+`, parses to its decimal value, and after `-` to its negation, exactly when that value is in the `int` range; out of range, the error names the whole token |
| Literals.ParseIntSamples | src/main/java/com/metadave/eql/parser/runtime/EQLWalker.java:86 | leading zeros and a `+` sign are accepted; a lone `-` and a digit string with a trailing letter are rejected |
| Literals.ParseIntRoundTrip | src/main/java/com/metadave/eql/parser/runtime/EQLWalker.java:86 | parsing the canonical decimal text of any `int` gives back that `int` |
| Literals.NatToDigitsValue | src/main/java/com/metadave/eql/parser/runtime/EQLWalker.java:86 | the canonical digits of a natural number are all digits, and their value is that number |
| Literals.StripQuotes | src/main/java/com/metadave/eql/parser/runtime/EQLWalker.java:217 | the string token's value is the token itself, or the text between one pair of enclosing double quotes |
| Literals.Quote | src/main/java/com/metadave/eql/parser/runtime/EQLWalker.java:217 | stripping the quotes of a quoted value gives back the value |
| Filters.TermOf | src/main/java/com/metadave/eql/parser/runtime/EQLWalker.java:213-220 | an integer token gives an integer term of the parsed value, or the parse error; a string token gives a string term of the quote-stripped text; the term is on the predicate's name |
| Filters.CompilePred | src/main/java/com/metadave/eql/parser/runtime/EQLWalker.java:207-236 | a predicate fails only on a malformed integer token; a comparison without a rest clause is a term on its own name |
| Filters.Attach | src/main/java/com/metadave/eql/parser/runtime/EQLWalker.java:222-231 | the level's term becomes the last child of the rest clause's And or Or node, its leaves after the node's; no rest value gives a null filter; any other value is kept as it is |
| Filters.Combine | src/main/java/com/metadave/eql/parser/runtime/EQLWalker.java:239-253 | an And node of the AND siblings whenever there is one, else an Or node of the OR siblings, else no value; the value's leaves are the chosen siblings' leaves |
| Filters.CompileRest | src/main/java/com/metadave/eql/parser/runtime/EQLWalker.java:239-253 | a rest clause fails only on a malformed integer token and has a value exactly when it has a sibling |
| Filters.CompileItems | src/main/java/com/metadave/eql/parser/runtime/EQLWalker.java:240-251 | compiling the first n siblings fails only on a malformed integer token and otherwise yields n values split between AND and OR siblings |
| Filters.CompileFilterStmt | src/main/java/com/metadave/eql/parser/runtime/EQLWalker.java:200-204 | a filter clause fails only on a malformed integer token; its value's terms are those of the kept comparisons, and no And or Or node in it has fewer than two children |
| Filters.CompareWithoutRest | src/main/java/com/metadave/eql/parser/runtime/EQLWalker.java:213-234 | a comparison without a rest clause yields exactly its single term |
| Filters.ParensTransparent | src/main/java/com/metadave/eql/parser/runtime/EQLWalker.java:208-211 | any number of surrounding parentheses leaves a predicate's value unchanged |
| Filters.RestValue | src/main/java/com/metadave/eql/parser/runtime/EQLWalker.java:239-253 | a rest clause is an And node of the AND siblings' values, in order, whenever an AND sibling exists; otherwise an Or node of the OR siblings' values; with neither, no value |
| Filters.CompareWithRest | src/main/java/com/metadave/eql/parser/runtime/EQLWalker.java:222-231 | with a rest clause, the level's own term is the last child, after the AND siblings' values in order (or, with no AND sibling, the OR siblings'); a rest clause with no value makes the predicate a null filter |
| Filters.CompileItemsSiblings | src/main/java/com/metadave/eql/parser/runtime/EQLWalker.java:240-251 | the siblings compile exactly when each does; their values line up one for one with the AND and the OR siblings in textual order |
| Filters.ItemsErrPersists | src/main/java/com/metadave/eql/parser/runtime/EQLWalker.java:242-243 | once a sibling fails, the whole sibling list fails with that error |
| Filters.AndsOrsPartition | src/main/java/com/metadave/eql/parser/runtime/EQLWalker.java:240-251 | each sibling is either an AND or an OR sibling |
| Filters.AndsPrefix | src/main/java/com/metadave/eql/parser/runtime/EQLWalker.java:240-251 | extending the siblings by one adds it to exactly one of the AND and OR lists, at the end |
| Filters.LeavesOfPred | src/main/java/com/metadave/eql/parser/runtime/EQLWalker.java:207-253 | the terms of a compiled predicate, left to right, are the terms of the comparisons it keeps: OR siblings are dropped when an AND sibling exists, and the level's own term comes last |
| Filters.LeavesOfItems | src/main/java/com/metadave/eql/parser/runtime/EQLWalker.java:240-251 | the terms under the compiled AND (or OR) siblings are those of the kept comparisons of the AND (or OR) siblings, in order |
| Filters.ChildLeavesAppend | src/main/java/com/metadave/eql/parser/runtime/EQLWalker.java:225-229 | appending a child to a node appends its leaves after the other children's leaves |
| Filters.TermsMatchAppend | src/main/java/com/metadave/eql/parser/runtime/EQLWalker.java:225-229 | term lists that match comparison lists still match after concatenation |
| Filters.ShapedPred | src/main/java/com/metadave/eql/parser/runtime/EQLWalker.java:222-251 | every And and Or node in a compiled predicate has at least two children, since the level's own term joins at least one sibling |
| Filters.ShapedItems | src/main/java/com/metadave/eql/parser/runtime/EQLWalker.java:240-251 | every compiled sibling value is well shaped in that sense |
| Clauses.EvalHostport | src/main/java/com/metadave/eql/parser/runtime/EQLWalker.java:83-87 | a host:port pair keeps the host token and parses the port, failing exactly when the port does not parse |
| Clauses.AscdescOrder | src/main/java/com/metadave/eql/parser/runtime/EQLWalker.java:170-178 | a marker is ascending when the `asc` token is present; descending when only `desc` is; unspecified when neither is |
| Clauses.ParseOptional | src/main/java/com/metadave/eql/parser/runtime/EQLWalker.java:186-192 | an absent token gives no value; a present one gives its parsed value or the parse error |
| Clauses.EvalReturn | src/main/java/com/metadave/eql/parser/runtime/EQLWalker.java:181-196 | size and lower are set exactly when their tokens exist, each parsed on its own; upper is always absent; a bad size is reported before a bad lower |
| Clauses.Zip | src/main/java/com/metadave/eql/parser/runtime/EQLWalker.java:150-157 | the sort list has one entry per key token, entry i holding the i-th key |
| Clauses.ZipAt | src/main/java/com/metadave/eql/parser/runtime/EQLWalker.java:150-165 | entry i has the i-th key, and the i-th direction if there is one, else none |
| Clauses.SortList | src/main/java/com/metadave/eql/parser/runtime/EQLWalker.java:150-166 | the list succeeds exactly when there are no more directions than keys, failing at index `|keys|` otherwise, and then has one entry per key, in key order |
| Clauses.EvalSortStmt | src/main/java/com/metadave/eql/parser/runtime/EQLWalker.java:150-167 | a sort clause succeeds exactly when it has no more markers than keys, and then has one entry per key |
| Clauses.SortOrders | src/main/java/com/metadave/eql/parser/runtime/EQLWalker.java:160-164 | the directions of the markers, one per marker, in order |
| Clauses.SortStmtEntries | src/main/java/com/metadave/eql/parser/runtime/EQLWalker.java:150-167 | a sort clause succeeds exactly when there are no more markers than keys, and otherwise fails at index `|keys|`; entry i has key i and, for i below the marker count, direction i |
| Requests.BaseQuery | src/main/java/com/metadave/eql/parser/runtime/EQLWalker.java:97-104 | the query is match-all, wrapped in a filtered query exactly when a filter clause exists |
| Requests.BuildRequest | src/main/java/com/metadave/eql/parser/runtime/EQLWalker.java:106-138 | the request has the target key, the base query, the listed fields, size and from only when the return clause gives them, and the applied sorts; it fails exactly when a sort entry has no direction |
| Requests.ApplySorts | src/main/java/com/metadave/eql/parser/runtime/EQLWalker.java:128-139 | applying the sort list fails only at an entry with no direction, naming its key, and otherwise yields at most one builder entry per list entry |
| Requests.EvalClauses | src/main/java/com/metadave/eql/parser/runtime/EQLWalker.java:92-139 | the clauses evaluate exactly when the filter, return and sort clauses each do, a filter failure deciding the error; each value is present exactly when its clause is |
| Requests.EvalQueryStmt | src/main/java/com/metadave/eql/parser/runtime/EQLWalker.java:92-146 | a clause failure is reported before the missing client; with all clauses evaluated and no client, the failure is "not connected"; a built request targets the query's key |
| Requests.ApplySortsOk | src/main/java/com/metadave/eql/parser/runtime/EQLWalker.java:128-139 | applying the sort list fails exactly when some entry has no direction |
| Requests.ApplySortsAllDirected | src/main/java/com/metadave/eql/parser/runtime/EQLWalker.java:130-137 | when every entry is ascending or descending, each reaches the request one for one, in order |
| Requests.ApplySortsSkipsUnspecified | src/main/java/com/metadave/eql/parser/runtime/EQLWalker.java:136-137 | an entry with an unspecified direction contributes nothing, wherever it stands |
| Requests.ApplySortsErrPersists | src/main/java/com/metadave/eql/parser/runtime/EQLWalker.java:131 | once a prefix of the sort list fails, the whole list fails with that error |
| Requests.SortClauseApplied | src/main/java/com/metadave/eql/parser/runtime/EQLWalker.java:128-139 | a sort clause with one asc/desc marker per key reaches the request as exactly those keys and directions, in key order |
| Requests.QueryNotConnected | src/main/java/com/metadave/eql/parser/runtime/EQLWalker.java:93-95 | without a client no request is built; once the clauses evaluate, the failure is "not connected" |
| Requests.QueryRequest | src/main/java/com/metadave/eql/parser/runtime/EQLWalker.java:92-139 | the full request of a connected query, clause by clause |
| Requests.EvalHostports | src/main/java/com/metadave/eql/parser/runtime/EQLWalker.java:72-78 | the endpoint list has one endpoint per pair, in order with its host, or fails with the error of some pair's port |
| Requests.EvalConnectStmt | src/main/java/com/metadave/eql/parser/runtime/EQLWalker.java:61-80 | a connection keeps the cluster name and has one endpoint per pair, or fails with the error of some pair's port |
| Requests.HostportsAt | src/main/java/com/metadave/eql/parser/runtime/EQLWalker.java:72-78 | the endpoint list succeeds exactly when every port parses; it then has one endpoint per pair, in declaration order |
| Requests.HostportsFirstErr | src/main/java/com/metadave/eql/parser/runtime/EQLWalker.java:83-87 | the first port that does not parse decides the error |
| Requests.ConnectEndpoints | src/main/java/com/metadave/eql/parser/runtime/EQLWalker.java:61-80 | a connect statement yields one endpoint per host:port pair in order, and the cluster name exactly when one is given |
| Requests.RunStmt | src/main/java/com/metadave/eql/parser/runtime/EQLWalker.java:61-146 | a failing statement changes nothing; a connect installs a client with its cluster name and nothing executed; a query with no client fails; a query on a client keeps its configuration and appends its request exactly when it succeeds |
| Requests.RunScript | src/main/java/com/metadave/eql/parser/runtime/EQLWalker.java:61-146 | once a client exists one always does; a script of queries only leaves no client without one and fails exactly when it is not empty, and on a client keeps the endpoints and extends the executed requests |
| Requests.QueryBeforeConnect | src/main/java/com/metadave/eql/parser/runtime/EQLWalker.java:93-95 | a query before any connect fails and leaves no client |
| Requests.ExecutedGrowsByOne | src/main/java/com/metadave/eql/parser/runtime/EQLWalker.java:92-146 | a query keeps the client's configuration and its executed requests, adding exactly one on success and none on failure |
| Walker.TransportClient.AddTransportAddress | src/main/java/com/metadave/eql/parser/runtime/EQLWalker.java:76-77 | adding an endpoint appends it and changes nothing else |
| Walker.TransportClient.Execute | src/main/java/com/metadave/eql/parser/runtime/EQLWalker.java:143 | executing a request records it once, after the earlier ones |
| Walker.SearchRequestBuilder.AddField | src/main/java/com/metadave/eql/parser/runtime/EQLWalker.java:111-113 | a field is appended to the projection |
| Walker.SearchRequestBuilder.SetSize | src/main/java/com/metadave/eql/parser/runtime/EQLWalker.java:118-120 | the size is set; nothing else changes |
| Walker.SearchRequestBuilder.SetFrom | src/main/java/com/metadave/eql/parser/runtime/EQLWalker.java:122-124 | the offset is set; nothing else changes |
| Walker.SearchRequestBuilder.AddSort | src/main/java/com/metadave/eql/parser/runtime/EQLWalker.java:133-135 | a sort entry is appended |
| Walker.AddFields | src/main/java/com/metadave/eql/parser/runtime/EQLWalker.java:109-114 | the loop adds exactly the listed fields, in order |
| Walker.AddSorts | src/main/java/com/metadave/eql/parser/runtime/EQLWalker.java:128-139 | the loop adds exactly the applied sort entries, in order, or fails as `ApplySorts` does |
| Walker.EqlWalker.SetValue | src/main/java/com/metadave/eql/parser/runtime/EQLWalker.java:52-54 | storing a value replaces only that node's entry |
| Walker.EqlWalker.GetValue | src/main/java/com/metadave/eql/parser/runtime/EQLWalker.java:56-58 | a stored node yields its value; any other node yields no value |
| Walker.EqlWalker.ExitHostport | src/main/java/com/metadave/eql/parser/runtime/EQLWalker.java:83-87 | stores `EvalHostport`'s endpoint, or fails with its error, storing nothing |
| Walker.EqlWalker.ExitConnectStmt | src/main/java/com/metadave/eql/parser/runtime/EQLWalker.java:61-80 | a fresh client replaces the old one, with the given cluster name and the children's endpoints in order, and nothing executed |
| Walker.EqlWalker.ExitAscdesc | src/main/java/com/metadave/eql/parser/runtime/EQLWalker.java:170-178 | stores `AscdescOrder` of the marker |
| Walker.EqlWalker.ExitSortStmt | src/main/java/com/metadave/eql/parser/runtime/EQLWalker.java:150-167 | the two array loops store `SortList` of the keys and the stored directions, or fail as it does |
| Walker.EqlWalker.ExitReturnStmt | src/main/java/com/metadave/eql/parser/runtime/EQLWalker.java:181-196 | stores `EvalReturn`, or fails with its error, storing nothing |
| Walker.EqlWalker.ExitFieldList | src/main/java/com/metadave/eql/parser/runtime/EQLWalker.java:257-263 | the loop stores the field tokens in order |
| Walker.EqlWalker.ExitFilterStmt | src/main/java/com/metadave/eql/parser/runtime/EQLWalker.java:200-204 | the clause's entry is its predicate's entry |
| Walker.EqlWalker.ExitFilterPred | src/main/java/com/metadave/eql/parser/runtime/EQLWalker.java:207-236 | a parenthesised predicate copies its child's entry; a comparison stores its term, attached to the rest clause's stored value when there is a rest clause |
| Walker.EqlWalker.ExitFilterRest | src/main/java/com/metadave/eql/parser/runtime/EQLWalker.java:239-253 | the loops store `Combine` of the AND siblings' and the OR siblings' stored values |
| Walker.EqlWalker.PrepareSearch | src/main/java/com/metadave/eql/parser/runtime/EQLWalker.java:97-139 | the builder steps produce exactly `BuildRequest` of the stored clause values |
| Walker.EqlWalker.ExitQueryStmt | src/main/java/com/metadave/eql/parser/runtime/EQLWalker.java:92-146 | with no client, fails "not connected"; otherwise executes the built request once, or fails as building does, and leaves the endpoints alone |
| Walker.EqlWalker.WalkPred | src/main/java/com/metadave/eql/parser/runtime/EQLWalker.java:207-236 | walking a predicate stores `CompilePred` at its node, or fails with its error, keeping every earlier entry |
| Walker.EqlWalker.WalkRest | src/main/java/com/metadave/eql/parser/runtime/EQLWalker.java:239-253 | walking a rest clause stores `CompileRest`'s value, or no entry when it has none |
| Walker.EqlWalker.WalkSiblings | src/main/java/com/metadave/eql/parser/runtime/EQLWalker.java:240-251 | walking the siblings in textual order leaves each holding its compiled value, or fails at the first failure |
| Walker.StoredInNext | src/main/java/com/metadave/eql/parser/runtime/EQLWalker.java:242-249 | once a sibling holds its compiled value and earlier entries are kept, the first i+1 siblings hold their compiled AND and OR values |
| Walker.EqlWalker.WalkSibling | src/main/java/com/metadave/eql/parser/runtime/EQLWalker.java:242-249 | one more sibling walked extends the stored AND or OR values by its compiled value |
| Walker.EqlWalker.WalkFilterStmt | src/main/java/com/metadave/eql/parser/runtime/EQLWalker.java:200-204 | walking a filter clause stores `CompileFilterStmt` |
| Walker.EqlWalker.WalkSortStmt | src/main/java/com/metadave/eql/parser/runtime/EQLWalker.java:150-178 | walking a sort clause stores `EvalSortStmt` |
| Walker.EqlWalker.WalkConnect | src/main/java/com/metadave/eql/parser/runtime/EQLWalker.java:61-87 | walking a connect statement installs a fresh client in the state `EvalConnectStmt` says, or fails leaving the old client |
| Walker.EqlWalker.WalkClauses | src/main/java/com/metadave/eql/parser/runtime/EQLWalker.java:92-139 | walking a query's clauses stores the values `EvalClauses` computes |
| Walker.EqlWalker.WalkQuery | src/main/java/com/metadave/eql/parser/runtime/EQLWalker.java:92-146 | walking a query statement executes exactly `EvalQueryStmt`'s request on the current client, or fails with its error |
| Walker.EqlWalker.WalkStmt | src/main/java/com/metadave/eql/parser/runtime/EQLWalker.java:61-146 | walking one statement changes the client as `RunStmt` says |
| Walker.EqlWalker.Run | src/main/java/com/metadave/eql/parser/runtime/EQLWalker.java:61-146 | walking a script statement by statement changes the client as `RunScript` says |
| Scenario.FilterOutcome | src/main/java/com/metadave/eql/parser/runtime/EQLWalker.java:207-253 | `level="ERROR" and service="api"` compiles to And[service="api", level="ERROR"] |
| Scenario.SortOutcome | src/main/java/com/metadave/eql/parser/runtime/EQLWalker.java:150-178 | `sort ts desc` gives the one entry (ts, descending) |
| Scenario.QueryOutcome | src/main/java/com/metadave/eql/parser/runtime/EQLWalker.java:92-146 | the example query builds the request on `logs` with that filter, size 20, no offset, no fields and sort [(ts, desc)] |
| Scenario.ConnectOutcome | src/main/java/com/metadave/eql/parser/runtime/EQLWalker.java:61-87 | `connect localhost:9200` gives the one endpoint (localhost, 9200) and no cluster name |
| Scenario.ScriptOutcome | src/main/java/com/metadave/eql/parser/runtime/EQLWalker.java:61-146 | the two statements leave a client with that endpoint and exactly that one executed request |
| Scenario.RunScriptOnWalker | src/main/java/com/metadave/eql/parser/runtime/EQLWalker.java:61-146 | the walker, run on the example script in a fresh session, ends in that same state |

## Left out

- Network execution: `execute().actionGet()` is modelled as appending the request to the client's `executed` log. The response and transport failures are not modelled.
- The console output of the query callback (`System.out.println`) is not modelled.
- Client settings and socket addresses: `ImmutableSettings` becomes the client's optional cluster name, and `InetSocketTransportAddress` becomes a `HostPort` value. Host-name resolution is not modelled. The `IllegalArgumentException` that `InetSocketAddress` raises for a port outside 0–65535 is not modelled either, because that check lives in a library call.
- Clauses.EvalHostport: the 1–65535 port range stated for the language is not enforced, because the code does not check it; any parsed `int` is kept.
- Literals.ParseInt: digits are ASCII `0`–`9` only. `Integer.parseInt` also accepts other Unicode decimal digits.
- Literals.StripQuotes: `ParseUtils` is not part of this model. Its behaviour is taken to be dropping one enclosing pair of double quotes, leaving other text unchanged.
- The `QuerySort` and `HostPort` classes are not part of this model. A new `QuerySort` is taken to have no direction until `setOrderBy` runs.
- Builder aliasing: in the source, appending the level's term to the rest clause's `AndFilterBuilder` also changes the rest clause's stored entry, since both are the same object. The model stores a new value at the predicate and leaves the rest clause's entry as it was. Nothing reads that entry afterwards.
- The grammar is not part of this model. The walks take a query statement's clauses in the order filter, field list, return, sort, so when two clauses fail, the earlier one's error is reported. Host:port pairs, markers and siblings are walked in textual order.
- ANTLR itself (`ParseTreeWalker`, the `enter…` callbacks, `ParseTreeProperty`) is modelled by the `Walk…` methods and the node-keyed map. The casts performed by `getValue` become preconditions that the walks discharge. What happens when a script reuses a node id is not modelled.
- Concurrency: the walk is single-threaded, and no concurrency is modelled.

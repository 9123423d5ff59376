/** The filter tree compiler: the values `exitFilter_pred`,
    `exitFilter_rest` and `exitFilter_stmt` compute, as pure functions of the
    parse tree, and what they guarantee about the compiled tree. */
module Filters {
  import opened Wrappers
  import opened Values
  import opened Literals
  import opened Syntax

  /** The term filter of `name = value`: an integer term for an `intval`
      token, a string term of the quote-stripped text for a `stringval`. */
  function TermOf(name: string, lit: Literal): (r: Result<Filter, Error>)
    ensures r.Ok? ==> r.value.Term? && r.value.field == name
    ensures lit.IntLit? ==> match ParseInt(lit.text)
                            case Ok(i) => r == Ok(Term(name, IntTerm(i)))
                            case Err(e) => r == Err(e)
    ensures lit.StringLit? ==> r == Ok(Term(name, StringTerm(StripQuotes(lit.text))))
  {
    match lit
    case IntLit(t) =>
      var i :- ParseInt(t);
      Ok(Term(name, IntTerm(i)))
    case StringLit(t) => Ok(Term(name, StringTerm(StripQuotes(t))))
  }

  /** Appends a level's own term to the value of its rest clause. A value
      that is neither an And nor an Or node is kept as it is; a rest clause
      without a value leaves the predicate with a null filter. */
  function Attach(rest: Option<Filter>, t: Filter): (f: Filter)
    ensures rest.None? ==> f == NullRef
    ensures rest.Some? && (rest.value.And? || rest.value.Or?) ==>
      && f.And? == rest.value.And? && f.Or? == rest.value.Or?
      && f.children == rest.value.children + [t]
      && Leaves(f) == Leaves(rest.value) + Leaves(t)
    ensures rest.Some? && !rest.value.And? && !rest.value.Or? ==> f == rest.value
  {
    match rest
    case None => NullRef
    case Some(And(cs)) => ChildLeavesAppend(cs, t); And(cs + [t])
    case Some(Or(cs)) => ChildLeavesAppend(cs, t); Or(cs + [t])
    case Some(f) => f
  }

  /** The value of a rest clause from its siblings' values: AND siblings
      take priority over OR siblings; with neither, no value. */
  function Combine(ands: seq<Filter>, ors: seq<Filter>): (r: Option<Filter>)
    ensures r.None? <==> |ands| == 0 && |ors| == 0
    ensures |ands| > 0 ==> r == Some(And(ands))
    ensures |ands| == 0 && |ors| > 0 ==> r == Some(Or(ors))
    ensures r.Some? ==> Leaves(r.value) == ChildLeaves(if |ands| > 0 then ands else ors)
  {
    if |ands| > 0 then Some(And(ands))
    else if |ors| > 0 then Some(Or(ors))
    else None
  }

  /** The value of a filter predicate. Children are evaluated before their
      parent, so a failure in the rest clause is reported before one in the
      level's own value token. */
  function CompilePred(p: FilterPred): (r: Result<Filter, Error>)
    ensures r.Err? ==> r.error.NumberFormat?
    ensures r.Ok? && p.Compare? && p.rest.None? ==> r.value.Term? && r.value.field == p.name
    decreases p, 0
  {
    match p
    case Paren(_, c) => CompilePred(c)
    case Compare(_, name, lit, None) => TermOf(name, lit)
    case Compare(_, name, lit, Some(r)) =>
      var rv :- CompileRest(r);
      var t :- TermOf(name, lit);
      Ok(Attach(rv, t))
  }

  /** The value of a rest clause, or `None` when it sets none. */
  function CompileRest(r: FilterRest): (v: Result<Option<Filter>, Error>)
    ensures v.Err? ==> v.error.NumberFormat?
    ensures v.Ok? ==> (v.value.None? <==> r.items == [])
    decreases r, |r.items| + 1
  {
    var vs :- CompileItems(r, |r.items|);
    Ok(Combine(vs.0, vs.1))
  }

  /** The values of the first `n` siblings, split into the AND-joined and
      the OR-joined ones, each in textual order; the first failure wins. */
  function CompileItems(r: FilterRest, n: nat): (v: Result<(seq<Filter>, seq<Filter>), Error>)
    requires n <= |r.items|
    ensures v.Err? ==> v.error.NumberFormat?
    ensures v.Ok? ==> |v.value.0| + |v.value.1| == n
    decreases r, n
  {
    if n == 0 then Ok(([], []))
    else
      var prev :- CompileItems(r, n - 1);
      var v :- CompilePred(r.items[n - 1].pred);
      Ok(if r.items[n - 1].AndPred? then (prev.0 + [v], prev.1) else (prev.0, prev.1 + [v]))
  }

  /** The value of a `filter_stmt`: its predicate's value, passed up. */
  function CompileFilterStmt(f: FilterStmt): (r: Result<Filter, Error>)
    ensures r.Err? ==> r.error.NumberFormat?
    ensures r.Ok? ==> TermsMatch(Leaves(r.value), Kept(f.pred)) && Shaped(r.value)
  {
    var r := CompilePred(f.pred);
    if r.Ok? then LeavesOfPred(f.pred); ShapedPred(f.pred); r else r
  }

  lemma {:induction false} AndsOrsPartition(items: seq<Joined>)
    ensures |Ands(items)| + |Ors(items)| == |items|
  {
    if items != [] {
      AndsOrsPartition(items[..|items| - 1]);
    }
  }

  lemma AndsPrefix(items: seq<Joined>, n: nat)
    requires 0 < n <= |items|
    ensures Ands(items[..n]) == Ands(items[..n - 1]) + (if items[n - 1].AndPred? then [items[n - 1].pred] else [])
    ensures Ors(items[..n]) == Ors(items[..n - 1]) + (if items[n - 1].OrPred? then [items[n - 1].pred] else [])
  {
    assert items[..n][..n - 1] == items[..n - 1];
  }

  /** The siblings' values line up with the AND and OR siblings in textual
      order, and the siblings compile exactly when each of them does. */
  lemma {:induction false} CompileItemsSiblings(r: FilterRest, n: nat)
    requires n <= |r.items|
    ensures CompileItems(r, n).Ok? <==> forall k :: 0 <= k < n ==> CompilePred(r.items[k].pred).Ok?
    ensures CompileItems(r, n).Ok? ==>
      var ands, ors := Ands(r.items[..n]), Ors(r.items[..n]);
      var vs := CompileItems(r, n).value;
      && |vs.0| == |ands| && |vs.1| == |ors|
      && (forall i :: 0 <= i < |ands| ==> CompilePred(ands[i]) == Ok(vs.0[i]))
      && (forall i :: 0 <= i < |ors| ==> CompilePred(ors[i]) == Ok(vs.1[i]))
  {
    if n > 0 {
      CompileItemsSiblings(r, n - 1);
      AndsPrefix(r.items, n);
    }
  }

  /** The value of a rest clause: an And node of the AND siblings' values
      whenever there is an AND sibling, otherwise an Or node of the OR
      siblings' values, and no value with neither. */
  lemma RestValue(r: FilterRest)
    requires CompileRest(r).Ok?
    ensures var v, ands, ors := CompileRest(r).value, Ands(r.items), Ors(r.items);
      && (|ands| > 0 ==>
            v.Some? && v.value.And? && |v.value.children| == |ands| &&
            forall i :: 0 <= i < |ands| ==> CompilePred(ands[i]) == Ok(v.value.children[i]))
      && (|ands| == 0 && |ors| > 0 ==>
            v.Some? && v.value.Or? && |v.value.children| == |ors| &&
            forall i :: 0 <= i < |ors| ==> CompilePred(ors[i]) == Ok(v.value.children[i]))
      && (v.None? <==> |ands| == 0 && |ors| == 0)
  {
    CompileItemsSiblings(r, |r.items|);
    assert r.items[..|r.items|] == r.items;
  }

  /** A comparison with a rest clause: its own term comes last, after the
      compiled AND siblings (or, with no AND sibling, the OR siblings) in
      textual order; with no sibling at all it is a null filter. */
  lemma CompareWithRest(id: NodeId, name: string, lit: Literal, r: FilterRest)
    requires CompilePred(Compare(id, name, lit, Some(r))).Ok?
    ensures TermOf(name, lit).Ok? && CompileRest(r).Ok?
    ensures var f, t := CompilePred(Compare(id, name, lit, Some(r))).value, TermOf(name, lit).value;
      var ands, ors := Ands(r.items), Ors(r.items);
      && (|ands| > 0 ==>
            f.And? && |f.children| == |ands| + 1 && f.children[|ands|] == t &&
            forall i :: 0 <= i < |ands| ==> CompilePred(ands[i]) == Ok(f.children[i]))
      && (|ands| == 0 && |ors| > 0 ==>
            f.Or? && |f.children| == |ors| + 1 && f.children[|ors|] == t &&
            forall i :: 0 <= i < |ors| ==> CompilePred(ors[i]) == Ok(f.children[i]))
      && (|ands| == 0 && |ors| == 0 ==> f == NullRef)
  {
    RestValue(r);
  }

  /** A comparison without a rest clause is a single term. */
  lemma CompareWithoutRest(id: NodeId, name: string, lit: Literal)
    ensures CompilePred(Compare(id, name, lit, None)) == TermOf(name, lit)
    ensures lit.StringLit? ==>
      CompilePred(Compare(id, name, lit, None)) == Ok(Term(name, StringTerm(StripQuotes(lit.text))))
    ensures lit.IntLit? && ParseInt(lit.text).Ok? ==>
      CompilePred(Compare(id, name, lit, None)) == Ok(Term(name, IntTerm(ParseInt(lit.text).value)))
  {
  }

  /** `p` inside one pair of parentheses per id, innermost last. */
  function Parens(ids: seq<NodeId>, p: FilterPred): FilterPred
  {
    if ids == [] then p else Paren(ids[0], Parens(ids[1..], p))
  }

  /** Parentheses, however deeply nested, do not change a predicate's value. */
  lemma {:induction false} ParensTransparent(ids: seq<NodeId>, p: FilterPred)
    ensures CompilePred(Parens(ids, p)) == CompilePred(p)
  {
    if ids != [] {
      ParensTransparent(ids[1..], p);
    }
  }

  // The terms of a compiled filter, in order.

  function Flatten(ss: seq<seq<Filter>>): seq<Filter>
  {
    if ss == [] then [] else Flatten(ss[..|ss| - 1]) + ss[|ss| - 1]
  }

  /** The term leaves of a filter, left to right; a null filter has none. */
  function Leaves(f: Filter): seq<Filter>
    decreases f, 1
  {
    match f
    case Term(_, _) => [f]
    case NullRef => []
    case And(cs) => ChildLeaves(cs)
    case Or(cs) => ChildLeaves(cs)
  }

  /** The term leaves of a node's children, child by child. */
  function ChildLeaves(cs: seq<Filter>): seq<Filter>
    decreases cs, 0
  {
    Flatten(seq(|cs|, i requires 0 <= i < |cs| => Leaves(cs[i])))
  }

  /** A child appended to a node adds its leaves after the others. */
  lemma ChildLeavesAppend(cs: seq<Filter>, t: Filter)
    ensures ChildLeaves(cs + [t]) == ChildLeaves(cs) + Leaves(t)
  {
    var ds := cs + [t];
    var m := seq(|ds|, i requires 0 <= i < |ds| => Leaves(ds[i]));
    assert m[..|m| - 1] == seq(|cs|, i requires 0 <= i < |cs| => Leaves(cs[i]));
  }

  /** The comparisons whose terms survive compilation, in the order their
      terms appear: the kept siblings' comparisons, then the level's own;
      OR siblings are dropped when an AND sibling exists, and a level whose
      rest clause has no sibling keeps nothing. */
  function Kept(p: FilterPred): seq<FilterPred>
    decreases p, 0
  {
    match p
    case Paren(_, c) => Kept(c)
    case Compare(_, _, _, None) => [p]
    case Compare(_, _, _, Some(r)) =>
      if r.items == [] then [] else KeptItems(r, |r.items|, |Ands(r.items)| > 0) + [p]
  }

  /** The kept comparisons of the first `n` siblings of one kind. */
  function KeptItems(r: FilterRest, n: nat, ands: bool): seq<FilterPred>
    requires n <= |r.items|
    decreases r, n
  {
    if n == 0 then []
    else KeptItems(r, n - 1, ands) + (if r.items[n - 1].AndPred? == ands then Kept(r.items[n - 1].pred) else [])
  }

  /** `leaves` are the terms of the comparisons `preds`, one for one. */
  ghost predicate TermsMatch(leaves: seq<Filter>, preds: seq<FilterPred>)
  {
    |leaves| == |preds| &&
    forall i :: 0 <= i < |preds| ==>
      preds[i].Compare? && TermOf(preds[i].name, preds[i].literal) == Ok(leaves[i])
  }

  lemma TermsMatchAppend(a: seq<Filter>, p: seq<FilterPred>, b: seq<Filter>, q: seq<FilterPred>)
    requires TermsMatch(a, p) && TermsMatch(b, q)
    ensures TermsMatch(a + b, p + q)
  {
    forall i | 0 <= i < |p + q|
      ensures (p + q)[i].Compare? && TermOf((p + q)[i].name, (p + q)[i].literal) == Ok((a + b)[i])
    {
      if i >= |p| {
        assert (p + q)[i] == q[i - |p|] && (a + b)[i] == b[i - |a|];
      }
    }
  }

  /** The terms of a compiled predicate are exactly the terms of its kept
      comparisons, in the same order. */
  lemma {:induction false} LeavesOfPred(p: FilterPred)
    requires CompilePred(p).Ok?
    ensures TermsMatch(Leaves(CompilePred(p).value), Kept(p))
    decreases p, 0
  {
    match p
    case Paren(_, c) =>
      LeavesOfPred(c);
    case Compare(_, name, lit, None) =>
    case Compare(_, name, lit, Some(r)) =>
      var n := |r.items|;
      var vs := CompileItems(r, n).value;
      var t := TermOf(name, lit).value;
      LeavesOfItems(r, n);
      CompileItemsSiblings(r, n);
      AndsOrsPartition(r.items);
      assert r.items[..n] == r.items;
      assert TermsMatch(Leaves(t), [p]);
      if |vs.0| > 0 {
        ChildLeavesAppend(vs.0, t);
        TermsMatchAppend(ChildLeaves(vs.0), KeptItems(r, n, true), Leaves(t), [p]);
      } else if |vs.1| > 0 {
        ChildLeavesAppend(vs.1, t);
        TermsMatchAppend(ChildLeaves(vs.1), KeptItems(r, n, false), Leaves(t), [p]);
      }
  }

  lemma {:induction false} LeavesOfItems(r: FilterRest, n: nat)
    requires n <= |r.items|
    requires CompileItems(r, n).Ok?
    ensures TermsMatch(ChildLeaves(CompileItems(r, n).value.0), KeptItems(r, n, true))
    ensures TermsMatch(ChildLeaves(CompileItems(r, n).value.1), KeptItems(r, n, false))
    decreases r, n
  {
    if n > 0 {
      var prev := CompileItems(r, n - 1).value;
      var q := r.items[n - 1].pred;
      LeavesOfItems(r, n - 1);
      LeavesOfPred(q);
      var v := CompilePred(q).value;
      ChildLeavesAppend(prev.0, v);
      ChildLeavesAppend(prev.1, v);
      if r.items[n - 1].AndPred? {
        TermsMatchAppend(ChildLeaves(prev.0), KeptItems(r, n - 1, true), Leaves(v), Kept(q));
      } else {
        TermsMatchAppend(ChildLeaves(prev.1), KeptItems(r, n - 1, false), Leaves(v), Kept(q));
      }
    }
  }

  /** Every And and Or node has at least two children, and so does every
      node below it. */
  ghost predicate Shaped(f: Filter)
  {
    match f
    case And(cs) => |cs| >= 2 && forall i :: 0 <= i < |cs| ==> Shaped(cs[i])
    case Or(cs) => |cs| >= 2 && forall i :: 0 <= i < |cs| ==> Shaped(cs[i])
    case _ => true
  }

  /** A compiled predicate never holds an empty or single-child And or Or
      node: each one joins at least one sibling with the level's own term. */
  lemma {:induction false} ShapedPred(p: FilterPred)
    requires CompilePred(p).Ok?
    ensures Shaped(CompilePred(p).value)
    decreases p, 0
  {
    match p
    case Paren(_, c) =>
      ShapedPred(c);
    case Compare(_, name, lit, None) =>
    case Compare(_, name, lit, Some(r)) =>
      ShapedItems(r, |r.items|);
  }

  lemma {:induction false} ShapedItems(r: FilterRest, n: nat)
    requires n <= |r.items|
    requires CompileItems(r, n).Ok?
    ensures forall i :: 0 <= i < |CompileItems(r, n).value.0| ==> Shaped(CompileItems(r, n).value.0[i])
    ensures forall i :: 0 <= i < |CompileItems(r, n).value.1| ==> Shaped(CompileItems(r, n).value.1[i])
    decreases r, n
  {
    if n > 0 {
      ShapedItems(r, n - 1);
      ShapedPred(r.items[n - 1].pred);
    }
  }

  /** Once a prefix of the siblings fails, every longer prefix fails with
      the same error. */
  lemma {:induction false} ItemsErrPersists(r: FilterRest, k: nat, n: nat)
    requires k <= n <= |r.items|
    requires CompileItems(r, k).Err?
    ensures CompileItems(r, n) == Err(CompileItems(r, k).error)
    decreases n
  {
    if k < n {
      ItemsErrPersists(r, k, n - 1);
    }
  }
}

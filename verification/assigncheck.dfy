/**
 * The assigncheck analyzer: every assignment that is not a definition, and
 * every increment or decrement, is reported as a re-assignment. The one
 * exception is an assignment whose first right-hand expression is a type
 * assertion. The analyzer walks each file in pre-order and never prunes.
 */
module AssignCheck {
  import opened Wrappers
  import opened GoAst
  import opened Printer

  /** What pass.Reportf records: a position and a formatted message. */
  datatype Diagnostic = Diagnostic(pos: int, message: string)

  const ReassignPrefix: string := "re-assignment of "
  const InlinePrefix: string := "inline re-assignment of "

  /**
   * The statements this analyzer treats as mutating an existing name: every
   * increment/decrement, and every `=` or compound assignment unless the
   * first right-hand expression is a type assertion.
   */
  predicate IsReassignment(n: Node)
  {
    || n.IncDecStmt?
    || (n.AssignStmt? && !n.tok.Define? && !n.rhs[0].TypeAssert?)
  }

  /** The switch in the inspect callback: the diagnostic one node produces, if any. */
  function Classify(n: Node): (d: Option<Diagnostic>)
    ensures d.Some? <==> IsReassignment(n)
    ensures d.Some? ==> d.value.pos == n.pos
  {
    match n
    case AssignStmt(tok, lhs, rhs, pos, _) =>
      if tok == Define then None
      else if rhs[0].TypeAssert? then None
      else Some(Diagnostic(pos, ReassignPrefix + JoinRendered(lhs)))
    case IncDecStmt(x, _, pos, _) =>
      Some(Diagnostic(pos, InlinePrefix + Render(x)))
    case OtherNode(_, _) =>
      None
  }

  /**
   * ast.Inspect with the callback: the node's own diagnostic, then those of
   * its children left to right. The callback returns true on every path, so
   * every subtree is visited.
   */
  function Run(t: Node): (ds: seq<Diagnostic>)
    ensures IsReassignment(t) ==> |ds| >= 1 && ds[0] == Classify(t).value && ds[0].pos == t.pos
  {
    Classify(t).ToSeq() + RunForest(t.children)
  }

  function RunForest(ts: seq<Node>): (ds: seq<Diagnostic>)
  {
    if |ts| == 0 then [] else Run(ts[0]) + RunForest(ts[1..])
  }

  /**
   * A definition `:=` never reports, whatever it shadows and whatever its
   * right-hand side is, and the walk still goes on below it.
   */
  lemma {:induction false} DefineNeverReported(lhs: seq<Expr>, rhs: NonEmptyExprs, pos: int, children: seq<Node>)
    ensures Classify(AssignStmt(Define, lhs, rhs, pos, children)) == None
    ensures Run(AssignStmt(Define, lhs, rhs, pos, children)) == RunForest(children)
  {
  }

  /**
   * An assignment whose first right-hand expression is a type assertion is
   * not reported, whatever its operator, its targets (they need not be the
   * asserted expression) and its other right-hand expressions; the walk
   * still goes on below it.
   */
  lemma {:induction false} TypeAssertionSuppresses(tok: AssignTok, lhs: seq<Expr>, x: Expr, typ: string, rest: seq<Expr>, pos: int, children: seq<Node>)
    ensures Classify(AssignStmt(tok, lhs, [TypeAssert(x, typ)] + rest, pos, children)) == None
    ensures Run(AssignStmt(tok, lhs, [TypeAssert(x, typ)] + rest, pos, children)) == RunForest(children)
  {
  }

  /**
   * Any other `=` or compound assignment is reported once, for the whole
   * statement, at its position, with every target named in order.
   */
  lemma {:induction false} ReassignmentReported(tok: AssignTok, lhs: seq<Expr>, rhs: NonEmptyExprs, pos: int, children: seq<Node>)
    requires !tok.Define? && !rhs[0].TypeAssert?
    ensures Classify(AssignStmt(tok, lhs, rhs, pos, children)) == Some(Diagnostic(pos, ReassignPrefix + JoinRendered(lhs)))
    ensures Run(AssignStmt(tok, lhs, rhs, pos, children)) == [Diagnostic(pos, ReassignPrefix + JoinRendered(lhs))] + RunForest(children)
  {
  }

  /**
   * The message of a reported assignment reads back as its targets: when no
   * rendered target contains a comma (no identifier does), cutting the text
   * after the prefix at each ", " gives exactly the targets, in order.
   */
  lemma {:induction false} ReassignmentNamesTargets(n: Node)
    requires IsReassignment(n) && n.AssignStmt? && |n.lhs| >= 1
    requires forall k :: 0 <= k < |n.lhs| ==> ',' !in Render(n.lhs[k])
    ensures Classify(n).Some?
    ensures ReassignPrefix <= Classify(n).value.message
    ensures Split(Classify(n).value.message[|ReassignPrefix|..]) == RenderAll(n.lhs)
  {
    var m := Classify(n).value.message;
    assert m == ReassignPrefix + JoinRendered(n.lhs);
    assert m[|ReassignPrefix|..] == JoinRendered(n.lhs);
    SplitJoin(RenderAll(n.lhs));
  }

  /** Every increment or decrement is reported, with no exception, naming its operand. */
  lemma {:induction false} IncDecReported(x: Expr, incDec: IncDecTok, pos: int, children: seq<Node>)
    ensures Classify(IncDecStmt(x, incDec, pos, children)) == Some(Diagnostic(pos, InlinePrefix + Render(x)))
    ensures Run(IncDecStmt(x, incDec, pos, children)) == [Diagnostic(pos, InlinePrefix + Render(x))] + RunForest(children)
  {
  }

  /** Any other node reports nothing itself; only what lies below it is reported. */
  lemma {:induction false} OtherNodeSilent(pos: int, children: seq<Node>)
    ensures Classify(OtherNode(pos, children)) == None
    ensures Run(OtherNode(pos, children)) == RunForest(children)
  {
  }

  /** The diagnostics of a list of visited nodes, each classified on its own. */
  function Collect(ns: seq<Node>): (ds: seq<Diagnostic>)
  {
    if |ns| == 0 then [] else Classify(ns[0]).ToSeq() + Collect(ns[1..])
  }

  /** How many of the nodes are re-assignments. */
  function CountReassignments(ns: seq<Node>): nat {
    if |ns| == 0 then 0
    else (if IsReassignment(ns[0]) then 1 else 0) + CountReassignments(ns[1..])
  }

  lemma {:induction false} CollectAppend(a: seq<Node>, b: seq<Node>)
    ensures Collect(a + b) == Collect(a) + Collect(b)
  {
    if |a| == 0 {
      assert a + b == b;
    } else {
      assert (a + b)[1..] == a[1..] + b;
      CollectAppend(a[1..], b);
    }
  }

  /**
   * The traversal is the classification of every node in pre-order: nothing
   * below a definition, a suppressed assignment or any other node is skipped.
   */
  lemma {:induction false} RunIsCollectOfPreOrder(t: Node)
    ensures Run(t) == Collect(PreOrder(t))
  {
    RunForestIsCollectOfPreOrder(t.children);
    assert PreOrder(t)[1..] == PreOrderForest(t.children);
  }

  lemma {:induction false} RunForestIsCollectOfPreOrder(ts: seq<Node>)
    ensures RunForest(ts) == Collect(PreOrderForest(ts))
  {
    if |ts| > 0 {
      RunIsCollectOfPreOrder(ts[0]);
      RunForestIsCollectOfPreOrder(ts[1..]);
      CollectAppend(PreOrder(ts[0]), PreOrderForest(ts[1..]));
    }
  }

  lemma {:induction false} CollectMembership(ns: seq<Node>, d: Diagnostic)
    ensures d in Collect(ns) <==> exists i :: 0 <= i < |ns| && Classify(ns[i]) == Some(d)
  {
    if |ns| > 0 {
      CollectMembership(ns[1..], d);
      if d in Collect(ns[1..]) {
        var i :| 0 <= i < |ns[1..]| && Classify(ns[1..][i]) == Some(d);
        assert Classify(ns[i + 1]) == Some(d);
      }
      if exists i :: 0 <= i < |ns| && Classify(ns[i]) == Some(d) {
        var i :| 0 <= i < |ns| && Classify(ns[i]) == Some(d);
        if i > 0 {
          assert Classify(ns[1..][i - 1]) == Some(d);
        }
      }
    }
  }

  /** A diagnostic is reported iff some node of the tree, at any depth, produces it. */
  lemma {:induction false} RunMembership(t: Node, d: Diagnostic)
    ensures d in Run(t) <==> exists i :: 0 <= i < |PreOrder(t)| && Classify(PreOrder(t)[i]) == Some(d)
  {
    RunIsCollectOfPreOrder(t);
    CollectMembership(PreOrder(t), d);
  }

  lemma {:induction false} CollectLength(ns: seq<Node>)
    ensures |Collect(ns)| == CountReassignments(ns)
  {
    if |ns| > 0 {
      CollectLength(ns[1..]);
    }
  }

  /** One diagnostic per re-assignment in the tree, however deeply nested. */
  lemma {:induction false} RunLength(t: Node)
    ensures |Run(t)| == CountReassignments(PreOrder(t))
  {
    RunIsCollectOfPreOrder(t);
    CollectLength(PreOrder(t));
  }

  predicate PositionsIncrease(ns: seq<Node>) {
    forall i, j :: 0 <= i < j < |ns| ==> ns[i].pos < ns[j].pos
  }

  predicate Ordered(ds: seq<Diagnostic>) {
    forall i, j :: 0 <= i < j < |ds| ==> ds[i].pos < ds[j].pos
  }

  lemma {:induction false} CollectOrdered(ns: seq<Node>)
    requires PositionsIncrease(ns)
    ensures Ordered(Collect(ns))
    ensures forall k :: 0 <= k < |Collect(ns)| ==> ns[0].pos <= Collect(ns)[k].pos
  {
    if |ns| > 0 {
      var rest := ns[1..];
      CollectOrdered(rest);
      var own := Classify(ns[0]).ToSeq();
      assert forall k :: 0 <= k < |Collect(rest)| ==> ns[0].pos < Collect(rest)[k].pos by {
        if |rest| > 0 {
          assert ns[0].pos < ns[1].pos;
        }
      }
      assert Collect(ns) == own + Collect(rest);
    }
  }

  /**
   * When positions grow in visiting order, as they do in a parsed file, the
   * diagnostics come out in strictly increasing position.
   */
  lemma {:induction false} RunOrdered(t: Node)
    requires PositionsIncrease(PreOrder(t))
    ensures Ordered(Run(t))
  {
    RunIsCollectOfPreOrder(t);
    CollectOrdered(PreOrder(t));
  }

  /** A tree without re-assignments, at any depth, produces nothing. */
  lemma {:induction false} NoReassignmentNoDiagnostics(t: Node)
    ensures (forall i :: 0 <= i < |PreOrder(t)| ==> !IsReassignment(PreOrder(t)[i])) <==> Run(t) == []
  {
    RunLength(t);
    CountZero(PreOrder(t));
  }

  lemma {:induction false} CountZero(ns: seq<Node>)
    ensures CountReassignments(ns) == 0 <==> forall i :: 0 <= i < |ns| ==> !IsReassignment(ns[i])
  {
    if |ns| > 0 {
      CountZero(ns[1..]);
      assert forall i :: 1 <= i < |ns| ==> ns[i] == ns[1..][i - 1];
    }
  }

  lemma {:induction false} RunForestAppend(a: seq<Node>, b: seq<Node>)
    ensures RunForest(a + b) == RunForest(a) + RunForest(b)
  {
    if |a| == 0 {
      assert a + b == b;
    } else {
      assert (a + b)[1..] == a[1..] + b;
      RunForestAppend(a[1..], b);
    }
  }

  /** Each file's diagnostics form one contiguous block, between those of the files before and after it. */
  lemma {:induction false} RunForestBlocks(ts: seq<Node>, k: nat)
    requires k < |ts|
    ensures RunForest(ts) == RunForest(ts[..k]) + Run(ts[k]) + RunForest(ts[k + 1..])
  {
    assert ts == ts[..k] + ts[k..];
    RunForestAppend(ts[..k], ts[k..]);
    assert ts[k..][1..] == ts[k + 1..];
  }

  /**
   * The analyzer's run: inspect each file of the pass in turn, appending what
   * each file reports.
   */
  method RunPass(files: seq<Node>) returns (ds: seq<Diagnostic>)
    ensures ds == RunForest(files)
    ensures |ds| == CountReassignments(PreOrderForest(files))
  {
    ds := [];
    var i := 0;
    while i < |files|
      invariant 0 <= i <= |files|
      invariant ds == RunForest(files[..i])
    {
      assert files[..i + 1] == files[..i] + [files[i]];
      RunForestAppend(files[..i], [files[i]]);
      ds := ds + Run(files[i]);
      i := i + 1;
    }
    assert files[..i] == files;
    RunForestIsCollectOfPreOrder(files);
    CollectLength(PreOrderForest(files));
  }
}

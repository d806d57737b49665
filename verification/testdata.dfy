/**
 * The functions of assigncheck/testdata/example.go as syntax trees, and
 * what the analyzer reports for each. Positions are `line * 100 + column`.
 * Where the comments in that file expect less than the analyzer reports,
 * the lemmas here state what the analyzer does.
 */
module TestData {
  import opened Wrappers
  import opened GoAst
  import opened Printer
  import opened AssignCheck

  function At(line: nat, column: nat): int {
    line * 100 + column
  }

  /**
   * A node with nothing below it that is neither an assignment nor an
   * increment/decrement: a statement such as a call or a declaration, or a
   * header clause such as the condition of an `if` or a `for`.
   */
  function Leaf(line: nat, column: nat): Node {
    OtherNode(At(line, column), [])
  }

  function Define1(name: string, value: string, line: nat, column: nat): Node {
    AssignStmt(Define, [Ident(name)], [OtherExpr(value)], At(line, column), [])
  }

  function Compound1(op: CompoundOp, line: nat): Node {
    AssignStmt(Compound(op), [Ident("x")], [OtherExpr("3")], At(line, 2), [])
  }

  /** The diagnostic for an assignment at column 2 of `line` naming `targets`. */
  function Reassigned(targets: string, line: nat): Diagnostic {
    Diagnostic(At(line, 2), "re-assignment of " + targets)
  }

  function Inline(target: string, pos: int): Diagnostic {
    Diagnostic(pos, "inline re-assignment of " + target)
  }

  /** A node with nothing below it reports what it classifies to. */
  lemma {:induction false} RunLeaf(n: Node)
    requires n.children == []
    ensures Run(n) == Classify(n).ToSeq()
  {
    assert RunForest([]) == [];
  }

  /** The walk of a list is the first node's walk followed by the rest's. */
  lemma {:induction false} RunForest1(a: Node)
    ensures RunForest([a]) == Run(a)
  {
    assert [a][1..] == [];
    assert RunForest([a]) == Run(a) + [];
  }

  lemma {:induction false} RunForest2(a: Node, b: Node)
    ensures RunForest([a, b]) == Run(a) + Run(b)
  {
    RunForest1(b);
    assert [a, b][1..] == [b];
  }

  lemma {:induction false} RunForest3(a: Node, b: Node, c: Node)
    ensures RunForest([a, b, c]) == Run(a) + (Run(b) + Run(c))
  {
    RunForest2(b, c);
    assert [a, b, c][1..] == [b, c];
  }

  lemma {:induction false} RunForest4(a: Node, b: Node, c: Node, d: Node)
    ensures RunForest([a, b, c, d]) == Run(a) + (Run(b) + (Run(c) + Run(d)))
  {
    RunForest3(b, c, d);
    assert [a, b, c, d][1..] == [b, c, d];
  }

  lemma {:induction false} RunForest5(a: Node, b: Node, c: Node, d: Node, e: Node)
    ensures RunForest([a, b, c, d, e]) == Run(a) + (Run(b) + (Run(c) + (Run(d) + Run(e))))
  {
    RunForest4(b, c, d, e);
    assert [a, b, c, d, e][1..] == [b, c, d, e];
  }

  /** func Fn: only `x = 6` is reported. */
  lemma ExampleFn()
    ensures Run(OtherNode(At(5, 1), [OtherNode(At(5, 11), [
      Define1("x", "5", 6, 2),
      Leaf(7, 2),
      AssignStmt(Assign, [Ident("x")], [OtherExpr("6")], At(8, 2), []),
      Leaf(9, 2)])]))
      == [Reassigned("x", 8)]
  {
  }

  /** Lines 13-16 of func Fn2: a two-target definition, then a two-target assignment. */
  function Fn2Pairs(): seq<Node> {
    [AssignStmt(Define, [Ident("x"), Ident("y")], [OtherExpr("5"), OtherExpr("6")], At(13, 2), []),
     Leaf(14, 2),
     AssignStmt(Assign, [Ident("x"), Ident("y")], [OtherExpr("6"), Ident("x")], At(15, 2), []),
     Leaf(16, 2)]
  }

  /** Lines 18-22 of func Fn2: `x++`, `x += 5`, `x -= 5`. */
  function Fn2IncAdd(): seq<Node> {
    [IncDecStmt(Ident("x"), Inc, At(18, 2), []),
     Leaf(19, 2),
     AssignStmt(Compound(AddAssign), [Ident("x")], [OtherExpr("5")], At(20, 2), []),
     Leaf(21, 2),
     AssignStmt(Compound(SubAssign), [Ident("x")], [OtherExpr("5")], At(22, 2), [])]
  }

  /** Lines 23-27 of func Fn2: `*=`, `/=`, `%=`, `&=`, `|=`. */
  function Fn2Arith(): seq<Node> {
    [Compound1(MulAssign, 23), Compound1(QuoAssign, 24), Compound1(RemAssign, 25),
     Compound1(AndAssign, 26), Compound1(OrAssign, 27)]
  }

  /** Lines 28-31 of func Fn2: `^=`, `<<=`, `>>=`, `&^=`. */
  function Fn2Bits(): seq<Node> {
    [Compound1(XorAssign, 28), Compound1(ShlAssign, 29), Compound1(ShrAssign, 30),
     Compound1(AndNotAssign, 31)]
  }

  /** Lines 33-41 of func Fn2: a block whose `x := 5` shadows the outer `x`, then declarations. */
  function Fn2Shadow(): seq<Node> {
    [Leaf(33, 2),
     OtherNode(At(34, 2), [Define1("x", "5", 35, 3), Leaf(36, 3)]),
     Leaf(39, 2),
     Leaf(40, 2),
     Leaf(41, 2)]
  }

  /** Lines 45-48 of func Fn2: `if _, ok := z.(int); !ok { … }`. */
  function Fn2Assertion(): seq<Node> {
    [OtherNode(At(45, 2), [
       AssignStmt(Define, [Ident("_"), Ident("ok")], [TypeAssert(Ident("z"), "int")], At(45, 5), []),
       Leaf(45, 23),
       OtherNode(At(45, 27), [Leaf(46, 3)])]),
     Leaf(48, 2)]
  }

  /** Lines 50-53 of func Fn2: `s := test()` then `s = test()`. */
  function Fn2Call(): seq<Node> {
    [Define1("s", "test()", 50, 2),
     Leaf(51, 2),
     AssignStmt(Assign, [Ident("s")], [OtherExpr("test()")], At(52, 2), []),
     Leaf(53, 2)]
  }

  lemma TargetsXY()
    ensures JoinRendered([Ident("x"), Ident("y")]) == "x, y"
  {
    assert RenderAll([Ident("x"), Ident("y")]) == ["x", "y"];
    assert ["x", "y"][1..] == ["y"];
  }

  /** The two-target assignment of func Fn2 is reported once, naming both targets in order. */
  lemma ExampleFn2Pairs()
    ensures RunForest(Fn2Pairs()) == [Reassigned("x, y", 15)]
  {
    var a := Fn2Pairs();
    assert a == [a[0], a[1], a[2], a[3]];
    RunForest4(a[0], a[1], a[2], a[3]);
    RunLeaf(a[0]); RunLeaf(a[1]); RunLeaf(a[2]); RunLeaf(a[3]);
    TargetsXY();
  }

  /** `x++`, `x += 5` and `x -= 5` in func Fn2 are each reported. */
  lemma ExampleFn2IncAdd()
    ensures RunForest(Fn2IncAdd()) == [Inline("x", At(18, 2)), Reassigned("x", 20), Reassigned("x", 22)]
  {
    var b := Fn2IncAdd();
    assert b == [b[0], b[1], b[2], b[3], b[4]];
    RunForest5(b[0], b[1], b[2], b[3], b[4]);
    RunLeaf(b[0]); RunLeaf(b[1]); RunLeaf(b[2]); RunLeaf(b[3]); RunLeaf(b[4]);
    assert RenderAll([Ident("x")]) == ["x"];
    assert Run(b[0]) == [Inline("x", At(18, 2))];
    assert Run(b[2]) == [Reassigned("x", 20)];
    assert Run(b[4]) == [Reassigned("x", 22)];
  }

  lemma {:induction false} Compound1Report(op: CompoundOp, line: nat)
    ensures Run(Compound1(op, line)) == [Reassigned("x", line)]
  {
    RunLeaf(Compound1(op, line));
    assert RenderAll([Ident("x")]) == ["x"];
    assert Join(["x"]) == "x";
  }

  /** `*=`, `/=`, `%=`, `&=` and `|=` in func Fn2 are each reported. */
  lemma ExampleFn2Arith()
    ensures RunForest(Fn2Arith()) == [Reassigned("x", 23), Reassigned("x", 24), Reassigned("x", 25),
                                      Reassigned("x", 26), Reassigned("x", 27)]
  {
    Compound1Report(MulAssign, 23);
    Compound1Report(QuoAssign, 24);
    Compound1Report(RemAssign, 25);
    Compound1Report(AndAssign, 26);
    Compound1Report(OrAssign, 27);
    RunForest5(Compound1(MulAssign, 23), Compound1(QuoAssign, 24), Compound1(RemAssign, 25),
               Compound1(AndAssign, 26), Compound1(OrAssign, 27));
  }

  /** `^=`, `<<=`, `>>=` and `&^=` in func Fn2 are each reported. */
  lemma ExampleFn2Bits()
    ensures RunForest(Fn2Bits()) == [Reassigned("x", 28), Reassigned("x", 29), Reassigned("x", 30),
                                     Reassigned("x", 31)]
  {
    Compound1Report(XorAssign, 28);
    Compound1Report(ShlAssign, 29);
    Compound1Report(ShrAssign, 30);
    Compound1Report(AndNotAssign, 31);
    RunForest4(Compound1(XorAssign, 28), Compound1(ShlAssign, 29), Compound1(ShrAssign, 30),
               Compound1(AndNotAssign, 31));
  }

  /** The definition in the inner block of func Fn2 shadows `x` and is not reported. */
  lemma ExampleFn2Shadow()
    ensures RunForest(Fn2Shadow()) == []
  {
    var e := Fn2Shadow();
    assert e == [e[0], e[1], e[2], e[3], e[4]];
    RunForest5(e[0], e[1], e[2], e[3], e[4]);
    RunLeaf(e[0]); RunLeaf(e[2]); RunLeaf(e[3]); RunLeaf(e[4]);
    var inner := e[1].children;
    assert inner == [inner[0], inner[1]];
    RunForest2(inner[0], inner[1]);
    RunLeaf(inner[0]); RunLeaf(inner[1]);
  }

  /** `_, ok := z.(int)` in the if header of func Fn2 is not reported. */
  lemma ExampleFn2Assertion()
    ensures RunForest(Fn2Assertion()) == []
  {
    var f := Fn2Assertion();
    assert f == [f[0], f[1]];
    RunForest2(f[0], f[1]);
    RunLeaf(f[1]);
    var header := f[0].children;
    assert header == [header[0], header[1], header[2]];
    RunForest3(header[0], header[1], header[2]);
    RunLeaf(header[0]); RunLeaf(header[1]);
    var body := header[2].children;
    assert body == [body[0]];
    RunForest1(body[0]);
    RunLeaf(body[0]);
  }

  /** `s = test()` in func Fn2 is reported. */
  lemma ExampleFn2Call()
    ensures RunForest(Fn2Call()) == [Reassigned("s", 52)]
  {
    var g := Fn2Call();
    assert g == [g[0], g[1], g[2], g[3]];
    RunForest4(g[0], g[1], g[2], g[3]);
    RunLeaf(g[0]); RunLeaf(g[1]); RunLeaf(g[2]); RunLeaf(g[3]);
    assert RenderAll(g[2].lhs) == ["s"];
  }

  /** func Loop, lines 56-63: the for statement, then two assignments to the blank identifier. */
  function LoopBody(): seq<Node> {
    [OtherNode(At(57, 2), [
       Define1("x", "0", 57, 6),
       Leaf(57, 14),
       IncDecStmt(Ident("x"), Inc, At(57, 21), []),
       OtherNode(At(57, 25), [Leaf(58, 3)])]),
     AssignStmt(Assign, [Ident("_")], [OtherExpr("\"hello\"")], At(61, 2), []),
     AssignStmt(Assign, [Ident("_")], [OtherExpr("\"world\"")], At(62, 2), [])]
  }

  function LoopFn(): Node {
    OtherNode(At(56, 1), [OtherNode(At(56, 13), LoopBody())])
  }

  /** The for statement of func Loop reports only its post statement `x++`. */
  lemma ExampleLoopFor()
    ensures Run(LoopBody()[0]) == [Inline("x", At(57, 21))]
  {
    var f := LoopBody()[0];
    var header := f.children;
    assert header == [header[0], header[1], header[2], header[3]];
    RunForest4(header[0], header[1], header[2], header[3]);
    RunLeaf(header[0]); RunLeaf(header[1]); RunLeaf(header[2]);
    var body := header[3].children;
    assert body == [body[0]];
    RunForest1(body[0]);
    RunLeaf(body[0]);
    assert Run(header[3]) == [];
    assert Run(f) == Classify(f).ToSeq() + RunForest(header);
  }

  /**
   * func Loop: the post statement `x++` of the for header is reported. The
   * two assignments to the blank identifier are reported too: this analyzer
   * has no exception for `_`, although the file's comment asks for one.
   */
  lemma ExampleLoop()
    ensures Run(LoopFn()) == [Inline("x", At(57, 21)), Reassigned("_", 61), Reassigned("_", 62)]
  {
    var b := LoopBody();
    assert b == [b[0], b[1], b[2]];
    RunForest3(b[0], b[1], b[2]);
    ExampleLoopFor();
    RunLeaf(b[1]); RunLeaf(b[2]);
    assert RenderAll(b[1].lhs) == ["_"];
    assert RenderAll(b[2].lhs) == ["_"];
    var inner := OtherNode(At(56, 13), b);
    RunForest1(inner);
    assert Run(inner) == RunForest(b);
    RunForest1(LoopFn().children[0]);
  }

  /**
   * `for i = 0; i < n; <post> {}`: the callback has no case for loops, so a
   * header reports through the statements it holds, its init as well as its
   * post statement.
   */
  function ForHeader(post: Node): Node {
    OtherNode(At(1, 1), [
      AssignStmt(Assign, [Ident("i")], [OtherExpr("0")], At(1, 5), []),
      Leaf(1, 12),
      post,
      OtherNode(At(1, 26), [])])
  }

  /** `for i = 0; i < n; i++ {}` reports the init `i = 0` and the post `i++`. */
  lemma ForHeaderInitAndIncrement()
    ensures Run(ForHeader(IncDecStmt(Ident("i"), Inc, At(1, 19), [])))
      == [Diagnostic(At(1, 5), ReassignPrefix + "i"), Inline("i", At(1, 19))]
  {
    var f := ForHeader(IncDecStmt(Ident("i"), Inc, At(1, 19), []));
    var h := f.children;
    RunForest4(h[0], h[1], h[2], h[3]);
    RunLeaf(h[0]); RunLeaf(h[1]); RunLeaf(h[2]); RunLeaf(h[3]);
    assert RenderAll(h[0].lhs) == ["i"];
    assert Run(f) == RunForest(h);
  }

  /** `for i = 0; i < n; i += 2 {}` reports both clauses, the post with the plain message. */
  lemma ForHeaderInitAndCompound()
    ensures Run(ForHeader(AssignStmt(Compound(AddAssign), [Ident("i")], [OtherExpr("2")], At(1, 19), [])))
      == [Diagnostic(At(1, 5), ReassignPrefix + "i"), Diagnostic(At(1, 19), ReassignPrefix + "i")]
  {
    var f := ForHeader(AssignStmt(Compound(AddAssign), [Ident("i")], [OtherExpr("2")], At(1, 19), []));
    var h := f.children;
    RunForest4(h[0], h[1], h[2], h[3]);
    RunLeaf(h[0]); RunLeaf(h[1]); RunLeaf(h[2]); RunLeaf(h[3]);
    assert RenderAll(h[0].lhs) == ["i"];
    assert RenderAll(h[2].lhs) == ["i"];
    assert Run(f) == RunForest(h);
  }

  /** Lines 70-82 of func AnonFuncDecl: `f` declared, then assigned a literal; `g` declared with one. */
  function AnonFuncF(): seq<Node> {
    [Leaf(70, 2),
     AssignStmt(Assign, [Ident("f")], [OtherExpr("func(i int) int {…}")], At(71, 2), [
       OtherNode(At(71, 22), [OtherNode(At(72, 3), [Leaf(73, 4)]), Leaf(75, 3)])]),
     OtherNode(At(78, 2), [OtherNode(At(78, 40), [Leaf(79, 3)])]),
     Leaf(82, 2)]
  }

  /** Lines 84-91 of func AnonFuncDecl: `h` declared, a definition, then `h` assigned a literal. */
  function AnonFuncH(): seq<Node> {
    [Leaf(84, 2),
     Define1("x", "5", 85, 2),
     AssignStmt(Assign, [Ident("h")], [OtherExpr("func(i int) int {…}")], At(87, 2), [
       OtherNode(At(87, 22), [Leaf(88, 3)])]),
     Leaf(91, 2)]
  }

  /** Lines 93-99 of func AnonFuncDecl: `f2` declared, then assigned a literal. */
  function AnonFuncF2(): seq<Node> {
    [Leaf(93, 2),
     AssignStmt(Assign, [Ident("f2")], [OtherExpr("func(i int) int {…}")], At(95, 2), [
       OtherNode(At(95, 23), [Leaf(96, 3)])]),
     Leaf(99, 2)]
  }

  function AnonFuncDecl(): Node {
    OtherNode(At(69, 1), [OtherNode(At(69, 21), AnonFuncF() + AnonFuncH() + AnonFuncF2())])
  }

  lemma AnonFuncFReport()
    ensures RunForest(AnonFuncF()) == [Reassigned("f", 71)]
  {
    var a := AnonFuncF();
    assert a == [a[0], a[1], a[2], a[3]];
    RunForest4(a[0], a[1], a[2], a[3]);
    RunLeaf(a[0]); RunLeaf(a[3]);
    assert RenderAll(a[1].lhs) == ["f"];
    var literal := a[1].children[0];
    RunForest1(literal);
    RunForest2(literal.children[0], literal.children[1]);
    RunForest1(literal.children[0].children[0]);
    RunLeaf(literal.children[0].children[0]);
    RunLeaf(literal.children[1]);
    var g := a[2].children[0];
    RunForest1(g);
    RunForest1(g.children[0]);
    RunLeaf(g.children[0]);
  }

  lemma AnonFuncHReport()
    ensures RunForest(AnonFuncH()) == [Reassigned("h", 87)]
  {
    var b := AnonFuncH();
    assert b == [b[0], b[1], b[2], b[3]];
    RunForest4(b[0], b[1], b[2], b[3]);
    RunLeaf(b[0]); RunLeaf(b[1]); RunLeaf(b[3]);
    assert RenderAll(b[2].lhs) == ["h"];
    var literal := b[2].children[0];
    RunForest1(literal);
    RunForest1(literal.children[0]);
    RunLeaf(literal.children[0]);
  }

  lemma AnonFuncF2Report()
    ensures RunForest(AnonFuncF2()) == [Reassigned("f2", 95)]
  {
    var c := AnonFuncF2();
    assert c == [c[0], c[1], c[2]];
    RunForest3(c[0], c[1], c[2]);
    RunLeaf(c[0]); RunLeaf(c[2]);
    assert RenderAll(c[1].lhs) == ["f2"];
    var literal := c[1].children[0];
    RunForest1(literal);
    RunForest1(literal.children[0]);
    RunLeaf(literal.children[0]);
  }

  /**
   * func AnonFuncDecl: every assignment of a function literal to a variable
   * is reported, whether or not it directly follows the declaration. The
   * file expects only `h = …` to be reported; this analyzer has no exception
   * for `f = …` or `f2 = …`. The declaration `var g … = func…` is not an
   * assignment statement.
   */
  lemma ExampleAnonFuncDecl()
    ensures Run(AnonFuncDecl()) == [Reassigned("f", 71), Reassigned("h", 87), Reassigned("f2", 95)]
  {
    var a, b, c := AnonFuncF(), AnonFuncH(), AnonFuncF2();
    AnonFuncFReport();
    AnonFuncHReport();
    AnonFuncF2Report();
    RunForestAppend(a, b);
    RunForestAppend(a + b, c);
    var inner := OtherNode(At(69, 21), a + b + c);
    RunForest1(inner);
    assert Run(AnonFuncDecl()) == RunForest(a + b + c);
  }

  /**
   * The type-assertion exception is wider than the comment above it says
   * (`x = x.(T)`): it also covers a target other than the asserted name,
   * and a compound operator.
   */
  lemma TypeAssertionOfAnotherName()
    ensures Classify(AssignStmt(Assign, [Ident("ok")], [TypeAssert(Ident("z"), "int")], At(1, 1), [])) == None
    ensures Classify(AssignStmt(Compound(AddAssign), [Ident("x")], [TypeAssert(Ident("y"), "int")], At(1, 1), [])) == None
  {
  }

  /** Only a bare type assertion counts: `x = (x.(T))` is reported. */
  lemma ParenthesisedTypeAssertion()
    ensures Classify(AssignStmt(Assign, [Ident("x")], [Paren(TypeAssert(Ident("x"), "T"))], At(1, 1), []))
         == Some(Diagnostic(At(1, 1), "re-assignment of " + Join(["x"])))
  {
  }

  /** Only the first right-hand expression is looked at: `a, x = 1, x.(T)` is reported. */
  lemma TypeAssertionInSecondPlace()
    ensures Classify(AssignStmt(Assign, [Ident("a"), Ident("x")], [OtherExpr("1"), TypeAssert(Ident("x"), "T")], At(1, 1), []))
         == Some(Diagnostic(At(1, 1), "re-assignment of " + Join(["a", "x"])))
  {
  }
}

/**
 * Rendering of expressions into the text of a diagnostic: `renderIncDec`
 * prints one expression, `renderExpressions` prints a list of them joined
 * by ", ".
 */
module Printer {
  import opened GoAst

  /** What renderExpressions writes between two consecutive expressions. */
  const Separator: string := ", "

  /**
   * The printer's output for one expression. Identifiers print as their
   * name; the other shapes print structurally around their operands. Like
   * go/printer, a parenthesised expression that is already parenthesised
   * gets no second pair of parentheses.
   */
  function Render(e: Expr): (r: string)
    ensures e.Paren? ==> |r| >= 2 && r[0] == '(' && r[|r| - 1] == ')'
  {
    match e
    case Ident(name) => name
    case TypeAssert(x, typ) => Render(x) + ".(" + typ + ")"
    case Paren(inner) => if inner.Paren? then Render(inner) else "(" + Render(inner) + ")"
    case OtherExpr(text) => text
  }

  /** `e` wrapped in `depth` pairs of parentheses. */
  function Parenthesise(e: Expr, depth: nat): Expr {
    if depth == 0 then e else Paren(Parenthesise(e, depth - 1))
  }

  /** `e` with its outer parentheses, however many, removed. */
  function Unparen(e: Expr): Expr {
    if e.Paren? then Unparen(e.inner) else e
  }

  /**
   * However deeply an expression is parenthesised, it prints with exactly
   * the one pair of parentheses it would get when parenthesised once.
   */
  lemma {:induction false} RenderNestedParens(e: Expr, depth: nat)
    ensures Render(Parenthesise(e, depth + 1)) == Render(Paren(Unparen(e)))
    decreases depth, e
  {
    if depth > 0 {
      RenderNestedParens(e, depth - 1);
    } else if e.Paren? {
      RenderNestedParens(e.inner, 0);
    }
  }

  function RenderAll(xs: seq<Expr>): (rs: seq<string>)
    ensures |rs| == |xs|
    ensures forall i :: 0 <= i < |xs| ==> rs[i] == Render(xs[i])
  {
    if |xs| == 0 then [] else [Render(xs[0])] + RenderAll(xs[1..])
  }

  function SumLengths(parts: seq<string>): nat {
    if |parts| == 0 then 0 else |parts[0]| + SumLengths(parts[1..])
  }

  predicate EndsWith(s: string, suffix: string) {
    |suffix| <= |s| && s[|s| - |suffix|..] == suffix
  }

  /** The parts with the separator between each two consecutive ones. */
  function Join(parts: seq<string>): string {
    if |parts| == 0 then ""
    else if |parts| == 1 then parts[0]
    else parts[0] + Separator + Join(parts[1..])
  }

  /**
   * Nothing for no parts, the part itself for one part, and otherwise a
   * separator between each two consecutive parts: the joined length is the
   * parts' lengths plus one separator fewer than there are parts.
   */
  lemma {:induction false} JoinLength(parts: seq<string>)
    ensures |parts| == 0 ==> Join(parts) == ""
    ensures |parts| == 1 ==> Join(parts) == parts[0]
    ensures |parts| >= 1 ==> |Join(parts)| == SumLengths(parts) + |Separator| * (|parts| - 1)
  {
    if |parts| >= 2 {
      JoinLength(parts[1..]);
    }
  }

  /** No separator at either end: the text starts with the first part and ends with the last. */
  lemma {:induction false} JoinEnds(parts: seq<string>)
    requires |parts| >= 1
    ensures parts[0] <= Join(parts)
    ensures EndsWith(Join(parts), parts[|parts| - 1])
  {
    if |parts| >= 2 {
      var rest := Join(parts[1..]);
      JoinEnds(parts[1..]);
      var r := parts[0] + Separator + rest;
      assert r[|r| - |rest|..] == rest;
      assert parts[1..][|parts| - 2] == parts[|parts| - 1];
    }
  }

  /** The text renderExpressions produces for a list of expressions. */
  function JoinRendered(xs: seq<Expr>): string {
    Join(RenderAll(xs))
  }

  /** Appending one part to a non-empty list appends one separator and the part. */
  lemma {:induction false} JoinSnoc(parts: seq<string>, p: string)
    requires |parts| >= 1
    ensures Join(parts + [p]) == Join(parts) + Separator + p
  {
    if |parts| == 1 {
      assert (parts + [p])[1..] == [p];
    } else {
      assert (parts + [p])[1..] == parts[1..] + [p];
      JoinSnoc(parts[1..], p);
    }
  }

  /**
   * renderExpressions as the source writes it: print each expression into a
   * buffer and follow it with ", " unless it is the last one.
   */
  method RenderExpressions(xs: seq<Expr>) returns (s: string)
    ensures s == JoinRendered(xs)
  {
    s := "";
    var i := 0;
    while i < |xs|
      invariant 0 <= i <= |xs|
      invariant s == Join(RenderAll(xs[..i])) + (if 0 < i < |xs| then Separator else "")
    {
      assert RenderAll(xs[..i + 1]) == RenderAll(xs[..i]) + [Render(xs[i])];
      if i > 0 {
        JoinSnoc(RenderAll(xs[..i]), Render(xs[i]));
      }
      s := s + Render(xs[i]);
      if !(|xs| - 1 == i) {
        s := s + Separator;
      }
      i := i + 1;
    }
    assert xs[..i] == xs;
  }

  lemma {:induction false} JoinCons(head: string, parts: seq<string>)
    requires |parts| >= 1
    ensures Join([head] + parts) == head + Separator + Join(parts)
  {
    assert ([head] + parts)[1..] == parts;
  }

  /** The index of the first ',' in `s`, or |s| when there is none. */
  function FirstComma(s: string): (i: nat)
    ensures i <= |s|
    ensures i < |s| ==> s[i] == ','
    ensures forall k :: 0 <= k < i ==> s[k] != ','
  {
    if |s| == 0 then 0 else if s[0] == ',' then 0 else 1 + FirstComma(s[1..])
  }

  /**
   * Reads a joined list back: cuts `s` at every ',' and drops the separator
   * that starts there.
   */
  function Split(s: string): (parts: seq<string>)
    ensures |parts| >= 1
    ensures forall k :: 0 <= k < |parts| ==> ',' !in parts[k]
    decreases |s|
  {
    var i := FirstComma(s);
    if i == |s| then [s]
    else [s[..i]] + Split(if i + |Separator| <= |s| then s[i + |Separator|..] else "")
  }

  lemma {:induction false} FirstCommaAfter(a: string, b: string)
    requires ',' !in a
    ensures FirstComma(a + b) == |a| + FirstComma(b)
  {
    if |a| == 0 {
      assert a + b == b;
    } else {
      assert (a + b)[0] == a[0];
      assert (a + b)[1..] == a[1..] + b;
      FirstCommaAfter(a[1..], b);
    }
  }

  /**
   * Joining is undone by splitting, as long as no part contains a comma (no
   * identifier does): the joined text determines every part and its order.
   */
  lemma {:induction false} SplitJoin(parts: seq<string>)
    requires |parts| >= 1
    requires forall k :: 0 <= k < |parts| ==> ',' !in parts[k]
    ensures Split(Join(parts)) == parts
  {
    var p := parts[0];
    if |parts| == 1 {
      FirstCommaAfter(p, "");
      assert p + "" == p;
      assert FirstComma(p) == |p|;
    } else {
      var rest := Join(parts[1..]);
      var s := p + Separator + rest;
      assert Join(parts) == s;
      FirstCommaAfter(p, Separator + rest);
      assert p + (Separator + rest) == s;
      assert FirstComma(Separator + rest) == 0;
      assert FirstComma(s) == |p|;
      assert s[..|p|] == p;
      assert s[|p| + |Separator|..] == rest;
      assert Split(s) == [p] + Split(rest);
      SplitJoin(parts[1..]);
    }
  }

  /** Every ',' in `s` is followed by a space, as in the separator. */
  predicate CommasSeparate(s: string) {
    forall k :: 0 <= k < |s| && s[k] == ',' ==> Separator <= s[k..]
  }

  /** In the other direction: text whose commas all start a separator is the join of its parts. */
  lemma {:induction false} CommasSeparateSuffix(s: string, j: nat)
    requires CommasSeparate(s) && j <= |s|
    ensures CommasSeparate(s[j..])
  {
    var tail := s[j..];
    forall k | 0 <= k < |tail| && tail[k] == ','
      ensures Separator <= tail[k..]
    {
      assert s[j + k] == ',';
      assert tail[k..] == s[j + k..];
    }
  }

  lemma {:induction false} SplitAtSeparator(s: string, i: nat)
    requires i + |Separator| <= |s| && Separator <= s[i..]
    ensures s == s[..i] + Separator + s[i + |Separator|..]
  {
    assert s[i..] == Separator + s[i + |Separator|..];
    assert s == s[..i] + s[i..];
  }

  lemma {:induction false} JoinSplit(s: string)
    requires CommasSeparate(s)
    ensures Join(Split(s)) == s
    decreases |s|
  {
    var i := FirstComma(s);
    if i == |s| {
      assert Split(s) == [s];
    } else {
      assert Separator <= s[i..];
      var head := s[..i];
      var tail := s[i + |Separator|..];
      assert Split(s) == [head] + Split(tail);
      CommasSeparateSuffix(s, i + |Separator|);
      JoinSplit(tail);
      JoinCons(head, Split(tail));
      SplitAtSeparator(s, i);
    }
  }
}

# assigncheck, modelled in Dafny

`assigncheck` is a Go analyzer, a single lint rule. It walks each parsed
file of a package and reports every statement that mutates an existing
name:

- an assignment with `=` or a compound operator (`+=` … `&^=`) gets
  `re-assignment of <targets>`, where the targets are printed and joined
  by `", "`;
- an increment or decrement gets `inline re-assignment of <operand>`.

There are two exceptions, both in the inspect callback. A definition `:=`
is never reported. An assignment whose first right-hand expression is a
type assertion `e.(T)` is not reported either. The callback returns `true`
on every path, so the walk visits every subtree, including those below
exempt statements.

The model has five modules:

- `Wrappers` (`wrappers.dfy`): the `Option` a classification returns.
- `GoAst` (`goast.dfy`): the part of the Go syntax tree the analyzer
  inspects, and the pre-order in which `ast.Inspect` visits it. The parser
  never builds an assignment without a right-hand side, so `rhs` has the
  subset type `NonEmptyExprs`; the callback's `as.Rhs[0]` relies on this.
- `Printer` (`printer.dfy`): printing of expressions, `renderExpressions`
  as the source writes it (a loop over a buffer), the `", "` join it
  computes, and a `Split` that reads a joined list back.
- `AssignCheck` (`assigncheck.dfy`): `Classify` (the type switch of the
  callback), `Run` (the recursive pre-order walk of one file) and
  `RunPass` (the loop over the pass's files), with the properties of the
  walk.
- `TestData` (`testdata.dfy`): the functions of
  `assigncheck/testdata/example.go` as trees, and what this analyzer
  reports for each.

## What this version does not do

The test file and the comments in the source expect more exceptions than
this version of the analyzer implements. The model follows the code.
Lemmas in `TestData` pin down each gap:

- The blank identifier is not exempt. `_ = "world"` is reported
  (`TestData.ExampleLoop`), although the test file's comment says it
  should be ignored.
- Assigning a function literal right after `var f func…` is reported
  (`TestData.ExampleAnonFuncDecl`). The test file expects only `h = …` to
  be reported.
- The type-assertion exception is wider than its comment (`x = x.(T)`).
  Any first right-hand type assertion suppresses the statement, whatever
  the targets and whatever the operator. So `ok = z.(int)` and
  `x += y.(int)` are not reported (`TestData.TypeAssertionOfAnotherName`),
  although neither has the commented form.
- There is no rule for loops. A `for` header reports only through the
  statements it contains, its init and its post, each classified like any
  other statement: `for i = 0; i < n; i++ {}` reports both `i = 0` and
  `i++` (`TestData.ForHeaderInitAndIncrement`). Range loops report nothing
  by themselves.
- Diagnostics carry a position and a message only, with no category. No
  scopes or bindings are resolved, so no rule depends on where a name was
  declared.

## Model

| member | source | states |
|---|---|---|
| `AssignCheck.Classify` | assigncheck/assigncheck.go:22-45 | A node yields a diagnostic exactly when it is a re-assignment: an inc/dec statement, or an assignment that is neither `:=` nor has a type assertion as its first right-hand expression. The diagnostic sits at the node's position. |
| `AssignCheck.Run` | assigncheck/assigncheck.go:21-47 | The walk of one file. When the root is a re-assignment, its own diagnostic (its position and its message) comes first, before anything below it (pre-order). |
| `AssignCheck.DefineNeverReported` | assigncheck/assigncheck.go:24-27 | A `:=` statement is never reported, whatever its targets and values. The walk still reports everything below it. |
| `AssignCheck.TypeAssertionSuppresses` | assigncheck/assigncheck.go:29-35 | With a type assertion as the first right-hand expression, the statement is not reported. This holds for any operator, any targets and any further right-hand expressions. The walk still descends. |
| `AssignCheck.ReassignmentReported` | assigncheck/assigncheck.go:37-39 | Any other `=` or compound assignment yields one diagnostic for the whole statement, at its position: `re-assignment of ` followed by the joined targets. |
| `AssignCheck.ReassignmentNamesTargets` | assigncheck/assigncheck.go:37-39 | The message of a reported assignment starts with `re-assignment of `. When no printed target contains a comma, the rest splits back into exactly the targets, in left-hand-side order. |
| `AssignCheck.IncDecReported` | assigncheck/assigncheck.go:41-44 | Every increment or decrement is reported, with no exception: `inline re-assignment of ` followed by the printed operand. |
| `AssignCheck.OtherNodeSilent` | assigncheck/assigncheck.go:22-46 | A node that is neither an assignment nor an inc/dec reports nothing itself. Only what lies below it is reported. |
| `AssignCheck.RunIsCollectOfPreOrder` | assigncheck/assigncheck.go:21-47 | The walk's output is the classification of every node in pre-order, concatenated. No subtree is skipped. |
| `AssignCheck.RunMembership` | assigncheck/assigncheck.go:21-47 | A diagnostic is reported iff some node of the tree produces it, at any depth. |
| `AssignCheck.RunLength` | assigncheck/assigncheck.go:21-47 | The number of diagnostics equals the number of re-assignment nodes in the tree. |
| `AssignCheck.NoReassignmentNoDiagnostics` | assigncheck/assigncheck.go:22-46 | A tree reports nothing iff none of its nodes is a re-assignment. |
| `AssignCheck.RunOrdered` | assigncheck/assigncheck.go:21-47 | When positions grow in visiting order, as in a parsed file, the diagnostics come out in strictly increasing position. |
| `AssignCheck.RunForestBlocks` | assigncheck/assigncheck.go:20-48 | Across files, each file's diagnostics form one contiguous block. It lies between the blocks of the files before and after it. |
| `AssignCheck.RunPass` | assigncheck/assigncheck.go:19-51 | The loop over the pass's files returns the concatenation of the per-file walks. Its length is the number of re-assignments across all files. |
| `Printer.Render` | assigncheck/assigncheck.go:70-76 | `renderIncDec` prints the operand; a parenthesised expression prints inside a pair of parentheses. |
| `Printer.RenderNestedParens` | assigncheck/assigncheck.go:70-76 | However many pairs of parentheses wrap an operand, it prints with the single pair it gets when wrapped once. |
| `Printer.RenderExpressions` | assigncheck/assigncheck.go:57-67 | The buffer loop (print each expression, then `", "` unless it is the last) computes the join of the printed expressions. |
| `Printer.JoinLength` | assigncheck/assigncheck.go:57-67 | No expressions join to `""`, and one joins to itself. Otherwise the length is the parts' lengths plus one separator fewer than there are parts. |
| `Printer.JoinEnds` | assigncheck/assigncheck.go:63-65 | There is no separator at either end: the joined text starts with the first part and ends with the last. |
| `Printer.JoinSnoc` | assigncheck/assigncheck.go:59-66 | Appending one part to a non-empty list appends exactly one separator and that part. |
| `Printer.SplitJoin` | assigncheck/assigncheck.go:57-67 | When no part contains a comma, splitting the joined text gives back the parts, in order. So the joined list is unambiguous. |
| `Printer.JoinSplit` | assigncheck/assigncheck.go:57-67 | Conversely, a text whose every comma starts a `", "` separator is the join of its split parts. |
| `TestData.ExampleFn` | assigncheck/testdata/example.go:5-10 | In `Fn`, `x := 5` is not reported and `x = 6` is reported as `re-assignment of x`. |
| `TestData.ExampleFn2Pairs` | assigncheck/testdata/example.go:13-16 | `x, y = 6, x` yields one diagnostic, `re-assignment of x, y`. The definition before it yields none. |
| `TestData.ExampleFn2IncAdd` | assigncheck/testdata/example.go:18-22 | `x++`, `x += 5` and `x -= 5` are each reported, with the inline message for `x++`. |
| `TestData.ExampleFn2Arith` | assigncheck/testdata/example.go:23-27 | `*=`, `/=`, `%=`, `&=` and the bitwise-or assignment are each reported as `re-assignment of x`. |
| `TestData.ExampleFn2Bits` | assigncheck/testdata/example.go:28-31 | `^=`, `<<=`, `>>=` and `&^=` are each reported as `re-assignment of x`. |
| `TestData.ExampleFn2Shadow` | assigncheck/testdata/example.go:33-41 | The shadowing `x := 5` in the inner block and the declarations after it are not reported. |
| `TestData.ExampleFn2Assertion` | assigncheck/testdata/example.go:45-48 | `if _, ok := z.(int); !ok { … }` is not reported. |
| `TestData.ExampleFn2Call` | assigncheck/testdata/example.go:50-53 | `s := test()` is not reported; `s = test()` is reported. |
| `TestData.ExampleLoopFor` | assigncheck/testdata/example.go:57-59 | The `for` statement of `Loop` reports only its post statement `x++`, with the inline message; the definition `x := 0` in its header is silent. |
| `TestData.ExampleLoop` | assigncheck/testdata/example.go:56-63 | In `Loop`, the post statement `x++` of the `for` header is reported. Both assignments to `_` are reported too. |
| `TestData.ForHeaderInitAndIncrement` | assigncheck/assigncheck.go:22-45 | `for i = 0; i < n; i++ {}` reports its init `i = 0` as `re-assignment of i` and its post `i++` with the inline message. |
| `TestData.ForHeaderInitAndCompound` | assigncheck/assigncheck.go:22-45 | `for i = 0; i < n; i += 2 {}` reports both clauses, the post `i += 2` with the plain `re-assignment of i`. |
| `TestData.ExampleAnonFuncDecl` | assigncheck/testdata/example.go:69-100 | In `AnonFuncDecl`, `f = func…`, `h = func…` and `f2 = func…` are all reported. The declaration `var g … = func…` is not. |
| `TestData.TypeAssertionOfAnotherName` | assigncheck/assigncheck.go:29-35 | `ok = z.(int)` and `x += y.(int)` are not reported, although the target is not the asserted name. |
| `TestData.ParenthesisedTypeAssertion` | assigncheck/assigncheck.go:33-35 | `x = (x.(T))` is reported: only a bare type assertion is exempt. |
| `TestData.TypeAssertionInSecondPlace` | assigncheck/assigncheck.go:33-35 | `a, x = 1, x.(T)` is reported, naming both targets: only the first right-hand expression is looked at. |

## Left out

- Parsing Go and the internals of `ast.Inspect` are not modelled. A tree
  holds the statements, and the header clauses of `if` and `for` as leaves
  (`TestData.Leaf`). The other expressions `ast.Inspect` visits never match
  either case of the switch, so they are folded away; statements inside
  function literals become children of the enclosing node.
- `go/printer` is not part of this model. `Printer.Render` prints
  identifiers as their name and type assertions and parentheses
  structurally; like go/printer, it prints no second pair of parentheses
  around an expression that is already parenthesised. Any other
  expression is `OtherExpr`, which carries its printed text. The `panic`
  on a printer error (assigncheck/assigncheck.go:60-62 and 72-74) cannot
  happen in the model.
- `renderIncDec` is `Printer.Render` of the operand; it has no further
  logic of its own.
- `analysis.Pass`, `token.FileSet` and `Reportf`: a report is a
  `Diagnostic(pos, message)` appended to a sequence, and `token.Pos` is an
  `int`. The `Analyzer` value's registration fields and the `(nil, nil)`
  result of `run` are not modelled.
- An assignment with an empty right-hand side, which would make
  `as.Rhs[0]` panic, is excluded by the `NonEmptyExprs` type, because the
  parser never produces one.
- `AssignCheck.RunOrdered` assumes that positions increase in visiting
  order rather than deriving this from source text, because parsing is
  not modelled.
- `TestData` has no single lemma for the whole of func `Fn2`. It covers
  the function in seven line ranges, which together cover every statement.
- `main.go`, `cmd/assigncheck/main.go` and `prettyprint/prettyprint.go`
  are not part of this model. The first two only hand the analyzer to
  `singlechecker.Main`; the third prints a tree for debugging.

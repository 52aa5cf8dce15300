# A model of the compiler's closed cores, with proofs

The repository is a Go compiler. These modules model the parts of it whose
correctness rests on an argument rather than on a table, and prove that
argument: what the escape analysis promises to another compiler, the encoding
of function bodies in export data, the numbering of dictionaries, the writer
that copies elements out of other archives, the rewrites of source that must
keep its meaning, the closure of type descriptors and the archive container.

`dafny verify dfyconfig.toml` checks the project.

## The parts

**Escape analysis** (`escape/`). `IR` is the node tree. `EscapeWalk` is the
taint walk as functions, `EscapeProver` the same as a class whose methods
update the prover's fields. `EscapeConstraints` states the flow constraints
without the walk, `EscapeQuiet` and `EscapeLeast` connect the two,
`EscapeRounds` says what one round achieves, and `EscapeAnalysis` puts the
fixed point together: the least solution, in as many rounds as variables. `EscapeRun`
gives the body an execution in which each value says whether it holds a
reference obtained from the argument; a run is driven by a finite list of
choices, so the lists together give every prefix of every run. `EscapeSound`
proves that a solution bounds every run. `EscapePaths` says on the tree alone
by which ways a value leaves a parameter and with how many loads, `EscapeWays`
is the graph theory of such ways, `EscapeLocal` and `EscapeSplits` connect them
to the constraints node by node, and `EscapeShortest` concludes that the walk
finds the shortest ways and that a note is exact. `Leaks` is the note.

**Function bodies** (`export/body*.go`). `BodyTree` is the tree, `BodyFormat`
the layout of an element, `BodyCanonical` the trees the reader can produce.
`BodyWriter` and `BodyReader` are classes over the token stream and the
reference table. `BodyGot` says what each step of the reader promises: what it
got encodes to what it read, and whatever encodes to the stream is what it got.
`BodyWritable` says on the tree which bodies can be written, and
`BodyRefusals` that the layout refuses exactly the others.

**Dictionaries** (`export/bodydict.go`, `export/writer.go`). `DictNumbering`
is the walk that gives derived types their slots, `DictOrder` says by
substitution which types those are and in which order, and `Dictionary` is the
class with its memo maps and the writers that must not take a slot late.

**The linked form** (`export/writer.go`, `export/foreign.go`,
`export/bodyexport.go`). `LinkGraph` says what each element holds and refers
to, `LinkRaw` says the same from the archives as they are stored, `LinkWriter`
claims and fills, `LinkCopy` proves what a finished file says and that the
probe predicts the writer.

**Rewrites of source**. `Conditions`, `Statements`, `DeadCode`,
`DeadCodeSound` and `DeadCodeMeaning` are the folding of conditions, dead
statements and switches (`export/bodybuild.go`) and what it keeps,
`DeadCodeExact` what it drops. `Captures` is the numbering of local and
captured variables, `CaptureOrder` the order it follows. `Hoisting` and `HoistingExact` are
temporaries and exactly when they keep the order, `ParallelAssign` parallel
assignment. `LoopVars` is the rewrite for the loop variables of Go 1.22;
`LoopVarsAlike` says when two runs agree, `LoopVarsHidden` what nothing points
to, `LoopVarsRounds` the steps of a round, `LoopVarsMeaning` the whole, and
`LoopVarsCounter` where it fails. All are of `ir/build.go`, against the sections "Order of evaluation",
"Assignment statements" and "For statements with for clause" of the Go
Programming Language Specification.

**Closed cores**. `Descriptors` (`driver/types.go`) and `Archive`
(`driver/archive.go`, `export/read.go`).

## Where the code and its promise part

* A return writes a captured named result into its heap cell
  (ir/closure.go:72-79), and `ret` does not look at that
  (escape/escape.go:945-963). `KeptByAnUndetectedCell` is the input,
  `NoteIsTrue` the condition under which the note holds, and `NoResultInCell`
  the form of it that the declaration alone answers. It goes one way: the
  walk knows nothing of the order of statements, so a note may name a result
  with a cell although no run reaches the return.
* Adding a flow with count -1 erases one (`AddedCovers`).
* A promoted field's index is not written, and the builder and the reader do
  not mean the same step by it (`PromotedFieldIsNotWritten` with the exact
  condition, `PromotedByTwoSteps` with an input).
* A `!` over a decided operand keeps the operand's sign
  (export/bodybuild.go:1268-1273), on purpose, as the other compiler does.
  `NotIsRight` says exactly when that is
  right. The parser keeps parentheses (syntax/parser.go:766-770), so no parsed
  condition gets there (`ParsedIsUndecided`).
* A call that is left behind under `&&`, under `||` or under a selection
  (ir/build.go:2365-2368) is overtaken by a call that is moved (`LeftBehind`).
  `Orderly` is the condition, about the tree alone, and it is exact
  (`OrderlyIsExact`) wherever each left operand of `&&` and `||` can go either
  way, so for every tree without them. A left operand that is the same on
  every machine can make the call behind it one that never happens, and then
  there is no order to lose.
* Taking a loop variable's address in the post statement breaks the form with
  carriers (`AddressInHeader`); the source leaves out closures only
  (ir/build.go:1603-1628). It breaks some loop for each such statement and not
  every loop: a post statement that no round reaches does nothing.
* Not everything behind a return is dropped: `terminates` does not look behind
  a label, and looks at the source of a block, whose own tail may be dropped
  (export/bodybuild.go:1205-1232). `LeftBehindALabel` and `LeftBehindABlock`
  are inputs, and `BehindExactly` says exactly when.
* A header with a later line that begins like a section hides the section
  (`ArchiveIsRead` with the exact condition, `SectionInHeader` with an
  input).

## Model

| member | source | states |
|---|---|---|
| `EscapeAnalysis.NoteIsSound` | escape/escape.go:33-48 | For every body, parameter and run: when `analyse` proves a note, each event of the run keeps to it. No value got from the argument by copying, selecting or any number of loads is stored beyond the frame, written through, called, passed, boxed or put into an allocation, and one is returned only in a result the note names. The one exception is a value left in the heap cell of a named result |
| `EscapeAnalysis.NoteIsTrue` | escape/escape.go:190-262 | The note is true of every run when no result it names lives in a heap cell, which a caller can see from the note and the declaration |
| `EscapeAnalysis.NoResultInCell` | escape/escape.go:190-262 | In particular it is true of every run of a function none of whose results lives in a heap cell, which the declaration says beforehand |
| `EscapeAnalysis.KeptByAnUndetectedCell` | escape/escape.go:945-963 | A declaration whose body defers a literal that captures the named result and then returns p, for which the walk proves "p flows to result 0 and nowhere else" while the run leaves p in the heap cell of that result |
| `EscapeAnalysis.LeastSolution` | escape/escape.go:208-261 | The loop that settles ends at the least solution of the flow constraints (so at the least saturated depth of each variable and result), a leak means that the constraints have no solution, and the bound on the rounds is hit only if every solution taints more variables than the bound allows rounds |
| `EscapeAnalysis.FewVariablesSettle` | escape/escape.go:213-236 | The fixed point settles before the bound whenever some solution of the constraints taints at most 1001 variables: the number of rounds is at most the number of variables, and does not depend on how deep the counts go |
| `EscapeAnalysis.RoundSettlesOne` | escape/escape.go:213-236 | One round gives one more variable the depth the solution has for it, or the solution is not the least and the next one up solves the constraints too |
| `EscapeAnalysis.SettlesInTime` | escape/escape.go:213-236 | From any state below a solution: the loop settles if the variables that lack their depth are no more than the rounds that are left |
| `EscapeAnalysis.OrderIsIrrelevant` | escape/escape.go:208-261 | Two bodies with the same set of statements, in any order and with any repetition, settle with the same taint and the same result depths, one cannot leak where the other settles, and one settles where the other does unless there are more tainted variables than rounds |
| `EscapeShortest.WalkFindsShortest` | escape/escape.go:22-31 | The loop settles if and only if nothing that comes from the parameter leaves by any way through the body, and then each variable and each result has the fewest loads of all ways to it, ways being defined on the tree alone; a body that names more variables than there are rounds may be refused instead |
| `EscapeShortest.DepthIsLeast` | escape/escape.go:22-31 | The depth of a variable is the number of loads on some way to it, none has fewer, and there is a depth exactly when there is a way |
| `EscapeShortest.DepthOutIsLeast` | escape/escape.go:297-317 | The same for the results |
| `EscapeShortest.NoteIsExact` | escape/escape.go:194-262 | A parameter gets a note if and only if nothing it holds escapes, no variable a note cannot name gets any of it, and each result that gets some gets it on a way without a load |
| `EscapeShortest.NoteNamesShortest` | escape/escape.go:312-317 | A note names a result if and only if a way without a load leads to it |
| `EscapeSplits.SolvesEverywhere` | escape/escape.go:466-642 | A body solves the flow constraints if and only if each node it evaluates, at any depth, does by itself |
| `EscapeSplits.NodeSplits` | escape/escape.go:466-642 | The same for each kind of node: its own ways, and its parts |
| `EscapeLocal.BringsFlow` | escape/escape.go:466-642 | What an operand brings from a variable, with its loads, the walk sees no deeper: a field, an element of an array, a slice of an array, an element behind a slice, a dereference, a conversion, an address, a literal |
| `EscapeLocal.FlowBrings` | escape/escape.go:466-642 | And a flow the walk sees is a way through the operand with that many loads |
| `EscapeLocal.DestinationIs` | escape/escape.go:1110-1127 | A destination is inside a variable, through fields and elements of arrays, exactly when the walk stores into it |
| `EscapeLocal.AddressedIs` | escape/escape.go:742-771 | An address is taken through the base the walk stops at and through no other |
| `EscapeLocal.RangedIs` | escape/escape.go:997-1018 | The kinds a range clause hands values out of |
| `EscapeRounds.WalkLifts` | escape/escape.go:466-642 | A visit from a state that has all depths up to some level either brings a variable to that level or shows that the node solves the constraints with the missing variables raised above it |
| `EscapeRounds.TaintLifts` | escape/escape.go:403-413 | A variable that ends no shallower than the level was given no flow as shallow |
| `EscapeAnalysis.SettledIsSolution` | escape/escape.go:222-236 | A state that a whole round leaves alone solves the constraints, for every depths that claim no less than it recorded |
| `EscapeAnalysis.IterateBelow` | escape/escape.go:222-236 | A round that starts below a solution never leaks and stays below it, through every later round |
| `EscapeAnalysis.NoteNames` | escape/escape.go:237-261 | The note, read back from its encoding, claims nothing of the heap, the mutator and the callee, and names result i at depth zero exactly when the walk delivers to it |
| `EscapeAnalysis.EventIsClean` | escape/escape.go:190-262 | Each event of each run is allowed by the constraints the settled state solves |
| `EscapeAnalysis.RunSound` | escape/escape.go:466-642 | Any solution of the constraints bounds any run of the body: marked variables are tainted, no tainted variable is reachable by a pointer, memory holds no marked reference |
| `EscapeSound.ExecListSound` | escape/escape.go:453-457 | The invariant of a run survives a statement list that jumps may resume anywhere |
| `EscapeSound.ActSound` | escape/escape.go:466-642 | One operation keeps the invariant, and its value is marked only if the constraints give it a flow |
| `EscapeSound.LocateSound` | escape/escape.go:716-730 | Taking an address lets a pointer reach only untainted variables, and the pointer is marked only if the place has a flow |
| `EscapeSound.ConvertSound` | escape/escape.go:774-817 | A conversion keeps the invariant: a marked value is never boxed |
| `EscapeSound.LiteralSound` | escape/escape.go:912-934 | A literal whose storage is allocated takes no marked element, and a struct or an array carries the marks of its elements |
| `EscapeSound.CallSound` | escape/escape.go:466-642 | No marked value is a callee or an argument |
| `EscapeSound.ReturnSound` | escape/escape.go:945-963 | A marked value leaves by a return only in a result with a recorded depth, whether the results are listed, named, or all of one call |
| `EscapeSound.RangeSound` | escape/escape.go:978-994 | A range clause hands out the marks of what it ranges over, and only through destinations that accept them |
| `EscapeSound.ClausesSound` | escape/escape.go:1021-1046 | The variable a type switch binds is marked only if its clause records the flow |
| `EscapeSound.StoreToSound` | escape/escape.go:1051-1098 | A store of a marked value changes one variable of the frame that records the flow, and nothing is written through a marked value |
| `EscapeQuiet.WalkSolves` | escape/escape.go:466-642 | A visit that leaks nothing and changes nothing shows that the node solves the constraints, and a visit never forgets a taint |
| `EscapeLeast.WalkBelow` | escape/escape.go:466-642 | A visit from below a solution stays below it, does not leak, and its value carries no more than the solution says |
| `EscapeWalk.Addressed` | escape/escape.go:742-771 | The value an address is taken through is a proper part of the operand, one dereference away, which is what the recursion and the depth arithmetic rest on |
| `EscapeProver.Analyse` | escape/escape.go:194-262 | The method with the round loop and the reading of the taint map in any order returns the note the lemmas above speak of |
| `EscapeProver.ReadTainted` | escape/escape.go:237-252 | Reading one more tainted object, in any order, joins its flow to the results or finds that no note can describe it |
| `EscapeProver.Write` | escape/escape.go:253-261 | There is a note unless some result is reached below the surface, and the note names all the results |
| `EscapeProver.NamedStep` | escape/escape.go:237-252 | One more tainted object adds its own result to the named ones and no other |
| `EscapeProver.MergeStep` | escape/escape.go:416-427 | Recording a named result gives the merged depths with that result in them |
| `EscapeProver.Prover.Visit` | escape/escape.go:466-642 | The recursive walk over the mutable fields ends in the state, and with the flow, of the specified walk |
| `EscapeProver.Prover.Value` | escape/escape.go:466-642 | The same for the operations that give a value |
| `EscapeProver.Prover.Statement` | escape/escape.go:466-642 | The same for the statements with bodies |
| `EscapeProver.Prover.Addr` | escape/escape.go:716-730 | The fields after the visit of an address are those of the specification |
| `EscapeProver.Prover.Convert` | escape/escape.go:774-817 | The fields after a conversion are those of the specification |
| `EscapeProver.Prover.CompositeLit` | escape/escape.go:912-934 | The loop over the elements joins their flows, and a leaking literal leaks |
| `EscapeProver.Prover.Ret` | escape/escape.go:945-963 | The loop over the results records each flow at its index |
| `EscapeProver.Prover.RangeStmt` | escape/escape.go:978-994 | The fields after a range clause are those of the specification |
| `EscapeProver.Prover.Clauses` | escape/escape.go:1021-1046 | The loop over the clauses of a type switch visits each |
| `EscapeProver.Prover.Store` | escape/escape.go:1051-1098 | The fields after a store are those of the specification |
| `EscapeProver.Prover.Taint` | escape/escape.go:403-413 | A taint keeps the shorter depth, saturated, and sets `changed` exactly when it is new or shorter |
| `EscapeProver.Prover.Result` | escape/escape.go:416-427 | A result keeps the shorter depth, and an index past the encoding leaks |
| `EscapeProver.AddressedOf` | escape/escape.go:742-771 | The loop down an operand stops at the place the specification finds |
| `EscapeProver.DestinationOf` | escape/escape.go:1110-1127 | The loop down a destination finds its root and whether the path to it is direct |
| `EscapeProver.ResultIndexOf` | escape/escape.go:284-294 | The search gives the first result with the object, if its index can be encoded |
| `Leaks.AddedIsMinimum` | escape/leaks.go:67-71 | Adding a flow leaves the saturated minimum at its destination and every other byte as it was |
| `Leaks.AddedCommutes` | escape/leaks.go:67-71 | The order in which flows are added does not show in the note |
| `Leaks.AddedCovers` | escape/leaks.go:67-71 | Adding keeps every claim exactly when the count is not -1 or the flow it would erase is absent or covered by the heap's |
| `Leaks.OptimizedKeepsClaims` | escape/leaks.go:92-100 | Dropping the flows the heap's flow covers changes no claim |
| `Leaks.OptimizedIsCanonical` | escape/leaks.go:92-100 | Notes with the same claims have the same optimized form |
| `Leaks.ParseEncoded` | escape/leaks.go:106-117 | What a reader gets from the encoding: the note, or the heap alone when the heap is reached at depth zero |
| `Leaks.ParseEncodedOptimized` | escape/leaks.go:106-117 | The round trip is exact for optimized notes |
| `Leaks.Note.Set` | escape/leaks.go:73-85 | Writes the one byte, saturated, and leaves the others |
| `Leaks.Note.Add` | escape/leaks.go:67-71 | In place, the note of AddedIsMinimum |
| `Leaks.Note.Optimize` | escape/leaks.go:92-100 | The loop in place, the note of OptimizedKeepsClaims |
| `Leaks.Note.Encode` | escape/leaks.go:106-117 | The loop that trims gives the prefix, and the bytes up to the last that is not zero |
| `BodyReader.ReadBody` | export/bodyread.go:101-125 | Decoding is exact: it gives the one canonical body whose encoding is the whole element, stream and reference table, through function literals held in other elements, and refuses every other element |
| `BodyReader.Reader.Stmts` | export/bodyread.go:376-387 | Statement lists: gets a tree exactly when the stream begins with the encoding of a canonical one, which is then the tree it gets, and leaves exactly the rest |
| `BodyReader.Reader.StmtOf` | export/bodyread.go:393-452 | Statements of each kind: gets a tree exactly when the stream begins with the encoding of a canonical one, which is then the tree it gets, and leaves exactly the rest |
| `BodyReader.Reader.Assignees` | export/bodyread.go:455-461 | Assignee lists: gets a tree exactly when the stream begins with the encoding of a canonical one, which is then the tree it gets, and leaves exactly the rest |
| `BodyReader.Reader.AssigneeOf` | export/bodyread.go:464-483 | Assignees, with the declaration of a new variable: gets a tree exactly when the stream begins with the encoding of a canonical one, which is then the tree it gets, and leaves exactly the rest |
| `BodyReader.Reader.BlockOf` | export/bodyread.go:486-492 | Blocks: gets a tree exactly when the stream begins with the encoding of a canonical one, which is then the tree it gets, and leaves exactly the rest |
| `BodyReader.Reader.If` | export/bodyread.go:506-527 | If statements: gets a tree exactly when the stream begins with the encoding of a canonical one, which is then the tree it gets, and leaves exactly the rest |
| `BodyReader.Reader.ArmsOf` | export/bodyread.go:506-527 | The arms of an if statement, of which a constant condition leaves one out: gets a tree exactly when the stream begins with the encoding of a canonical one, which is then the tree it gets, and leaves exactly the rest |
| `BodyReader.Reader.For` | export/bodyread.go:529-575 | For and range statements, with conversions that depend on the assignees: gets a tree exactly when the stream begins with the encoding of a canonical one, which is then the tree it gets, and leaves exactly the rest |
| `BodyReader.Reader.Switch` | export/bodyread.go:577-638 | Switches, with clauses that depend on the guard and its name: gets a tree exactly when the stream begins with the encoding of a canonical one, which is then the tree it gets, and leaves exactly the rest |
| `BodyReader.Reader.Select` | export/bodyread.go:640-659 | Select statements: gets a tree exactly when the stream begins with the encoding of a canonical one, which is then the tree it gets, and leaves exactly the rest |
| `BodyReader.Reader.Multi` | export/bodyread.go:691-713 | Several values, from one expression or from as many: gets a tree exactly when the stream begins with the encoding of a canonical one, which is then the tree it gets, and leaves exactly the rest |
| `BodyReader.Reader.ExprOf` | export/bodyread.go:721-732 | Expressions with the reshape node in front, of which two in a row are refused: gets a tree exactly when the stream begins with the encoding of a canonical one, which is then the tree it gets, and leaves exactly the rest |
| `BodyReader.Reader.NodeOf` | export/bodyread.go:736-927 | Expression nodes, whose optional fields depend on the types carried in the stream: gets a tree exactly when the stream begins with the encoding of a canonical one, which is then the tree it gets, and leaves exactly the rest |
| `BodyReader.Reader.Instance` | export/bodyread.go:930-938 | Instances of functions: gets a tree exactly when the stream begins with the encoding of a canonical one, which is then the tree it gets, and leaves exactly the rest |
| `BodyReader.Reader.Method` | export/bodyread.go:941-967 | References to methods and their dictionaries: gets a tree exactly when the stream begins with the encoding of a canonical one, which is then the tree it gets, and leaves exactly the rest |
| `BodyReader.Reader.CallOf` | export/bodyread.go:970-998 | Calls, with the descriptor that some need: gets a tree exactly when the stream begins with the encoding of a canonical one, which is then the tree it gets, and leaves exactly the rest |
| `BodyReader.Reader.CompositeLit` | export/bodyread.go:1021-1065 | Literals of maps, lists and structs: gets a tree exactly when the stream begins with the encoding of a canonical one, which is then the tree it gets, and leaves exactly the rest |
| `BodyReader.Reader.ListElem` | export/bodyread.go:1067-1076 | Elements of arrays and slices: gets a tree exactly when the stream begins with the encoding of a canonical one, which is then the tree it gets, and leaves exactly the rest |
| `BodyReader.Reader.MapElem` | export/bodyread.go:1078-1086 | Elements of maps: gets a tree exactly when the stream begins with the encoding of a canonical one, which is then the tree it gets, and leaves exactly the rest |
| `BodyReader.Reader.StructElem` | export/bodyread.go:1088-1110 | Elements of structs, positional, named or promoted: gets a tree exactly when the stream begins with the encoding of a canonical one, which is then the tree it gets, and leaves exactly the rest |
| `BodyReader.Reader.FunctionLit` | export/bodyread.go:1113-1140 | Function literals with the body of their own element: gets a tree exactly when the stream begins with the encoding of a canonical one, which is then the tree it gets, and leaves exactly the rest |
| `BodyReader.Reader.Type` | export/bodyread.go:192-205 | Uses of types: gets a tree exactly when the stream begins with the encoding of a canonical one, which is then the tree it gets, and leaves exactly the rest |
| `BodyReader.Reader.Object` | export/bodyread.go:208-234 | Uses of objects with type arguments: gets a tree exactly when the stream begins with the encoding of a canonical one, which is then the tree it gets, and leaves exactly the rest |
| `BodyReader.Reader.Constant` | export/bodyread.go:254-262 | Canonical constants: gets a tree exactly when the stream begins with the encoding of a canonical one, which is then the tree it gets, and leaves exactly the rest |
| `BodyReader.Reader.LocalDecl` | export/bodyread.go:128-137 | Declarations of local variables: gets a tree exactly when the stream begins with the encoding of a canonical one, which is then the tree it gets, and leaves exactly the rest |
| `BodyWriter.WriteBody` | export/bodywrite.go:110-123 | Writes the specified stream with the references of that stream in the table, and refuses exactly the bodies that cannot be written: one with a string or a package that has no element, an operator a body cannot carry, or a field that is missing or in excess, such as a descriptor on any call but append, copy, delete and unsafe.Slice |
| `BodyWriter.Reread` | export/bodywrite.go:16-22 | For every body that can be written, reading the written element gives the body back if and only if the body is canonical |
| `BodyWriter.Rewrite` | export/bodywrite.go:16-22 | For every element: if it can be read, writing what was read gives the same tokens and the same reference table, and it can be read exactly when it holds some canonical body |
| `BodyWriter.ReadCanBeWritten` | export/bodyread.go:970-1013 | Whatever can be read can be written: each call in it has a descriptor if and only if it is of one of the four builtins |
| `BodyRefusals.BodyWhole` | export/bodywrite.go:110-123 | A body has a whole encoding if and only if it can be written, which is said on the tree without a stream |
| `BodyRefusals.CallWhole` | export/bodywrite.go:870-895 | The same for a call, whose descriptor goes by its callee |
| `BodyRefusals.DescriptorFollowsDots` | export/bodywrite.go:870-895 | A call of one of the four builtins ends in its descriptor, behind the dots flag; any other call ends in the flag; a descriptor that is missing or in excess is a refusal |
| `BodyRefusals.LitWhole` | export/bodywrite.go:898-987 | The same for a literal: it builds a map, a list or a struct, through a pointer too, its descriptor is a map's, and its elements have the keys and fields their place asks for |
| `BodyRefusals.RangeWhole` | export/bodywrite.go:468-511 | The same for a range clause: the descriptor of a map, and a conversion for each destination that is not blank |
| `BodyRefusals.SwitchCasesWhole` | export/bodywrite.go:513-578 | The same for the clauses of a switch: each after the first closes the one before, and a named guard has a variable in each |
| `BodyRefusals.StatementNumbers` | export/bodycode.go:28-44 | The token each statement begins with, and the end of a list |
| `BodyRefusals.ExpressionNumbers` | export/bodycode.go:80-106 | The token each node begins with, behind the reshape node and its type |
| `BodyRefusals.LeafNumbers` | export/bodycode.go:152-156 | The tokens of destinations and constants |
| `BodyWriter.PromotedFieldIsNotWritten` | export/bodyread.go:1088-1110 | A promoted field's own index is not in the stream. What the builder sets (the first step, export/bodybuild.go:2023-2026) comes back as the last step, and such an element round-trips exactly when the two are the same |
| `BodyWriter.PromotedByTwoSteps` | export/bodyread.go:1088-1110 | A concrete one: a field promoted through one embedded struct, set as field 0 with path 0, 1, is written like field 1 and is not canonical |
| `BodyWriter.ElemRefs` | export/bodywrite.go:1052-1076 | The reverse map of a section gives each value its one element, and there is none exactly when the section holds a value twice |
| `BodyWriter.Writer.EncodeBody` | export/bodywrite.go:115-123 | A body: appends exactly the specified tokens, or a refusal where the tree has no encoding, and the matching table entries |
| `BodyWriter.Writer.Stmts` | export/bodywrite.go:315-325 | Statement lists: appends exactly the specified tokens, or a refusal where the tree has no encoding, and the matching table entries |
| `BodyWriter.Writer.StmtOf` | export/bodywrite.go:328-393 | Statements of each kind: appends exactly the specified tokens, or a refusal where the tree has no encoding, and the matching table entries |
| `BodyWriter.Writer.Assignees` | export/bodywrite.go:396-401 | Assignee lists: appends exactly the specified tokens, or a refusal where the tree has no encoding, and the matching table entries |
| `BodyWriter.Writer.AssigneeOf` | export/bodywrite.go:404-421 | Assignees: appends exactly the specified tokens, or a refusal where the tree has no encoding, and the matching table entries |
| `BodyWriter.Writer.If` | export/bodywrite.go:442-466 | If statements: appends exactly the specified tokens, or a refusal where the tree has no encoding, and the matching table entries |
| `BodyWriter.Writer.For` | export/bodywrite.go:468-511 | For and range statements: appends exactly the specified tokens, or a refusal where the tree has no encoding, and the matching table entries |
| `BodyWriter.Writer.Switch` | export/bodywrite.go:513-578 | Switches: appends exactly the specified tokens, or a refusal where the tree has no encoding, and the matching table entries |
| `BodyWriter.Writer.Select` | export/bodywrite.go:580-600 | Select statements: appends exactly the specified tokens, or a refusal where the tree has no encoding, and the matching table entries |
| `BodyWriter.Writer.MapDescriptor` | export/bodywrite.go:610-623 | The descriptor of a map operand, where the type in the stream calls for one and nowhere else: appends exactly the specified tokens, or a refusal where the tree has no encoding, and the matching table entries |
| `BodyWriter.Writer.Multi` | export/bodywrite.go:642-661 | Several values: appends exactly the specified tokens, or a refusal where the tree has no encoding, and the matching table entries |
| `BodyWriter.Writer.ExprOf` | export/bodywrite.go:665-677 | Expressions: appends exactly the specified tokens, or a refusal where the tree has no encoding, and the matching table entries |
| `BodyWriter.Writer.NodeOf` | export/bodywrite.go:679-813 | Expression nodes: appends exactly the specified tokens, or a refusal where the tree has no encoding, and the matching table entries |
| `BodyWriter.Writer.Method` | export/bodywrite.go:841-867 | References to methods: appends exactly the specified tokens, or a refusal where the tree has no encoding, and the matching table entries |
| `BodyWriter.Writer.CallOf` | export/bodywrite.go:870-895 | Calls: appends exactly the specified tokens, or a refusal where the tree has no encoding, and the matching table entries |
| `BodyWriter.Writer.CompositeLit` | export/bodywrite.go:898-937 | Literals: appends exactly the specified tokens, or a refusal where the tree has no encoding, and the matching table entries |
| `BodyWriter.Writer.StructElem` | export/bodywrite.go:964-987 | Elements of structs: appends exactly the specified tokens, or a refusal where the tree has no encoding, and the matching table entries |
| `BodyWriter.Writer.FunctionLit` | export/bodywrite.go:993-1013 | Function literals, which name the element of their body: appends exactly the specified tokens, or a refusal where the tree has no encoding, and the matching table entries |
| `BodyTree.StmtKinds` | export/bodycode.go:28-44 | A code stands for one kind of statement and a kind for one code |
| `BodyTree.ExprKinds` | export/bodycode.go:80-106 | A code stands for one kind of expression and a kind for one code |
| `DictNumbering.AllocSettled` | export/bodydict.go:240-274 | Numbering a type keeps the dictionary settled: no type has two slots, and each derived part of a slot's type has a slot below it |
| `DictNumbering.PartsBelow` | export/bodydict.go:225-274 | In a settled dictionary each derived part of slot i lies at a slot j < i |
| `DictNumbering.AllocFixed` | export/bodydict.go:240-274 | Numbering a type that is known takes no slot |
| `DictNumbering.AllocKnown` | export/bodydict.go:240-274 | After it is numbered a type is known, with all that it is made of |
| `DictNumbering.AllocBelow` | export/bodydict.go:289-388 | A walk gives a slot to no type that is not the one it starts from or a part of it |
| `DictNumbering.AllocAllSettled` | export/bodydict.go:240-274 | The same as AllocSettled for a list of types |
| `DictNumbering.AllocAllFixed` | export/bodydict.go:240-274 | The same as AllocFixed for a list of types |
| `DictNumbering.AllocAllKnown` | export/bodydict.go:240-274 | After a list is numbered, each of it is known and no earlier slot has moved |
| `DictOrder.MentionsIsDepends` | export/bodydict.go:276-388 | A type is one that takes a slot if and only if putting other types for its type parameters can give another type, with the substitution defined on the shapes |
| `DictOrder.AllocInOrder` | export/bodydict.go:225-388 | The slots a walk takes are those of the types that depend on a parameter, in this order: each type behind what it is made of, the key before the element, parameters before results, methods before embedded types, fields, terms and type arguments in order |
| `DictOrder.EncodableIs` | export/bodydict.go:289-420 | A type has no encoding if and only if it, or a type anywhere in it, has no tag or is declared inside the generic declaration |
| `Dictionary.ElementDescribes` | export/writer.go:470-663 | The element of a slot refers to what its type is made of, shape by shape and in order |
| `Dictionary.WriteTwice` | export/writer.go:922-951 | Writing one dictionary a second time writes the same constraints and the same elements, and takes no slot beyond those of the first |
| `Dictionary.WriteType` | export/bodybuild.go:147-202 | For every generic type with methods: once its bodies are built, writing the definition and then the dictionary never meets either of the two "named more" refusals |
| `Dictionary.WrittenIsDetermined` | export/writer.go:922-987 | The slots determine how constraints and elements are written |
| `Dictionary.OneNumbering` | export/bodydict.go:109-144 | Implicit, receiver and own type parameters are numbered one after the other: each has its position |
| `Dictionary.IndexInRange` | export/bodydict.go:109-144 | No index of a type parameter is out of range |
| `Dictionary.PositionDecides` | export/bodydict.go:109-144 | In the dictionary a type shares with its methods, a method's own name for the parameter and the type's get one index |
| `Dictionary.Intern` | export/bodydict.go:148-192 | The slot is that of the first equal entry, and the list grows only when there is none |
| `Dictionary.Dict.Derive` | export/bodydict.go:240-274 | The memoised walk with its two maps answers a slot if and only if replacing the type parameters can give another type, takes the slots of DictOrder.AllocInOrder, and fails exactly for types with no encoding |
| `Dictionary.Dict.WalkDerived` | export/bodydict.go:289-388 | Every part is walked in order, also after one has answered yes |
| `Dictionary.Dict.RTypeIndex` | export/bodydict.go:148-156 | The slot holds the type and no earlier entry moves |
| `Dictionary.Dict.ItabIndex` | export/bodydict.go:160-168 | The slot holds the pair and no earlier entry moves |
| `Dictionary.Dict.SubdictIndex` | export/bodydict.go:172-180 | The slot holds the instance and no earlier entry moves |
| `Dictionary.Dict.MethodExprIndex` | export/bodydict.go:184-192 | The slot holds the method expression and no earlier entry moves |
| `Dictionary.Dict.TypeParamIndex` | export/bodydict.go:109-144 | The search through the three lists gives the index of OneNumbering |
| `Dictionary.Dict.TypeRefOf` | export/writer.go:417-428 | A type is written as its slot exactly when it mentions a parameter |
| `Dictionary.Dict.WriteElement` | export/writer.go:435-440 | The element of slot i takes no slot and names only slots below i |
| `Dictionary.Dict.WriteConstraints` | export/writer.go:922-936 | The constraints may take slots, those of the numbering and no more |
| `Dictionary.Dict.WriteElements` | export/writer.go:938-951 | Writing the elements of all slots takes none, so the first refusal is unreachable |
| `Dictionary.Dict.ObjDict` | export/writer.go:922-987 | The dictionary is written whenever its constraints have encodings |
| `Dictionary.Dict.BuildTypeBodies` | export/bodybuild.go:147-202 | The slots are those of the type, then of each method's receiver, signature and body; it fails if and only if one of these has no encoding, and every type the definition names is known afterwards |
| `Dictionary.Dict.DoObj` | export/writer.go:828-908 | The definition is written if and only if its types have encodings and take no slot any more, so of a numbered type it always is |
| `LinkGraph.FindPrefersOwn` | export/foreign.go:128-165 | A definition is found exactly when some archive holds one, and in the declaring package's own archive when that is one of them |
| `LinkGraph.SpecSections` | export/foreign.go:272-298 | Each node has exactly one element in each of its sections, four for a declaration |
| `LinkRaw.WritableIsCarried` | export/foreign.go:324-440 | A node can be written if and only if the archives, as they are stored, allow it: some set of nodes holds it and everything its elements refer to, each reference of a copied element being to a string in range, a package that was read, a declaration the checker knows, or an element of positions, types or bodies that is there |
| `LinkRaw.FindIs` | export/foreign.go:128-165 | The search gives one object and no other: the first that defines the declaration in the first archive of its own package that has one, else in the first archive that has one |
| `LinkRaw.ResolveIs` | export/foreign.go:352-371 | A reference resolves to a node if and only if that is what it means; names, dictionaries, extensions and root elements are never meant |
| `LinkRaw.SpecSays` | export/foreign.go:272-320 | Each element of a node is filled with the bytes and the references it has to hold, read off the archives |
| `LinkWriter.PkgWriter.Elements` | export/writer.go:684-722 | The sections of a declaration grow in lockstep: its four new elements get one index |
| `LinkWriter.ClaimKeeps` | export/foreign.go:272-298 | Claiming a node keeps the lockstep and everything that is written |
| `LinkWriter.ClaimOwned` | export/writer.go:684-722 | After a claim every claimed index still belongs to exactly one node |
| `LinkWriter.FilledLater` | export/writer.go:684-722 | A filled node stays filled, with the same references, while others are written |
| `LinkWriter.PkgWriter.Claim` | export/bodyexport.go:211-218 | Claiming precedes filling and moves no index |
| `LinkWriter.PkgWriter.Index` | export/writer.go:684-722 | The index of a node: claimed and filled if new, with all it reaches, over cyclic graphs, and refused only if something it reaches is refused |
| `LinkWriter.PkgWriter.Reference` | export/foreign.go:324-371 | One reference is the index of the node it stands for; a literal is claimed where it is named and filled later |
| `LinkWriter.PkgWriter.References` | export/foreign.go:324-330 | The references of an element, in the order of its table |
| `LinkWriter.PkgWriter.Element` | export/foreign.go:313-320 | One element with its bytes and references, and what was written before is kept |
| `LinkWriter.PkgWriter.FillElements` | export/foreign.go:272-298 | The elements of a node, in the order of its sections |
| `LinkWriter.PkgWriter.FillNested` | export/bodyexport.go:256-270 | Every literal a body named is filled, in the order it was named |
| `LinkWriter.PkgWriter.Fill` | export/bodyexport.go:256-270 | A claimed node is filled with all it reaches, and only its own claim and its literals' were open |
| `LinkCopy.Add` | export/bodyexport.go:435-454 | Writing a node succeeds if and only if nothing it reaches is refused: the answer does not depend on what the file holds already |
| `LinkCopy.WritableBodies` | export/bodyexport.go:310-345 | The probe keeps exactly the bodies that are offered and can be written, in order, although it begins anew after each refusal |
| `LinkCopy.SurfaceObjects` | export/bodyexport.go:359-389 | What the throw-away surface writer reaches are exactly the declarations the exported ones reach |
| `LinkCopy.WriteBodies` | export/bodyexport.go:277-286 | No body the probe kept is refused by the real writer |
| `LinkCopy.Write` | export/writer.go:74-183 | The package is refused if and only if a declaration of the exported surface is, which is said on the archives as they are stored; otherwise every kept body has its index, a body never makes the writer refuse, and the file holds exactly what the surface and the kept bodies reach |
| `LinkCopy.CompleteHasNoHoles` | export/writer.go:684-722 | When a top-level call returns, every claimed index has an element, nested literals' too |
| `LinkCopy.CompleteIsHealthy` | export/writer.go:684-722 | A finished file refers to nothing the writer refuses |
| `LinkCopy.ElementSays` | export/foreign.go:266-320 | In a finished file each element of each node is there, with the bytes the archives or the writer give it and the index of each node it has to refer to |
| `LinkCopy.FileIsReach` | export/writer.go:684-722 | A finished file holds what its roots reach and nothing else |
| `LinkCopy.OneElement` | export/foreign.go:266-298 | Each declaration has one object element, copied or not, and no two nodes share an index |
| `LinkCopy.CopiedElement` | export/foreign.go:313-371 | A copied element has its source's bytes, and each reference is the index of what the source's reference resolves to |
| `LinkCopy.CopyFollows` | export/foreign.go:266-371 | The copy is a graph homomorphism: every path of references from a copied element ends where the same path ends in the source archive: at the same bytes, the same string, a package element that states the same path, or a declaration whose name element states the same package and name, an empty path being the package that holds it |
| `LinkCopy.WrittenName` | export/writer.go:1059-1063 | The name element of every declaration in the file, its own or a copied one, states the path and the name of that declaration, read through its references |
| `LinkCopy.WrittenPath` | export/writer.go:357-384 | The element of every package in the file states its path, the empty string standing for the package being written |
| `LinkCopy.DeclarationIsCopied` | export/foreign.go:272-298 | The four elements of a copied declaration follow the archive that the search prefers |
| `Conditions.ParsedIsRight` | export/bodybuild.go:1249-1304 | For every condition the parser makes, the sign is the value the condition always has and the rewritten condition has the same value and effects |
| `Conditions.UndecidedIsRight` | export/bodybuild.go:1249-1304 | The same for every condition with no decided operand under a `!` |
| `Conditions.ParsedIsUndecided` | export/bodybuild.go:1268-1273 | In a parsed condition a `!` never stands over a decided operand, as the parser keeps the parentheses |
| `Conditions.NotIsRight` | export/bodybuild.go:1268-1273 | The `!` that keeps its operand's sign is right if and only if the operand has none |
| `Conditions.EvalIsRight` | export/bodybuild.go:1249-1304 | The rewriting keeps the effects of each evaluation, panics among them |
| `Conditions.DecidedTwice` | export/bodybuild.go:1249-1304 | Deciding a rewritten condition again finds the same sign and changes nothing, which the several callers rely on |
| `DeadCodeSound.TerminatesIsRight` | export/bodybuild.go:1205-1221 | A statement that `terminates` accepts never ends normally |
| `DeadCodeSound.LabelIgnored` | export/bodybuild.go:499-518 | A label a statement neither breaks from nor continues to makes no difference to it |
| `DeadCodeSound.Avoided` | export/bodybuild.go:1205-1221 | A statement that contains no jump of a kind never ends by one |
| `DeadCodeMeaning.BuiltMeansSource` | export/bodybuild.go:494-518 | For every list the type checker accepts, with goto and labels, the built list ends as the source does with the same effects, for all behaviours of its parts and however long it runs |
| `DeadCodeMeaning.BuiltListRuns` | export/bodybuild.go:499-518 | The same for the part of a list from any statement, where a jump may land |
| `DeadCodeMeaning.TargetBuilt` | export/bodybuild.go:499-518 | A label is found in the built list exactly where the source has it |
| `DeadCodeMeaning.BuiltIfRuns` | export/bodybuild.go:742-760 | The arm that is not written never runs |
| `DeadCodeMeaning.BuiltLoopRuns` | export/bodybuild.go:763-784 | A loop whose condition is false keeps its init statement and its condition's effects, and loses nothing else that runs |
| `DeadCodeMeaning.FoldTargetIsSelected` | export/bodybuild.go:1014-1045 | The clause that is kept is the one the switch takes, the default only when no case matches |
| `DeadCodeMeaning.FoldedRuns` | export/bodybuild.go:887-1006 | A folded switch runs the kept clause as the source does |
| `DeadCodeMeaning.BuiltSwitchRuns` | export/bodybuild.go:887-1006 | A switch, folded or not, does what the source's does |
| `DeadCodeExact.ListIsBecome` | export/bodybuild.go:494-1045 | What is written for every accepted list, at any depth: each statement in front of the cut on its own; the arms the condition can take and no other; no body for a loop that cannot begin; of a switch on a known tag the one clause it takes, or the whole switch where a case has to be computed first or the clause falls through |
| `DeadCodeExact.BuiltListIsCut` | export/bodybuild.go:499-518 | A list loses what stands behind its first statement that stops and that no label follows, and nothing else |
| `DeadCodeExact.TerminatesIs` | export/bodybuild.go:1205-1232 | `terminates` finds exactly the statements that stop: goto, return, panic, a block whose last statement stops, an if whose possible arms all end in one |
| `DeadCodeExact.BehindExactly` | export/bodybuild.go:499-518 | A built list has a statement behind one that stops, with no label behind that, if and only if the source has one whose end stops where `terminates` does not look: behind a label of its own, or in a block or an arm whose tail was dropped |
| `DeadCodeExact.NothingBehind` | export/bodybuild.go:499-518 | Where no statement hides its end so, nothing is left behind one that stops unless a label is |
| `DeadCodeExact.LeftBehindALabel` | export/bodybuild.go:1205-1221 | `L: return; x()` keeps the call |
| `DeadCodeExact.LeftBehindABlock` | export/bodybuild.go:1205-1232 | `{ return; x() }; y()` keeps the second call |
| `DeadCodeExact.SignIsForced` | export/bodybuild.go:1249-1304 | A parsed condition has a sign if and only if no choice of values for what is not constant gives it the other value |
| `DeadCodeExact.RewrittenIsTrimmed` | export/bodybuild.go:1249-1304 | In the rewritten condition no left operand is a constant or decides the whole, and it can have the same values |
| `DeadCodeExact.FoldIs` | export/bodybuild.go:1014-1045 | A switch is folded if and only if every case up to the first equal one is known and that clause does not fall through, and then to that clause, to the default if none is equal, or to nothing |
| `DeadCode.BuildStmts` | export/bodybuild.go:499-518 | The loop drops what follows a terminating statement, but nothing in front of the last label |
| `DeadCode.FoldSwitch` | export/bodybuild.go:1014-1045 | The loop over clauses and cases gives the fold the lemmas speak of |
| `DeadCode.LastNonEmptyStmt` | export/bodybuild.go:1225-1232 | The search from the end finds the last statement that is not empty |
| `Captures.BuildBody` | export/bodybuild.go:223-232 | For any nesting of literals: the index of each variable is the position of its record in the stream, each number stands for exactly the variable the source names, and the captures are the free variables, once each, in the order of first use |
| `Captures.CapturesAreOuter` | export/bodybuild.go:476-490 | A literal captures only variables that are in scope where it stands, and a declaration in which every name is in scope captures nothing |
| `Captures.FirstsInOrder` | export/bodybuild.go:476-490 | Before the first use of an entry of a capture list no later entry is used |
| `Captures.FirstsGrow` | export/bodybuild.go:476-490 | Later uses never move an entry of a capture list |
| `CaptureOrder.NumberedAsWritten` | export/bodywrite.go:396-608 | The positions of a body are those of its records in the order in which its parts are written, and it captures exactly what is named in that order before it is declared |
| `Captures.Builder.AddLocal` | export/bodybuild.go:456-469 | A declaration takes the next position |
| `Captures.Builder.UseLocal` | export/bodybuild.go:476-490 | The number given for a variable stands for it in every later state of the numbering |
| `Captures.Builder.BuildLit` | export/bodybuild.go:2036-2053 | A literal's capture list leads, step by step, to the enclosing body's variables |
| `Captures.Builder.UseAll` | export/bodybuild.go:2036-2053 | Each captured variable is named once again in the enclosing numbering, in order |
| `Captures.Builder.BuildStmts` | export/bodybuild.go:499-518 | What is dropped is neither numbered nor written, and the records written are the variables numbered |
| `Captures.Builder.BuildStmt` | export/bodybuild.go:532-655 | The same for one statement |
| `Captures.Builder.BuildDest` | export/bodybuild.go:671-693 | A new variable is numbered where its record is written |
| `Captures.Builder.BuildRange` | export/bodybuild.go:787-830 | The same for the variables of a range clause |
| `Captures.Builder.BuildClause` | export/bodybuild.go:981-999 | The same for the variable of a type switch's clause |
| `HoistingExact.OrderlyIsExact` | ir/build.go:703-740 | For every tree whose calls can be told apart and whose left operands of `&&` and `\|\|` can go either way: the emitted temporaries and the residual tree keep value and order on every machine if and only if nothing is moved in front of a call that is left behind |
| `HoistingExact.UnguardedExactly` | ir/build.go:2365-2368 | The same for every tree without `&&` and `\|\|`: the selections on calls decide it alone |
| `HoistingExact.GuardedExactly` | ir/build.go:2534-2546 | The same for every tree some machine can evaluate in full |
| `HoistingExact.ExactlyOrderly` | ir/build.go:703-720 | The same for every tree with an evaluation that makes all its calls, from any machine and any state |
| `Hoisting.BuildMeans` | ir/build.go:672-740 | For every tree where nothing is moved in front of a call that is left behind: the temporaries and then the residual tree give the value and the sequence of calls and receives of left-to-right evaluation; if a call or a receive panics, the calls up to that one, in order, and the panic |
| `Hoisting.PlainMeans` | ir/build.go:703-720 | Expressions of calls, receives, unary, binary and comparison operators, indexing, dereference and selections (none directly on a call) are such trees |
| `Hoisting.OperandMeans` | ir/build.go:720-720 | The same when the value itself goes to a temporary |
| `Hoisting.OperandsMean` | ir/build.go:3107-3154 | The same for the operands of one operation or call, one after the other |
| `Hoisting.LeftBehind` | ir/build.go:2365-2368 | Two concrete trees that are not: `(p && f()) == g()` and `f().x + g()` call g first |
| `Hoisting.BuildMoves` | ir/build.go:672-720 | Every call and receive in the position of an operand is in a temporary of its own, numbered in order, and nothing else is in one |
| `Hoisting.Builder.NewTemp` | ir/build.go:678-693 | Emits the definition of the next temporary and nothing else |
| `Hoisting.Builder.Ordered` | ir/build.go:703-716 | A call or a receive goes to a temporary unless hoisting is suspended, and nothing else does |
| `Hoisting.Builder.BuildExpr` | ir/build.go:2523-2558 | The recursion over the builder's fields emits the specified definitions and leaves the specified tree |
| `Hoisting.Builder.BuildOperand` | ir/build.go:720-720 | The same for an operand |
| `Hoisting.Builder.BuildOperands` | ir/build.go:3107-3154 | The same for the loop over arguments |
| `Hoisting.Builder.Guarded` | ir/build.go:730-740 | Nothing is moved out of an expression that is not evaluated unconditionally |
| `ParallelAssign.EmittedIsTwoPhases` | ir/build.go:1992-2031 | For all destinations and values, in every memory: running what is emitted is the language's two phases, with the same final memory and the same panics |
| `ParallelAssign.StabilizeFixes` | ir/build.go:2139-2207 | A stabilised destination denotes, in every memory and with every later temporary, the location it denoted before the first write, for all nestings of field, array, slice, map and pointer steps |
| `ParallelAssign.AssignsStore` | ir/build.go:2010-2031 | Assigning to stabilised destinations from snapshots stores the held values at the held locations, in order, up to the first panic |
| `ParallelAssign.EmittedReadsOnce` | ir/build.go:2000-2031 | What is emitted reads each operand on the left and each value on the right that is not a constant once, from left to right, and then only assigns |
| `ParallelAssign.WriteIsRead` | ir/build.go:2010-2031 | A write is read back where it was made and changes nothing at a location that parts from it |
| `ParallelAssign.Builder.Hold` | ir/build.go:2144-2152 | Anything that is not a constant is read into a temporary once |
| `ParallelAssign.Builder.StabilizeParallel` | ir/build.go:2186-2207 | The in-place recursion emits the definitions and leaves the destination of StabilizeFixes |
| `ParallelAssign.Builder.Destinations` | ir/build.go:2000-2031 | All destinations are stabilised, left to right, before any value |
| `ParallelAssign.Builder.Values` | ir/build.go:2000-2031 | All values are read, left to right, before any write |
| `ParallelAssign.Builder.Assign` | ir/build.go:2000-2031 | Emits the two phases of EmittedIsTwoPhases |
| `LoopVarsMeaning.LoweredMeans` | ir/build.go:1603-1658 | For every statement list, run from any two states that agree: with every loop in it rewritten, loops in loops and in closures too, it ends alike and emits the same as with new instances in each round, and the memories and all variables in scope agree again, so whatever runs afterwards does too: closures and pointers the rounds left behind, the same loop once more |
| `LoopVarsMeaning.CarriersMeanPerRound` | ir/build.go:1603-1658 | A whole body begun in an empty state ends alike and emits the same with every loop rewritten |
| `LoopVarsMeaning.LoweredFor` | ir/build.go:1578-1602 | One loop with all its variables, some with carriers and some without |
| `LoopVarsMeaning.LoweredRounds` | ir/build.go:1603-1628 | The rounds of the two loops, from any round on, through continue, break, return and panics |
| `LoopVarsMeaning.BodyBegins` | ir/build.go:1629-1658 | Declaring the variables from their carriers starts the body like new instances: the memories agree by an injection that moves each variable from its carrier to the declared one |
| `LoopVarsMeaning.NextBegins` | ir/build.go:1629-1658 | The copies back make the carriers agree with the next round's instances, while what earlier rounds left to closures and pointers still agrees |
| `LoopVarsMeaning.InitStarts` | ir/build.go:1578-1602 | After the init statement nothing but the variable holds its instance, in any state a text can be in |
| `LoopVarsMeaning.LowerDeclares` | ir/build.go:1629-1658 | Rewriting a text declares no carrier of a loop around it |
| `LoopVarsAlike.CarriersText` | ir/build.go:1629-1658 | The loop that rewrites one variable after the other gives, at a glance: the header with all taken variables replaced, the declarations in front of the body, the copies in front of the post list |
| `LoopVarsAlike.SameEval` | ir/build.go:1664-1674 | An expression has the same value where some variables are replaced by their carriers, as long as no literal in it captures them, which is what `replaceObj` leaves alone |
| `LoopVarsRounds.OpenAll` | ir/build.go:1629-1658 | Declaring any number of variables from their carriers, one after the other |
| `LoopVarsRounds.CopyAll` | ir/build.go:1629-1658 | Copying any number of variables back, one after the other |
| `LoopVarsRounds.RenewAll` | ir/build.go:1603-1628 | Making the next instances of all variables, with carriers or without |
| `LoopVarsRounds.CloseOne` | ir/build.go:1629-1658 | A carrier with the copied value stands for the next instance of its variable |
| `LoopVarsRounds.KeepOne` | ir/build.go:1603-1628 | The one instance of a variable whose address is not taken stands for all instances |
| `LoopVarsHidden.RunHidden` | ir/build.go:1603-1628 | While a text hides a variable nothing comes to point to its instance |
| `LoopVarsCounter.AddressInHeader` | ir/build.go:1603-1628 | For any two variables: with `p = &x` as the post statement, some loop over x with some body does not do the same with a carrier, although the source speaks of closures only |
| `LoopVars.UsualLoop` | ir/build.go:1603-1628 | A loop over a declared variable is covered whenever its header exposes the variable nowhere and its body does not declare it again |
| `LoopVars.LowerIsPlain` | ir/build.go:1578-1602 | In the rewritten text no loop, in closures neither, has instances of its own for each round |
| `LoopVars.Replaced` | ir/build.go:1664-1674 | After a replacement by a name that was not in use no use of the old one is left outside of closures, and replacing back gives the text again |
| `LoopVars.PerIteration` | ir/build.go:1629-1658 | The loop over the declared variables gives the rewrite of LoweredMeans |
| `Descriptors.ClosureIsReach` | driver/types.go:154-211 | The closure has each symbol once and holds exactly what some path of references from a root reaches without passing through a runtime-owned type, said on the records of the types |
| `Descriptors.ClosureIsClosed` | driver/types.go:154-211 | Every reference out of the closure is in it or owned by the runtime |
| `Descriptors.ClosureTwice` | driver/types.go:154-211 | Closing a closure gives the same list in the same order |
| `Descriptors.ClosureFails` | driver/types.go:171-211 | There is no closure if and only if something that is reached cannot be written |
| `Descriptors.VisitAddsOnce` | driver/types.go:178-205 | The walk adds each symbol once and keeps what is there |
| `Descriptors.VisitCloses` | driver/types.go:178-205 | The walk leaves no reference of an added type undone |
| `Descriptors.DescriptorClosure` | driver/types.go:171-211 | The method returns the closure, over cyclic type graphs |
| `Descriptors.Closer.Walk` | driver/types.go:178-205 | The recursive closure with its `seen` map adds what the specified visit adds |
| `Archive.ArchiveIsRead` | driver/archive.go:64-112 | Reading the archive written around a definition gives the payload back if and only if no header line after the first begins like a section, given that the size fits its field |
| `Archive.DefinitionIsRead` | export/writer.go:1284-1298 | The same for the definition alone, with or without the main line |
| `Archive.SectionInHeader` | export/writer.go:1284-1298 | A header the writer accepts, of the two lines `go object x` and `$$`, whose payload is not read back |
| `Archive.OneLine` | export/read.go:197-228 | A header of one line has no such line |
| `Archive.DefinitionIsFound` | export/read.go:167-193 | The member walk finds the export data behind any number of members of other names, of odd or even size, and before anything |
| `Archive.NoDefinitionIsFound` | export/read.go:167-193 | An archive without the member is an error that says so |
| `Archive.MemberLies` | driver/archive.go:81-97 | The walk finds a written member where it was written, steps over its padding and lands behind it |
| `Archive.HeaderLength` | driver/archive.go:106-112 | A header has the length every reader expects if and only if the size fits its field |
| `Archive.HeaderColumns` | driver/archive.go:106-112 | The sixty bytes in front of a member, column by column |
| `Archive.FoundExactly` | export/read.go:167-193 | The member walk gives a body if and only if members it accepts lead to one of that name with that body |
| `Archive.SectionExactly` | export/read.go:213-228 | A section gives a payload if and only if it is the payload between its two marks |
| `Archive.DecimalIsRead` | driver/archive.go:106-112 | A size that is printed is read back |
| `Archive.Writer.WriteHeader` | driver/archive.go:106-112 | A name that is too long is an error and writes nothing |
| `Archive.Writer.WriteMember` | driver/archive.go:81-97 | Header, body and padding, or an error and nothing |
| `Archive.Writer.WriteArchive` | driver/archive.go:64-78 | The definition's member first, if there is one, then the object's |
| `Archive.PackageDefinition` | export/read.go:167-193 | The loop over an offset finds the first member of the name, and refuses what is not an archive |
| `Archive.Unified` | export/read.go:197-228 | The loop over the lines finds the payload between the section marks |
| `Archive.Payload` | export/read.go:153-159 | The two in sequence |
| `Archive.CutLine` | export/read.go:232-238 | A line and the rest make up the bytes, and the line has no newline |

## Left out

- EscapeAnalysis.NoteIsTrue: one direction only, because the walk ignores the order of statements and a named result may be unreachable.
- EscapeShortest.NoteIsExact: a body that names more than 1001 variables may go without a note that it could have, because the bound on the rounds counts rounds and not ways.
- Hoisting.BuildMeans: a source evaluation that panics is covered where only calls and receives panic, since the language leaves open whether an operator's panic or a later call comes first; calls write no variable.
- HoistingExact.OrderlyIsExact: each left operand of `&&` and `||` is decided by a name, an operator or a call of its own; `GuardedExactly` needs only that some truth values reach every call, and `Hoisting.BuildMeans` nothing.
- LinkCopy.CopyFollows: packages and declarations end a path and are compared by the path and the name they state; no package but the one being written has the empty path.
- LoopVarsMeaning.LoweredMeans: a loop whose header takes the address of one of its variables or captures it is outside, where AddressInHeader shows the rewrite wrong.
- BodyReader.ReadBody: an element nested in itself is refused, where the source does not return.
- Escape: the parameter's directives, blank parameters and functions without a body (escape/escape.go:87-158) are one branch each; the statement list of a direct destination, which the builder never makes, is not walked by the code either.
- Escape: words that become pointers follow rule (3) of package unsafe; round trips through memory are not in the runs.
- Escape: a mark does not count dereferences, since a value any number of loads away is held to the same rule.
- Bodies: constants are canonical opaque values, types are given by their index and their core, file positions by their base; sync markers and version gates are constant.
- Bodies: an index outside its section and the panics of the container are refusals; lists that the source fills in a loop are read by recursion.
- Bodies: grouping constructors (Arms, Cases, Scope, Tests, RangeConvs, LitRef) bundle fields of one node.
- Bodies: the reader checks that slots are in the dictionary, the writer does not; that is part of being canonical.
- Dictionaries: the type checker's types are finite terms with an identity, and building a body is the list of the types it derives.
- Dictionaries: how the interned lists (method expressions, instances, run-time types, itabs) are written, which derives no type (export/writer.go:966-986).
- Linked form: for a declaration that is encoded anew, the interleaving of object and extension data; the caches of the search, loading archives, the root element and the sorting of the body entries.
- Linked form: inline costs in the extension data, which refer to nothing.
- Folding: the rewriting in place is given as new values; range, type switches and select choose their clause freely; the widening of a tag's type.
- Captures: types and positions of local variables.
- Captures.Builder.BuildStmts: which statements are dead is marked in the input; that the folding drops what cannot run is `DeadCode.BuildStmts`, over statements whose expressions are opaque.
- Temporaries: composite literals, cases of a switch and statements other than the guarded operand.
- Parallel assignment: operands hold no call, as they come after hoisting; one call for several values, op-assignment and increment.
- Loop variables: range loops, whose variables are not copied back; a closure captures every name its body mentions.
- Descriptors: which types an object exports (driver/types.go:47-128); the order is that of the specified visit.
- Archive: a byte is a character, the object file is an opaque string, and the reader's integer width does not show in ten digits.
- The parser, the type checker, lowering, the back end, the driver's flags and processes, and everything that is one branch or one table.

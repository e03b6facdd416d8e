# Verified models of the LightPlayer tooling

The repository builds LightPlayer firmware and its Studio application. Several of its tools carry real
algorithms, and this project models those and proves what they are for:

- the control-flow torture generator: a small GLSL-like language with a printer and a fuel-metered
  interpreter, which is the oracle for the shader compiler's tests;
- the RAM ledger: a per-byte ownership map of a chip's RAM with a two-pass classifier, and a reader for
  Rust v0 symbol names;
- the greedy choice of functions to keep in instruction RAM;
- the Gregorian date formula behind the Studio build stamp;
- the first-light ratchet, which decides whether a change may land;
- part ids for map2d documents, the decodable span of a serial capture, and the lamp chain of a board.

`dafny verify dfyconfig.toml` checks the whole project.

## How it is laid out

| modules | content |
|---|---|
| `TortureAst`, `TortureSemantics`, `TortureInterp` | the language, what it means, and the interpreter class proved to compute it |
| `TortureFuel`, `TortureSignals`, `TortureLoops`, `TortureShortCircuit`, `TortureBranches`, `TortureTrace`, `TortureChk`, `TortureContSafe` | theorems over all programs |
| `TortureLaws` | the meaning of operators, variables, branches and loops in plain terms |
| `TortureEmitter`, `TortureParser`, `TortureRoundTrip`, `TortureParens`, `TortureIndent` | printing, an independent parser, the round trip, parentheses and layout |
| `TortureInputs` | trace-site allocation and argument tuples |
| `StableSort`, `RamLayout`, `RamPainter`, `RamRuns`, `RamSections`, `RamClassify`, `RamBytes`, `RamSummary`, `RamChips` | the ledger, from bytes to the final sum |
| `RustV0`, `RustV0Reader`, `RustV0RoundTrip`, `RustV0Plain`, `RustV0Shown`, `RustV0Names`, `RustV0Twin`, `RustV0Truncated`, `RustV0Cursor` | v0 names: encoding and readable form, the reader as functions, the round trip, an independent description of what is shown, the limits, and the reader as a cursor class |
| `HotIram`, `HotIramTies`, `CivilDate`, `FirstLight`, `PartIds`, `DecodableSpan`, `LampChain` | one tool each |
| `Options`, `Sequences`, `Decimals`, `Division` | shared types and facts |

Code that changes state keeps that form: the interpreter, the painter, the emitter's output list, the id
minter, the site allocator and the v0 cursor are classes, and the loops are loops. Each such method is
proved against a function of its inputs or of the old state, and the theorems are about those functions.

Some results are about where the code stops short of what one would expect:

- `make_loop`'s `for` and `while` forms can differ on a body that continues
  (`TortureLoops.ContinueSeparatesForFromWhile`); they agree on every body once the increment is put before
  each `continue` of its own (`TortureLoops.ForEndsAsSteppedWhile`).
- The greedy bound, over all profiles with a least function size, holds exactly from 16 bytes on
  (`HotIram.BoundHoldsExactlyFromFloor`); with smaller functions counted as 16 bytes it always holds
  (`HotIram.GreedyBound`).
- The v0 reader takes an empty identifier's length together with the digits after it. Nested names of any
  depth therefore read back if and only if no empty identifier among them is followed by a digit or
  underscore (`RustV0Names.NamesReadBackIffClean`), so an item or closure directly inside a closure needs a
  disambiguator or a Punycode mark (`RustV0Names.ItemInClosureReadsIff`). With generic arguments the condition
  is enough but not needed (`RustV0RoundTrip.PathReads`, `RustV0Twin.UncleanCanReadBack`).
- A blessed rise followed by a smaller measurement does not settle
  (`FirstLight.BlessedRiseDoesNotSettle`, with `FirstLight.PatchSettlesIff` as the exact condition).

The docstring of the ledger's v0 reader promises an error on anything not understood. The code does less on
some truncated texts, and the model follows the code: the loops of `base62` and `const` run on past the end
(`Hung`), and a type at the end of the text calls itself until Python raises `RecursionError`, which
`rust_name` does not catch (`TooDeep`). `RustV0Truncated` says exactly when the loops run on and names texts on
which whole paths do; no encoding of a path with non-empty identifiers is among them
(`RustV0Truncated.WholePathComesBack`).

## Model

| member | source | states |
|---|---|---|
| `TortureInterp.Interp.RunFunction` | lp-shader/scripts/gen-control-torture.py:275-278 | a run with a tank of 100,000 and fresh globals ends in the value or failure, the globals and the fuel that the call on that tank gives; as a method with a termination proof it also says that every run stops |
| `TortureInterp.Interp.CallFunction` | lp-shader/scripts/gen-control-torture.py:280-288 | a call binds its arguments, catches a return and turns a fall off the end, a wrong argument count or an unknown name into a failure, leaving globals and fuel as `Invoke` says |
| `TortureInterp.Interp.SpendOne` | lp-shader/scripts/gen-control-torture.py:290-293 | one unit of fuel is spent, and the call says whether the tank was at its last unit |
| `TortureInterp.Interp.StoreVar` | lp-shader/scripts/gen-control-torture.py:301-307 | an assignment goes to the local if there is one, else to the global, else fails, and changes nothing else |
| `TortureInterp.Interp.EvalArguments` | lp-shader/scripts/gen-control-torture.py:317-319 | arguments are evaluated left to right, each in the state the one before left |
| `TortureInterp.Interp.EvalExpr` | lp-shader/scripts/gen-control-torture.py:309-351 | the value or failure, the globals and the fuel after an expression are those of `Eval`, with right operands and arms run only when needed |
| `TortureInterp.Interp.RunBlock` | lp-shader/scripts/gen-control-torture.py:353-355 | a block stops at the first signal with the variables, globals and fuel of `ExecBlock` |
| `TortureInterp.Interp.RunStmt` | lp-shader/scripts/gen-control-torture.py:357-404 | a statement ends in the signal, variables, globals and fuel of `Exec` |
| `TortureInterp.Interp.RunFor` | lp-shader/scripts/gen-control-torture.py:368-378 | the `for` loop, with its exception handlers and its checked increment, is the iteration that steps its counter after every round that completes or continues |
| `TortureInterp.Interp.RunWhile` | lp-shader/scripts/gen-control-torture.py:379-387 | the `while` loop is the same iteration without a step |
| `TortureInterp.Interp.RunDoWhile` | lp-shader/scripts/gen-control-torture.py:388-398 | the `do-while` loop is that iteration entered at the body |
| `TortureLaws.OperatorsCompute` | lp-shader/scripts/gen-control-torture.py:324-349 | on operands that come to any two values, a truth value counting as 1 or 0, each of the eleven operators gives what ordinary arithmetic says: sum, difference and product with a failure outside 32 bits, the six comparisons, and truth of both or of either |
| `TortureLaws.ComparisonsExclude` | lp-shader/scripts/gen-control-torture.py:338-349 | exactly one of less, equal and greater holds; at most, at least and unequal are the negations of greater, less and equal |
| `TortureLaws.SubtractUndoesAdd` | lp-shader/scripts/gen-control-torture.py:332-335 | adding a number and taking it away again gives the first number back, unless the sum overflows |
| `TortureLaws.StoreThenRead` | lp-shader/scripts/gen-control-torture.py:301-314 | a value stored in a local or global variable is the value then read, every other variable reads as before, a local store leaves the globals alone, and a variable that is neither can be neither stored nor read |
| `TortureLaws.ArgumentsInOrder` | lp-shader/scripts/gen-control-torture.py:317-319 | the arguments of a longer list are those of its first part followed by those of its second, evaluated in the state the first part left |
| `TortureLaws.FrameHolds` | lp-shader/scripts/gen-control-torture.py:280-283 | a callee's frame holds each parameter with the argument at its place, the last of two with one name, and nothing else |
| `TortureLaws.GlobalsStart` | lp-shader/scripts/gen-control-torture.py:275-278 | a run starts with each declared global at its initial value, the last declaration of a name counting, and with no other |
| `TortureLaws.TestChooses` | lp-shader/scripts/gen-control-torture.py:363-367 | a test that comes to a non-zero number runs the first arm and only that, one that comes to zero the other, or nothing if there is none |
| `TortureLaws.WhileUnfolds` | lp-shader/scripts/gen-control-torture.py:379-387 | a `while` does nothing if its test fails; else it runs its body once and, unless that broke out, returned or failed, is the same `while` again in what the body left |
| `TortureLaws.DoWhileUnfolds` | lp-shader/scripts/gen-control-torture.py:388-398 | a `do-while` runs its body once and then, unless that broke out, returned or failed, is the `while` of the same test and body |
| `TortureFuel.FuelEval` | lp-shader/scripts/gen-control-torture.py:290-351 | more fuel gives the same value and state with exactly the extra fuel left over, for every expression that did not run dry |
| `TortureFuel.FuelInvoke` | lp-shader/scripts/gen-control-torture.py:280-293 | the same for every call, through recursion |
| `TortureFuel.FuelBlock` | lp-shader/scripts/gen-control-torture.py:353-355 | the same for every block |
| `TortureFuel.FuelExec` | lp-shader/scripts/gen-control-torture.py:357-404 | the same for every statement |
| `TortureFuel.FuelIterate` | lp-shader/scripts/gen-control-torture.py:368-398 | the same for every loop, empty bodies included |
| `TortureSignals.NoStraySignal` | lp-shader/scripts/gen-control-torture.py:280-288 | in a table whose functions keep break and continue inside loops, a call ends in a value or a failure, never in a break, continue or return signal; and it falls off the end of a function only if some function of the table does not end in a return |
| `TortureSignals.BlockSignals` | lp-shader/scripts/gen-control-torture.py:353-404 | a block raises break or continue only if one stands outside its loops, through any nesting and any calls |
| `TortureSignals.LoopHoldsSignals` | lp-shader/scripts/gen-control-torture.py:368-398 | no break or continue leaves a loop, wherever it stands in the body |
| `TortureSignals.EndsInReturnNeverFallsOff` | lp-shader/scripts/gen-control-torture.py:280-288 | a body whose last statement is a return never completes normally |
| `TortureLoops.ForEndsAsSteppedWhile` | lp-shader/scripts/gen-control-torture.py:775-795 | for every body, continues included, the `for` form can end in exactly the same outcomes, variables and globals as the `while` form of that body with the increment put before each `continue` of its own |
| `TortureLoops.SteppedIsSame` | lp-shader/scripts/gen-control-torture.py:775-795 | a body without a `continue` of its own is unchanged by that |
| `TortureLoops.LoopKindsAgree` | lp-shader/scripts/gen-control-torture.py:775-795 | for every body without a `continue` of its own, the `for` and `while` forms of a loop can end in exactly the same outcomes, variables and globals; the `do-while` form joins them when the bound is call-free and its first test holds |
| `TortureLoops.ForRunsAsWhile` | lp-shader/scripts/gen-control-torture.py:775-795 | whatever the `for` form of any body does with some fuel, the stepped `while` form does with five times that fuel |
| `TortureLoops.WhileRunsAsFor` | lp-shader/scripts/gen-control-torture.py:775-795 | whatever the stepped `while` form does with some fuel, the `for` form does with any fuel at least as large |
| `TortureLoops.DoWhileRunsAsWhile` | lp-shader/scripts/gen-control-torture.py:775-795 | with a call-free bound and a first test that holds, the `while` form needs at most one test's fuel more than the `do-while` form to end alike, also in bodies that continue |
| `TortureLoops.WhileRunsAsDoWhile` | lp-shader/scripts/gen-control-torture.py:775-795 | and the other way round |
| `TortureLoops.IncrementIsStep` | lp-shader/scripts/gen-control-torture.py:775-795 | the written-out increment does what the header of a `for` does, overflow failure included, for four units of fuel |
| `TortureLoops.CallFreeIsPure` | lp-shader/scripts/gen-control-torture.py:309-351 | a call-free expression on a tank larger than its node count does not run dry, changes no global and costs at most one unit per node |
| `TortureLoops.ContinueSeparatesForFromWhile` | lp-shader/scripts/gen-control-torture.py:775-795 | without the step put first the two forms can differ: a body that is `continue` alone ends in the `for` form and runs every tank dry in the `while` form |
| `TortureLoops.EscapingContinueSeparates` | lp-shader/scripts/gen-control-torture.py:280-288 | so does a body that only calls a function whose own body is `continue`, which the interpreter lets escape into the caller's loop |
| `TortureSignals.BlockNeverContinues` | lp-shader/scripts/gen-control-torture.py:353-404 | where no function lets a `continue` escape, a block continues only by a `continue` of its own, whatever breaks escape |
| `TortureShortCircuit.ShortCircuitIsTernary` | lp-shader/scripts/gen-control-torture.py:320-329 | rewriting every conjunction of a and b in condition position to `a ? b : 0` and every disjunction to `a ? 1 : b`, in all functions of a table, leaves exactly the same results and final globals reachable for every call |
| `TortureShortCircuit.RewritePreservesCalls` | lp-shader/scripts/gen-control-torture.py:320-329 | each direction with its fuel: three times the tank is enough for the other form to return the same result and globals |
| `TortureShortCircuit.RewritePreservesBlocks` | lp-shader/scripts/gen-control-torture.py:353-404 | the same for a block's signal, its variables and the globals |
| `TortureShortCircuit.RewriteBlockLeaves` | lp-shader/scripts/gen-control-torture.py:320-329 | after the rewrite no conjunction or disjunction is left in condition position, in any block |
| `TortureBranches.SamePathAsTernary` | lp-shader/scripts/gen-control-torture.py:320-329 | for every call of every program, the rewrite keeps the outcome of every `if` and loop test and every call entered with its arguments, through all calls and in order, together with the result and the globals: exactly the same such runs are possible before and after |
| `TortureBranches.RewriteKeepsBlockPath` | lp-shader/scripts/gen-control-torture.py:353-404 | each direction for a block, with its fuel: the branches taken and calls made are the same on three times the tank |
| `TortureBranches.RewriteKeepsCallPath` | lp-shader/scripts/gen-control-torture.py:280-288 | each direction for a call, with its fuel |
| `TortureBranches.IfPath` | lp-shader/scripts/gen-control-torture.py:363-367 | what a path holds of an `if`: the path of its test, the outcome, and the path of the arm it chose |
| `TortureBranches.WhilePath` | lp-shader/scripts/gen-control-torture.py:379-387 | of a `while`: the path of its test and the outcome, then the body's path if it runs, then the same `while` again if it goes on |
| `TortureBranches.EnteredPath` | lp-shader/scripts/gen-control-torture.py:280-288 | of a call that is entered: its arguments' path, its name with the arguments, and the path of the callee's body |
| `TortureTrace.FinalSpellsSites` | lp-shader/scripts/gen-control-torture.py:467-477 | in every function that assigns `t` only by its initial 0 and by sites, whatever it returns and however it ends, the final `t` is the base-ten spelling of the sites executed, and the i32 check trips only after nine of them |
| `TortureTrace.EqualFinalsMeanEqualPaths` | lp-shader/scripts/gen-control-torture.py:467-477 | two runs, of whatever two such functions, with equal final `t` visited the same sites in the same order |
| `TortureTrace.ReturnComesFrom` | lp-shader/scripts/gen-control-torture.py:357-404 | a block that returns does so by one of its own return statements, whose expression has the returned value in the variables the block ends with |
| `TortureTrace.ReturnSpellsSites` | lp-shader/scripts/gen-control-torture.py:467-477 | where every return gives `t` or a negative literal, a returned value that is not negative is the base-ten spelling of the sites executed, and every returned value is where only `t` is returned |
| `TortureTrace.EqualReturnsMeanEqualPaths` | lp-shader/scripts/gen-control-torture.py:467-477 | two calls, of whatever two such functions, that return the same value visited the same sites in the same order, unless that value is a negative literal of both |
| `TortureTrace.EncodeIsInjective` | lp-shader/scripts/gen-control-torture.py:467-477 | digit sequences over 1..9 of any two lengths with equal base-ten values are equal |
| `TortureTrace.SiteAppends` | lp-shader/scripts/gen-control-torture.py:295-299 | one site appends its digit, runs dry without effect, or trips the i32 check, the last only with nine digits behind it |
| `TortureTrace.BlockSpells` | lp-shader/scripts/gen-control-torture.py:353-404 | at the end of any block, however it ended, `t` spells the sites before it followed by the sites it executed |
| `TortureChk.ChkAppends` | lp-shader/scripts/gen-control-torture.py:496-506 | a call of `chk` answers whether its value is positive and appends its digit to the global trace, or fails on a trace of more than nine digits |
| `TortureChk.LocalMeans` | lp-shader/scripts/gen-control-torture.py:309-351 | an expression of local variables without calls comes to its meaning and changes no global, or runs out of fuel |
| `TortureChk.FormulaLeavesItsCalls` | lp-shader/scripts/gen-control-torture.py:320-329 | a condition of conjunctions, disjunctions, ternaries, plain conditions and `chk` calls on any expressions of local variables evaluates to its truth value and leaves in the trace exactly the calls that short-circuiting and choosing require, in order; an operand may overflow, after exactly the calls before it |
| `TortureContSafe.ContSafeRunsAtMost` | lp-shader/scripts/gen-control-torture.py:1440-1451 | with a constant bound N and a body that leaves the counter alone, the body runs at most max(N, 0) times in the `for` and `while` forms and at most max(N, 1) times in the `do-while` form, on any tank and wherever it continues; exactly so often when the loop completes and nothing breaks out |
| `TortureContSafe.ContSafeEnds` | lp-shader/scripts/gen-control-torture.py:1440-1451 | if the body always completes on some tank, so does the loop, for all three kinds |
| `TortureInputs.SiteAlloc.NextSite` | lp-shader/scripts/gen-control-torture.py:467-477 | the sites come out with digits 1 to 9 in order, and the tenth request is refused |
| `TortureInputs.Combos` | lp-shader/scripts/gen-control-torture.py:488-493 | every 0/1 tuple of the length is listed once, in lexicographic order, and nothing else |
| `TortureEmitter.AppendStmts` | lp-shader/scripts/gen-control-torture.py:197-232 | the lines appended for a block, nested blocks included, are those of `BlockLines` |
| `TortureEmitter.BlockLinesText` | lp-shader/scripts/gen-control-torture.py:197-232 | joined, the emitted lines are the text the parser is given |
| `TortureRoundTrip.ExprRoundTrip` | lp-shader/scripts/gen-control-torture.py:160-194 | every expression printed at any minimum precedence is read back by a left-associative precedence parser as exactly that expression, whatever may follow it |
| `TortureRoundTrip.TablesAgree` | lp-shader/scripts/gen-control-torture.py:160-172 | the emitter's precedence numbers order the operators as the operator table in section 5.1 of the GLSL 4.50 specification does, so its parenthesis rule is the parser's |
| `TortureParens.OnlyNeededParens` | lp-shader/scripts/gen-control-torture.py:187-192 | an operation's text is its left operand, the operator and its right operand, and each operand stands in parentheses if and only if the text without them would be read as another expression |
| `TortureParens.TernaryIsParenthesized` | lp-shader/scripts/gen-control-torture.py:182-186 | a ternary stands in parentheses at every precedence, around its condition and arms in order |
| `TortureParens.PartsStandAlone` | lp-shader/scripts/gen-control-torture.py:179-181 | arguments come in order with commas between, and they, the tests and the expressions of statements have no parentheses of their own beyond those they have alone |
| `TortureRoundTrip.BlockRoundTrip` | lp-shader/scripts/gen-control-torture.py:197-232 | every statement list reads back exactly, an absent else arm kept apart from an empty one |
| `TortureRoundTrip.FuncRoundTrip` | lp-shader/scripts/gen-control-torture.py:235-240 | every function definition reads back exactly and consumes exactly its text |
| `TortureRoundTrip.EmitterIsInjective` | lp-shader/scripts/gen-control-torture.py:235-240 | two functions with the same text are the same function |
| `TortureRoundTrip.LinesAreInjective` | lp-shader/scripts/gen-control-torture.py:197-232 | two blocks whose lines have the same text, at whatever indentation, are the same block |
| `TortureIndent.BlockIsLaidOut` | lp-shader/scripts/gen-control-torture.py:197-232 | every line of a block is indented by the number of blocks open before it, one less if it starts by closing one, and the lines close every block they open |
| `TortureIndent.BlockBreaks` | lp-shader/scripts/gen-control-torture.py:197-232 | every line of a block ends in a semicolon or an opening brace or is a closing brace, and holds no other brace but a closing one at its start and no other semicolon but in the heading of a `for` |
| `TortureIndent.FunctionLines` | lp-shader/scripts/gen-control-torture.py:235-240 | the lines written for a function break and stand so, from depth 0 back to depth 0, and joined they are the function's text |
| `RamPainter.Painter.constructor` | scripts/ram-ledger.py:645-654 | the windows are the given ones, ordered by start and then by end, and every byte starts unclaimed |
| `RamPainter.Painter.Intern` | scripts/ram-ledger.py:656-663 | the number returned is non-zero and stands for the claim; equal claims share a number, different claims have different ones, known numbers keep their claims, and no byte changes |
| `RamPainter.Painter.Paint` | scripts/ram-ledger.py:665-674 | as seen by address, the range takes the claim wherever it lies in a window, every other byte keeps its own, and the result is the number of bytes that lie in a window |
| `RamPainter.Painter.PaintClaim` | scripts/ram-ledger.py:656-674 | interning and painting together refine one overlay of the address-to-claim map |
| `RamRuns.ListRuns` | scripts/ram-ledger.py:676-684 | the runs listed are those of the painting, window by window |
| `RamRuns.AllRunsFaithful` | scripts/ram-ledger.py:676-684 | the runs are in address order, do not overlap, cover every byte and hold one claim number each |
| `RamRuns.WindowRunsMaximal` | scripts/ram-ledger.py:676-684 | inside a window neighbouring runs touch and differ, so none can be extended |
| `RamRuns.AllRunBytes` | scripts/ram-ledger.py:676-684 | for every selection of claim numbers the selected runs are together as long as there are selected bytes |
| `RamSections.PaintSection` | scripts/ram-ledger.py:797-840 | the section is painted, then the merged-globals containers, then the other symbols from large to small; the result is the section's bytes inside windows, and every byte is owned as the next row says |
| `RamSections.OwnedAfterPainting` | scripts/ram-ledger.py:816-840 | a byte that regular symbols cover belongs to the smallest of them, of equal ones to the last listed; else the last listed container that covers it owns it; else it keeps its claim |
| `RamSections.ContainersAreMerged` | scripts/ram-ledger.py:816-817 | the containers are exactly the symbols whose name starts with `.L_MergedGlobals` |
| `RamSections.LastPaintWins` | scripts/ram-ledger.py:820-840 | whatever the order, a byte belongs to the last symbol painted over it |
| `StableSort.SortIsSorted` | scripts/ram-ledger.py:816-820 | sorting gives a sorted permutation |
| `StableSort.SortIsStable` | scripts/ram-ledger.py:816-820 | symbols that tie keep their order |
| `RamClassify.Classify` | scripts/ram-ledger.py:943-993 | both passes happen in turn: what is unclaimed is settled on the painting as it was, and the section bytes are revisited on the painting the first pass left; no byte is left unclaimed; a byte held by anything but a bare section keeps its claim, a bare section's byte keeps its category and section or becomes padding; the quality tally counts the bytes of each kind and adds up to all bytes |
| `RamClassify.SettleUnclaimed` | scripts/ram-ledger.py:954-967 | the first pass repaints exactly the unclaimed runs, as padding, idle or unknown, judged on the runs before any of it was painted |
| `RamClassify.RevisitSections` | scripts/ram-ledger.py:969-986 | the second pass repaints exactly the section runs between two symbols, as padding, as the neighbours' owner's, or with the neighbours named |
| `RamClassify.Pass1Fates` | scripts/ram-ledger.py:954-967 | byte by byte: a claimed byte is untouched and an unclaimed one ends up padding, idle or unknown |
| `RamClassify.Pass2Fates` | scripts/ram-ledger.py:969-986 | byte by byte: only a bare section's byte can change |
| `RamClassify.QualityTally` | scripts/ram-ledger.py:987-993 | each kind's total is the number of bytes of that kind |
| `RamClassify.TallyAddsUp` | scripts/ram-ledger.py:987-993 | once every byte is claimed the seven totals add up to all bytes |
| `RamBytes.RunIsStretch` | scripts/ram-ledger.py:676-684 | a run is a stretch of bytes with one number that cannot be extended except across a window's edge |
| `RamBytes.UnclaimedByGap` | scripts/ram-ledger.py:954-967 | said without runs: an unclaimed byte becomes padding exactly when the gap it lies in is shorter than 16 bytes and the bytes just before and after it are claimed, idle and named after its segment exactly when it is not that and the segment is spare and the gap ends the segment or is not followed by a claimed byte, and else unknown, named by the gap's two addresses; the whole claim is given |
| `RamBytes.SectionByStretch` | scripts/ram-ledger.py:969-986 | said without runs: a byte only a section holds is revisited exactly when the bytes just before and after its stretch belong to symbols; it becomes padding if and only if the stretch is shorter than 4 bytes in code and radio code or than 16 elsewhere, else the common owner's if the two symbols share owner and category, and else stays the section's with the symbol before and the symbol after named in that order; the whole claim is given |
| `RamBytes.RevisitIsBetweenFate` | scripts/ram-ledger.py:976-986 | the rule for one stretch between two symbols, with its limits 4 and 16, the inferred owner and the names of both neighbours |
| `RamBytes.SegAtIsFirst` | scripts/ram-ledger.py:958-958 | the segment of an address is the first one listed that holds it |
| `RamBytes.HexIsAddress` | scripts/ram-ledger.py:966-966 | an address is written as `0x` and digits that spell it, eight or more, with no more zeros in front than that takes |
| `RamSummary.CountPerClaim` | scripts/ram-ledger.py:1000-1004 | each claim number is listed once, in order of first appearance, with the number of bytes that carry it |
| `RamSummary.Summarize` | scripts/ram-ledger.py:1007-1023 | each category's total is the number of bytes in it, no category is listed twice, and the totals add up to all bytes |
| `RamSummary.SummaryIsExact` | scripts/ram-ledger.py:1007-1023 | the same of the summary as a function of windows, numbers and claims |
| `RamChips.C6IsSound` | scripts/ram-ledger.py:132-149 | the ESP32-C6 map has no overlap and adds up to its RAM size |
| `RamChips.V3IsSound` | scripts/ram-ledger.py:150-203 | so does the classic ESP32 map |
| `RamChips.S3IsSound` | scripts/ram-ledger.py:204-250 | so does the ESP32-S3 map |
| `RamChips.SumsToChip` | scripts/ram-ledger.py:1356-1360 | the final sum check cannot fail on any of the three chips, whatever has been painted |
| `RustV0RoundTrip.Base62Reads` | scripts/ram-ledger.py:293-302 | every base-62 number reads back, whatever follows |
| `RustV0RoundTrip.Digits62Only` | scripts/ram-ledger.py:270-302 | the base-62 digits are exactly those the encoding uses, each with its value; no other character is one |
| `RustV0RoundTrip.IdentReads` | scripts/ram-ledger.py:304-324 | every disambiguated, length-prefixed identifier reads back with its disambiguator, unless it is empty and a digit or underscore follows |
| `RustV0RoundTrip.IdentReadsOnlyIfClean` | scripts/ram-ledger.py:304-324 | that exception is exact: in those cases it does not read back |
| `RustV0RoundTrip.PathReads` | scripts/ram-ledger.py:343-382 | a path of any form whose empty identifiers are never followed by a digit or underscore reads back to its readable name and owning crate, consuming exactly its encoding |
| `RustV0RoundTrip.TypeReads` | scripts/ram-ledger.py:410-467 | the same for every type: basic, array, slice, tuple, reference, pointer, function, dyn and named |
| `RustV0RoundTrip.ConstReads` | scripts/ram-ledger.py:395-408 | the same for constants, placeholder and signed hexadecimal |
| `RustV0Plain.PlainPathReads` | scripts/ram-ledger.py:343-382 | every path with non-empty identifiers reads back to its readable name and owning crate, consuming exactly its encoding |
| `RustV0Plain.EncodingDecidesName` | scripts/ram-ledger.py:343-382 | two such paths with the same encoding have the same readable name and owner |
| `RustV0Shown.PathReadsAsParts` | scripts/ram-ledger.py:343-382 | every clean path reads as its parts from the outermost to the innermost with `::` between neighbours, by a reference written without any definition of the reader or the round trip, and as its owner |
| `RustV0Shown.NamesReadInOrder` | scripts/ram-ledger.py:347-358 | any number of non-empty names over a crate root reads as the crate's name and those names in order with `::` between, owned by the crate |
| `RustV0Shown.ClosureReads` | scripts/ram-ledger.py:354-358 | a closure reads as its parent's name, `::` and `{closure#d}` with its number d |
| `RustV0Shown.ShimReads` | scripts/ram-ledger.py:356-358 | a shim reads as its parent's name, `::` and `{shim:name#d}` with its name and number |
| `RustV0Shown.GenericReadsInOrder` | scripts/ram-ledger.py:374-379 | generic arguments read after their path, in angle brackets, in order with a comma and a space between |
| `RustV0Shown.TypeReadsAsText` | scripts/ram-ledger.py:410-467 | every clean type reads as the same reference has it: arrays, slices, tuples in order, references and pointers with their mutability, functions, `dyn` bounds in order, and paths |
| `RustV0Shown.LastTypeIsResult` | scripts/ram-ledger.py:439-451 | a function type shows its last type as the result and the others in order as its parameters |
| `RustV0Shown.BasicLetterReads` | scripts/ram-ledger.py:265-269 | each of the 21 basic letters reads as the type that RFC 2603 lists for it |
| `RustV0Shown.BasicIsTable` | scripts/ram-ledger.py:265-269 | and no other letter is a basic type |
| `RustV0Shown.HexIsSixteens` | scripts/ram-ledger.py:403-408 | a constant's digits, in either case, are its value in base sixteen; a text with any other character has none |
| `RustV0Names.NamesReadBackIffClean` | scripts/ram-ledger.py:343-357 | names nested to any depth, with any identifiers, over a crate root or over any path with non-empty identifiers, and with any text after them, read back if and only if no empty identifier among them is followed by a digit or underscore |
| `RustV0Names.UncleanNamesAreLost` | scripts/ram-ledger.py:315-324 | otherwise the reader raises or ends inside the text that follows; with nothing after the names it raises |
| `RustV0Names.OneIdent` | scripts/ram-ledger.py:304-324 | one identifier read off a row of any identifiers leaves the reader at the start of a later one or inside the text that follows, and passes more than one exactly when an empty identifier is followed by a digit or underscore |
| `RustV0Names.ItemInClosureReadsIff` | scripts/ram-ledger.py:343-357 | an item or a closure directly inside a closure reads back exactly when its identifier has a disambiguator or a Punycode mark and, if empty, is itself not followed by a digit or underscore |
| `RustV0Twin.UncleanCanReadBack` | scripts/ram-ledger.py:395-408 | beyond nested names the condition is enough but not needed: generic arguments in which an empty identifier swallows the next argument's start, and which read back all the same |
| `RustV0Truncated.Base62HangsIff` | scripts/ram-ledger.py:293-302 | the base-62 loop never ends exactly when all the text ahead is base-62 digits, the empty text included |
| `RustV0Truncated.HexHangsIff` | scripts/ram-ledger.py:395-408 | the loop over a constant's value never ends exactly when no underscore is ahead |
| `RustV0Truncated.IdentHangsIff` | scripts/ram-ledger.py:315-324 | reading an identifier never ends exactly in a disambiguator that is cut off, and never recurses |
| `RustV0Truncated.CutDisambiguatorHangs` | scripts/ram-ledger.py:343-347 | every crate root cut off in its disambiguator makes the reader run on |
| `RustV0Truncated.CutLengthHangs` | scripts/ram-ledger.py:395-408 | every array type cut off in its length makes the reader run on |
| `RustV0Truncated.CutImplIsTooDeep` | scripts/ram-ledger.py:410-467 | every impl block cut off before its type makes the reader recurse without end |
| `RustV0Truncated.CutTexts` | scripts/ram-ledger.py:343-382 | `Cs` is such a text for the first, `MC1a` for the last |
| `RustV0Truncated.WholePathComesBack` | scripts/ram-ledger.py:343-382 | the encoding of a path with non-empty identifiers meets none of these, whatever follows it |
| `RustV0Cursor.Cursor.Base62` | scripts/ram-ledger.py:293-302 | the loop returns what `ReadBase62` says of the text ahead and leaves the cursor just before the rest |
| `RustV0Cursor.Cursor.DecimalNumber` | scripts/ram-ledger.py:304-310 | likewise for decimal numbers, leading zeros read over |
| `RustV0Cursor.Cursor.Identifier` | scripts/ram-ledger.py:315-324 | likewise for identifiers, short ones raising |
| `RustV0Cursor.Cursor.Path` | scripts/ram-ledger.py:343-382 | likewise for paths, on every text: a result, a raised error, a loop that never comes back, or endless recursion |
| `RustV0Cursor.Cursor.GenericArg` | scripts/ram-ledger.py:387-393 | likewise for generic arguments |
| `RustV0Cursor.Cursor.Constant` | scripts/ram-ledger.py:395-408 | likewise for constants |
| `RustV0Cursor.Cursor.Type` | scripts/ram-ledger.py:410-467 | likewise for types; at the end of the text a type calls itself without end, an outcome of its own |
| `HotIram.Choose` | scripts/s3-hot-iram.py:209-219 | the loop keeps exactly the greedy choice from the ranked list, in rank order, and the choice fits the budget |
| `HotIramTies.ChoiceIsInOrder` | scripts/s3-hot-iram.py:209-219 | of two chosen functions the earlier has more samples per byte, counting at least 16 bytes, or as many and the smaller name |
| `HotIramTies.NotPassedOver` | scripts/s3-hot-iram.py:209-219 | a function left out has neither more samples per byte than a chosen one of at least its size, nor as many and a smaller name |
| `HotIramTies.OrderDoesNotMatter` | scripts/s3-hot-iram.py:209-219 | with distinct names, any two orders of the same profile give the same choice |
| `HotIramTies.RankedIff` | scripts/s3-hot-iram.py:210-212 | the ranking puts first the higher ratio, and of equal ratios the name that is a prefix or smaller at the first difference |
| `HotIram.GreedyFits` | scripts/s3-hot-iram.py:209-219 | the greedy choice fits in what is left of the budget, from any point of the loop on |
| `HotIram.NothingSkippedFits` | scripts/s3-hot-iram.py:209-219 | no skipped function would still fit next to the final choice |
| `HotIram.GreedyBound` | scripts/s3-hot-iram.py:209-219 | counting every function as at least 16 bytes, the samples kept plus those of the first function skipped are at least those of any subset that fits |
| `HotIram.GreedyBoundAboveFloor` | scripts/s3-hot-iram.py:209-219 | when every function is at least 16 bytes the bound holds against every subset that fits |
| `HotIram.BoundHoldsExactlyFromFloor` | scripts/s3-hot-iram.py:209-219 | 16 bytes is the exact threshold: for every s, the bound holds against every selection that fits, for all profiles of functions of at least s bytes and all budgets, if and only if s is at least 16 |
| `HotIram.FifteenBytesBeatTheBound` | scripts/s3-hot-iram.py:209-219 | with 15-byte functions it fails: thirty-two of them with 2 samples each fill 480 bytes and are all skipped for one function of 480 bytes with 61 |
| `CivilDate.CivilSuccessor` | lp-app/lpa-studio-web/build.rs:544-558 | every day number, negative ones included, gives a valid Gregorian date, and the next number gives the next date |
| `CivilDate.CivilIsNthDay` | lp-app/lpa-studio-web/build.rs:544-558 | the closed formula agrees with counting days one by one from 1970-01-01, in both directions |
| `CivilDate.EpochIsDayZero` | lp-app/lpa-studio-web/build.rs:544-558 | day 0 is 1970-01-01 |
| `CivilDate.FormulaSplits` | lp-app/lpa-studio-web/build.rs:544-551 | the formula finds the one March-based year a day lies in and its place in that year |
| `CivilDate.StampSuccessor` | lp-app/lpa-studio-web/build.rs:533-542 | hour, minute and second are in range and each second is followed by the next on clock and calendar |
| `CivilDate.StampsStart` | lp-app/lpa-studio-web/build.rs:533-542 | second 0 is midnight of 1970-01-01 |
| `FirstLight.Check` | scripts/ci/first-light-ratchet.py:166-239 | the exit code is 0 exactly when the record may stand and the measurement is at or above it, within five of it and within the budget; each of the four verdicts is given exactly on its own condition, over budget taking precedence; each kind of failure is reported exactly when its own condition holds, once; the warning is given exactly above 400 and up to 500 ms; a patch is handed back exactly when the record would be rewritten and no unauthorised rise stands, and otherwise the record file is left as it was |
| `FirstLight.AcceptsIff` | scripts/ci/first-light-ratchet.py:166-239 | what is accepted, in the tool's numbers 500 and 5 and the two authors who may raise the record |
| `FirstLight.RewrittenIff` | scripts/ci/first-light-ratchet.py:190-233 | the record is rewritten exactly within the budget: down to a smaller measurement in CI's name, or up to one more than five above with the image unchanged in the emulator's |
| `FirstLight.GuardApply` | scripts/ci/first-light-ratchet.py:331-352 | a staged record is refused exactly when it rises and is not marked as an emulator re-record; the guard does not see the image |
| `FirstLight.HandedBackPatchApplies` | scripts/ci/first-light-ratchet.py:331-352 | whatever patch a check hands back, the guard lets it through |
| `FirstLight.RisesOnlyWithAuthority` | scripts/ci/first-light-ratchet.py:166-181 | over any run of accepted changes the record rises only with Yona's record and the label, or as an emulator re-record with the image unchanged |
| `FirstLight.RecordIsBounded` | scripts/ci/first-light-ratchet.py:166-239 | at any point of such a run the record is at most the starting record plus the authorised rises |
| `FirstLight.MeasurementIsBounded` | scripts/ci/first-light-ratchet.py:183-233 | every accepted measurement is at least its record, at most five above it and at most 500 ms, so at most five above the starting record plus the authorised rises |
| `FirstLight.NoAuthorityNoDrift` | scripts/ci/first-light-ratchet.py:166-239 | with no authorised rise no accepted measurement exceeds the starting record plus five |
| `FirstLight.PatchSettlesIff` | scripts/ci/first-light-ratchet.py:190-239 | applying the handed-back patch makes the next check accept exactly when there is no base, the measurement is not above the base, or the patch is a re-record |
| `FirstLight.BlessedRiseDoesNotSettle` | scripts/ci/first-light-ratchet.py:190-239 | a blessed rise followed by a smaller measurement above the base is ratcheted and then refused |
| `PartIds.MakeSlug` | scripts/map2d6.py:74-90 | the loop gives the slug of the name, or none |
| `PartIds.SlugIsId` | scripts/map2d6.py:74-90 | a slug, of any name, is at most 24 id characters, starts with a letter, does not end in a dash and has no two dashes in a row |
| `PartIds.IdIsItsSlug` | scripts/map2d6.py:74-90 | every such id is its own slug, so the slugs are exactly the ids |
| `PartIds.SlugSeesLettersOnly` | scripts/map2d6.py:74-90 | names that differ only in case, or in which character that no id can have stands at a place, get the same slug |
| `PartIds.SlugClosesGaps` | scripts/map2d6.py:74-90 | two characters in a row that no id can have count as one, and one at the front of a name as none |
| `PartIds.TidySlug` | scripts/map2d6.py:74-90 | a name in small id characters, without a dash in front or two in a row, has a slug exactly when it starts with a letter: its first 24 characters less a dash at their end; with the two rows before this settles the slug of every name |
| `PartIds.MintedReadsBack` | scripts/map2d6.py:93-99 | a kind word followed by a number reads back to that word and that number, whichever of the eight words it is |
| `PartIds.MintedIff` | scripts/map2d6.py:93-99 | an id reads as minted, with a word and a number, exactly when it is one of the eight kind words followed by one or more digits of that number |
| `PartIds.Minter.Mint` | scripts/map2d6.py:128-134 | the id minted is its word and the first number from 1 on that was free, is taken afterwards, and the word's counter is one past it; the search ends |
| `PartIds.Minter.HoldSlugs` | scripts/map2d6.py:116-124 | an object holds its slug exactly when no other object has the same one |
| `PartIds.Minter.RaiseCounters` | scripts/map2d6.py:140-144 | whatever the order of the sweep, afterwards every number from a kind word's counter on is free and every counter is one past a number in use |
| `PartIds.AssignIds` | scripts/map2d6.py:110-145 | in order, each object gets as many `repeat` ids as repeats and then its slug where that is its alone, else its kind word and a number, each number the first from 1 on not taken by an id given out before or a slug still to come; all ids are pairwise distinct; every kind word followed by a number at or above its returned counter (1 if absent) is unused, and the returned counters are past every number in use and one past some number in use |
| `PartIds.IdsAreUnique` | scripts/map2d6.py:110-139 | that description fits one assignment only |
| `DecodableSpan.Find` | scripts/emu/classic-reset-and-capture.py:121-149 | the span starts at the leftmost longest run of text bytes (tab, newline, carriage return, escape and printable ASCII), runs that reach the end of input included, and ends just after that run's last newline, or with the run if it has none |
| `DecodableSpan.CutBack` | scripts/emu/classic-reset-and-capture.py:146-148 | the cut is just after the last newline of the range, or at its end if there is none |
| `DecodableSpan.SpanIsUnique` | scripts/emu/classic-reset-and-capture.py:121-149 | that description fits one span only |
| `DecodableSpan.SpanIsDecodable` | scripts/emu/classic-reset-and-capture.py:121-149 | the span is text throughout, and empty exactly when no byte is text |
| `LampChain.Scan` | scripts/pcb-export-to-map2d.py:258-278 | the nets give the links and the one head, or the first fault in net order: a net with two data-in pins, a second head, or no head |
| `LampChain.LinksAreLastNets` | scripts/pcb-export-to-map2d.py:269-270 | a lamp feeds another exactly when some net joins just the two, and the last such net decides which |
| `LampChain.ReadChain` | scripts/pcb-export-to-map2d.py:258-285 | it always stops; a chain starts at the head, follows the links, repeats no lamp and cannot be extended; it reports a loop exactly when no such chain exists |
| `LampChain.WireIsUnique` | scripts/pcb-export-to-map2d.py:279-285 | a head has at most one chain |
| `LampChain.WireIsDistinct` | scripts/pcb-export-to-map2d.py:279-285 | any path that follows the links to an end repeats no lamp |
| `LampChain.LoopHasNoWire` | scripts/pcb-export-to-map2d.py:279-285 | a path that comes back to one of its own lamps never ends, so refusing it loses nothing |
| `LampChain.FlatKeepsOrder` | scripts/pcb-export-to-map2d.py:148-149 | each lamp of a stroke comes after all lamps of the strokes before it and in the stroke's own order |
| `LampChain.Generate` | scripts/pcb-export-to-map2d.py:142-155 | it succeeds exactly when the strokes in order are the whole chain and the placed lamps are exactly those on it; then every placed lamp is in the strokes exactly once; otherwise the error says which failed: no chain, other lamps placed than the chain has, or strokes that are not the chain |

## Left out

- Spacing and spelling of tokens: emitted text is a sequence of tokens, with an integer literal as one
  token and indentation kept per line.
- Names that are keywords: a name is always its own token, so a variable called `int` is not ruled out.
- Block scopes of GLSL: a call has one flat set of variables, as the interpreter has.
- Mixed arithmetic on booleans is modelled as the interpreter's host language does it, without claims
  about GLSL typing.
- TortureLoops.LoopKindsAgree: no function of the table lets a `continue` escape; the interpreter would let it
  travel through the call into the caller's loop, and the forms then differ
  (`TortureLoops.EscapingContinueSeparates`).
- Rendering of test files, the catalogue of generated tests, and the expected values of the float tests.
- RamPainter.Painter.constructor: windows must have their ends in order, which every window of the three
  chip maps has.
- RamSections.PaintSection: which category, claim and owner a section or symbol gets is a parameter; the
  naming rules, the heap-arena rule and the warnings are not modelled.
- RamSummary.Summarize: the per-owner, per-family and per-symbol tables inside a category are not modelled.
- RamChips.SumsToChip: segment notes, labels' exact wording and the percentage limit on unknown bytes are
  not modelled.
- Archive and ELF decoding, legacy Rust names, and the Markdown and JSON reports.
- RustV0Cursor.Cursor.Path: back-references end in the outcome `BackReference` and are not followed, so the
  `depth` counter that only they use is absent.
- RustV0RoundTrip.ConstReads: a constant's value is read as hexadecimal digits; the prefix, sign and
  separators that Python's `int(v, 16)` would also take are not modelled.
- RustV0RoundTrip.PathReads: one direction for paths with generic arguments or impl blocks over empty
  identifiers, where the converse is false (`RustV0Twin.UncleanCanReadBack`); both directions are proved for
  nested names.
- RustV0Truncated.CutTexts: which whole texts make a path run on or recurse is not characterised beyond the
  loops, identifiers and families of cut texts named there.
- RustV0Cursor.Cursor.DecimalNumber: digits are `0` to `9`, not every character Python calls a digit.
- HotIram.Choose: samples per byte is an exact ratio, not a rounded float.
- CivilDate.CivilSuccessor: integers are unbounded, so overflow of `i64` at the ends of its range is absent.
- CivilDate.StampSuccessor: the zero-padded text of the stamp is not modelled.
- FirstLight.RisesOnlyWithAuthority: the record of the base revision is assumed to exist along the run.
- FirstLight.Check: reading the measurement, git, the labels' text and the artifact are inputs or absent.
- PartIds.AssignIds: building the document around the ids, and the shortest-float spelling, are not modelled.
- LampChain.Scan: nets are given as lists of data-in and data-out lamps; the netlist and board text formats
  are not parsed.
- LampChain.Generate: comparing the two sorted lists is modelled as comparing the two multisets; drawing is
  absent.
- The sender of the serial capture tool, reset sequences, ports and timing.
- The Rust crates, the other build scripts and the lint scripts.

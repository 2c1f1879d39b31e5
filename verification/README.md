# SMPL: from expressions to the executor

SMPL is a small typed language. Its expression parser climbs precedences over a token stream; names are bound
to declarations and expressions are typed; a function body becomes a control-flow graph, which is walked
once while a stack automaton collects instructions into frames; the frames are inlined with relative
jumps, what is left of break and continue is resolved, and the code runs on a stack-machine executor whose
values live in reference-counted cells. This project models these stages, in the form each of them has, and
proves what they are for:

* **Meaning is preserved, in both directions.** `Evaluator` says what a program means by recursion on its
  syntax (one flat environment per call, eager operators, right-hand sides before index expressions before
  stores). The executor, running the emitted code from instruction 0, returns exactly the values, stops with
  exactly the faults, and runs forever on exactly the calls that the evaluator says (`Correctness`).
* **The detour over the graph is invisible.** The graph builder, the walk with its bounded loops and its
  navigators, and the first pass with its frames and states are imperative code over a mutable graph, maps
  and stacks. Together they leave behind exactly the frame tree that a syntax-directed recursion (`Frames`)
  writes down, with stacked `elif` branches nested again (`CfgBuilder`, `Traversal`, `FirstPass`, `Skeleton`).
* **Break and continue.** `JumpResolution` proves what resolution is meant to make of them (a jump to the
  condition, a jump behind the looper, counted in emitted instructions) and exactly what it makes of them as
  written. `Pipeline.CompileToByteCode` is the whole pipeline: it refuses exactly the bodies with a jump
  outside any loop, panics exactly on those with a break, and emits what is meant exactly when there is no
  continue either.
* **The return trace is exact, and it is enough.** The backward search over the graph accepts exactly the
  bodies that return on every path, within its bound (`ReturnTrace`); a program it has accepted never runs
  off its code, never takes a return that is not there, never moves its instruction pointer out of range
  (`Safety`), and every suspended caller waits right behind its call (`CallProtocol`).
* **Sharing does not show.** Over cells, the executor keeps a forest: no cell is owned twice by any
  environment, argument list or register. Reads and stores through cells are reads and updates at a path of
  pure value trees, and every step over cells is the step of the machine over values (`Cells` to `Executor`).
* **End to end.** `EndToEnd.CompileAndCall` compiles a program through all of the above and calls a function
  of it over cells: the value or fault it ends with is the one the source program means.
  `EndToEnd.CompileAndFinish` is the converse: when the source program ends, so does the call, in the same way.
* **Every jump comes home.** `JumpClosure` gives, for every compiled function and every loop, branch, break and
  continue in it, the instruction its jump leads to; none leads outside the code.
* **Flat names are lexical names.** Variables live in one map of names per call. When no block declares a name
  again that is visible where it starts, a program means the same as with one variable for every declaration,
  and so does its bytecode (`ResolveScope`, `Lexical`). A two-line program shows that the condition is needed,
  another that it is not exact.
* **Typed code only fails in arithmetic and at indices.** The subtype check is a preorder, and sound for values
  (`Types`); a call-free body the checker accepts never meets a value of the wrong kind, neither in the
  evaluator nor in its bytecode (`TypeChecker`, `TypeSoundness`). Here too shadowing is the exception.
* **The primitives are what they are called.** Evaluator and executors share their operators, equality and paths; what
  these compute is said without their bodies: results of arithmetic and exactly when there are none, order, logic and
  negation (`OperatorLaws`), equality as identity (`EqualityLaws`), reading what was written and nothing else
  (`ValueLaws`). In the same way the type check is inclusion of values up to names and empty arrays (`TypeLaws`), the
  checker accepts exactly what typing rules do (`TypingRules`), every name is bound to the nearest declaration in the text
  that is still open (`Binding`), the condition on shadowing is one on the text (`Shadowing`), and which operator
  comes first is decided by five classes (`OperatorOrder`).
* **Precedence climbing is exact.** The parser accepts an input exactly when it starts with a canonical tree that
  ends there, and returns that tree; every sequence of operands and operators has exactly one such tree; what
  is written with the parentheses that precedence asks for is read back (`ExprParser`, `PrecedenceClimbing`,
  `ExprPrinting`). The loops over the token stream compute it (`TokenParser`).

## How the files hang together

`Values`, `Syntax`, `ByteCode` hold the data. `ExprFlow` and `ByteExpr` say what flattening and translation
produce; `ExprBuilder` does the flattening as it is done, with a counter, a growing expression and arguments
edited in place. `ControlFlow` describes what it means for fragments to sit in a graph; `Skeleton` cuts a body
into fragments; `CfgBuilder` builds the graph; `Navigation`, `FirstPass` and `Traversal` walk it.
`Frames` and `FrameFacts` are the frame trees; `SecondPass` inlines them; `ThirdPass`, `Layout` and
`JumpResolution` resolve them; `Compiler` names the result as a function and `Pipeline` proves the imperative
passes compute it. `Machine` is the executor over value trees, `Evaluator` the meaning of the source,
`SimBase`, `SimFlow` and `Simulation` relate the two, `Correctness` draws the conclusions. `Cells`, `HeapEnv`,
`HeapStore`, `HeapExecute`, `HeapStep` and `Executor` are the executor over cells. `Pipes` is about `|>`, and
`JumpClosure` about where jumps lead.

In front of all this, `ExprParser` holds tokens, trees and the parser as a function, `TokenParser` the parser as
loops over a stream, `PrecedenceClimbing` and `ExprPrinting` what is true of it. `ResolveScope` binds names and
`Lexical` compares the two readings of a bound program. `Types` has types, values in them and the subtype check,
`TypeChecker` the checker and `TypeSoundness` what it buys. `OperatorLaws`, `EqualityLaws`, `ValueLaws`, `TypeLaws`,
`TypingRules`, `OperatorOrder`, `Binding` and `Shadowing` say what the definitions shared by all of these mean.

## Model

| member | source | states |
|---|---|---|
| Correctness.ValuesPreserved | smpli/src/executor.rs:85-285 | for every program, function, arguments and value: some run of the compiled code returns the value if and only if the source program evaluates to it |
| Correctness.FaultsPreserved | smpli/src/executor.rs:133-285 | and the same for every fault: exactly the source program's own faults stop the executor |
| Correctness.DivergencePreserved | smpli/src/executor.rs:85-91 | the executor's loop never ends if and only if the source computation never does |
| Correctness.ExecutorToEvaluator | smpli/src/executor.rs:133-285 | whatever the executor has ended with after k steps, the evaluator ends with |
| Simulation.ExprSim | smpl/src/code_gen/byte_gen/byte_expr.rs:6-336 | running the instructions of a flattened expression leaves its value in its newest temporary and changes no variable and no older temporary, or stops with the expression's fault |
| Simulation.CallSim | smpl/src/code_gen/byte_gen/byte_expr.rs:227-244 | a call: callee, then arguments left to right, then the frame of the callee, whose result the next instruction takes |
| Simulation.StagesSim | smpl/src/analysis/expr_flow.rs:246-288 | the stages of a pipe run one after another, each given the result of the one before as argument 0 |
| Simulation.AssignSim | smpl/src/code_gen/byte_gen/first_pass.rs:406-482 | an assignment runs its right-hand side, then its index expressions, then the store |
| Simulation.WhileSim | smpl/src/code_gen/byte_gen/second_pass.rs:56-108 | the inlined loop runs like the loop, for every way its body can end, with every relative jump landing where it should |
| Simulation.IfSim | smpl/src/code_gen/byte_gen/second_pass.rs:110-161 | the inlined branch, false path first, runs like the branch |
| Simulation.JumpSim | smpl/src/code_gen/byte_gen/mod.rs:93-95 | break and continue, resolved as meant, leave and restart the innermost loop |
| Simulation.BlockSim | smpl/src/code_gen/byte_gen/second_pass.rs:47-176 | the code of a statement list runs like the list, whatever it ends with |
| ExprFlow.Flatten | smpl/src/analysis/expr_flow.rs:25-290 | the result of an expression is always its newest temporary |
| ExprBuilder.TypedExpr.MapTmp | smpl/src/analysis/typed_ast.rs:213-234 | a fresh temporary is mapped once and joins the end of the execution order |
| ExprBuilder.TypedExpr.InsertArgument | smpl/src/analysis/expr_flow.rs:266-281 | the newest call gets one more argument in front, and nothing else in the order changes |
| ExprBuilder.FlattenInto | smpl/src/analysis/expr_flow.rs:25-290 | flattening into a growing expression appends exactly the specified temporaries, draws exactly the specified identifiers and never maps one twice |
| ExprBuilder.FlattenStage | smpl/src/analysis/expr_flow.rs:258-285 | flattening a call and then inserting the previous result gives the flattening of the call with that result as first argument |
| ExprBuilder.FlattenChainInto | smpl/src/analysis/expr_flow.rs:246-288 | the loop over a pipe's stages yields the specified chain of calls |
| Pipes.PipeIsNesting | smpl/src/analysis/expr_flow.rs:246-288 | a pipe has exactly the values of the same calls nested, every result as argument 0 of the next; it fails exactly when they do, and with the same fault when what it calls can be looked up |
| ByteExpr.Translate | smpl/src/code_gen/byte_gen/byte_expr.rs:6-18 | the loop over the execution order concatenates the translations of its temporaries |
| Skeleton.SkelItems | smpl/src/analysis/control_flow.rs:407-482 | cutting a body into basic blocks and graph fragments shows neither in its code nor in the identifiers handed out |
| CfgBuilder.Cfg.GenerateScopedBlock | smpl/src/analysis/control_flow.rs:414-981 | the block is placed in the graph behind everything older, entered and left at the returned nodes, or the first jump outside a loop in source order is reported |
| CfgBuilder.Cfg.GenerateWhile | smpl/src/analysis/control_flow.rs:569-683 | loop head, foot, back edge, scope and body stand as a loop fragment behind the region built so far, which is otherwise unchanged |
| CfgBuilder.Cfg.GenerateBranch | smpl/src/analysis/control_flow.rs:700-827 | a scoped block, between a split and a merge when it has a condition |
| CfgBuilder.Cfg.StackBranch | smpl/src/analysis/control_flow.rs:869-911 | one more conditional branch on the false path of the previous one, its merge leading to the previous merge |
| CfgBuilder.Cfg.CloseStack | smpl/src/analysis/control_flow.rs:913-963 | the else block, or the edge that stands for it, completes the stack |
| CfgBuilder.Cfg.GenerateIf | smpl/src/analysis/control_flow.rs:685-967 | the stack of branches is the nested conditional, for any number of `elif` |
| CfgBuilder.LadderArm | smpl/src/analysis/control_flow.rs:686-694 | stacked splits and merges are one nested branch, from the innermost upwards |
| CfgBuilder.Cfg.Generate | smpl/src/analysis/control_flow.rs:330-405 | the whole graph: start, scope, body, the return appended for the unit type, end; or the first stray jump |
| Navigation.AfterConditional | smpl/src/analysis/control_flow.rs:179-206 | the true and the false neighbour, returned if and only if the node is a condition with exactly one edge of each kind |
| Navigation.AfterLoopFoot | smpl/src/analysis/control_flow.rs:148-173 | the first neighbour of a foot that is not its own loop's head |
| Navigation.AfterContinue | smpl/src/analysis/control_flow.rs:240-270 | one neighbour is taken; of two, the first is passed over when it is a loop head |
| Navigation.AfterBreak | smpl/src/analysis/control_flow.rs:272-301 | as written, it never returns for a node with one neighbour |
| Traversal.Traverser.Traverse | smpl/src/analysis/linear_cfg_traversal.rs:79-95 | the walk ends within its bound, panics if and only if the graph holds a break, and otherwise leaves the function's frame, every nested frame complete in its table, and empty stacks |
| Traversal.Traverser.VisitNode | smpl/src/analysis/linear_cfg_traversal.rs:97-277 | one node with all it encloses emits exactly its items into the current frame and returns the node behind it |
| Traversal.Traverser.Walk | smpl/src/analysis/linear_cfg_traversal.rs:123-178 | a path is walked to its merge or its foot, each node once, without running out of the bound |
| Traversal.EmitsLoop | smpl/src/code_gen/byte_gen/first_pass.rs:304-357 | head, body and foot of a loop together emit one loop with its frame complete, and restore the stacks |
| Traversal.EmitsTrue | smpl/src/code_gen/byte_gen/first_pass.rs:536-625 | the true path's frame becomes the branch's true branch |
| Traversal.EmitsBranch | smpl/src/code_gen/byte_gen/first_pass.rs:566-649 | and the false path completes the branch and restores the stacks |
| FirstPass.FirstPass.OnAssignment | smpl/src/code_gen/byte_gen/first_pass.rs:406-482 | the value's code, the index code from left to right, then the store are appended to the current frame |
| FirstPass.FirstPass.OnEnd | smpl/src/code_gen/byte_gen/first_pass.rs:286-302 | the one remaining frame becomes the function |
| FrameFacts.BlockDrawn | smpl/src/analysis/analysis_context.rs:154-176 | the shared counter gives every loop and branch of a body an identifier of its own |
| SecondPass.Inliner.Flatten | smpl/src/code_gen/byte_gen/second_pass.rs:47-176 | through the tables every frame is inlined exactly where it is named, with the jump distances of its shape, and the recursion ends |
| SecondPass.FlattenedLen | smpl/src/code_gen/byte_gen/second_pass.rs:186-201 | the length that decides jump distances counts everything but markers |
| ThirdPass.Pass.GatherLoopIndexes | smpl/src/code_gen/byte_gen/third_pass.rs:84-119 | succeeds if and only if no marker stands twice, and then the tables hold exactly the marker positions |
| ThirdPass.Pass.Run | smpl/src/code_gen/byte_gen/third_pass.rs:22-82 | the pass as written, panics included, for all partial code |
| ThirdPass.ResolveAt | smpl/src/code_gen/byte_gen/third_pass.rs:76-81 | dropping markers puts every other instruction at its marker-free position |
| Layout.FunctionMarkers | smpl/src/code_gen/byte_gen/second_pass.rs:71-107 | no loop marker stands twice in the inlined code of any function |
| Layout.LoopLayout | smpl/src/code_gen/byte_gen/second_pass.rs:71-107 | where condition, exit jump, body and looper of a loop end up in the emitted code |
| Layout.BranchLayout | smpl/src/code_gen/byte_gen/second_pass.rs:128-160 | where condition, false path, skip and true path of a branch end up in the emitted code |
| JumpResolution.BlockEnclosed | smpl/src/analysis/control_flow.rs:512-567 | every break and continue of an accepted body names a loop that encloses it |
| JumpResolution.JumpTargets | smpl/src/code_gen/byte_gen/second_pass.rs:8-15 | as meant, wherever a loop stands in partial code: a continue lands on the first instruction of its loop's condition, a break right behind its loop's looper, in emitted instructions |
| JumpResolution.BreakPanics | smpl/src/code_gen/byte_gen/third_pass.rs:55-74 | as written: the end of the loop is looked up among the begin markers, so a break always panics |
| JumpResolution.ContinueForward | smpl/src/code_gen/byte_gen/third_pass.rs:34-53 | as written: a continue jumps forward by its distance in marker-counting positions, where it is meant to jump back |
| JumpResolution.JumpsAsWritten | smpl/src/code_gen/byte_gen/third_pass.rs:22-82 | the pass as written panics if and only if there is a break, and does what it is meant to if and only if there is neither break nor continue |
| Pipeline.StrayIsOutside | smpl/src/analysis/control_flow.rs:512-567 | the builder's errors are exactly the jumps outside any loop |
| Pipeline.CompileToByteCode | smpl/src/code_gen/byte_gen/mod.rs:74-98 | all passes together: refusal, panic and correct output, each if and only if |
| ReturnTrace.SkelReturns | smpl/src/analysis/control_flow.rs:483-510 | the graph's last fragment returns on every path if and only if the body does |
| ReturnTrace.TargetNode | smpl/src/analysis/return_trace.rs:83-97 | what lies in front of a node says whether everything above it returns |
| ReturnTrace.CheckReturnsForm | smpl/src/analysis/return_trace.rs:48-81 | the worklist empties within its bound and accepts exactly the bodies whose last statement is a return or an if with an else all of whose branches do the same, or that got their return appended |
| Safety.NoWayThrough | smpl/src/analysis/return_trace.rs:48-81 | a body that returns on every path is never fallen out of |
| Safety.ControlStays | smpli/src/executor.rs:157-223 | no run of a traced program runs off its code, takes a missing return, or moves its instruction pointer out of range |
| CallProtocol.CompiledTaken | smpl/src/code_gen/byte_gen/byte_expr.rs:238-243 | in all compiled code every call is followed by the instruction that takes its result |
| CallProtocol.CallersWait | smpli/src/executor.rs:233-253 | in every reachable state every suspended frame stands right behind its call |
| CallProtocol.TopReady | smpli/src/executor.rs:759-768 | in every reachable state of a traced program the top frame has an instruction, and when that takes a result the register is full |
| Cells.CloneValue | smpli/src/value.rs:54-78 | a copy stands for the same tree and shares no cell with anything older |
| Cells.WriteThrough | smpli/src/executor.rs:412-419 | a store through a cell updates the tree at that path, and nothing else |
| HeapEnv.Env.MapValue | smpli/src/env.rs:38-42 | the name gets the value in a cell of its own; the environment stays a forest |
| HeapEnv.Env.Fork | smpli/src/env.rs:19-36 | the fork holds the same values in cells nobody else owns |
| HeapStore.Fetch | smpli/src/executor.rs:287-410 | following cells along a path finds the cell of the value at that path, or panics when there is none |
| HeapStore.StoreTo | smpli/src/executor.rs:412-430 | the environment afterwards stands for the updated one, and no cell outside it has changed |
| HeapExecute.BuildStruct | smpli/src/executor.rs:565-578 | a structure of clones, whatever the order its fields are read in |
| HeapExecute.FillArray | smpli/src/executor.rs:595-607 | one value cloned into every element, none shared |
| HeapExecute.ValuesEqual | smpli/src/value.rs:42-52 | equality looks through cells: it is that of the values, and without floats it says whether they are the same |
| HeapStep.ExecuteInstruction | smpli/src/executor.rs:442-823 | every instruction over cells does what it does over values, and keeps environment and register apart |
| Executor.CreateStackInfo | smpli/src/executor.rs:93-131 | a new frame: a fork of the module environment with the arguments moved in, or the faults for a wrong count or an unknown function |
| Executor.Executor.Push | smpli/src/executor.rs:233-253 | the caller is suspended below the new frame and nothing is shared |
| Executor.Executor.Pop | smpli/src/executor.rs:255-279 | the caller comes back with the result in the register, or the run ends with it |
| Executor.Executor.Step | smpli/src/executor.rs:133-285 | one step over cells is the step over values, and the forest stays a forest |
| Executor.NewExecutor | smpli/src/executor.rs:36-79 | the first state of a run, over unshared arguments |
| Executor.Execute | smpli/src/executor.rs:81-91 | any number of steps over cells end like the same steps over values |
| EndToEnd.Analyze | smpl/src/analysis/return_trace.rs:17-46 | a function is accepted if and only if its jumps are in loops and it returns on every path or returns the unit type |
| EndToEnd.CompileAndCall | smpl/src/code_gen/byte_gen/mod.rs:74-98 | compiled by the passes and run over cells, a program ends within any number of steps only with the values and faults it means, is still going exactly when the machine over values is, and a traced one never loses control |
| EndToEnd.CompileAndFinish | smpli/src/executor.rs:85-91 | when the source program ends, the compiled call, run until it is finished, ends over cells with that value or that fault |
| Executor.ExecuteToEnd | smpli/src/executor.rs:85-91 | the loop that steps until the executor is finished ends like the machine over values, whenever that ends at all |
| JumpClosure.CompiledJumps | smpl/src/code_gen/byte_gen/second_pass.rs:56-161 | in every compiled function a loop leaves to its end and returns to its beginning, a branch enters its true path and skips over it, break and continue go to the end and the beginning of their own loop |
| JumpClosure.JumpsStayInside | smpli/src/executor.rs:192-223 | so every jump in compiled code leads to one of its instructions or right behind the last |
| Pipeline.BreakInALoop | smpl/src/code_gen/byte_gen/third_pass.rs:55-74 | `while true { break; }` makes the last pass panic |
| Pipeline.ContinueInALoop | smpl/src/code_gen/byte_gen/third_pass.rs:34-53 | `while true { continue; }` is emitted, as other code than is meant |
| ResolveScope.ScopeResolver.LocalVarDecl | smpl/src/analysis/resolve_scope.rs:237-251 | a declaration is bound in the scope before it and visible from then on, in the current scope only |
| ResolveScope.ScopeResolver.ScopedBlock | smpl/src/analysis/resolve_scope.rs:227-235 | a block is bound in a fork of the current scope, which is as before when the block is left |
| ResolveScope.ResolveFn | smpl/src/analysis/resolve_scope.rs:20-53 | the resolver with its stack of scopes computes the bound function, in both readings, or the first unknown name |
| Lexical.FlatIsLexical | smpl/src/code_gen/byte_gen/first_pass.rs:385-404 | without shadowing, every call gives the same result with one map of names as with one variable for every declaration |
| Lexical.CodeIsLexical | smpl/src/code_gen/byte_gen/byte_expr.rs:48-60 | and the bytecode, whose variables are names, has exactly the values, the faults and the infinite runs of the program with one variable for every declaration |
| Lexical.ShadowingLeaks | smpl/src/code_gen/byte_gen/first_pass.rs:396-401 | an inner declaration of a visible name overwrites the outer variable: 2 instead of 1 is returned |
| Lexical.UnreadShadowingAgrees | smpl/src/code_gen/byte_gen/first_pass.rs:396-401 | a name declared again and not read afterwards does no harm |
| Types.ResolveReflexive | smpl/src/analysis/type_resolver.rs:29-322 | every ground type meets itself as a constraint |
| Types.ResolveTransitive | smpl/src/analysis/type_resolver.rs:29-322 | and meeting constraints is transitive on types that declarations can form |
| Types.ResolveSound | smpl/src/analysis/type_resolver.rs:39-181 | a value of an accepted synthesized type is a value of the constraint |
| TypeSoundness.ExprSound | smpl/src/analysis/type_checker.rs:238-327 | an expression of type t, with the instructions its type selects, evaluates to a value of t or fails in arithmetic or at an index |
| TypeSoundness.WriteGives | smpl/src/analysis/type_checker.rs:1440-1457 | storing a value of the type of a path keeps the type of the variable |
| TypeSoundness.BlockTyped | smpl/src/analysis/type_checker.rs:1394-1484 | whatever a typed block ends with, every visible variable is bound to a value of its type, and a returned value has the result type |
| TypeSoundness.TypedCodeRuns | smpli/src/executor.rs:442-523 | no run of the bytecode of a typed function ends in any other fault than those of arithmetic and indices, and what it returns has the result type |
| TypeSoundness.ShadowingConfuses | smpl/src/analysis/type_checker.rs:1394-1438 | with shadowing, an accepted program adds to a boolean |
| PrecedenceClimbing.ParserIsExact | smpl/src/parser/expr_parser.rs:22-368 | an input is parsed if and only if it starts with a canonical tree that ends there, and the result is that tree |
| PrecedenceClimbing.CanonicalIsUnique | smpl/src/parser/expr_parser.rs:114-224 | no sequence of tokens is read off two canonical trees |
| ExprPrinting.ClimbingIsCanonical | smpl/src/parser/expr_parser.rs:114-224 | every sequence of operands and operators is the in-order reading of exactly one canonical tree, left operands binding at least as tightly and right ones more tightly than their operator, and climbing finds it |
| ExprPrinting.RoundTrip | smpl/src/parser/expr_parser.rs:1271-1311 | every expression, written with the parentheses precedence asks for and followed by a delimiter, is read back, and the tokens behind it are left |
| ExprPrinting.Reparse | smpl/src/parser/expr_parser.rs:22-368 | parsing, writing and parsing again changes nothing |
| ExprPrinting.CommasAreOptional | smpl/src/parser/expr_parser.rs:667-718 | the comma between two arguments may be missing wherever the first one ends by itself |
| TokenParser.BufferedTokenizer.PipedExpr | smpl/src/parser/expr_parser.rs:22-112 | an element, then the stages of a pipe, all of them calls, or the error of the first that is not |
| TokenParser.BufferedTokenizer.Expr | smpl/src/parser/expr_parser.rs:114-224 | the two nested loops over operators compute the climbing parser, whatever delimiters they are given |
| TokenParser.BufferedTokenizer.ParsePrimary | smpl/src/parser/expr_parser.rs:226-368 | literals, names, calls, indexings, unary operators and parentheses, with the errors and the panic of the source |
| TokenParser.BufferedTokenizer.FnArgsPostLParen | smpl/src/parser/expr_parser.rs:667-720 | arguments up to the closing parenthesis |
| OperatorLaws.ArithIsExact | smpli/src/executor.rs:609-622 | integer arithmetic gives the mathematical sum, difference, product, quotient and remainder, rounding toward zero, and panics exactly when the result is no 64-bit number, the divisor is zero, or the smallest number is divided by -1 |
| OperatorLaws.SubUndoesAdd | smpli/src/executor.rs:609-613 | subtraction undoes addition and the other way round, overflow included |
| OperatorLaws.UnitAndSuccessor | smpli/src/executor.rs:609-616 | addition and multiplication by unit and successor |
| OperatorLaws.Trichotomy | smpli/src/executor.rs:659-669 | the four orderings are decided by the sign of the difference, and equality is the case that is left |
| OperatorLaws.NegationIsExact | smpli/src/executor.rs:703-716 | a number and its negation add up to zero; only the smallest number has none |
| OperatorLaws.LogicLaws | smpli/src/executor.rs:639-655 | a conjunction holds when nothing in it fails to, a disjunction when something in it does, and inversion exchanges them |
| OperatorLaws.ArithInstruction | smpli/src/executor.rs:609-622 | an arithmetic instruction stores that result at its location, or panics |
| OperatorLaws.ArithExpression | smpl/src/code_gen/byte_gen/byte_expr.rs:131-185 | and an arithmetic expression on integers evaluates to it |
| OperatorLaws.CompareInstruction | smpli/src/executor.rs:659-669 | an ordering instruction stores the flag of the sign of the difference |
| OperatorLaws.ConnectiveExpressions | smpl/src/analysis/expr_flow.rs:33-51 | both operands of a connective are evaluated whatever the first one is |
| OperatorLaws.WrongOperand | smpli/src/executor.rs:446-501 | an operand of another kind stops the instruction with the fault of the kind expected |
| OperatorLaws.PointerMoves | smpli/src/executor.rs:192-223 | a relative jump goes exactly as far as it says, and the two ways out of range are told apart |
| EqualityLaws.EqualityIsIdentity | smpli/src/value.rs:42-52 | values without floats are equal exactly when they are the same |
| EqualityLaws.EqualityTransitive | smpli/src/value.rs:42-52 | with floats, equality is transitive when the host's rule is; reflexivity and symmetry likewise |
| EqualityLaws.EqualityOfParts | smpli/src/value.rs:42-52 | two wholes that differ in one part are equal exactly when the parts are |
| ValueLaws.ReadWritten | smpli/src/executor.rs:412-419 | what was written at a path is read there |
| ValueLaws.ReadElsewhere | smpli/src/executor.rs:412-419 | and every path that parts from it reads what it read before |
| ValueLaws.ElementOfLiteral | smpli/src/executor.rs:580-593 | element i of an array literal is the value of its i-th expression, and outside there is an index fault |
| ValueLaws.FieldOfStruct | smpli/src/executor.rs:565-578 | a field of a structure has the value of its initializer, the last one where a name is repeated |
| ValueLaws.FieldMapHolds | smpli/src/executor.rs:565-578 | looked up by name, an initializer is the one in its place |
| ValueLaws.ParamHolds | smpli/src/executor.rs:121-128 | a parameter is bound to the argument in its place |
| TypeLaws.ResolveIsInclusion | smpl/src/analysis/type_resolver.rs:29-322 | a type is accepted for another if and only if its values are values of the other, and wherever a declared structure is asked for that very one is offered, and element types fit even where there are no elements |
| TypeLaws.WidthLaws | smpl/src/analysis/type_resolver.rs:90-181 | what is wide enough for some fields is wide enough for fewer, and a declared structure for its own |
| TypeLaws.NamesMatter | smpl/src/analysis/type_resolver.rs:60-68 | structures declared with the same fields have the same values, and are kept apart |
| TypeLaws.EmptyArraysDiffer | smpl/src/analysis/type_resolver.rs:256-290 | empty arrays have the same values, and are kept apart by the types of their missing elements |
| TypingRules.CheckerIsExact | smpl/src/analysis/type_checker.rs:238-1346 | an expression is accepted with a type if and only if the typing rules give it that type |
| TypingRules.BlockExact | smpl/src/analysis/type_checker.rs:1360-1504 | and so are statements, with the types of the variables behind them |
| Binding.NamesMeanTheNearest | smpl/src/analysis/resolve_scope.rs:106-291 | a function is bound if and only if every name in it has a visible declaration or is a function; then every name is the variable of the nearest declaration before it in a block still open, or else the function |
| Binding.VariablesHideFunctions | smpl/src/analysis/resolve_scope.rs:390-408 | which functions there are under the names of visible variables makes no difference |
| Shadowing.ConditionIsOnText | smpl/src/code_gen/byte_gen/first_pass.rs:385-404 | the condition under which names are enough: no declaration of a name visible outside its own block |
| OperatorOrder.TwoOperators | smpl/src/parser/expr_parser.rs:1247-1291 | of two operators between three operands, as tokens, the second comes first exactly when it is of a tighter class: `* / %` over `+ -` over the orderings over `== !=` over the connectives |
| OperatorOrder.EveryToken | smpl/src/parser/expr_parser.rs:1247-1269 | the operator each of these tokens stands for, and that no other token is one |
| OperatorOrder.FewestGroups | smpl/src/parser/expr_parser.rs:114-224 | no way to write an expression that is read back needs fewer parentheses than the one by precedence |

## Where the code and its own comments disagree

The comments say that the third pass makes break and continue jump to the correct index
(smpl/src/code_gen/byte_gen/mod.rs:93-95) and that the end marker points behind the looper
(smpl/src/code_gen/byte_gen/second_pass.rs:12). The code looks break up among the begin markers, gives
continue a positive offset, and counts markers in both. The model follows the code: `ThirdPass.Pass` and
`Navigation.AfterBreak` are as written, and `JumpResolution` says exactly when the result is what is meant.
The semantic theorems speak about code resolved as meant; `Pipeline.CompileToByteCode` says for which bodies
that is the code emitted.

## Left out

- Names are a datatype with three constructors, one for user names and one each for the generated forms, so a user name can never collide with a generated one (smpl/src/code_gen/byte_gen/byte_expr.rs:338-344).
- The back end takes programs scope-resolved and with the operand type of every arithmetic operator attached. `ResolveScope` binds names for all programs of this model; `TypeChecker` attaches operand types for call-free, non-generic bodies only, because the source does not check the types of call arguments.
- The type checker and the type resolver are modelled on values: the maps from variables to types, and the scopes that the checker forks and pops, appear as one context from names to types that is passed along; updates in place are not captured.
- TypeSoundness.TypedCodeRuns: takes the types of parameters and declarations as given and well formed; function, opaque and generic types, type variables and module functions used as values are not part of it.
- A name in the root index of a field access is never bound by the resolver, and the type checker panics on it (smpl/src/analysis/resolve_scope.rs:134-149); `ResolveScope` reports such programs as left unbound. Variable identifiers are counted apart from temporaries; only that they differ matters.
- Lexical.NoShadowing: is sufficient for names and declarations to agree and not necessary, because whether a leaked value is ever read depends on the run.
- Float arithmetic, comparison and negation are parameters of the program; nothing is assumed about them.
- Host functions are a total function from argument values to a value or a fault; over cells their result shares nothing with what the executor owns. Asynchronous waiting is left out.
- Executor.Execute: takes a bound on the number of steps; the loop without one is `Executor.ExecuteToEnd`, which is stated for calls that end, because a method has to.
- HeapStep.ExecuteInstruction: does not tell one panic from another, because the original's panics carry no meaning beyond stopping the run.
- Correctness.ValuesPreserved: assumes that no function's code is longer than 2^63-1 instructions, because longer code has relative jumps no offset can hold.
- JumpResolution.JumpTargets: takes the place of the loop as given; `JumpClosure.CompiledJumps` derives it for every compiled function.
- EndToEnd.CompileAndCall: is stated for programs without break and continue, because those are the programs the passes compile as meant.
- ExprBuilder.FlattenInto: takes call arguments as a list, empty or not, where the original keeps a missing list apart from an empty one; both translate to the same call. The anonymous functions it collects on the way are not part of its result.
- The reference and dereference operators, which the translation leaves unimplemented, are left out.
- Array sizes and lengths are unbounded; an index is an integer cast to unsigned, so a negative one is out of range.
- The order in which a structure's fields are read is arbitrary, and which fault is reported when several fields fail is not fixed; generated code only reads temporaries that exist.
- Anonymous functions capture nothing and are treated as functions of the program; their collection while flattening is left out.
- Spans, annotations and error display are left out.
- The tokenizer, the statement and declaration parser, module paths, field paths, type arguments, structure, array and function literals in the expression parser, generics and the evaluation of width constraints are left out; so is Rust generation, which the bytecode pipeline does not use.

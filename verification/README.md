# Proofs about the Ceramic compiler

The main subject is the part of the compiler that turns structured statements into basic blocks
(`compiler/codegen.cpp`). It works in one pass over a context that is updated in place: a stack of
live values and pending `finally`/`onerror` statements, jump targets with stack markers, collected
labels, an insertion point. Every edge that leaves a scope gets its own copy of the cleanup code.

| file | content |
|---|---|
| `Syntax.dfy`, `Wrappers.dfy` | statements, expressions, stack entries; which programs are well formed; options and results |
| `Semantics.dfy` | the reference semantics: big steps with abrupt completions, in which every scope cleans up after itself |
| `Cfg.dfy` | basic blocks and their small-step semantics |
| `CodegenSpec.dfy` | what each function of the code generator computes, as a function on states |
| `Codegen.dfy` | the code generator as a class whose methods update the context in place, each proved to compute what `CodegenSpec` says |
| `Framing.dfy` | what emitting code leaves alone: other blocks, targets, labels, the stack |
| `Unwinding.dfy` | facts about the reference semantics |
| `Simulation.dfy` | one lemma for each function of the code generator: running its code is what the semantics says |
| `Correctness.dfy` | the theorems about whole functions, finished or running for ever |
| `Operands.dfy` | a call is given the values of its operands, in order |
| `Lifetimes.dfy` | every value is destroyed exactly once, newest first, and when it is not |
| `Traces.dfy` | what the text of a program says about its runs: clean runs, the values returned |
| `Endings.dfy` | the flag that says control does not come out behind a statement, read off the statement |
| `Acceptance.dfy` | which programs the code generator accepts, read off their text |
| `Blocks.dfy` | every emitted block ends in one terminator, and branches lead to blocks |
| `Depth.dfy`, `Escapes.dfy` | the nesting bound that makes the specification total restricts nothing; cleanup bodies with returns |
| `Verdicts.dfy` | the analyzer's verdict about a body against the code generator's flag |
| `Evaluator.dfy` | the compile-time evaluator, as functions and as a class |
| `Agreement.dfy`, `EvaluatorOrder.dfy`, `EvaluatorLifetimes.dfy` | the evaluator against the reference semantics and the compiled graph: the same work and results, the order of destruction, how often each value is destroyed |
| `EvaluatorSkips.dfy` | what the evaluator passes over, and what it gives up on |
| `GlobalCtors.dfy` | on-demand emission of global constructors and destructors |
| `Slots.dfy` | stack slots for temporaries |
| `Desugar.dfy` | the chains of ifs for switch and catch |
| `Dispatch.dfy` | the comparison tree of multiple dispatch |
| `Imports.dfy`, `ImportLists.dfy` | symbol tables of cyclic star imports; one pass over an import list |
| `Inference.dfy`, `InferenceComplete.dfy` | return-type inference through recursion; when it succeeds, and what its complaints mean |
| `EditDistance.dfy` | the edit distance of "did you mean" |

The trace of a run has every call with the slots of its operands and its output, every flag stored
without a call, and every destruction. What the slots hold is a function of the trace
(`Semantics.Replay`), and a graph that has finished holds exactly that in memory. What a call answers
(whether it throws, and the flag it leaves) is a function of the trace so far and of the operands' slots,
so any store that evolves with the calls made is covered. The statements are for all such worlds. Fuel
bounds loop passes and gotos in the reference semantics; the graph has none, and the theorems relate the
two in both directions, runs that never end included.

## What was found not to hold

* A call inside a `finally` or `onerror` body is not tested for exceptions. If it throws, its output
  is destroyed although it was never built. `Lifetimes.ExactlyOnce` shows that this is the only way in
  which "destroyed exactly once" can fail; `Traces.ExactlyOnceByText` that it cannot where no cleanup body
  has a call whose output needs destroying; `Lifetimes.CleanupThrow` is an instance.
* A live `return` inside a cleanup body makes the compiler recurse without bound. For a function that is one
  finally body this is the exact condition (`Escapes.EscapeIff`; `Depth.EscapeUnbounded` is an instance).
* A binding in dead code stops label collection, so a label behind it fails an assertion. A block
  whose other live parts are in order is turned away if and only if it has such a label
  (`Acceptance.HiddenLabelIff`; `Correctness.DeadBindingHidesLabel` is an instance).
* A cleanup body that control does not come out of leaves a block with two terminators
  (`Blocks.CleanupShape`, exact for a function that is one finally body).
* The analyzer's verdict takes code behind a `goto` for dead; a label there makes it alive, and the function
  is turned away for want of a return (`Verdicts.LabelRevives`). A block is accepted if and only if some item
  ends with no label behind it (`Verdicts.AcceptedIff`).
* `lookupPublic` answers from a partly filled table if that has an entry. In import cycles the order of
  lookups decides whether an ambiguity is reported (`Imports.OrderMatters`). Where no cycle can be reached
  every lookup is exact (`Imports.AcyclicAfter`), and so is one in a module that is loaded or has no entry
  yet (`Imports.AnswerExact`).
* A module import hides the star imports of its name behind it in the list, but not those in front of it
  (`ImportLists.AliasOrder`).
* An entry that calls itself before its first return, in a body that can fall through, is taken for void.
  With all else consistent this is the only way to a wrong type (`Inference.WrongIff`;
  `Inference.LoopMistaken` is an instance).
* In the evaluator a pass of a loop that comes back to the condition destroys what it has left above the loop's
  marker and does not pop it: what is bound in front of the loop's condition, and in front of the conditions of
  ifs that the body comes out of without passing a block (`EvaluatorLifetimes.AboveIs`, `LeavesIs`). A value is
  destroyed too often if and only if some such pass has left it (`OverDestroyed`; `DestroyedTwice` and
  `IfBodyTwice` are instances).
* The evaluator destroys the temporaries of an expression in another order than the reference semantics and the
  graph: the values of a call's operands before the value of the call, not after it, and those of the second
  operand of an and/or with the whole expression, not with the operand. The traces of an expression agree if and
  only if neither shows in it (`EvaluatorOrder.WholeOrder` and `WholeNesting` say exactly when).
* Globals are initialised in the right order if none that is emitted leads back to itself; one that leads
  back by mentions alone is used too early (`GlobalCtors.OrderedIfAcyclic`, `CircularIsUsedEarly`). Where
  destroy functions close the circle, it depends on which global is compiled first
  (`GlobalCtors.FirstA`, `FirstC`).
* Globals are not always destroyed in the reverse order of their initialisation: the destroy function of a
  global's type is compiled between its store and its registration. The order is exact if and only if no
  destroy function is the first to lead to a global (`GlobalCtors.ReverseIffNotLate`; `LateDestructor` is
  an instance).

## Model

| member | source | states |
|---|---|---|
| Codegen.CodegenContext.constructor | compiler/codegen.cpp:2938-2944 | a function's context starts with its code, return and exception blocks and the outermost return and exception targets at stack height 0 |
| Codegen.CodegenContext.DestroyStack | compiler/codegen.cpp:393-400 | emits the cleanup of everything above the marker, newest first, and pops nothing |
| Codegen.CodegenContext.PopStack | compiler/codegen.cpp:402-406 | cuts the stack at the marker and emits nothing |
| Codegen.CodegenContext.DestroyAndPopStack | compiler/codegen.cpp:408-415 | each entry is off the stack before its own cleanup is emitted |
| Codegen.CodegenContext.StackEntryDestroy | compiler/codegen.cpp:266-287 | a primitive value needs nothing, a finally always runs, an onerror only for an exception |
| Codegen.CodegenContext.Cleanup | compiler/codegen.cpp:272-285 | a cleanup body is compiled with exception checks off, restored afterwards |
| Codegen.CodegenContext.JumpTo | compiler/codegen.cpp:3501-3508 | leaving for a target: cleanup down to its marker, then the branch |
| Codegen.CodegenContext.LowlevelCall | compiler/codegen.cpp:2297-2335 | a call with its operands; a checked one tests the result and cleans up to the innermost exception target in a landing block |
| Codegen.CodegenContext.ExprInto | compiler/codegen.cpp:936-992 | evaluates into a given output, leaving temporaries on the stack |
| Codegen.CodegenContext.AndOr | compiler/codegen.cpp:936-992 | the second operand has a block of its own in which its temporaries end |
| Codegen.CodegenContext.ExprAsRef | compiler/codegen.cpp:552-571 | a temporary goes on the stack once it is built |
| Codegen.CodegenContext.OneInto | compiler/codegen.cpp:630-642 | the temporaries of one initialiser are destroyed when it is done |
| Codegen.CodegenContext.MultiInto | compiler/codegen.cpp:644-694 | outputs are on the stack while later expressions are evaluated and off it at the end |
| Codegen.CodegenContext.Statement | compiler/codegen.cpp:3280-3807 | the context and terminated flag after any statement |
| Codegen.CodegenContext.ReturnStatement | compiler/codegen.cpp:3463-3510 | the values are built before the cleanup down to the return target, and the statement terminates |
| Codegen.CodegenContext.ThrowStatement | compiler/codegen.cpp:3739-3760 | the throwing call, and the end of the block |
| Codegen.CodegenContext.BlockStatements | compiler/codegen.cpp:3286-3299 | label collection, the items in order, the end of the scope |
| Codegen.CodegenContext.BlockStatement | compiler/codegen.cpp:3193-3228 | a label makes code reachable again; dead items emit nothing; a binding collects the labels behind it |
| Codegen.CodegenContext.CollectLabelsFrom | compiler/codegen.cpp:3816-3847 | labels up to the next binding get a block and the present stack height; a second label of the same name fails |
| Codegen.CodegenContext.Binding | compiler/codegen.cpp:3876-3933 | a var's outputs are on the stack after it |
| Codegen.CodegenContext.ConditionStatements | compiler/codegen.cpp:3230-3258 | bindings and expressions in front of a condition |
| Codegen.CodegenContext.CloseScope | compiler/codegen.cpp:3271-3278 | cleanup is emitted unless the scope terminated; the stack is cut either way |
| Codegen.CodegenContext.IfStatement | compiler/codegen.cpp:3512-3577 | condition, branches, end of the condition's scope |
| Codegen.CodegenContext.Branches | compiler/codegen.cpp:3527-3573 | the merge block exists only if a branch falls through; a static condition leaves one branch |
| Codegen.CodegenContext.WhileStatement | compiler/codegen.cpp:3610-3660 | the four blocks of a loop, its break and continue targets |
| Codegen.CodegenContext.CloseLoop | compiler/codegen.cpp:3640-3659 | a while (true) that no compiled break leaves terminates |
| Codegen.CodegenContext.TryStatement | compiler/codegen.cpp:3700-3737 | the handler's block is the exception target of the tried part only |
| Codegen.CodeBody | compiler/codegen.cpp:2938-2972 | the graph of a function, or why there is none |
| Framing.FrameStmt | compiler/codegen.cpp:3280-3807 | a statement changes only the insertion point and fresh blocks, keeps every target and label, and leaves the stack as it was but for what the statement itself pushes |
| Framing.FrameItems | compiler/codegen.cpp:3193-3228 | before each item the live stack is the block's own entries so far; each collected label records the height at which it was collected and has an empty block of its own |
| Framing.Collecting | compiler/codegen.cpp:3816-3847 | exactly the labels of the current segment are collected, at the present height |
| Unwinding.FinishSplit | compiler/codegen.cpp:393-400 | leaving two scopes one after the other cleans up like leaving both at once |
| Unwinding.OutcomeStmt | compiler/codegen.cpp:272-285 | without exception checks no part of a cleanup body completes abruptly, but for breaks and continues of its own loops |
| Simulation.SimDestroy | compiler/codegen.cpp:393-400 | running the cleanup code is unwinding the entries, newest first |
| Simulation.SimDrop | compiler/codegen.cpp:408-415 | running the code for popped temporaries destroys them in reverse order |
| Simulation.SimCall | compiler/codegen.cpp:2297-2335 | a call with its operands goes on with its result stored, or leaves for the exception target with everything above it cleaned up, onerror bodies included |
| Simulation.SimInto | compiler/codegen.cpp:936-992 | expressions evaluate left to right, and the stack holds exactly the temporaries alive at run time |
| Operands.IntoBuilds | compiler/codegen.cpp:936-992 | the value of an expression is stored in its output as the last thing done, and nothing else changes but the temporaries of its operands |
| Operands.CallGiven | compiler/codegen.cpp:2260-2303 | a call is given, in order, the slot each operand was built in, which, slots being separate, still holds that operand's value; and the call is the last thing to happen |
| Operands.ThrowGiven | compiler/codegen.cpp:3739-3760 | so is a throw, which makes control leave with an exception wherever exceptions are tested for |
| Simulation.SimAndOr | compiler/codegen.cpp:936-992 | the second operand runs only if the first does not decide |
| Simulation.SimInits | compiler/codegen.cpp:644-694 | when the k-th initialiser throws, its temporaries and the outputs of the earlier ones are destroyed, and nothing else; each output built is stored with the flag of its expression |
| Simulation.SimJump | compiler/codegen.cpp:3501-3508 | control arrives at the target having cleaned up exactly what lies above its marker |
| Simulation.SimStmt | compiler/codegen.cpp:3280-3807 | the code of any well-formed statement makes the calls, stores and destructions of the semantics in order, however it completes, and cannot fall through if it was flagged terminated |
| Simulation.SimReturn | compiler/codegen.cpp:3463-3510 | results are built before cleanup starts, each with the flag of its expression |
| Simulation.SimThrow | compiler/codegen.cpp:3739-3760 | a throw reaches the innermost handler, the arguments' temporaries destroyed on the way |
| Simulation.SimIf | compiler/codegen.cpp:3512-3577 | the condition's bindings live until the statement is left, however that happens |
| Simulation.SimLoop | compiler/codegen.cpp:3610-3660 | each pass of the graph is one pass of the loop; breaks and continues clean up what the body owns |
| Simulation.SimTry | compiler/codegen.cpp:3700-3737 | exceptions of the tried part reach the handler with everything inside cleaned up; others and the handler's own pass by |
| Simulation.SimBlock | compiler/codegen.cpp:3193-3228 | items in order, the block's entries cleaned up on every exit |
| Simulation.SimGoto | compiler/codegen.cpp:3446-3461 | forward and backward gotos arrive at their label with exactly the entries that were live when the label was collected |
| Simulation.LabelPoint | compiler/codegen.cpp:3193-3207 | a label's block and stack height are the same for every goto that can see it |
| Correctness.Preserved | compiler/codegen.cpp:2946-2972 | whatever the body does within any fuel, its graph does in at least that many steps, ending in the return or exception block accordingly, with the same trace and memory |
| Correctness.Preservation | compiler/codegen.cpp:2946-2972 | a body that comes to an end makes its graph come to the same end with the same calls, operands, stores and destructions, and the memory they leave |
| Correctness.Reflection | compiler/codegen.cpp:2946-2972 | a graph that stops has done what its body does, with the same memory |
| Correctness.Divergence | compiler/codegen.cpp:2946-2972 | the graph runs for ever exactly when the body does |
| Correctness.Prefixes | compiler/codegen.cpp:3280-3807 | at every moment the graph's trace is a prefix of the body's |
| Correctness.FuelIrrelevant | compiler/codegen.cpp:2946-2972 | two amounts of fuel that are enough give the same trace and outcome |
| Correctness.ReturnsSomething | compiler/codegen.cpp:2947-2951 | a function with results that compiles never falls off its end |
| Correctness.GraphNeverOverdestroys | compiler/codegen.cpp:393-415 | at every step of every run only the newest value of its kind is ever destroyed |
| Correctness.GraphExactlyOnce | compiler/codegen.cpp:393-415 | a run of the graph that leaves the function has destroyed all it built exactly once, results handed over by a return excepted, if and only if no cleanup call threw with an output that needs destroying |
| Traces.CleanByText | compiler/codegen.cpp:272-285 | where no finally or onerror body has a call whose output needs destroying, no run misses a throw, whatever the calls answer |
| Traces.ExactlyOnceByText | compiler/codegen.cpp:393-415 | such a function destroys all it built exactly once, results handed over excepted, in every run of its graph |
| Traces.ReturnedValues | compiler/codegen.cpp:3463-3510 | when the graph leaves the function, each result slot holds the flag of the expression it was returned by, cleanup bodies notwithstanding |
| Correctness.DeadBindingHidesLabel | compiler/codegen.cpp:3193-3228 | a label behind a dead binding is not collected and fails the assertion |
| Acceptance.CompilesIff | compiler/codegen.cpp:2938-2972 | a program compiles if and only if no live break or continue stands outside a loop, no label behind a binding in dead code, and a function with results does not fall off its end |
| Acceptance.HiddenLabelIff | compiler/codegen.cpp:3193-3228 | a block whose other live parts are in order fails the assertion if and only if it has a label behind a binding in dead code |
| Acceptance.CollectsIff | compiler/codegen.cpp:3816-3847 | the labels up to the next binding are collected if and only if they are new and no two are the same |
| Acceptance.Complaints | compiler/codegen.cpp:3286-3461 | a goto to a label that is nowhere, breaks and continues outside loops, labels and bindings outside blocks and a label twice have their own errors |
| Acceptance.ConditionComplaints | compiler/codegen.cpp:3230-3258 | any other statement in front of a condition fails the assertion |
| Endings.EndsStmt | compiler/codegen.cpp:3280-3807 | the terminated flag is a matter of the text alone, and the use count of the innermost break target tells whether a break leaves the statement |
| Blocks.GraphShape | compiler/codegen.cpp:2946-2972 | where control comes out of every cleanup body, each block of the graph ends in exactly one terminator and each branch leads to a block |
| Blocks.NeverStrays | compiler/codegen.cpp:2946-2972 | no run of such a graph leaves a block by its end; it can only be stuck at an unreachable instruction |
| Blocks.CleanupShape | compiler/codegen.cpp:272-285 | a function that is one finally body has such a graph if and only if control comes out of the body |
| Depth.DepthIrrelevant | compiler/codegen.cpp:266-287 | a larger nesting bound changes no result |
| Depth.DepthEnough | compiler/codegen.cpp:266-287 | the nesting of a well-formed program's own cleanup bodies is bound enough |
| Depth.EscapeUnbounded | compiler/codegen.cpp:272-285 | a return inside a finally exceeds every bound |
| Escapes.EscapeIff | compiler/codegen.cpp:266-287 | a finally body alone in a function exceeds every bound if and only if it has a return that is not dead code |
| Verdicts.VerdictEnds | compiler/analyzer.cpp:2288-2484 | without labels, what the analyzer calls terminated the code generator flags; the converse fails only for loops without a way out and static conditions |
| Verdicts.TerminatedBody | compiler/codegen.cpp:2946-2951 | a label-free body the analysis calls terminated compiles as the body of a function with results, and no run falls off its end |
| Verdicts.AcceptedIff | compiler/codegen.cpp:2946-2951 | a block that must return a value, labels included, whose parts compile is accepted if and only if some item ends and no label stands behind it |
| Verdicts.LabelRevives | compiler/analyzer.cpp:2292-2302 | with a label behind a goto the verdict is wrong and the function is turned away |
| Lifetimes.InitsLive | compiler/codegen.cpp:644-694 | a multi-value initialiser leaves all its outputs alive or none, and no temporaries |
| Lifetimes.GotoLive | compiler/codegen.cpp:3446-3461 | a goto leaves alive exactly the values bound at its label |
| Lifetimes.Accounted | compiler/codegen.cpp:393-415 | counting cleanup calls as having built their outputs, everything is destroyed exactly once, newest of its kind first, in every run |
| Lifetimes.ExactlyOnce | compiler/codegen.cpp:256-285 | destroyed exactly once, and nothing unbuilt ever, if and only if no cleanup call threw with an output that needs destroying |
| Lifetimes.CleanupThrow | compiler/codegen.cpp:272-285 | a program whose finally body destroys a value that was never built |
| Agreement.StmtAgrees | compiler/evaluator.cpp:1861-2180 | with values of any types the evaluator makes the calls and stores of the reference semantics in the same order, ends in the same way with the same values returned, and loops for ever together with it |
| Agreement.IntoAgrees | compiler/evaluator.cpp:979-1007 | the same for expressions, and/or included, with the same flag |
| Agreement.EvaluatedThenRun | compiler/evaluator.cpp:1861-2180 | what evaluates at compile time runs in the compiled graph to the same end, with the same work done and the same memory |
| Agreement.RunThenEvaluated | compiler/evaluator.cpp:1861-2180 | and the other way round |
| Agreement.SameResults | compiler/evaluator.cpp:1861-2180 | what the evaluator returns is what the graph leaves in the result slots |
| EvaluatorSkips.ErasedAlike | compiler/evaluator.cpp:2160-2163 | the evaluator does exactly the same with all finally and onerror statements taken out |
| EvaluatorSkips.CleanupSkipped | compiler/evaluator.cpp:2160-2163 | so it does the work of the reference semantics for the program without them |
| EvaluatorSkips.UnsupportedIff | compiler/evaluator.cpp:1861-2180 | it gives up if and only if the run reaches a throw, an unreachable statement, a label or goto, or a binding outside a block |
| EvaluatorSkips.MeetsHeld | compiler/evaluator.cpp:1861-2180 | which no run does where the text has none |
| EvaluatorOrder.WholeOrder | compiler/evaluator.cpp:673-690 | the evaluator and the reference semantics leave the same trace of any expression, destructions included, if and only if no second operand of an and/or that runs inside it, but for that of the expression itself, builds a value that needs destroying, and what is left dies in the same order |
| EvaluatorOrder.WholeNesting | compiler/evaluator.cpp:979-1007 | where temporaries have slots of their own, the second half of that says that no value that needs destroying has another among its operands |
| EvaluatorOrder.IntoApart | compiler/evaluator.cpp:979-1007 | where such a second operand runs inside the expression, the reference destroys while the evaluator still works, and the traces differ from there on |
| EvaluatorOrder.FlatIff | compiler/evaluator.cpp:673-690 | outer values first and inner values first are the same order if and only if no value that needs destroying has another among its operands |
| EvaluatorOrder.TracesAgree | compiler/evaluator.cpp:1861-2180 | whole traces agree event for event where no second operand of an and/or inside an expression builds a value that needs destroying, no such value has another among its operands, only the last of several initialisers has temporaries to destroy, and conditions bind primitive values |
| EvaluatorLifetimes.StmtBalance | compiler/evaluator.cpp:1861-2180 | all that is built is destroyed once or still on the stack, but for what loops destroy without popping |
| EvaluatorLifetimes.LeavesIs | compiler/evaluator.cpp:2031-2054 | a statement that falls through, breaks or continues leaves on the stack what is bound in front of the conditions of the ifs it comes out of without passing a block, and nothing else |
| EvaluatorLifetimes.AboveIs | compiler/evaluator.cpp:2082-2112 | when a pass comes back, above the marker stands what stood there before, and then what is bound in front of the condition and what the body leaves |
| EvaluatorLifetimes.OverDestroyed | compiler/evaluator.cpp:2082-2112 | any statement destroys a value more often than it was built if and only if some pass of a loop in its run leaves the value above the marker and comes back to the condition |
| EvaluatorLifetimes.LoopLeaves | compiler/evaluator.cpp:2082-2112 | for a loop whose body cannot leave the value this is so if and only if the value is bound in front of its condition and a pass comes back |
| EvaluatorLifetimes.LeftInText | compiler/evaluator.cpp:1861-2180 | what a pass leaves is bound, in the text, in front of the condition of a loop, or of an if that the body of a loop comes out of |
| EvaluatorLifetimes.DestroyedOnce | compiler/evaluator.cpp:1861-2180 | a value that no loop in the program can leave, judged by the text, is destroyed exactly as often as it is built |
| EvaluatorLifetimes.DestroyedTwice | compiler/evaluator.cpp:2082-2112 | a loop with a binding in front of its condition destroys a value twice |
| EvaluatorLifetimes.IfBodyTwice | compiler/evaluator.cpp:2031-2054 | so does a loop that binds nothing itself, whose body is an if that does |
| Evaluator.Interpreter.DestroyStack | compiler/evaluator.cpp:524-531 | destroys above the marker and pops nothing |
| Evaluator.Interpreter.DestroyAndPopStack | compiler/evaluator.cpp:541-548 | destroys above the marker, newest first, and cuts the stack there |
| Evaluator.Interpreter.ExprInto | compiler/evaluator.cpp:979-1007 | the state and flag after an expression |
| Evaluator.Interpreter.ExprAsRef | compiler/evaluator.cpp:673-690 | the slot is on the stack before the expression is evaluated |
| Evaluator.Interpreter.MultiInto | compiler/evaluator.cpp:714-755 | temporaries of all values end together |
| Evaluator.Interpreter.Statement | compiler/evaluator.cpp:1861-2180 | the state and termination after a statement |
| Evaluator.Interpreter.BlockItems | compiler/evaluator.cpp:1866-1899 | items in order until one terminates |
| Evaluator.Interpreter.Loop | compiler/evaluator.cpp:2082-2112 | the passes of a loop |
| GlobalCtors.GlobalEmitter.NeedNode | compiler/codegen.cpp:1055-1069 | a global or function is compiled at its first mention |
| GlobalCtors.GlobalEmitter.GVarInstance | compiler/codegen.cpp:1229-1292 | storage first, then the initialiser, the store, the registration |
| GlobalCtors.GlobalEmitter.Statements | compiler/codegen.cpp:2260-2291 | each mention is compiled before the code that uses it |
| GlobalCtors.GlobalEmitter.Destructors | compiler/codegen.cpp:4338-4349 | globals are destroyed in reverse order of registration |
| GlobalCtors.EmittedIsReached | compiler/codegen.cpp:1055-1069 | what is emitted is exactly what the roots lead to, by mentions and by the destroy functions of globals |
| GlobalCtors.OrderedIfAcyclic | compiler/codegen.cpp:1229-1292 | every global is stored before an initialiser uses it or calls a function that leads to it, if no global the roots lead to leads back to itself |
| GlobalCtors.CircularIsUsedEarly | compiler/codegen.cpp:1229-1292 | a global that leads back to itself by mentions is used before it is stored, whatever the roots |
| GlobalCtors.OrderedIffAcyclic | compiler/codegen.cpp:1229-1292 | where destroy functions lead to no global the order is right if and only if no global the roots lead to leads back to itself |
| GlobalCtors.FirstA | compiler/codegen.cpp:1288-1291 | where a destroy function closes the circle, compiling one global first leads to a use before the store |
| GlobalCtors.FirstC | compiler/codegen.cpp:1288-1291 | and compiling another first does not |
| GlobalCtors.InitialisedOnce | compiler/codegen.cpp:4338-4349 | each global the roots lead to is stored once and registered once, no other is, and they are destroyed in the reverse order of registration |
| GlobalCtors.ReverseIffNotLate | compiler/codegen.cpp:1280-1292 | globals are registered in the order of their stores, so destroyed in the reverse order, if and only if no destroy function is the first to lead to a global |
| GlobalCtors.PlainInStep | compiler/codegen.cpp:1280-1292 | so it is where destroy functions lead to no global |
| GlobalCtors.DestroyedBeforeItsNeeds | compiler/codegen.cpp:4338-4349 | where no global leads back to itself each is destroyed before the globals its destroy function leads to |
| GlobalCtors.LateDestructor | compiler/codegen.cpp:1288-1291 | a destroy function that is the first to mention a global: the two are destroyed in the order of their initialisation |
| GlobalCtors.MutualUse | compiler/codegen.cpp:1229-1292 | two globals that use each other: one is used before it is stored |
| Slots.SlotAllocator.AllocTemp | compiler/codegen.cpp:360-374 | takes the last discarded slot of the type, else a new one |
| Slots.SlotAllocator.LastDiscarded | compiler/codegen.cpp:362-369 | finds the last discarded slot of a type |
| Slots.SlotAllocator.ClearTemps | compiler/codegen.cpp:380-385 | gives back, newest first, what was allocated since the marker |
| Slots.AllocValid | compiler/codegen.cpp:360-374 | every slot stays in exactly one of the two lists, once, and the one handed out was allocated to nothing |
| Slots.ClearValid | compiler/codegen.cpp:380-385 | the same, and the allocated slots are those at the marker |
| Slots.AllocReuses | compiler/codegen.cpp:360-374 | a new slot is made if and only if no discarded one has the type; else the one discarded last is taken, and the others stay in order |
| Slots.ClearOrder | compiler/codegen.cpp:380-385 | slots are given back newest first behind those discarded before |
| Slots.DoLeaves | compiler/codegen.cpp:552-571 | a statement gives back what it has allocated, and only a value stays alive |
| Slots.DoSafe | compiler/codegen.cpp:552-571 | whatever is compiled, in whatever nesting, no two live temporaries share storage, and none is in a slot given back |
| Desugar.DesugarSwitch | compiler/desugar.cpp:335-386 | patching the else part of the last if builds the chain of the cases, with the default behind the last |
| Desugar.SwitchRuns | compiler/desugar.cpp:335-386 | the first matching case is run, after exactly the tests up to it, else the default |
| Desugar.DesugarCatch | compiler/desugar.cpp:196-318 | the same for catch blocks, which end at the first that takes any exception |
| Desugar.CatchRuns | compiler/desugar.cpp:196-318 | an exception runs the first catch that takes it, or is thrown on; nothing behind a catch for any exception is tested or run |
| Dispatch.CodegenDispatch | compiler/codegen.cpp:2021-2093 | builds the comparison tree, one case for each member |
| Dispatch.DispatchExact | compiler/codegen.cpp:2021-2093 | any vector of tags reaches exactly the call with the narrowed arguments, or an invalid dispatch exactly when a tag is out of range |
| Dispatch.DispatchOn | compiler/codegen.cpp:2036-2080 | each comparison reads the tag of the argument dispatched on: the call gets every dispatched argument narrowed to the member for its own tag, or an invalid dispatch is reported for the first argument whose tag is out of range |
| Dispatch.NarrowedAt | compiler/codegen.cpp:2066-2080 | dispatched positions hold the member for their tag, all others are unchanged |
| Dispatch.AnalyzeDispatch | compiler/analyzer.cpp:1831-1912 | one result type for all cases, unknown while one is, a mismatch, or a failed assertion for a sum without members |
| Dispatch.LeavesReturn | compiler/analyzer.cpp:1831-1912 | every call the tree can reach has the analysed result type |
| Dispatch.AnalysisMeans | compiler/analyzer.cpp:1831-1912 | a result is the type of some call; unknown, a mismatch and a failed assertion stand for a call without a type, two calls that disagree and a sum without members |
| Dispatch.ResultIff | compiler/analyzer.cpp:1831-1912 | there is a result type if and only if every sum has a member and every call that can be reached has that type |
| Imports.ModuleGraph.constructor | compiler/env.cpp:14-26 | a module's own public globals are its first public symbols |
| Imports.ModuleGraph.GetPublicSymbols | compiler/env.cpp:171-186 | returns at once for modules loaded or on the stack, otherwise searches with the module on the stack |
| Imports.ModuleGraph.AddImportedSymbols | compiler/env.cpp:224-271 | the star imports of a module in list order, public ones only |
| Imports.ModuleGraph.ImportStar | compiler/env.cpp:252-270 | copies another module's symbols except names defined here |
| Imports.ModuleGraph.LookupPublic | compiler/env.cpp:332-349 | nothing, one value, or an ambiguity, with the search only when the table has no entry; nothing only where nothing is reachable |
| Imports.GetGood | compiler/env.cpp:171-186 | in any graph, the guarded search completes a module's table as far as modules not on the stack lead, and keeps every table sound and every loaded one exact |
| Imports.AnswerSound | compiler/env.cpp:332-349 | null only if nothing is reachable, a value only if reachable, an ambiguity only if two different values are |
| Imports.AnswerExact | compiler/env.cpp:332-349 | in a loaded module, or where the table has no entry yet, the candidates are exactly what is reachable through modules that do not define the name |
| Imports.AnswerRight | compiler/env.cpp:332-349 | there the answer is null, the value or an ambiguity exactly as no value, one or more than one is reachable |
| Imports.AfterGood | compiler/env.cpp:332-349 | soundness, and exactness of loaded modules, after any sequence of lookups |
| Imports.AcyclicAfter | compiler/env.cpp:332-349 | every lookup in a module from which no import cycle can be reached is exact, whatever came before, cycles elsewhere included |
| Imports.OrderMatters | compiler/env.cpp:332-349 | in a cycle an earlier lookup turns an ambiguity into an answer |
| ImportLists.AddImportedSymbols | compiler/env.cpp:224-299 | one pass over module, star and member imports, with its errors |
| ImportLists.ImportStar | compiler/env.cpp:252-270 | star symbols skip own globals and names imported specifically |
| ImportLists.RunResolves | compiler/env.cpp:203-299 | own globals hide every import, an imported member hides every star import wherever it stands, no member is imported twice |
| ImportLists.FailsIff | compiler/env.cpp:203-299 | the pass fails if and only if a member is not found or a name is imported specifically once more, and reports the first such import |
| ImportLists.RunTwice | compiler/env.cpp:224-299 | running the pass over its own result changes nothing |
| ImportLists.AliasOrder | compiler/env.cpp:237-251 | whether a module import hides a star import depends on their order |
| Inference.Analyzer.AnalyzeCallable | compiler/analyzer.cpp:2003-2032 | an entry is analysed unless it is already, or is being |
| Inference.Analyzer.AnalyzeCodeBody | compiler/analyzer.cpp:2167-2218 | when an entry is marked analyzed and with what type |
| Inference.Analyzer.AnalyzeStatement | compiler/analyzer.cpp:2288-2484 | verdict, context and environment after a statement |
| Inference.Analyzer.AnalyzeReturn | compiler/analyzer.cpp:2313-2348 | the first known return fixes the type, later ones must agree |
| Inference.Analyzer.AnalyzeBlock | compiler/analyzer.cpp:2292-2302 | items until one does not fall through |
| Inference.Analyzer.AnalyzeIf | compiler/analyzer.cpp:2350-2385 | both branches unless the condition is static |
| Inference.Analyzer.AnalyzeWhile | compiler/analyzer.cpp:2408-2422 | a loop falls through whatever its body does |
| Inference.Analyzer.AnalyzeExpr | compiler/analyzer.cpp:275-285 | no type while the called entry has none |
| Inference.StmtSound | compiler/analyzer.cpp:2288-2484 | types agree with any typing of all entries; where no recursion got in the way the verdict is the structural one and no live return was missed |
| Inference.InferenceSound | compiler/analyzer.cpp:2003-2218 | in any order of calls, an entry marked analyzed has the type every typing gives it, and no return is reported as disagreeing |
| Inference.OrderIrrelevant | compiler/analyzer.cpp:2003-2032 | two orders of analysis never give an entry two types |
| Inference.WrongIff | compiler/analyzer.cpp:2167-2218 | with every other entry consistent, an entry is given a wrong type if and only if its body falls through, has met recursion and has seen no return while the typing gives it a result |
| Inference.LoopMistaken | compiler/analyzer.cpp:2408-2422 | recursion at the head of a loop body makes a function with a result void |
| Inference.OnlyRecursion | compiler/analyzer.cpp:2167-2218 | with recursion on every way an entry has no type yet, and there is no complaint |
| Inference.ThrowOrRecursion | compiler/analyzer.cpp:2167-2218 | where the other way ends without a return, propagation fails |
| Inference.ReturnOrRecursion | compiler/analyzer.cpp:2167-2218 | where the other way returns, that is the type |
| InferenceComplete.AnalysedIffTyped | compiler/analyzer.cpp:2003-2218 | an entry from which no recursion can be reached is analysed if and only if there is a typing of it and of what it calls; what is found is one, no other gives the entry another type, and failures are disagreements or undefined names only |
| InferenceComplete.AllIffTyped | compiler/analyzer.cpp:2003-2032 | the same for any sequence of such entries |
| InferenceComplete.StmtFree | compiler/analyzer.cpp:2288-2484 | away from recursion no type is missing, the verdict is the structural one, and there is a return type if and only if there is a live return |
| InferenceComplete.StmtTyped | compiler/analyzer.cpp:2288-2484 | away from recursion a typing makes the analysis succeed, and an analysis that succeeds gives every live expression and return the type it records |
| InferenceComplete.NullMeans | compiler/analyzer.cpp:2350-2377 | a condition is reported to have no type only if a live condition of an entry that is led to calls an entry whose type depends on recursion |
| InferenceComplete.PropagationMeans | compiler/analyzer.cpp:2190-2218 | propagation fails only where recursion is led to |
| EditDistance.Measure | compiler/env.cpp:58-75 | the two-row table in 32-bit arithmetic yields the distance for lengths below 2^32 - 1 |
| EditDistance.NoneCheaper | compiler/env.cpp:58-75 | no edit script from one string to the other costs less |
| EditDistance.Cheapest | compiler/env.cpp:58-75 | some edit script costs that much |
| EditDistance.Symmetric | compiler/env.cpp:58-75 | the distance is symmetric |
| EditDistance.ZeroOnlyEqual | compiler/env.cpp:58-75 | it is zero exactly for equal strings |
| EditDistance.Triangle | compiler/env.cpp:58-75 | it satisfies the triangle inequality |

## Left out

- Correctness.Preservation: assumes jumps that are lexical (a goto names a label of an enclosing block, so not one of a finished sibling), distinct labels, no finally or onerror between a label and its collection point or alone in a branch, and cleanup bodies without return, label, goto or a break out of themselves; the compiler does not account for these on its stack.
- Correctness.Reflection: as `Correctness.Preservation`; exceptions are enabled, since without them the code generator omits the tests.
- Codegen.CodegenContext.JumpTo: jumps count their target's uses for breaks only, the one count the compiler reads.
- Codegen.CodegenContext.LowlevelCall: which exception value is stored is not part of the state.
- Codegen.CodegenContext.ExprInto: expressions are literals, calls, and, or; indexing, references and inlined calls are not modelled.
- Codegen.CodegenContext.ExprAsRef: one rvalue; what stays a reference is not modelled.
- Codegen.CodegenContext.OneInto: the rvalue case only, not the copy from a reference.
- Codegen.CodegenContext.MultiInto: one value for each expression; unpacking is not modelled.
- Codegen.CodegenContext.Statement: assignments, switch, for, static for, eval and foreign statements, ref and forward bindings and returns by reference are not modelled.
- Codegen.CodegenContext.ReturnStatement: returns by value only.
- Codegen.CodegenContext.ThrowStatement: the throw is a call that always throws; its context argument is not modelled.
- Codegen.CodegenContext.Binding: var with as many expressions as names.
- Codegen.CodeBody: named results, allocation of results and the test for bodies that do nothing are not modelled.
- Simulation.SimCall: which exception value is stored and passed on is not part of the trace.
- Simulation.SimThrow: as `Simulation.SimCall`.
- Lifetimes.ExactlyOnce: "reverse order" is per kind of storage (temporaries, locals, results), because a local is built before the temporaries of its initialiser end.
- Traces.CleanByText: sufficient; a call in a cleanup body that never runs does no harm.
- Acceptance.CompilesIff: cleanup bodies must be in order themselves; which copies of one that is not are compiled depends on the exits of its scope.
- Acceptance.HiddenLabelIff: as `Acceptance.CompilesIff`.
- Escapes.EscapeIff: bodies without labels, alone in a function; where other exits compile the body too, the nesting of the copies would have to be followed.
- Blocks.GraphShape: sufficient for any body; exact only for a function that is one finally (`Blocks.CleanupShape`), since whether an ending cleanup body does harm depends on which exits get a copy of it.
- Verdicts.TerminatedBody: bodies without labels, with `Verdicts.LabelRevives` as the reason and `Verdicts.AcceptedIff` for the others.
- Agreement.StmtAgrees: no call throws, destructors do not change what calls answer, and there is no throw, finally or unreachable statement: the evaluator reports the first and the last as errors and skips finally. Labels and gotos are left out because re-running a binding collects later labels again in the evaluator.
- Agreement.EvaluatedThenRun: as `Agreement.StmtAgrees`.
- Agreement.RunThenEvaluated: as `Agreement.StmtAgrees`.
- EvaluatorOrder.WholeNesting: temporaries that share a slot are excluded, since the trace does not tell them apart; `EvaluatorOrder.WholeOrder` has them.
- EvaluatorOrder.TracesAgree: sufficient for programs; the exact condition is stated for expressions (`EvaluatorOrder.WholeOrder`).
- Evaluator.Interpreter.Statement: goto, assignments and static for are not modelled.
- Evaluator.Interpreter.BlockItems: labels and gotos are not modelled.
- Evaluator.Interpreter.ExprInto: expressions as for the code generator.
- Evaluator.Interpreter.MultiInto: one value for each expression.
- GlobalCtors.OrderedIfAcyclic: initialisers are straight-line; a conditional one may leave a nested constructor in one branch.
- GlobalCtors.GlobalEmitter.GVarInstance: initialisers are lists of mentions; that a global is mutable, generic or foreign makes no difference here.
- GlobalCtors.DestroyedBeforeItsNeeds: sufficient.
- Operands.CallGiven: that the slot still holds the value asks that no operand is evaluated in the slot of an earlier one, which `Slots.DoSafe` says of the slots handed out.
- EvaluatorSkips.ErasedAlike: statements in front of a condition are left as they are, where the evaluator runs bindings and expressions only.
- Slots.DoSafe: the code generator's use of slots is a nested script of values, statements and scopes, not its functions one by one.
- Desugar.DesugarCatch: the bodies and conditions of the ifs are named, not built; the exception variables around them are not modelled.
- Desugar.DesugarSwitch: as `Desugar.DesugarCatch`.
- Imports.AcyclicAfter: star imports only; member imports are in `ImportLists` with the imported tables fixed, because they clear entries and make the tables non-monotone in cycles. Which cyclic graphs let the order of lookups show is not characterised.
- Imports.ModuleGraph.AddImportedSymbols: star imports only.
- ImportLists.AddImportedSymbols: what the imported modules export is fixed beforehand.
- Inference.InferenceSound: overload matching is replaced by calls of given entries; an entry with a result whose body the structural rule lets fall through is excluded, with `Inference.WrongIff` as the reason.
- InferenceComplete.AnalysedIffTyped: entries that lead to recursion are excluded; for those `Inference.InferenceSound` and `Inference.WrongIff` say what the answers are worth.
- InferenceComplete.NullMeans: one way; whether the type is known in time depends on which ways through the recursion come first.
- InferenceComplete.PropagationMeans: as `InferenceComplete.NullMeans`.
- Inference.Analyzer.AnalyzeCallable: overload matching and call-by-name are not modelled.
- Inference.Analyzer.AnalyzeCodeBody: interface returns and by-ref flags are not modelled.
- Inference.Analyzer.AnalyzeStatement: static for, switch, eval and result caching are not modelled.
- Inference.Analyzer.AnalyzeReturn: return values are one or none, without by-ref flags.
- Inference.Analyzer.AnalyzeExpr: constants, locals and direct calls.
- Dispatch.CodegenDispatch: blocks and the join are abstracted to a tree.
- Dispatch.DispatchExact: what the tag and member operators of a variant compute is given by its type.
- Dispatch.AnalyzeDispatch: one result type for each call.
- EditDistance.Measure: nothing is said about the distance itself for longer strings, where the arithmetic wraps.
- An unreachable statement stands for LLVM's: the run is stuck and nothing is claimed about what follows.
- An absent else branch is the empty block, and an empty block that is written out is a block with an empty block in it; a cleanup body is kept as the items of its block.
- Debug information, types, linkage and LLVM itself are not part of this model.
- The desugaring of for, pattern matching and the parser are not part of this model.

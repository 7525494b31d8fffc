# Picon: a model of the monitor, the pass, and the tables between them

Picon protects a program's control flow. An LLVM pass makes the program send an event at each call,
return and branch; a separate monitor process replays the events against a call graph and
control-flow graphs that were computed at compile time, packed by a prelink script, and loaded when
the program starts. This project models that chain and proves what it is for:

1. **The monitor.** `MonitorSpec` gives the monitor loop as a step function over five states and six
   events, with a call stack, a block stack shared by all frames, and the optional trace mode.
   `MonitorRun` is the loop as the C code has it, with fields and array-backed growable stacks
   (`GrowableStack`) updated in place, and is proved to compute exactly that step function.
   `TraceLanguage` is an independent definition of what may be sent: a grammar of nested calls and
   jumps along edges of the tables. The monitor accepts a stream if and only if it is derivable
   (`ExactLanguage`), by a single derivation (`DerivationIsUnique`). `Decisions` reads off the tables
   which signal is accepted in a reachable state and with which error any other is refused.
   `RunInvariant` proves what holds in every reachable state, hence which of the code's error exits
   can never be taken and exactly when it reads through a row that was never allocated. `TraceMode`
   proves that tracing does not change any verdict, and `FrameRestoration` that a call leaves no mark
   on its caller's state. `BlockStacks` computes the whole block stack from the signals alone: the
   greedy post-dominator chain through the blocks that each activation has visited.
2. **The instrumentation.** `Injector` is the pass's five injections as in-place edits of a function,
   and `Layout` says at which place of a block each event ends up;
   `Execution` gives a small semantics to functions, blocks, calls and branches; `EndToEnd` and
   `Acceptance` prove that the instrumented program has the same executions as the original, what each
   of them sends, and that the monitor accepts it if and only if every function activation sends its
   EXIT once and is silent afterwards. The pass puts an EXIT at the end of the last block and nowhere
   else, so an activation must go through that block; a function whose blocks are traced must also
   return from it, while an untraced one may go on through blocks without monitored calls and return
   there. That a live early return is refused is a result about the code: `EarlyReturn` is a concrete
   program that shows it, and another one for the silent return.
3. **The tables.** `PassTables` writes the transition tables as text, in any number of runs of the pass
   that append to the same files; `FunctionIds` and `PostDominators` are the two other files. `Prelink`
   parses and packs, `Loader` walks the packed bytes by offsets; `LoaderRoundTrip` and `Pipeline` prove
   that what is loaded has an edge exactly where the compiled code has one, and each function's own
   name and flag in its slot. `LoaderErrors` says which packets are refused and with which error, `Parsing`
   which lines the parsers take, and `Formats` spells files and packets out on small tables. `Relocation` is the search for the definitions of
   external functions. `Linked` relates the tables to the linked program, while binaries are still
   being loaded and after the final relocation: an execution is accepted exactly if it leaves its
   functions as above and every call goes where the flags and names of the function tables send it. Two
   results about the code follow. While binaries are being loaded a call goes where the linker has it go
   only if that is in the same binary or in one loaded before, so an init function that calls a library
   loaded after its own is refused (`CallAhead`). And main is flagged Main wherever the pass meets it, so
   a call to main from a binary that only declares it is refused (`DeclaredMain`).
4. **The processes.** `Handshake` is the protocol of signals and answers over two pipes, with `n`
   preloaded answers, in every interleaving. `Session` is the whole life of the monitor: modules with
   their init functions, then the program, then the fini functions. `Identification` is the numbering
   of functions across compilations that share a prefix, and `Sources` the binary that is linked from
   them: its ids and flags are those of the .fctid file. `Service` runs the protocol over an execution:
   when the monitor can follow it, no interleaving gets stuck before every send has returned.
5. **All of it.** `WholeProgram` compiles and loads every binary, runs the monitor process over the
   signals of a whole life of the instrumented program (`Lives`), and proves exactly when that ends well.
   The generated constructor ends the loading phase after every binary whose .fctid file lists main, and
   only then: without such a binary the monitor waits for ever, and behind it no binary is loaded any
   more. So the last binary must list main and no other one may; besides, every binary must load, every
   External function must be offered by another binary, and every execution must leave its functions and
   make its calls as described above. For programs made from sources (`MadeLifeVerdict`) the condition on
   calls is that no init function calls ahead.

Conventions of the model:

- A table row that was never allocated is `None`. The C code indexes through it; the model makes that
  read an outcome of its own (`Fault`), and `FaultsExactlyOnMissingRows` says when it happens.
- Stack pointers are offsets from the start of the stack. The C code keeps `top` and the saved
  `blocks_sp` as addresses and does not recompute them when `realloc` moves the array; the model is
  what this code does when the array grows in place, or what it means to do otherwise.
- `WellFormed` tables are what the loader leaves: square tables, and relocations that name existing
  functions. `FullyRelocatedIsWellFormed` proves the latter for the final relocation and
  `NextModuleIsSafe` for the loading phase, where an external function that is not resolved yet holds
  the pair (0, 0): it names a function because module 0 has one.
- Numbers read from tables and packets are bounded where their width matters: 32-bit words in
  packets, 64-bit relocation words, the 16 bits of a module id.
- Every lemma carries `{:induction false}`: all inductions are written out.
- Iteration orders of dictionaries and maps are parameters or arbitrary choices; every theorem holds
  for all of them.

## Model

| member | source | states |
|---|---|---|
| MonitorTables.PackingProjectsBack | include/picon/shared.h:62-67 | the two projections give back the packed pair exactly when the module index fits the 16 bits of a module id |
| Formats.RelocationWord | include/picon/shared.h:67 | the word is the module index times 2^32 plus the function id |
| MonitorSpec.RunAppend | monitor/src/monitor_run.c:82-246 | the verdict on a first part of a stream decides how the rest is read: the loop keeps nothing but its state |
| TraceLanguage.BodyRuns | monitor/src/monitor_run.c:84-230 | reading any legal function body never fails or ends the run, and touches nothing below the current frame |
| TraceLanguage.NestRuns | monitor/src/monitor_run.c:119-229 | a whole legal call, CALL to RETURNED, leaves the complete monitor state as it was, in both modes |
| TraceLanguage.DerivableIsAccepted | monitor/src/monitor_run.c:84-236 | completeness: every derivable stream is accepted with error 0, at any nesting depth |
| TraceLanguage.ParseBranch | monitor/src/monitor_run.c:86-116 | in an accepted stream a BEFORE_JUMP is followed by the AFTER_JUMP of a successor |
| TraceLanguage.ParseOpening | monitor/src/monitor_run.c:119-179 | in an accepted stream a CALL follows a call edge and is followed by the ENTER of its relocated target |
| TraceLanguage.ParseClosing | monitor/src/monitor_run.c:182-229 | after the callee's EXIT an accepted stream goes on with a RETURNED along some call edge of the caller, in the caller's own state |
| TraceLanguage.ParseBody | monitor/src/monitor_run.c:84-236 | every accepted stream splits into a legal body, its EXIT and what follows; for the outermost function nothing follows |
| TraceLanguage.AcceptedIsDerivable | monitor/src/monitor_run.c:84-236 | soundness: every accepted stream is derivable from the grammar |
| TraceLanguage.ExactLanguage | monitor/src/monitor_run.c:84-236 | the monitor accepts a stream if and only if the grammar derives it from a function flagged Main, Init or Fini, with tracing on or off |
| TraceLanguage.SameYieldSameBody | monitor/src/monitor_run.c:119-229 | two bodies that send the same stream up to their EXIT are the same body |
| TraceLanguage.DerivationIsUnique | monitor/src/monitor_run.c:119-229 | an accepted stream has a single derivation, so the calls and returns in it pair up in one way only |
| RunInvariant.StepKeepsInv | monitor/src/monitor_run.c:84-236 | every accepted event keeps the call path and the layout of the block stack |
| RunInvariant.RunKeepsInv | monitor/src/monitor_run.c:82-246 | the invariant holds in every state in which a run waits for a signal |
| RunInvariant.ReachableIsCallPath | monitor/src/monitor_run.c:119-216 | in every reachable state the frames and the active function are a path from an entry point in the relocated call graph |
| RunInvariant.FaultsExactlyOnMissingRows | monitor/src/monitor_run.c:99-148 | from a reachable state a step makes a bad read if and only if a CALL or an AFTER_JUMP needs a row that was never allocated; no other index or pop is ever out of range |
| RunInvariant.InvIsInBounds | monitor/src/monitor_run.c:99-228 | module, function, curblock, topblock and saved stack heights are in range wherever the code uses them unchecked |
| RunInvariant.ReturnedRowIsPresent | monitor/src/monitor_run.c:220-228 | the call-graph row that RETURNED reads is always allocated |
| RunInvariant.Error7IsFirstEnterOnly | monitor/src/monitor_run.c:155-194 | error 7 is returned if and only if the first ENTER names an existing module and, in it, no function or one flagged Internal or External: the checks of the last EXIT and of the empty block stack never fire |
| RunInvariant.EnterIgnoresCurblock | monitor/src/monitor_run.c:171-177 | the curblock test of ENTER never decides |
| RunInvariant.HeightIsDepthWithoutTrace | monitor/src/monitor_run.c:127-138 | without tracing the block stack holds one block per suspended frame and frame i saved height i+1 |
| RunInvariant.SegmentsAreChainsWithTrace | monitor/src/monitor_run.c:109-138 | with tracing each frame owns a post-dominator chain that starts at the entry block, closed by its topblock and curblock; the active function's chain ends at topblock |
| Decisions.GoesOnExactlyIfAllowed | monitor/src/monitor_run.c:84-236 | in a reachable state a run goes on with a signal if and only if the phase, the active function and the rows of the tables allow it, each of the six events with its own condition |
| Decisions.ErrorCodes | monitor/src/monitor_run.c:84-236 | the run ends with 0 exactly at the EXIT of the outermost function, with 5 at an unknown event, with 6 and 7 at a first ENTER without such a module or entry point, and with 4 otherwise |
| Decisions.AfterJumpPushes | monitor/src/monitor_run.c:99-116 | in a reachable traced state an accepted AFTER_JUMP to the post-dominator of topblock pushes topblock and moves it, and any other leaves topblock and the stack alone |
| Decisions.AcceptedStartsAtEntryPoint | monitor/src/monitor_run.c:155-169 | every accepted stream begins with the ENTER of an existing function flagged Main, Init or Fini |
| BlockStacks.StackIsGreedy | monitor/src/monitor_run.c:109-214 | after any accepted signals the block stack is, activation by activation, the greedy post-dominator chain through the blocks visited and the block of the suspension; saved heights match it, the active chain ends in topblock, and curblock is the last block visited; without tracing only the blocks of the suspensions are there |
| TraceMode.StepStaysSimilar | monitor/src/monitor_run.c:84-236 | one event keeps a traced and an untraced state similar, or stops both with the same error |
| TraceMode.SimilarRunsAgree | monitor/src/monitor_run.c:82-246 | similar states stay in step over any stream |
| TraceMode.TracingNeverChangesTheVerdict | monitor/src/monitor_run.c:109-214 | on every stream the run with tracing and the run without accept, refuse and stop alike, with the same error and the same signals unread |
| FrameRestoration.LastExit | monitor/src/monitor_run.c:200-216 | the EXIT that closes a call finds the frame and the saved blocks as the call left them |
| FrameRestoration.CallIsUndone | monitor/src/monitor_run.c:119-216 | from any reachable state, whatever events the callee and its callees send, the matching EXIT restores module, function, curblock, topblock, call stack and block stack, in both modes |
| GrowableStack.Stack.constructor | monitor/src/block_stack.c:25-36 | a new stack is empty and has one chunk |
| GrowableStack.Stack.Extend | monitor/src/block_stack.c:47-59 | growing keeps the contents below top and adds exactly one chunk |
| GrowableStack.Stack.Push | monitor/include/block_stack.h:51-59 | a push appends one element, and grows the array exactly when top is at last |
| GrowableStack.Stack.Pop | monitor/include/block_stack.h:61-64 | a pop removes and returns the last element |
| GrowableStack.Stack.RestoreTop | monitor/include/block_stack.h:46-49 | going back to an earlier height keeps exactly the elements below it |
| MonitorRun.Run.OnBeforeJump | monitor/src/monitor_run.c:86-96 | the branch in place takes the decision and leaves the state of the step function |
| MonitorRun.Run.OnAfterJump | monitor/src/monitor_run.c:99-116 | the same for AFTER_JUMP, with the push of trace mode |
| MonitorRun.Run.SuspendCaller | monitor/src/monitor_run.c:127-138 | the caller's blocks and ids are saved, with the height of the block stack after the save |
| MonitorRun.Run.OnCall | monitor/src/monitor_run.c:119-150 | the same for CALL, with relocation |
| MonitorRun.Run.OnEnter | monitor/src/monitor_run.c:153-179 | the same for ENTER, first or not |
| MonitorRun.Run.RestoreCaller | monitor/src/monitor_run.c:200-214 | the pops restore what the last frame saved, and never find the block stack empty |
| MonitorRun.Run.OnExit | monitor/src/monitor_run.c:182-217 | the same for EXIT, last or not |
| MonitorRun.Run.OnReturned | monitor/src/monitor_run.c:220-229 | the same for RETURNED |
| MonitorRun.Run.Handle | monitor/src/monitor_run.c:84-236 | the switch agrees with the step function on every signal and keeps the invariant when it goes on |
| MonitorRun.ReadOne | monitor/src/monitor_run.c:82-246 | one turn of the loop reads one signal, answers it exactly if it is accepted, and leaves a run with the same verdict |
| MonitorRun.Listen | monitor/src/monitor_run.c:82-246 | from any reachable state the loop ends as the pure run does, with what it does not read left in the pipe |
| MonitorRun.SuccessIsDerivable | monitor/src/monitor_run.c:82-246 | a run ends with 0 if and only if some beginning of the stream is derivable, and what it has read is that beginning |
| MonitorRun.MonitorRun | monitor/src/monitor_run.c:36-253 | the loop over in-place stacks returns 0 if and only if the stream begins with a derivable one, which it has then read and answered signal by signal; it returns another error exactly if the pure run ends with it, and has then read one signal more than it has answered; it blocks exactly if that run waits, and crashes exactly if it faults |
| Injector.FunctionBody.InjectMcall | llvm_pass/CFI/CFIInjector.cpp:198-252 | in each block, and nowhere else, CALL and RETURNED surround exactly the monitored calls |
| Injector.FunctionBody.InjectMcallInBlock | llvm_pass/CFI/CFIInjector.cpp:217-251 | the running insert-after flag puts each RETURNED right after its call |
| Injector.FunctionBody.InjectBBEnter | llvm_pass/CFI/CFIInjector.cpp:254-275 | every block but the first gets AFTER_JUMP with its own index, after its phi nodes and debug intrinsics |
| Injector.FunctionBody.InjectBBLeave | llvm_pass/CFI/CFIInjector.cpp:277-301 | every block but the last gets BEFORE_JUMP with its own index before its terminator |
| Injector.FunctionBody.InjectMentry | llvm_pass/CFI/CFIInjector.cpp:119-143 | ENTER goes into the first block only |
| Injector.FunctionBody.InjectMexit | llvm_pass/CFI/CFIInjector.cpp:145-174 | EXIT goes into the last block only, before its terminator |
| Injector.FunctionBody.Inject | llvm_pass/CFI/CFIInjector.cpp:307-324 | the five injections in the order of InjectCode |
| Injector.EraseWithCalls | llvm_pass/CFI/CFIInjector.cpp:217-251 | erasing the CALL and RETURNED events gives the block back |
| Injector.InjectionOnlyAdds | llvm_pass/CFI/CFIInjector.cpp:119-324 | after all five injections the original instructions are there in the same order, with the same terminator |
| Layout.CallsAreSurrounded | llvm_pass/CFI/CFIInjector.cpp:217-251 | each instruction stays in its place, and CALL and RETURNED with the id of the callee are right before and right after it if and only if it calls a name that is not ignored |
| Layout.EntryLayout | llvm_pass/CFI/CFIInjector.cpp:119-174 | the first block after all injections: its phi nodes, ENTER, the rest, and EXIT behind it if it is the last block, or BEFORE_JUMP if blocks are traced |
| Layout.BlockLayout | llvm_pass/CFI/CFIInjector.cpp:254-301 | any other block: its phi nodes and debug intrinsics, AFTER_JUMP if blocks are traced, the rest, and EXIT or BEFORE_JUMP |
| Layout.PhisStayFirst | llvm_pass/CFI/CFIInjector.cpp:119-275 | whatever is injected, the phi nodes of a block are still its first instructions |
| Execution.SameActivations | llvm_pass/CFI/CFIInjector.cpp:303-325 | the instrumented program has exactly the executions of the original |
| EndToEnd.EmitBlock | llvm_pass/CFI/CFIInjector.cpp:119-301 | an instrumented block sends its entry event, then its calls, then its exit event |
| EndToEnd.EmitsTrace | include/picon/injected_code.c:77-123 | every execution of the instrumented program sends exactly the trace read off the original program |
| Acceptance.CallsRun | monitor/src/monitor_run.c:119-229 | the calls of a block bring the monitor back to the same state if each of their activations sends its EXIT once, is silent afterwards and goes where the relocations say, and are refused otherwise |
| Acceptance.VisitsRun | monitor/src/monitor_run.c:84-236 | the trace of a function body ends in its EXIT being accepted if and only if the body sends it once, is silent afterwards and its calls do the same and go where the relocations say; any other verdict cannot be followed by an accepted RETURNED, or by an accepted ENTER for the outermost function |
| Acceptance.ExecutionVerdict | monitor/src/monitor_run.c:84-236 | on tables that have the edges, with any flags and relocations, an execution is accepted exactly when it leaves as it should and every call enters the function that flags and relocations name; otherwise it is refused, or leaves the run where no further ENTER is accepted |
| Acceptance.DescribedFollows | monitor/src/monitor_run.c:139-148 | when the relocations agree with the linker, every call of every execution enters the function that they name |
| Acceptance.InstrumentedExecutionIsAccepted | llvm_pass/CFI/CFIInjector.cpp:151-155 | with tables that describe the program, an execution from an entry point is accepted with error 0 if and only if each activation in it sends its EXIT once and is silent afterwards; for an untraced function this admits a silent return from another block |
| Acceptance.UniqueReturnBlocksAreAccepted | llvm_pass/CFI/CFIInjector.cpp:151-155 | when in every function the last block returns and no other does, every execution is accepted, in both modes |
| EarlyReturn.EarlyReturnIsRefused | llvm_pass/CFI/CFIInjector.cpp:288-292 | a main whose first block branches to two returning blocks is a valid program, with tables that describe it, and its execution through the block in the middle is refused |
| EarlyReturn.SilentReturnIsSingleExit | llvm_pass/CFI/CFIInjector.cpp:151-155 | an untraced main that goes through its last block and then returns in silence from another one satisfies the condition of the end-to-end theorem |
| LoaderRoundTrip.CallGraphRoundTrip | monitor/src/monitor_load.c:104-135 | packed call rows, stepped over by byte offsets, load with no error into a table with exactly their edges and exactly their rows |
| LoaderRoundTrip.BlocksRoundTrip | monitor/src/monitor_load.c:157-210 | the same for the block table of one function, all other functions unchanged |
| LoaderRoundTrip.FunctionTableRoundTrip | monitor/src/monitor_load.c:57-83 | ids that are 0 to n-1 in any order fill each slot once with its own name and flag, and the counters are the numbers of Init and Fini entries |
| LoaderRoundTrip.EveryIdIsThere | prelink/picon-prelink:271-287 | n distinct ids below n are all of them, so no slot stays empty |
| LoaderRoundTrip.IpdRoundTrip | monitor/src/monitor_load.c:222-250 | the packed post-dominators load with no error, the last line about a block decides, and nothing else changes |
| LoaderRoundTrip.IpdWithoutTable | monitor/src/monitor_load.c:229-240 | a line about a function without a block table stops the loading with error 4 |
| LoaderErrors.FunctionTableStatus | monitor/src/monitor_load.c:57-83 | a packed table of n functions loads if and only if every id is below n, and is refused with error 3 otherwise |
| LoaderErrors.CallTableStatus | monitor/src/monitor_load.c:104-135 | a packed call table loads if and only if no caller comes twice and all ids are below the number of functions, and is refused with error 3 otherwise |
| LoaderErrors.BlockTableStatus | monitor/src/monitor_load.c:140-213 | which packed block tables load, and the error of every other: 3, 4 and 5 for an unknown function, a second table and no block, and 7 or 10 as the first row that does not fit has a wrong block or a wrong successor |
| LoaderErrors.IpdStatus | monitor/src/monitor_load.c:222-248 | packed post-dominators load if and only if every line is about an existing block; otherwise the first other line gives error 2, 4 or 5 |
| Loader.ModuleTables.LoadFunctionIds | monitor/src/monitor_load.c:36-86 | error codes and new tables for every packet, including a second one and a truncated one |
| Loader.ModuleTables.FillFunctions | monitor/src/monitor_load.c:57-83 | the slots and counters after the loop, for every packet, up to the first invalid id |
| Loader.ModuleTables.LoadFunctionTransition | monitor/src/monitor_load.c:88-138 | error codes and new call graph for every packet |
| Loader.ModuleTables.LoadBlockTransition | monitor/src/monitor_load.c:140-213 | error codes and new function data for every packet |
| Loader.ModuleTables.LoadBlockIpd | monitor/src/monitor_load.c:215-251 | error codes and new post-dominators for every packet |
| Loader.LoadMatrix | monitor/src/monitor_load.c:104-135 | the outer loop over records, shared by the two graphs, equals its recursive definition and keeps the table's size |
| Loader.MarkRow | monitor/src/monitor_load.c:123-132 | the inner loop over targets equals its recursive definition and keeps the row's length |
| Text.ParseDecimal | prelink/picon-prelink:180-187 | reading a printed id gives the id |
| Text.SplitSpaced | prelink/picon-prelink:180-187 | splitting a printed line gives its words, with or without a final space |
| Text.LinesOfFile | prelink/picon-prelink:180-187 | a printed file has the lines that were printed |
| Prelink.ParseCallgraph | prelink/picon-prelink:180-187 | the dictionary of the rows of the file, signed numbers included, a later line for an id replacing an earlier one; no result for a line that is not a row |
| Prelink.CallgraphTextRoundTrip | llvm_pass/CFI/CFI.cpp:333-338 | the rows read back from the text of the call table are the rows written |
| Parsing.LastCallRow | prelink/picon-prelink:180-187 | a line is taken if and only if the inside of its first word and all its other words are numbers, and its row replaces an earlier one for the same id |
| Parsing.LastBlockLine | prelink/picon-prelink:189-210 | a head line with two numbers starts the table of a function that has none yet, a row goes into the table of the last head line, a blank line changes nothing, and every other line is an error |
| Parsing.IntText | prelink/picon-prelink:180-187 | a word is a number if and only if it is digits after an optional sign |
| Prelink.ParseBB | prelink/picon-prelink:189-210 | the two dictionaries after any file, signed numbers included, or none if a line is malformed or a function comes twice |
| Prelink.BlocksTextRoundTrip | prelink/picon-prelink:189-210 | the block table read back has, for each function written and no other, its number of blocks and its rows |
| Prelink.SecondHeadFails | prelink/picon-prelink:196-203 | a file with two head lines of the same function has no result, whatever is between and around them |
| Prelink.RowWithoutHeadFails | prelink/picon-prelink:204-209 | nor has one that begins with a row |
| Prelink.PackedDict | prelink/picon-prelink:163-169 | the bytes are the records of the items of the dictionary, each once |
| Prelink.GenPackedCallgraph | prelink/picon-prelink:297-318 | the packet is the count followed by those records |
| Prelink.PackedFunction | prelink/picon-prelink:331-335 | the packet of one function holds its id, its number of blocks and its rows |
| Prelink.GenPackedBB | prelink/picon-prelink:320-347 | one such packet per function, in the order of the iteration |
| PassTables.AllowedTransitions | llvm_pass/CFI/CFI.cpp:279-327 | the map has a key exactly for each function of the run that makes a call, and maps it to the callees, which are those of CalledMeaning |
| PassTables.CalleesOf | llvm_pass/CFI/CFI.cpp:290-325 | the loop over blocks and instructions collects the callees of the function, which are those of CalleesMeaning |
| PassTables.CalleesMeaning | llvm_pass/CFI/CFI.cpp:290-325 | an id is a callee if and only if some instruction of some block is a call of an identified name that is not ignored and has that id |
| PassTables.CalledMeaning | llvm_pass/CFI/CFI.cpp:282-325 | the same for the function with a given id: g is called by f if and only if some block of f has such a call |
| PassTables.WriteCallgraph | llvm_pass/CFI/CFI.cpp:333-338 | the whole text: one row per key by increasing id, listing its set by increasing id, as iterating std::map and std::set does |
| PassTables.WriteCallFile | llvm_pass/CFI/CFI.cpp:329-338 | the whole text after any number of runs that append to the file |
| PassTables.CallFileMeaning | llvm_pass/CFI/CFI.cpp:329-338 | that text has one row for each calling function of all the runs and no other, listing exactly its callees without repetition |
| PassTables.WriteAllowedBBTrans | llvm_pass/CFI/CFI.cpp:345-384 | the text holds the tables of the functions of the run whose blocks are traced, in the order of its function map |
| PassTables.WriteBlockFile | llvm_pass/CFI/CFI.cpp:107-118 | after any number of runs that append to the file it is the block table file of all their functions |
| PassTables.WriteBlockTable | llvm_pass/CFI/CFI.cpp:359-383 | one function's part: head line, then rows and a blank line unless it has a single block |
| PassTables.BlockRowsMeaning | llvm_pass/CFI/CFI.cpp:366-380 | in increasing order, there is a row exactly for each block whose terminator has successors, holding these in their order |
| PassTables.BlockTablesMeaning | llvm_pass/CFI/CFI.cpp:345-361 | there is one table exactly for each function listed that has blocks and whose blocks are traced |
| FunctionIds.FlagWordsRoundTrip | prelink/picon-prelink:242-254 | every flag is read back as written if and only if the file itself is not named like one of the flags |
| Formats.NameFileLines | llvm_pass/CFI/CFI.cpp:150-229 | the line of a function is its name, its id and Main, Init, Fini, External or the name of the file, with blanks between them |
| Formats.CallgraphFile | llvm_pass/CFI/CFI.cpp:333-338 | the line of a caller with two callees, character by character |
| Formats.TableLines | llvm_pass/CFI/CFI.cpp:357-382 | the lines of a function with two blocks and of one with a single block |
| Formats.PostDominatorLine | llvm_pass/CFI/CFI.cpp:492-499 | the line of a block, character by character |
| Formats.FlagNumbers | include/picon/shared.h:143-149 | the five flags are the numbers 0 to 4 in both directions, and any other number is read as Internal |
| Formats.CallPacket | prelink/picon-prelink:163-169 | the bytes of a call table with one edge: count, caller, number of callees, callee, as little-endian words |
| Formats.BlockPacket | prelink/picon-prelink:331-335 | the bytes of the block table of a function with one block: function, number of blocks, number of rows |
| Formats.NamePacket | prelink/picon-prelink:283-287 | the bytes of a function table with main alone: count, id, number of the flag, name and a zero byte |
| Formats.PostDominatorPacket | prelink/picon-prelink:349-360 | the bytes of one post-dominator line: count and its four numbers |
| FunctionIds.WriteFile | llvm_pass/CFI/CFI.cpp:228-245 | the text has exactly one line for each function of the file map, with its id and its flag |
| FunctionIds.ParseFctids | prelink/picon-prelink:171-178 | the dictionary of any text, signed numbers included, or none if a line is not a name, a number and a flag |
| Parsing.LastNameLine | prelink/picon-prelink:171-178 | a line is taken if and only if it has three words with a number in the middle, and it replaces an earlier one about the same name |
| FunctionIds.FctidTextRoundTrip | prelink/picon-prelink:171-178 | the script reads exactly what the pass wrote, whatever the order of the lines |
| FunctionIds.ReadNames | llvm_pass/CFI/CFI.cpp:392-402 | what reading any text with three stream extractions at a time gives, character by character, up to the first one that fails; a number ends where its digits do |
| FunctionIds.PassReadsItsFile | llvm_pass/CFI/CFI.cpp:166-177 | the next run of the pass reads exactly the file that the last one wrote |
| FunctionIds.SortedNames | prelink/picon-prelink:275-277 | all names, each once, by increasing id, and by name for the same id, as sorting the tuples does |
| FunctionIds.GenPackedFctids | prelink/picon-prelink:271-287 | the packet holds one entry per function, by increasing id and then name, with the number of its flag |
| FunctionIds.SortedEntriesAreInPlace | prelink/picon-prelink:275-285 | with ids 0 to n-1 the entry of id k is the k-th one and has the name and flag of the file map |
| FunctionIds.PackNames | llvm_pass/CFI/CFI.cpp:156-247 | file written, read and packed: exactly the functions of the map, in the order of their ids |
| PostDominators.WriteIpds | llvm_pass/CFI/CFI.cpp:492-499 | one line of four numbers per entry |
| PostDominators.ParseBBIpd | prelink/picon-prelink:212-221 | the tuples of any text, of any length, or none if a word is not a number |
| Parsing.LastIpdLine | prelink/picon-prelink:212-221 | a line is taken if and only if all its words are numbers, and becomes the last row |
| PostDominators.IpdTextRoundTrip | prelink/picon-prelink:212-221 | the table read back is the table written, line for line |
| PostDominators.GenPackedBBIpd | prelink/picon-prelink:349-360 | the packet is the count followed by the entries; none if and only if some tuple does not have four words of 32 bits |
| Pipeline.PackFunctionTable | prelink/picon-prelink:271-287 | the function table of a binary goes through its file into a packet with function k in position k |
| Pipeline.LoadNames | monitor/src/monitor_load.c:36-86 | the function table of a binary loads, with no call row and no block table yet, and the right counters |
| Pipeline.LoadCalls | prelink/picon-prelink:297-318 | call table written, parsed, packed and loaded: the call graph has an edge exactly where some block of the caller has a call of an identified name that is not ignored and has the id of the callee, unless the binary has no function at all, which is refused with error 1 |
| Pipeline.SendBlockTables | prelink/picon-prelink:129-143 | the packets are loaded one after the other, up to the first that fails |
| Pipeline.AllBlocksLoad | monitor/src/monitor_load.c:140-213 | none fails, and afterwards each function has the block table packed for it |
| Pipeline.LoadJumps | llvm_pass/CFI/CFI.cpp:359-382 | block tables written, parsed, packed and loaded: each traced function has an edge exactly for each successor in the terminator of each of its blocks |
| Pipeline.LoadDominators | monitor/src/monitor_load.c:215-251 | a post-dominator table about existing blocks loads and leaves every edge as it was, unless it has a line about a function without a block table, which is refused with error 4 |
| Pipeline.LoadBlockTables | prelink/picon-prelink:391-401 | the two control-flow tables, sent only if the file of block tables exists: status, and every function described afterwards |
| Pipeline.CompileAndLoad | prelink/picon-prelink:391-403 | the whole pipeline over one binary compiled in any number of runs at any levels: refused with error 1 if it has no function, with error 4 if block tables are sent and a post-dominator line is about a function without one; otherwise the loaded tables describe it exactly, its relocations are zero, and the run counters are its numbers of Init and Fini functions |
| Pipeline.CountIsCardinality | monitor/src/monitor_load.c:68-73 | the run counters of a binary are the numbers of its functions with the flag |
| Relocation.LoadedModules.Search | monitor/src/monitor_load.c:390-410 | the two nested loops find the resolution of a name, or nothing if no other module defines it |
| Relocation.LoadedModules.ComputeRelocations | monitor/src/monitor_load.c:379-422 | the new relocation array of the module, nothing else changed, and error 1 exactly at the first missing function when that is fatal |
| Relocation.LoadedModules.FinalRelocation | monitor/src/monitor_load.c:464-468 | returns 1 if and only if some external function has no definition in another module; otherwise every external function of every module is resolved |
| Relocation.Resolve | monitor/src/monitor_load.c:390-410 | a result is the first definition in the last other module that has one; no result means there is none |
| Relocation.ResolutionIsUnique | monitor/src/monitor_load.c:390-410 | a name has at most one resolution |
| Relocation.ExternalsGoToTheirResolution | monitor/src/monitor_load.c:405-468 | after a successful load of at most 65536 modules a call to an external function runs the non-external function of the same name in the last other module that defines it, through the packed word |
| Relocation.FinalRelocationIsIndependent | monitor/src/monitor_load.c:444-468 | whatever the provisional passes had stored, the final pass leaves the same relocations |
| Relocation.FullyRelocatedIsWellFormed | monitor/src/monitor_load.c:464-468 | square tables that are fully relocated are safe for the monitor to run on |
| Relocation.NextModuleIsSafe | monitor/src/monitor_load.c:450-461 | loading one more module and its provisional pass keep the tables safe to run on, although some externals are still unresolved |
| Linked.RelocationKeepsDescription | monitor/src/monitor_load.c:443-470 | changing relocations only leaves tables that describe the binaries |
| Linked.LoadedTablesDescribe | monitor/src/monitor_load.c:379-422 | the tables of all binaries, after the final relocation, have every edge of the program, and describe it completely if and only if each call that the linker resolves goes where flags and names of the function tables send it |
| Linked.LinkedExecutionIsAccepted | monitor/src/monitor_run.c:36-253 | on the tables that the loads and the final relocation leave, whatever the flags, an execution from an entry point is accepted if and only if every activation sends its EXIT once and is silent afterwards and every call goes where flags and names of the function tables send it |
| Linked.NextIsStaged | monitor/src/monitor_load.c:443-455 | after each provisional pass an external function holds its resolution among the modules loaded before its own, or zero if they do not define it |
| Linked.TableTarget | monitor/src/monitor_load.c:388-410 | while binaries are being loaded and afterwards, the monitor expects a call to enter exactly the function that the flags and names of the function tables name: the callee itself unless it is flagged External, and otherwise the last offer among the binaries searched, or the pair (0, 0) |
| Linked.InitExecutionIsAccepted | monitor/src/monitor_load.c:450-461 | an execution that starts in a binary already loaded is accepted, on the provisional relocations, if and only if every activation in it sends its EXIT once and is silent afterwards and every call goes where the search has sent it so far |
| Linked.SoundlyTracked | monitor/src/monitor_load.c:388-410 | with sound flags and one definition of each declared name, the calls that go where the tables send them are those that do not go through a function declared under another flag than External and, in the loading phase, stay in their binary or go to one loaded before |
| Linked.LinkerAgreesOnSoundFlags | monitor/src/monitor_load.c:388-410 | if besides all declared functions are External, the linker and the tables agree on every call |
| DeclaredMain.CallToDeclaredMainIsRefused | llvm_pass/CFI/CFI.cpp:199-201 | a destructor that calls main from a binary that only declares it makes a valid execution that leaves as it should, and it is refused on all tables loaded for the program |
| Sources.RoleInUnit | llvm_pass/CFI/CFI.cpp:404-422 | what a source module says of a name is what its function of that name says |
| Sources.ExternalIfUnsettled | llvm_pass/CFI/CFI.cpp:193-217 | a name of the file ends External if and only if it is not main and no source defines it or lists it as a constructor or destructor |
| Sources.SettledFlag | llvm_pass/CFI/CFI.cpp:193-217 | when the sources that settle a name agree, its flag is Init for a constructor, Fini for a destructor, Main for main and Internal for another definition |
| Sources.LinkedIsSource | llvm_pass/CFI/CFI.cpp:386-422 | the binary linked from compiled modules has its functions numbered without gaps, none of them ignored, and every callee identified |
| Sources.FileOfLinked | llvm_pass/CFI/CFI.cpp:156-247 | the file that the pipeline starts from is the one that the compilations leave |
| Sources.CompileSources | llvm_pass/CFI/CFIModulePass.cpp:57-75 | the pass, run on one module after the other, ends with that file |
| Sources.SourcesAreParts | llvm_pass/CFI/CFI.cpp:94-119 | the runs of the pass over the sources are what the pipeline requires: each function that the binary defines is compiled in exactly one of them |
| Sources.MadeProgramIsSound | llvm_pass/CFI/CFI.cpp:193-217 | when constructors and destructors are listed by modules that define them, the flags of a program are sound, and the only function that a binary may declare under another flag than External is main |
| CallAhead.CallAheadIsRefused | monitor/src/monitor_load.c:450-461 | an init function that calls a library loaded after its own makes a valid execution that leaves as it should, and it is refused whatever the loading phase has done |
| WholeProgram.LoadProgram | prelink/picon-prelink:391-406 | what the constructors of all binaries send: tables that describe the binary, with zero relocations and the right counters, or a failed load if the monitor refuses them, and the end of loading after each binary that lists main |
| WholeProgram.OnlyTheLastHasMain | prelink/picon-prelink:402-403 | the condition on main of the rows below means that the last binary, and no other one, defines or declares a function called main |
| WholeProgram.FinisAreCounted | monitor/src/main.c:138-147 | the runs due at the end are as many as there are functions flagged Fini in all binaries |
| WholeProgram.ClosedIsNothingMissing | monitor/src/monitor_load.c:464-468 | the final pass is stopped if and only if some binary flags a function External that no other binary offers |
| Lives.RunsOverExecutions | monitor/src/main.c:135-147 | as many runs as there are executions in the pipe read them all with status 0 if and only if each can be followed; otherwise one fails, or what is left over does not begin with ENTER, whatever comes next |
| WholeProgram.LoadingVerdict | monitor/src/monitor_load.c:443-462 | the loading phase goes over the binaries up to the first that lists main if and only if these all load and their init executions can be followed on the provisional tables of their moment; it then ends and leaves what the client could still send, or waits for ever if no binary lists main |
| WholeProgram.WithoutMainNothingEnds | prelink/picon-prelink:402-403 | if no binary lists main the loading phase never succeeds, whatever is sent, and is stuck when everything else is as it should be |
| WholeProgram.AfterLoading | monitor/src/monitor_load.c:443-470 | when the loading phase ends well, some binary lists main, and the modules are those of the binaries up to the first that does, in order, with their counters |
| WholeProgram.LifeVerdict | monitor/src/main.c:115-149 | the session over a whole life of the program ends with status 0 and an empty pipe if and only if the last binary and no other lists main, every binary loads, every External function is offered elsewhere, and every execution leaves its functions as it should and makes calls that go where the tables send them at that time |
| WholeProgram.OpenProgramExits | monitor/src/monitor_load.c:464-468 | when everything loads and some External function is offered by no other binary, the monitor process ends with status 1 and reads nothing of the program's run |
| WholeProgram.CompileAndMonitor | monitor/src/main.c:115-149 | from binaries to the end of the monitor process: after a successful load the tables are those of the binaries up to the first that lists main, and on them exactly the executions of LinkedExecutionIsAccepted are accepted; and the condition of the row above is exact for the whole session |
| WholeProgram.MadeLifeVerdict | monitor/src/main.c:115-149 | for a program made from sources whose declared names have one definition, that condition is: the last binary and no other lists main, every binary loads, every External function is offered elsewhere, every execution sends each EXIT once and is silent afterwards, and init functions call only what is already loaded |
| Handshake.Client.Notify | include/picon/injected_code.c:77-107 | an emitter sends exactly the event of its instruction, whatever the static record held before |
| Handshake.Client.NotifyJump | include/picon/injected_code.c:109-123 | the same for the two events that name a block |
| Handshake.InterleavingKeepsBalance | monitor/src/monitor_run.c:238-245 | every interleaving of client and monitor conserves answers and signals |
| Handshake.RunAheadIsBounded | monitor/src/main.c:124-135 | answers in the pipe plus answers read equal n plus signals accepted, and a client has completed at most n sends more than were accepted |
| Handshake.RunAheadIsTight | README.md:44-48 | n sends can indeed complete before anything is accepted |
| Handshake.MonitorListensToTheRun | monitor/src/monitor_run.c:82-246 | at any moment the monitor's state is that of a run over what it has acknowledged since its start |
| Handshake.RefusedSendNeverReturns | include/picon/injected_code.c:22-32 | after a refusal at most n later sends complete, ever; with n = 0 the refused send never returns |
| Handshake.ReadSignalsAreRuns | monitor/src/monitor_run.c:82-246 | in every interleaving, what the monitor has read is a number of accepted runs and then the beginning of one more, or a run refused at its last signal with the error the monitor ends with; it never reads past a refusal |
| Handshake.RefusedSignalIsNeverAnswered | include/picon/injected_code.c:22-32 | when the run over the acknowledged signals and the next one in the pipe faults or ends with an error, no later interleaving acknowledges anything more, at most n sends return beyond the acknowledged ones, and with n = 0 the client waits for ever |
| Handshake.WaitingClientIsServed | include/picon/injected_code.c:22-32 | no deadlock: while the monitor lives, a waiting client has an answer to read or the monitor can act |
| Service.EveryInterleavingFinishes | include/picon/injected_code.c:22-32 | when the monitor accepts the signals run after run, every interleaving with a client that sends them has at most n + 1 + 4 actions per signal, the monitor never refuses in it, and nothing more is possible exactly when that number is reached: the monitor has then finished and every send has returned |
| Service.CleanProgramIsServed | monitor/src/main.c:124-148 | this holds of a program and its fini functions on finally relocated tables, if each execution leaves its functions as it should and its calls go where the tables send them |
| Session.RunReadsPrefix | monitor/src/monitor_run.c:82-246 | a run that ends depends on nothing but the signals it has read |
| Session.RunsAre | monitor/src/main.c:135-147 | a number of runs reads accepted traces one after the other and ends as the first run that is not accepted does, with its status and its rest |
| Session.LoadingLogCount | monitor/src/monitor_load.c:450-461 | when each module is followed by its init runs and then the next module, the number of runs is the sum of the inits |
| Session.SessionCount | monitor/src/main.c:135-148 | a session that ends with status 0 made sum of inits + 1 + sum of finis runs |
| Session.LoadPhaseKeepsModules | monitor/src/monitor_load.c:443-462 | a loading phase that succeeds has met the end of loading, its modules are those sent but for their relocations, and its counters theirs |
| Session.NextIsLoadable | monitor/src/monitor_load.c:450-461 | when the modules to come are as the loader hands them over, at most 65536 and the first with a function, each load keeps the tables safe to run on and the rest loadable |
| Session.Monitoring.Hear | monitor/src/main.c:135 | the run ends with the error of the pure run, is stuck if that waits and crashes if that faults; it leaves what that run does not read and answers every signal read but the one that is refused |
| Session.Monitoring.RunOnce | monitor/src/main.c:135 | status and unread signals are those of one run; with status 0 it took one accepted trace and answered each of its signals |
| Session.Monitoring.RunMany | monitor/src/main.c:142-147 | a counted loop of runs stops at the first that fails; with status 0 it made all of them |
| Session.Monitoring.LoadModule | monitor/src/monitor_load.c:450-461 | the module is relocated provisionally before its init runs; with status 0 all of them were made |
| Session.Monitoring.LoadNext | monitor/src/monitor_load.c:443-462 | one turn of the loading loop: a module with its init runs, the end of loading, or a failure |
| Session.Monitoring.LoadModules | monitor/src/monitor_load.c:443-462 | modules, counters, status and unread signals after the loop; with status 0 the log is a loading phase |
| Session.Monitoring.MonitorLoad | monitor/src/monitor_load.c:443-470 | an external function without a definition is fatal only once loading is over; with status 0 all relocations are final |
| Session.Monitoring.MonitorProcess | monitor/src/main.c:115-149 | the status of the whole session, whatever happens in it; with status 0 it is a loading phase, one accepted run and one accepted run per fini, on finally relocated tables; no signal is lost, and there is one answer per signal besides the n preloaded; when the modules are loadable, every run of the session was on well-formed tables and its trace is derivable on them |
| Identification.Pass.AddIdentifiedFunction | llvm_pass/CFI/CFI.cpp:132-142 | the name gets the id, and the counter goes past it |
| Identification.Pass.IdentifyFunction | llvm_pass/CFI/CFI.cpp:121-130 | a known name keeps its id, a new one gets the next number |
| Identification.Pass.ReadFile | llvm_pass/CFI/CFI.cpp:392-402 | the counter read back is the number of functions in the file |
| Identification.Pass.IdentifyFunctions | llvm_pass/CFI/CFI.cpp:386-422 | ids and function map after one unit |
| Identification.Pass.WriteMentioned | llvm_pass/CFI/CFI.cpp:179-229 | one line for each function of the unit, with its id and merged flag |
| Identification.Pass.WriteFunctionIds | llvm_pass/CFI/CFI.cpp:156-247 | the new file: those lines, and the old lines of all other functions |
| Identification.Compile | llvm_pass/CFI/CFI.cpp:156-422 | one compilation maps the file as the specification says |
| Identification.IdsAreStable | llvm_pass/CFI/CFI.cpp:121-142 | over any sequence of compilations the ids stay 0 to n-1, one per name, and a known name keeps its id |
| Identification.TransitionIdsAreKnown | llvm_pass/CFI/CFI.cpp:317-320 | an id that any of the compilations could write to its tables is in the final file under the same name, and below the number of functions |
| Identification.FileFlagIsFinalFlag | llvm_pass/CFI/CFI.cpp:193-234 | the final flag of a name depends on the mentions of that name only |
| Identification.FlagAfterUnit | llvm_pass/CFI/CFI.cpp:193-234 | after one compilation a constructor is Init, a destructor Fini, main Main, another definition Internal, and a declaration what the file said, or External |
| Identification.OthersStay | llvm_pass/CFI/CFI.cpp:231-235 | the line of a function that the unit does not mention, or ignores, stays as it was |
| Identification.SettledFlagStaysSettled | llvm_pass/CFI/CFI.cpp:205-217 | a flag that has left External never returns to it |
| Identification.FlagMergeIsConfluent | llvm_pass/CFI/CFI.cpp:193-234 | for the mentions of one name: the final flag is the same for every permutation of the mentions if and only if those that settle it agree |
| Identification.CompilationOrderIsIrrelevant | llvm_pass/CFI/CFI.cpp:193-234 | the flag that the file gives a name is the same for every order of the compiled units if and only if the mentions of the name that settle it agree |

## Left out

- MonitorRun.MonitorRun: requires tables whose relocations name existing functions; a run during the loading phase on an unresolved external while module 0 has no function would index past the table, and has no defined result in C. The prelink step and the loader never get there: a binary without functions fails to load.
- GrowableStack.Stack.Extend: the C code does not recompute `top` and the saved pointers when `realloc` moves the array; the model uses offsets, so it covers growth in place or the intended rebasing.
- Linked.SoundlyTracked: requires that a function a binary only declares is defined in at most one other binary; with several definitions the monitor takes the last binary, and what the dynamic linker takes is outside Picon. The rows on executions do not require it.
- Relocation.LoadedModules.FinalRelocation: promises full relocation for at most 65536 modules; beyond that module ids are truncated to 16 bits.
- Identification.Compile: works on the map that the `.fctid` file holds; `FunctionIds` proves that its text is read back exactly, by the pass and by the prelink script.
- Session.Monitoring.MonitorLoad: modules arrive as loaded values, because the packets are the matter of `Loader`; runs use the pure run function, which `MonitorRun.MonitorRun` is proved to compute on well-formed tables; `Session.Monitoring.MonitorProcess` says when every run is on such tables.
- WholeProgram.CompileAndMonitor: requires at most 65536 binaries, because a module id has 16 bits, and the conditions of `Pipeline.CompileAndLoad`; the binaries are in the order in which their constructors run, and a constructor that waits for its module id sends nothing more.
- Sources.MadeProgramIsSound: does not cover modules that list a function they only declare as a constructor or destructor; `WholeProgram.LifeVerdict` does.
- Sources.SourcesAreParts: requires that no name has a body in two sources of a binary; the linker refuses such sources, except for names it may merge.
- Session.Monitoring.RunOnce: runs the pure run function, because that the tables are safe is known in the proof only; `MonitorRun.MonitorRun` computes it.
- Execution.SameActivations: executions are finite trees, so a program that does not terminate is covered through its finished calls only.
- Pipes are FIFO sequences with atomic messages that never fail; failed reads and writes, timeouts, signals and `kill` are not modelled.
- Allocation failures and the code paths after them, and `monitor_data_free`.
- Fork, exec, environment variables, and the start-up of the client.
- Calls to ignored functions are not recorded by the pass and are not part of executions; indirect calls and invoke instructions abort the pass.
- Pipeline.CompileAndLoad: requires that each function is defined in exactly one run of the pass, because the prelink parser keeps only the last row for a caller, that names are single words, because the files are read word by word, and that a binary has at most 2^31 functions, because writeCallgraph keeps ids in signed ints.
- LLVM's own analyses: post-dominators are an arbitrary table about existing blocks, and constructor and destructor lists and annotations are inputs.
- The C literals and templates that carry the packed bytes, the dot printer, logging, and the build.

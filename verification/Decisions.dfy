/**
 Which signals the monitor accepts, with which error it refuses the others, and when tracing pushes a
 block, read off the tables themselves.
 */
module Decisions {
  import opened MonitorTables
  import opened MonitorSpec
  import opened RunInvariant

  /** The signal names the function that is being executed. */
  predicate NamesActive(st: State, sig: Signal) {
    sig.mod == st.mod && sig.fn == st.fn
  }

  /** The active function calls the local function g. */
  predicate MayCall(data: MonitorData, st: State, g: nat) {
    && st.mod < |data| && g < |data[st.mod].functions| && st.fn < |data[st.mod].callGraph|
    && var row := data[st.mod].callGraph[st.fn];
    row.Some? && g < |row.value| && row.value[g]
  }

  /** The active function has a branch from its current block to block b. */
  predicate MayJump(data: MonitorData, st: State, b: nat) {
    && st.mod < |data| && st.fn < |data[st.mod].functions|
    && var fd := data[st.mod].functions[st.fn];
    && b < fd.nbBlocks && st.curblock < |fd.controlFlowGraph|
    && var row := fd.controlFlowGraph[st.curblock];
    row.Some? && b < |row.value| && row.value[b]
  }

  predicate MayStart(data: MonitorData, sig: Signal) {
    && sig.mod < |data| && sig.fn < |data[sig.mod].functions|
    && data[sig.mod].functions[sig.fn].flags in {Main, Init, Fini}
  }

  /** What is accepted in a reachable state, besides the last EXIT. */
  predicate Allowed(data: MonitorData, st: State, sig: Signal) {
    match sig.event
    case BeforeJump => st.phase == InFunction && NamesActive(st, sig) && sig.block == st.curblock
    case AfterJump => st.phase == ExpectJump && NamesActive(st, sig) && MayJump(data, st, sig.block)
    case Call => st.phase == InFunction && MayCall(data, st, sig.fn)
    case Enter => if st.phase == Ready then MayStart(data, sig) else st.phase == ExpectCall && NamesActive(st, sig)
    case Exit => st.phase == InFunction && NamesActive(st, sig) && st.calls != []
    case Returned => st.phase == ExpectReturn && MayCall(data, st, sig.fn)
    case Malformed => false
  }

  /** A run goes on exactly with the signals allowed. */
  lemma {:induction false} GoesOnExactlyIfAllowed(data: MonitorData, trace: bool, st: State, sig: Signal)
    requires WellFormed(data) && Reachable(data, trace, st)
    ensures Step(data, trace, st, sig).Running? <==> Allowed(data, st, sig)
  {
    ReachableHasInv(data, trace, st);
    InvFaultsOnMissingRows(data, trace, st, sig);
    InvIsInBounds(data, trace, st);
  }

  /** It ends with success at the EXIT of the outermost function, with 5 at a signal that is none, with 6
      and 7 at a first ENTER of a module that does not exist and of a function that is no entry point,
      and with 4 at everything else that is not allowed and can be decided. */
  lemma {:induction false} ErrorCodes(data: MonitorData, trace: bool, st: State, sig: Signal)
    requires WellFormed(data) && Reachable(data, trace, st)
    ensures Step(data, trace, st, sig) == Stopped(0) <==>
            sig.event == Exit && st.phase == InFunction && NamesActive(st, sig) && st.calls == []
    ensures Step(data, trace, st, sig) == Stopped(5) <==> sig.event == Malformed
    ensures Step(data, trace, st, sig) == Stopped(6) <==>
            sig.event == Enter && st.phase == Ready && sig.mod >= |data|
    ensures Step(data, trace, st, sig) == Stopped(7) <==>
            sig.event == Enter && st.phase == Ready && sig.mod < |data| && !MayStart(data, sig)
    ensures Step(data, trace, st, sig).Stopped? ==> Step(data, trace, st, sig).error in {0, 4, 5, 6, 7}
  {
    ReachableHasInv(data, trace, st);
    InvFaultsOnMissingRows(data, trace, st, sig);
    InvIsInBounds(data, trace, st);
    Error7IsFirstEnterOnly(data, trace, st, sig);
  }

  /** With tracing, exactly an AFTER_JUMP to the post-dominator of the last block of the chain makes that
      block the new last one; the one before goes onto the stack. */
  lemma {:induction false} AfterJumpPushes(data: MonitorData, trace: bool, st: State, sig: Signal)
    requires WellFormed(data) && Reachable(data, trace, st) && sig.event == AfterJump
    requires Step(data, trace, st, sig).Running?
    ensures HasFunction(data, st.mod, st.fn)
    ensures var next, ipd := Step(data, trace, st, sig).st, data[st.mod].functions[st.fn].immediatePostDominator;
            && (next.curblock, next.mod, next.fn, next.calls) == (sig.block, st.mod, st.fn, st.calls)
            && if trace && st.topblock < |ipd| && ipd[st.topblock] == sig.block then
                 next.blocks == st.blocks + [st.topblock] && next.topblock == sig.block
               else
                 next.blocks == st.blocks && next.topblock == st.topblock
  {
    ReachableHasInv(data, trace, st);
  }

  /** Every accepted stream starts with the ENTER of a function flagged Main, Init or Fini. */
  lemma {:induction false} AcceptedStartsAtEntryPoint(data: MonitorData, trace: bool, sigs: seq<Signal>)
    requires Accepts(data, trace, sigs)
    ensures sigs != [] && sigs[0].event == Enter
    ensures sigs[0].mod < |data| && sigs[0].fn < |data[sigs[0].mod].functions|
    ensures data[sigs[0].mod].functions[sigs[0].fn].flags in {Main, Init, Fini}
  {
  }
}

/**
 The language of signals the monitor accepts, as a grammar that mentions no stack and no phase:

   run  ::=  ENTER(function flagged Main, Init or Fini)  body  EXIT
   body ::=  (nothing)
          |  BEFORE_JUMP  AFTER_JUMP  body                        along a control-flow edge
          |  CALL  ENTER(target)  body  EXIT  RETURNED  body      along call edges

 A derivation records the signals it yields, because several signal fields are read by nobody.
 */
module TraceLanguage {
  import opened MonitorTables
  import opened MonitorSpec

  datatype Body =
    | Leave
    | Jump(before: Signal, after: Signal, rest: Body)
    | Nest(call: Signal, enter: Signal, inner: Body, exit: Signal, returned: Signal, rest: Body)

  datatype Derivation = Derivation(enter: Signal, body: Body, exit: Signal)

  predicate IsAt(sig: Signal, event: Event, m: nat, f: nat) {
    sig.event == event && sig.mod == m && sig.fn == f
  }

  /** body is what function f of module m may emit from its block b on. */
  predicate LegalBody(data: MonitorData, m: nat, f: nat, b: nat, body: Body)
    requires RelocationsReadable(data)
    decreases body
  {
    match body
    case Leave => true
    case Jump(before, after, rest) =>
      && IsAt(before, BeforeJump, m, f) && before.block == b
      && IsAt(after, AfterJump, m, f) && JumpEdge(data, m, f, b, after.block)
      && LegalBody(data, m, f, after.block, rest)
    case Nest(call, enter, inner, exit, returned, rest) =>
      && call.event == Call && CallEdge(data, m, f, call.fn)
      && var (m', f') := Target(data, m, call.fn);
      && IsAt(enter, Enter, m', f')
      && LegalBody(data, m', f', FUNCTION_ENTRY_BLOCK_ID, inner)
      && IsAt(exit, Exit, m', f')
      && returned.event == Returned && CallEdge(data, m, f, returned.fn)
      && LegalBody(data, m, f, b, rest)
  }

  /** Weak enough to be decided, and implied by WellFormed. */
  predicate RelocationsReadable(data: MonitorData) {
    forall m | 0 <= m < |data| :: |data[m].relocations| == |data[m].functions|
  }

  predicate LegalRun(data: MonitorData, d: Derivation)
    requires RelocationsReadable(data)
  {
    && d.enter.event == Enter && HasFunction(data, d.enter.mod, d.enter.fn)
    && data[d.enter.mod].functions[d.enter.fn].flags in {Main, Init, Fini}
    && LegalBody(data, d.enter.mod, d.enter.fn, FUNCTION_ENTRY_BLOCK_ID, d.body)
    && IsAt(d.exit, Exit, d.enter.mod, d.enter.fn)
  }

  function Yield(body: Body): seq<Signal> {
    match body
    case Leave => []
    case Jump(before, after, rest) => [before, after] + Yield(rest)
    case Nest(call, enter, inner, exit, returned, rest) =>
      [call, enter] + Yield(inner) + [exit, returned] + Yield(rest)
  }

  function YieldRun(d: Derivation): seq<Signal> {
    [d.enter] + Yield(d.body) + [d.exit]
  }

  // ----- From derivations to accepted runs

  /** A monitor state from which a function body can be read. */
  ghost predicate InBody(data: MonitorData, trace: bool, st: State) {
    && st.phase == InFunction
    && HasFunction(data, st.mod, st.fn)
    && (st.topblock == 0 || st.topblock < data[st.mod].functions[st.fn].nbBlocks)
    && (!trace ==> st.topblock == 0)
  }

  /** Nothing of the frame below has been touched. */
  ghost predicate SameFrame(st: State, next: State) {
    && next.mod == st.mod && next.fn == st.fn && next.calls == st.calls
    && |st.blocks| <= |next.blocks| && next.blocks[..|st.blocks|] == st.blocks
  }

  lemma {:induction false} JumpStep(data: MonitorData, trace: bool, st: State, before: Signal, after: Signal)
    returns (next: State)
    requires WellFormed(data) && InBody(data, trace, st)
    requires IsAt(before, BeforeJump, st.mod, st.fn) && before.block == st.curblock
    requires IsAt(after, AfterJump, st.mod, st.fn) && JumpEdge(data, st.mod, st.fn, st.curblock, after.block)
    ensures forall more :: Run(data, trace, st, [before, after] + more) == Run(data, trace, next, more)
    ensures InBody(data, trace, next) && SameFrame(st, next) && next.curblock == after.block
  {
    var mid := Step(data, trace, st, before).st;
    next := Step(data, trace, mid, after).st;
    forall more ensures Run(data, trace, st, [before, after] + more) == Run(data, trace, next, more) {
      assert [before, after] + more == [before] + ([after] + more);
      RunOne(data, trace, st, before, [after] + more);
      RunOne(data, trace, mid, after, more);
    }
  }

  /** CALL and ENTER open a frame from which the caller's state can be rebuilt entirely. */
  lemma {:induction false} OpenFrame(data: MonitorData, trace: bool, st: State, call: Signal, enter: Signal)
    returns (next: State)
    requires WellFormed(data) && InBody(data, trace, st)
    requires call.event == Call && CallEdge(data, st.mod, st.fn, call.fn)
    requires var (m, f) := Target(data, st.mod, call.fn); IsAt(enter, Enter, m, f)
    ensures forall more :: Run(data, trace, st, [call, enter] + more) == Run(data, trace, next, more)
    ensures InBody(data, trace, next) && next.curblock == 0 && (next.mod, next.fn) == Target(data, st.mod, call.fn)
    ensures next.blocks == st.blocks + Saved(trace, st)
    ensures next.calls == st.calls + [Frame(st.mod, st.fn, |next.blocks|)]
  {
    TargetExists(data, st.mod, call.fn);
    var mid := Step(data, trace, st, call).st;
    next := Step(data, trace, mid, enter).st;
    forall more ensures Run(data, trace, st, [call, enter] + more) == Run(data, trace, next, more) {
      assert [call, enter] + more == [call] + ([enter] + more);
      RunOne(data, trace, st, call, [enter] + more);
      RunOne(data, trace, mid, enter, more);
    }
  }

  /** EXIT restores what CALL saved, whatever the callee pushed in between. */
  lemma {:induction false} CloseFrame(data: MonitorData, trace: bool, st: State, callee: State, end: State,
                                      exit: Signal)
    requires InBody(data, trace, st)
    requires callee.blocks == st.blocks + Saved(trace, st)
    requires callee.calls == st.calls + [Frame(st.mod, st.fn, |callee.blocks|)]
    requires InBody(data, trace, end) && SameFrame(callee, end)
    requires IsAt(exit, Exit, end.mod, end.fn)
    ensures Step(data, trace, end, exit) == Running(st.(phase := ExpectReturn))
  {
    var h := |st.blocks|;
    var sp := |callee.blocks|;
    assert end.calls[..|end.calls| - 1] == st.calls;
    assert end.blocks[..h] == end.blocks[..sp][..h] == st.blocks;
    assert end.blocks[sp - 1] == end.blocks[..sp][sp - 1] == st.curblock;
    if trace {
      assert end.blocks[sp - 2] == end.blocks[..sp][sp - 2] == st.topblock;
    }
  }

  /** Reading a legal body never fails, never ends the run and leaves the frames below as they were. */
  lemma {:induction false} BodyRuns(data: MonitorData, trace: bool, st: State, body: Body) returns (end: State)
    requires WellFormed(data) && InBody(data, trace, st)
    requires LegalBody(data, st.mod, st.fn, st.curblock, body)
    ensures Run(data, trace, st, Yield(body)) == Waiting(end)
    ensures InBody(data, trace, end) && SameFrame(st, end)
    decreases body
  {
    match body
    case Leave =>
      end := st;
    case Jump(before, after, rest) =>
      var next := JumpStep(data, trace, st, before, after);
      end := BodyRuns(data, trace, next, rest);
      assert end.blocks[..|st.blocks|] == end.blocks[..|next.blocks|][..|st.blocks|];
    case Nest(call, enter, inner, exit, returned, rest) =>
      NestRuns(data, trace, st, body);
      var group := [call, enter] + Yield(inner) + [exit, returned];
      assert Yield(body) == group + Yield(rest);
      RunAppend(data, trace, st, group, Yield(rest));
      end := BodyRuns(data, trace, st, rest);
  }

  /** A whole call, CALL to RETURNED, leaves the monitor's state exactly as it was: module,
      function, both blocks, call stack and block stack, in both modes. */
  lemma {:induction false} NestRuns(data: MonitorData, trace: bool, st: State, nest: Body)
    requires WellFormed(data) && InBody(data, trace, st)
    requires nest.Nest? && LegalBody(data, st.mod, st.fn, st.curblock, nest)
    ensures Run(data, trace, st, [nest.call, nest.enter] + Yield(nest.inner) + [nest.exit]) ==
            Waiting(st.(phase := ExpectReturn))
    ensures Run(data, trace, st, [nest.call, nest.enter] + Yield(nest.inner) + [nest.exit, nest.returned]) ==
            Waiting(st)
    decreases nest, 0
  {
    var Nest(call, enter, inner, exit, returned, rest) := nest;
    var callee := OpenFrame(data, trace, st, call, enter);
    var end := BodyRuns(data, trace, callee, inner);
    CloseFrame(data, trace, st, callee, end, exit);
    var prefix := [call, enter] + Yield(inner) + [exit];
    assert prefix == [call, enter] + (Yield(inner) + [exit]);
    RunAppend(data, trace, callee, Yield(inner), [exit]);
    assert [exit] + [] == [exit];
    RunOne(data, trace, end, exit, []);
    RunAppend(data, trace, st, prefix, [returned]);
    assert prefix + [returned] == [call, enter] + Yield(inner) + [exit, returned];
    assert [returned] + [] == [returned];
    RunOne(data, trace, st.(phase := ExpectReturn), returned, []);
  }

  /** Completeness: every derivable sequence of signals is accepted, in both modes. */
  lemma {:induction false} DerivableIsAccepted(data: MonitorData, trace: bool, d: Derivation)
    requires WellFormed(data) && LegalRun(data, d)
    ensures Accepts(data, trace, YieldRun(d))
  {
    var st := Step(data, trace, INITIAL, d.enter).st;
    var end := BodyRuns(data, trace, st, d.body);
    assert YieldRun(d) == [d.enter] + (Yield(d.body) + [d.exit]);
    RunOne(data, trace, INITIAL, d.enter, Yield(d.body) + [d.exit]);
    RunAppend(data, trace, st, Yield(d.body), [d.exit]);
    assert [d.exit] + [] == [d.exit];
    RunOne(data, trace, end, d.exit, []);
  }

  // ----- From accepted runs to derivations

  /** The part of an accepted stream that a function body consumed, up to its own EXIT. */
  lemma {:induction false} ParseBody(data: MonitorData, trace: bool, st: State, sigs: seq<Signal>)
    returns (body: Body, exit: Signal, rest: seq<Signal>)
    requires WellFormed(data) && InBody(data, trace, st)
    requires Run(data, trace, st, sigs) == Ended(0, [])
    ensures LegalBody(data, st.mod, st.fn, st.curblock, body)
    ensures IsAt(exit, Exit, st.mod, st.fn)
    ensures sigs == Yield(body) + [exit] + rest
    ensures st.calls == [] ==> rest == []
    decreases |sigs|
  {
    match sigs[0].event
    case BeforeJump =>
      var before, after, next, more := ParseBranch(data, trace, st, sigs);
      var tailBody;
      tailBody, exit, rest := ParseBody(data, trace, next, more);
      body := Jump(before, after, tailBody);
      JumpYield(body, exit, rest);
    case Call =>
      body, exit, rest := ParseCall(data, trace, st, sigs);
    case Exit =>
      body, exit, rest := Leave, sigs[0], sigs[1..];
    case _ =>
      assert false;
  }

  /** An accepted stream that starts with BEFORE_JUMP goes on with AFTER_JUMP along an edge. */
  lemma {:induction false} ParseBranch(data: MonitorData, trace: bool, st: State, sigs: seq<Signal>)
    returns (before: Signal, after: Signal, next: State, more: seq<Signal>)
    requires WellFormed(data) && InBody(data, trace, st)
    requires Run(data, trace, st, sigs) == Ended(0, [])
    requires sigs[0].event == BeforeJump
    ensures sigs == [before, after] + more
    ensures IsAt(before, BeforeJump, st.mod, st.fn) && before.block == st.curblock
    ensures IsAt(after, AfterJump, st.mod, st.fn) && JumpEdge(data, st.mod, st.fn, st.curblock, after.block)
    ensures InBody(data, trace, next) && SameFrame(st, next) && next.curblock == after.block
    ensures Run(data, trace, next, more) == Ended(0, [])
  {
    before := sigs[0];
    assert sigs == [before] + sigs[1..];
    RunOne(data, trace, st, before, sigs[1..]);
    after, more := sigs[1], sigs[2..];
    assert sigs[1..] == [after] + more;
    RunOne(data, trace, st.(phase := ExpectJump), after, more);
    assert sigs == [before, after] + more;
    next := JumpStep(data, trace, st, before, after);
  }

  lemma {:induction false} ParseCall(data: MonitorData, trace: bool, st: State, sigs: seq<Signal>)
    returns (body: Body, exit: Signal, rest: seq<Signal>)
    requires WellFormed(data) && InBody(data, trace, st)
    requires Run(data, trace, st, sigs) == Ended(0, [])
    requires sigs[0].event == Call
    ensures LegalBody(data, st.mod, st.fn, st.curblock, body)
    ensures IsAt(exit, Exit, st.mod, st.fn)
    ensures sigs == Yield(body) + [exit] + rest
    ensures st.calls == [] ==> rest == []
    decreases |sigs|, 0
  {
    var call, enter, callee, more := ParseOpening(data, trace, st, sigs);
    var inner, innerExit, afterInner := ParseBody(data, trace, callee, more);
    var returned, final := ParseClosing(data, trace, st, callee, inner, innerExit, afterInner);
    var tailBody;
    tailBody, exit, rest := ParseBody(data, trace, st, final);
    body := Nest(call, enter, inner, innerExit, returned, tailBody);
    NestYield(body, exit, rest);
  }

  lemma {:induction false} NestYield(nest: Body, exit: Signal, rest: seq<Signal>)
    requires nest.Nest?
    ensures Yield(nest) + [exit] + rest ==
            [nest.call, nest.enter] +
            (Yield(nest.inner) + [nest.exit] + ([nest.returned] + (Yield(nest.rest) + [exit] + rest)))
  {
  }

  /** An accepted stream that starts with CALL goes on with the ENTER of its target. */
  lemma {:induction false} ParseOpening(data: MonitorData, trace: bool, st: State, sigs: seq<Signal>)
    returns (call: Signal, enter: Signal, callee: State, more: seq<Signal>)
    requires WellFormed(data) && InBody(data, trace, st)
    requires Run(data, trace, st, sigs) == Ended(0, [])
    requires sigs[0].event == Call
    ensures sigs == [call, enter] + more
    ensures call.event == Call && CallEdge(data, st.mod, st.fn, call.fn)
    ensures var (m, f) := Target(data, st.mod, call.fn); IsAt(enter, Enter, m, f)
    ensures (callee.mod, callee.fn) == Target(data, st.mod, call.fn)
    ensures InBody(data, trace, callee) && callee.curblock == FUNCTION_ENTRY_BLOCK_ID
    ensures callee.blocks == st.blocks + Saved(trace, st)
    ensures callee.calls == st.calls + [Frame(st.mod, st.fn, |callee.blocks|)]
    ensures Run(data, trace, callee, more) == Ended(0, [])
  {
    call := sigs[0];
    assert sigs == [call] + sigs[1..];
    RunOne(data, trace, st, call, sigs[1..]);
    var called := Step(data, trace, st, call).st;
    TargetExists(data, st.mod, call.fn);
    enter, more := sigs[1], sigs[2..];
    assert sigs[1..] == [enter] + more;
    RunOne(data, trace, called, enter, more);
    assert sigs == [call, enter] + more;
    callee := OpenFrame(data, trace, st, call, enter);
  }

  /** After the callee's EXIT, an accepted stream goes on with RETURNED, in the caller's own state. */
  lemma {:induction false} ParseClosing(data: MonitorData, trace: bool, st: State, callee: State,
                     inner: Body, exit: Signal, afterInner: seq<Signal>)
    returns (returned: Signal, final: seq<Signal>)
    requires WellFormed(data) && InBody(data, trace, st) && InBody(data, trace, callee)
    requires callee.blocks == st.blocks + Saved(trace, st)
    requires callee.calls == st.calls + [Frame(st.mod, st.fn, |callee.blocks|)]
    requires LegalBody(data, callee.mod, callee.fn, callee.curblock, inner)
    requires IsAt(exit, Exit, callee.mod, callee.fn)
    requires Run(data, trace, callee, Yield(inner) + [exit] + afterInner) == Ended(0, [])
    ensures afterInner == [returned] + final
    ensures returned.event == Returned && CallEdge(data, st.mod, st.fn, returned.fn)
    ensures Run(data, trace, st, final) == Ended(0, [])
  {
    var end := BodyRuns(data, trace, callee, inner);
    CloseFrame(data, trace, st, callee, end, exit);
    var restored := st.(phase := ExpectReturn);
    RunToExit(data, trace, callee, inner, end, exit, restored, afterInner);
    returned, final := ParseReturned(data, trace, st, afterInner);
  }

  lemma {:induction false} ParseReturned(data: MonitorData, trace: bool, st: State, sigs: seq<Signal>)
    returns (returned: Signal, final: seq<Signal>)
    requires InBody(data, trace, st) && Run(data, trace, st.(phase := ExpectReturn), sigs) == Ended(0, [])
    ensures sigs == [returned] + final
    ensures returned.event == Returned && CallEdge(data, st.mod, st.fn, returned.fn)
    ensures Run(data, trace, st, final) == Ended(0, [])
  {
    var restored := st.(phase := ExpectReturn);
    returned, final := sigs[0], sigs[1..];
    assert Step(data, trace, restored, returned) == Running(st);
  }

  lemma {:induction false} RunToExit(data: MonitorData, trace: bool, callee: State, inner: Body, end: State,
                                     exit: Signal, restored: State, more: seq<Signal>)
    requires Run(data, trace, callee, Yield(inner)) == Waiting(end)
    requires Step(data, trace, end, exit) == Running(restored)
    ensures Run(data, trace, callee, Yield(inner) + [exit] + more) == Run(data, trace, restored, more)
  {
    assert Yield(inner) + [exit] + more == Yield(inner) + ([exit] + more);
    RunAppend(data, trace, callee, Yield(inner), [exit] + more);
    RunOne(data, trace, end, exit, more);
  }

  /** Soundness: every accepted sequence of signals is derivable. */
  lemma {:induction false} AcceptedIsDerivable(data: MonitorData, trace: bool, sigs: seq<Signal>)
    returns (d: Derivation)
    requires WellFormed(data) && Accepts(data, trace, sigs)
    ensures LegalRun(data, d) && YieldRun(d) == sigs
  {
    var enter, tail := sigs[0], sigs[1..];
    var st := Step(data, trace, INITIAL, enter).st;
    var body, exit, rest := ParseBody(data, trace, st, tail);
    d := Derivation(enter, body, exit);
  }

  ghost predicate Derivable(data: MonitorData, sigs: seq<Signal>)
    requires RelocationsReadable(data)
  {
    exists d :: LegalRun(data, d) && YieldRun(d) == sigs
  }

  /** The monitor accepts exactly the language of the grammar, at any nesting depth, in both modes. */
  lemma {:induction false} ExactLanguage(data: MonitorData, trace: bool, sigs: seq<Signal>)
    requires WellFormed(data)
    ensures Accepts(data, trace, sigs) <==> Derivable(data, sigs)
  {
    if Accepts(data, trace, sigs) {
      var d := AcceptedIsDerivable(data, trace, sigs);
    }
    if Derivable(data, sigs) {
      var d :| LegalRun(data, d) && YieldRun(d) == sigs;
      DerivableIsAccepted(data, trace, d);
    }
  }

  // ----- The grammar is unambiguous

  /** Each signal carries the event its place in the derivation calls for. */
  predicate Labelled(body: Body) {
    match body
    case Leave => true
    case Jump(before, after, rest) => before.event == BeforeJump && after.event == AfterJump && Labelled(rest)
    case Nest(call, enter, inner, exit, returned, rest) =>
      && call.event == Call && enter.event == Enter && exit.event == Exit && returned.event == Returned
      && Labelled(inner) && Labelled(rest)
  }

  lemma {:induction false} SameYieldSameBody(a: Body, x: Signal, r: seq<Signal>, b: Body, y: Signal, s: seq<Signal>)
    requires Labelled(a) && Labelled(b) && x.event == Exit && y.event == Exit
    requires Yield(a) + [x] + r == Yield(b) + [y] + s
    ensures a == b && x == y && r == s
    decreases a
  {
    assert (Yield(a) + [x] + r)[0] == (Yield(b) + [y] + s)[0];
    match a
    case Leave =>
      assert b.Leave?;
      assert Yield(a) + [x] + r == [x] + r && Yield(b) + [y] + s == [y] + s;
      SplitAfter([x], r, [y], s);
    case Jump(before, after, rest) =>
      assert b.Jump?;
      JumpYield(a, x, r);
      JumpYield(b, y, s);
      SplitAfter([before, after], Yield(rest) + [x] + r, [b.before, b.after], Yield(b.rest) + [y] + s);
      SameYieldSameBody(rest, x, r, b.rest, y, s);
    case Nest(call, enter, inner, exit, returned, rest) =>
      assert b.Nest?;
      NestYield(a, x, r);
      NestYield(b, y, s);
      var ra := [returned] + (Yield(rest) + [x] + r);
      var rb := [b.returned] + (Yield(b.rest) + [y] + s);
      SplitAfter([call, enter], Yield(inner) + [exit] + ra, [b.call, b.enter], Yield(b.inner) + [b.exit] + rb);
      SameYieldSameBody(inner, exit, ra, b.inner, b.exit, rb);
      SplitAfter([returned], Yield(rest) + [x] + r, [b.returned], Yield(b.rest) + [y] + s);
      SameYieldSameBody(rest, x, r, b.rest, y, s);
  }

  lemma {:induction false} JumpYield(jump: Body, exit: Signal, rest: seq<Signal>)
    requires jump.Jump?
    ensures Yield(jump) + [exit] + rest == [jump.before, jump.after] + (Yield(jump.rest) + [exit] + rest)
  {
  }

  lemma {:induction false} SplitAfter(p: seq<Signal>, u: seq<Signal>, q: seq<Signal>, v: seq<Signal>)
    requires |p| == |q| && |p| in {1, 2} && p + u == q + v
    ensures u == v && p[0] == q[0] && (|p| == 2 ==> p[1] == q[1])
  {
    assert (p + u)[..|p|] == p && (q + v)[..|p|] == q;
    assert (p + u)[|p|..] == u && (q + v)[|p|..] == v;
  }

  lemma {:induction false} LegalIsLabelled(data: MonitorData, m: nat, f: nat, b: nat, body: Body)
    requires RelocationsReadable(data) && LegalBody(data, m, f, b, body)
    ensures Labelled(body)
    decreases body
  {
    match body
    case Leave =>
    case Jump(before, after, rest) => LegalIsLabelled(data, m, f, after.block, rest);
    case Nest(call, enter, inner, exit, returned, rest) =>
      var (m', f') := Target(data, m, call.fn);
      LegalIsLabelled(data, m', f', FUNCTION_ENTRY_BLOCK_ID, inner);
      LegalIsLabelled(data, m, f, b, rest);
  }

  /** An accepted run was made by one nesting of calls and jumps only. */
  lemma {:induction false} DerivationIsUnique(data: MonitorData, d: Derivation, e: Derivation)
    requires RelocationsReadable(data) && LegalRun(data, d) && LegalRun(data, e)
    requires YieldRun(d) == YieldRun(e)
    ensures d == e
  {
    LegalIsLabelled(data, d.enter.mod, d.enter.fn, FUNCTION_ENTRY_BLOCK_ID, d.body);
    LegalIsLabelled(data, e.enter.mod, e.enter.fn, FUNCTION_ENTRY_BLOCK_ID, e.body);
    assert YieldRun(d)[0] == YieldRun(e)[0];
    assert Yield(d.body) + [d.exit] + [] == YieldRun(d)[1..] == YieldRun(e)[1..] == Yield(e.body) + [e.exit] + [];
    SameYieldSameBody(d.body, d.exit, [], e.body, e.exit, []);
  }
}

/**
 What the block stack holds after any run, computed from the signals alone: the greedy post-dominator
 chain of each activation that has not left, over the blocks it has visited.
 */
module BlockStacks {
  import opened MonitorTables
  import opened MonitorSpec

  // ----- The blocks that the activations have visited

  /** The activations that have not left, outermost first, each with the blocks it has visited. */
  function Visit(visited: seq<seq<nat>>, sig: Signal): seq<seq<nat>> {
    var n := |visited| - 1;
    match sig.event
    case Enter => if visited == [] then [[0]] else visited
    case Call => visited + [[0]]
    case AfterJump => if visited == [] then [] else visited[..n] + [visited[n] + [sig.block]]
    case Exit => if visited == [] then [] else visited[..n]
    case _ => visited
  }

  function Visited(sigs: seq<Signal>): seq<seq<nat>> {
    if sigs == [] then [] else Visit(Visited(sigs[..|sigs| - 1]), sigs[|sigs| - 1])
  }

  function LastOf(blocks: seq<nat>): nat {
    if blocks == [] then 0 else blocks[|blocks| - 1]
  }

  /** The greedy chain through some blocks: from the first on, the next block that is the recorded
      post-dominator of the last one of the chain. */
  function Greedy(ipd: seq<nat>, blocks: seq<nat>): (chain: seq<nat>)
    ensures chain != []
  {
    if |blocks| <= 1 then [LastOf(blocks)]
    else
      var n := |blocks| - 1;
      var chain := Greedy(ipd, blocks[..n]);
      var top := chain[|chain| - 1];
      if top < |ipd| && ipd[top] == blocks[n] then chain + [blocks[n]] else chain
  }

  function Dominators(data: MonitorData, m: nat, f: nat): seq<nat> {
    if HasFunction(data, m, f) then data[m].functions[f].immediatePostDominator else []
  }

  /** What a suspended activation leaves on the stack: with tracing its chain, then its last block. */
  function Suspended(data: MonitorData, trace: bool, frame: Frame, blocks: seq<nat>): seq<nat> {
    (if trace then Greedy(Dominators(data, frame.mod, frame.fn), blocks) else []) + [LastOf(blocks)]
  }

  /** The activations but the last are suspended. */
  function Stacked(data: MonitorData, trace: bool, calls: seq<Frame>, visited: seq<seq<nat>>): seq<nat>
    requires |calls| <= |visited|
    decreases |calls|
  {
    if calls == [] then []
    else
      var n := |calls| - 1;
      Stacked(data, trace, calls[..n], visited[..n]) + Suspended(data, trace, calls[n], visited[n])
  }

  predicate HeightIs(data: MonitorData, trace: bool, calls: seq<Frame>, visited: seq<seq<nat>>, i: nat)
    requires i < |calls| <= |visited|
  {
    calls[i].sp == |Stacked(data, trace, calls[..i + 1], visited[..i + 1])|
  }

  /** Each saved height is that of the stack when the frame was saved. */
  ghost predicate HeightsAre(data: MonitorData, trace: bool, calls: seq<Frame>, visited: seq<seq<nat>>)
    requires |calls| <= |visited|
  {
    forall i | 0 <= i < |calls| :: HeightIs(data, trace, calls, visited, i)
  }

  /** The state is what the visited blocks say. */
  ghost predicate HoldsVisited(data: MonitorData, trace: bool, st: State, visited: seq<seq<nat>>) {
    if st.phase == Ready then visited == [] && st == INITIAL
    else
      && |visited| == |st.calls| + 1 && (forall i | 0 <= i < |visited| :: visited[i] != [])
      && HeightsAre(data, trace, st.calls, visited)
      && var active := visited[|st.calls|];
      && st.curblock == LastOf(active)
      && if trace then
           st.blocks + [st.topblock] ==
           Stacked(data, trace, st.calls, visited) + Greedy(Dominators(data, st.mod, st.fn), active)
         else
           st.blocks == Stacked(data, trace, st.calls, visited) && st.topblock == 0
  }

  // ----- Every accepted signal keeps it

  /** The suspended activations are the same if the frames are and the blocks of the others are. */
  lemma {:induction false} SameStacked(data: MonitorData, trace: bool, calls: seq<Frame>, a: seq<seq<nat>>,
                                       b: seq<seq<nat>>)
    requires |calls| <= |a| && |calls| <= |b| && a[..|calls|] == b[..|calls|]
    ensures Stacked(data, trace, calls, a) == Stacked(data, trace, calls, b)
    ensures HeightsAre(data, trace, calls, a) ==> HeightsAre(data, trace, calls, b)
  {
    if calls != [] {
      var n := |calls| - 1;
      assert a[n] == a[..|calls|][n] && b[n] == b[..|calls|][n];
      assert a[..n] == a[..|calls|][..n] && b[..n] == b[..|calls|][..n];
    }
    forall i | 0 <= i < |calls| ensures HeightIs(data, trace, calls, a, i) <==> HeightIs(data, trace, calls, b, i) {
      SameStart(a, b, |calls|, i + 1);
    }
  }

  lemma {:induction false} SameStart(a: seq<seq<nat>>, b: seq<seq<nat>>, n: nat, k: nat)
    requires k <= n <= |a| && n <= |b| && a[..n] == b[..n]
    ensures a[..k] == b[..k]
  {
    assert a[..k] == a[..n][..k] && b[..k] == b[..n][..k];
  }

  /** The chain of the active activation after one more block. */
  lemma {:induction false} ChainGrows(ipd: seq<nat>, blocks: seq<nat>, b: nat)
    requires blocks != []
    ensures LastOf(blocks + [b]) == b
    ensures var chain := Greedy(ipd, blocks);
            var top := LastOf(chain);
            Greedy(ipd, blocks + [b]) == if top < |ipd| && ipd[top] == b then chain + [b] else chain
  {
    assert (blocks + [b])[..|blocks|] == blocks;
  }

  lemma {:induction false} AfterJumpStep(data: MonitorData, trace: bool, st: State, sig: Signal)
    requires sig.event == AfterJump && Step(data, trace, st, sig).Running?
    ensures var next, ipd := Step(data, trace, st, sig).st, Dominators(data, st.mod, st.fn);
            && st.phase != Ready && next.phase != Ready && next.curblock == sig.block
            && (next.mod, next.fn, next.calls) == (st.mod, st.fn, st.calls)
            && if trace && st.topblock < |ipd| && ipd[st.topblock] == sig.block then
                 next.blocks == st.blocks + [st.topblock] && next.topblock == sig.block
               else
                 next.blocks == st.blocks && next.topblock == st.topblock
  {
  }

  lemma {:induction false} AfterJumpHolds(data: MonitorData, trace: bool, st: State, sig: Signal,
                                          visited: seq<seq<nat>>)
    requires HoldsVisited(data, trace, st, visited) && sig.event == AfterJump
    requires Step(data, trace, st, sig).Running?
    ensures HoldsVisited(data, trace, Step(data, trace, st, sig).st, Visit(visited, sig))
  {
    AfterJumpStep(data, trace, st, sig);
    OneMoreBlock(data, trace, st, Step(data, trace, st, sig).st, sig.block, visited);
  }

  lemma {:induction false} OneMoreBlock(data: MonitorData, trace: bool, st: State, next: State, b: nat,
                                        visited: seq<seq<nat>>)
    requires HoldsVisited(data, trace, st, visited) && st.phase != Ready && next.phase != Ready
    requires next.curblock == b && (next.mod, next.fn, next.calls) == (st.mod, st.fn, st.calls)
    requires var ipd := Dominators(data, st.mod, st.fn);
             if trace && st.topblock < |ipd| && ipd[st.topblock] == b then
               next.blocks == st.blocks + [st.topblock] && next.topblock == b
             else
               next.blocks == st.blocks && next.topblock == st.topblock
    ensures var n := |st.calls|;
            HoldsVisited(data, trace, next, visited[..n] + [visited[n] + [b]])
  {
    var n := |st.calls|;
    var ipd, stacked := Dominators(data, st.mod, st.fn), Stacked(data, trace, st.calls, visited);
    SameStacked(data, trace, st.calls, visited, visited[..n] + [visited[n] + [b]]);
    ChainGrows(ipd, visited[n], b);
    if trace {
      LastOfBoth(st.blocks, st.topblock, stacked, Greedy(ipd, visited[n]));
      if next.blocks != st.blocks {
        Together(stacked, Greedy(ipd, visited[n]), [b]);
      }
    }
  }

  lemma {:induction false} Together(a: seq<nat>, b: seq<nat>, c: seq<nat>)
    ensures a + (b + c) == a + b + c
  {
  }

  lemma {:induction false} LastOfBoth(a: seq<nat>, x: nat, b: seq<nat>, c: seq<nat>)
    requires a + [x] == b + c && c != []
    ensures LastOf(c) == x && a == b + c[..|c| - 1]
  {
    assert (a + [x])[|a|] == (b + c)[|b| + |c| - 1];
    assert (a + [x])[..|a|] == a && (b + c)[..|a|] == b + c[..|c| - 1];
  }

  /** One more frame, on top of the others. */
  lemma {:induction false} OneMoreStacked(data: MonitorData, trace: bool, calls: seq<Frame>, frame: Frame,
                                          visited: seq<seq<nat>>, more: seq<seq<nat>>)
    requires |calls| < |visited|
    ensures |(visited + more)| >= |calls| + 1
    ensures Stacked(data, trace, calls + [frame], visited + more) ==
            Stacked(data, trace, calls, visited) + Suspended(data, trace, frame, visited[|calls|])
  {
    var all, n := calls + [frame], |calls|;
    assert all[..n] == calls;
    SameStacked(data, trace, calls, visited, (visited + more)[..n]);
    assert (visited + more)[n] == visited[n];
  }

  lemma {:induction false} OneMoreHeight(data: MonitorData, trace: bool, calls: seq<Frame>, frame: Frame,
                                         visited: seq<seq<nat>>, more: seq<seq<nat>>)
    requires |calls| < |visited| && HeightsAre(data, trace, calls, visited)
    requires frame.sp == |Stacked(data, trace, calls + [frame], visited + more)|
    ensures HeightsAre(data, trace, calls + [frame], visited + more)
  {
    var all, n := calls + [frame], |calls|;
    forall i | 0 <= i <= n ensures HeightIs(data, trace, all, visited + more, i) {
      if i < n {
        assert HeightIs(data, trace, calls, visited, i);
        assert all[..i + 1] == calls[..i + 1] && (visited + more)[..i + 1] == visited[..i + 1];
      } else {
        assert all[..i + 1] == all;
        SameStacked(data, trace, all, visited + more, (visited + more)[..i + 1]);
      }
    }
  }

  lemma {:induction false} CallHolds(data: MonitorData, trace: bool, st: State, sig: Signal, visited: seq<seq<nat>>)
    requires HoldsVisited(data, trace, st, visited) && sig.event == Call
    requires Step(data, trace, st, sig).Running?
    ensures HoldsVisited(data, trace, Step(data, trace, st, sig).st, Visit(visited, sig))
  {
    var n, next := |st.calls|, Step(data, trace, st, sig).st;
    var frame := next.calls[n];
    OneMoreStacked(data, trace, st.calls, frame, visited, [[0]]);
    CallStacks(data, trace, st, next, visited);
    OneMoreHeight(data, trace, st.calls, frame, visited, [[0]]);
  }

  lemma {:induction false} CallStacks(data: MonitorData, trace: bool, st: State, next: State, visited: seq<seq<nat>>)
    requires HoldsVisited(data, trace, st, visited) && st.phase != Ready
    requires next.blocks == st.blocks + if trace then [st.topblock, st.curblock] else [st.curblock]
    ensures var frame := Frame(st.mod, st.fn, |next.blocks|);
            next.blocks == Stacked(data, trace, st.calls, visited) + Suspended(data, trace, frame, visited[|st.calls|])
  {
    if trace {
      assert next.blocks == st.blocks + [st.topblock] + [st.curblock];
      Together(Stacked(data, trace, st.calls, visited), Greedy(Dominators(data, st.mod, st.fn), visited[|st.calls|]),
               [st.curblock]);
    }
  }

  /** Below its saved height the stack holds what the frame left. */
  lemma {:induction false} BelowFrame(data: MonitorData, trace: bool, st: State, visited: seq<seq<nat>>)
    requires HoldsVisited(data, trace, st, visited) && st.calls != []
    ensures var n := |st.calls| - 1;
            && st.calls[n].sp <= |st.blocks|
            && st.blocks[..st.calls[n].sp] ==
               Stacked(data, trace, st.calls[..n], visited[..n]) + Suspended(data, trace, st.calls[n], visited[n])
  {
    var n := |st.calls| - 1;
    var stacked := Stacked(data, trace, st.calls, visited);
    assert st.calls[..n + 1] == st.calls && HeightIs(data, trace, st.calls, visited, n);
    SameStacked(data, trace, st.calls, visited, visited[..n + 1]);
    if trace {
      var chain := Greedy(Dominators(data, st.mod, st.fn), visited[n + 1]);
      LastOfBoth(st.blocks, st.topblock, stacked, chain);
    }
    assert st.blocks[..|stacked|] == stacked;
  }

  /** What the pops take is what a frame has left. */
  lemma {:induction false} PopsTake(blocks: seq<nat>, sp: nat, below: seq<nat>, chain: seq<nat>, last: nat)
    requires sp <= |blocks| && blocks[..sp] == below + (chain + [last])
    ensures sp == |below| + |chain| + 1 && blocks[sp - 1] == last && blocks[..sp - 1] == below + chain
    ensures chain != [] ==>
              blocks[sp - 2] == LastOf(chain) && blocks[..sp - 2] + [blocks[sp - 2]] == below + chain
  {
    var whole := blocks[..sp];
    assert whole[sp - 1] == last && whole[..sp - 1] == blocks[..sp - 1] == below + chain;
    if chain != [] {
      assert blocks[sp - 2] == blocks[..sp - 1][sp - 2] == (below + chain)[sp - 2];
      assert blocks[..sp - 1] == blocks[..sp - 2] + [blocks[sp - 2]];
    }
  }

  lemma {:induction false} ExitStep(data: MonitorData, trace: bool, st: State, sig: Signal)
    requires sig.event == Exit && Step(data, trace, st, sig).Running?
    ensures st.phase != Ready && st.calls != []
    ensures var next, n := Step(data, trace, st, sig).st, |st.calls| - 1;
            var frame := st.calls[n];
            && next.phase != Ready && (next.mod, next.fn) == (frame.mod, frame.fn) && next.calls == st.calls[..n]
            && (if trace then 2 else 1) <= frame.sp <= |st.blocks| && next.curblock == st.blocks[frame.sp - 1]
            && if trace then next.topblock == st.blocks[frame.sp - 2] && next.blocks == st.blocks[..frame.sp - 2]
               else next.topblock == st.topblock && next.blocks == st.blocks[..frame.sp - 1]
  {
  }

  lemma {:induction false} ExitHolds(data: MonitorData, trace: bool, st: State, sig: Signal, visited: seq<seq<nat>>)
    requires HoldsVisited(data, trace, st, visited) && sig.event == Exit
    requires Step(data, trace, st, sig).Running?
    ensures HoldsVisited(data, trace, Step(data, trace, st, sig).st, Visit(visited, sig))
  {
    ExitStep(data, trace, st, sig);
    OneFewer(data, trace, st, Step(data, trace, st, sig).st, visited);
  }

  lemma {:induction false} OneFewer(data: MonitorData, trace: bool, st: State, next: State, visited: seq<seq<nat>>)
    requires HoldsVisited(data, trace, st, visited) && st.phase != Ready && next.phase != Ready && st.calls != []
    requires var n := |st.calls| - 1;
             var frame := st.calls[n];
             && (next.mod, next.fn) == (frame.mod, frame.fn) && next.calls == st.calls[..n]
             && (if trace then 2 else 1) <= frame.sp <= |st.blocks| && next.curblock == st.blocks[frame.sp - 1]
             && if trace then next.topblock == st.blocks[frame.sp - 2] && next.blocks == st.blocks[..frame.sp - 2]
                else next.topblock == st.topblock && next.blocks == st.blocks[..frame.sp - 1]
    ensures HoldsVisited(data, trace, next, visited[..|visited| - 1])
  {
    var n := |st.calls| - 1;
    var calls, fewer := st.calls[..n], visited[..n + 1];
    SameStart(visited, fewer, n + 1, n);
    SameStacked(data, trace, calls, visited[..n], fewer);
    FewerHeights(data, trace, st.calls, visited, n);
    FewerBlocks(data, trace, st, visited);
  }

  lemma {:induction false} FewerBlocks(data: MonitorData, trace: bool, st: State, visited: seq<seq<nat>>)
    requires HoldsVisited(data, trace, st, visited) && st.phase != Ready && st.calls != []
    ensures var n := |st.calls| - 1;
            var frame := st.calls[n];
            var below := Stacked(data, trace, st.calls[..n], visited[..n]);
            && 0 < frame.sp <= |st.blocks| && st.blocks[frame.sp - 1] == LastOf(visited[n])
            && if trace then
                 && frame.sp >= 2
                 && st.blocks[..frame.sp - 2] + [st.blocks[frame.sp - 2]] ==
                    below + Greedy(Dominators(data, frame.mod, frame.fn), visited[n])
               else st.blocks[..frame.sp - 1] == below
  {
    var n := |st.calls| - 1;
    var frame := st.calls[n];
    BelowFrame(data, trace, st, visited);
    PopsTake(st.blocks, frame.sp, Stacked(data, trace, st.calls[..n], visited[..n]),
             if trace then Greedy(Dominators(data, frame.mod, frame.fn), visited[n]) else [], LastOf(visited[n]));
  }

  lemma {:induction false} FewerHeights(data: MonitorData, trace: bool, calls: seq<Frame>, visited: seq<seq<nat>>,
                                        n: nat)
    requires n < |calls| <= |visited| && HeightsAre(data, trace, calls, visited)
    ensures HeightsAre(data, trace, calls[..n], visited[..n + 1])
  {
    var fewer, left := calls[..n], visited[..n + 1];
    forall i | 0 <= i < n ensures HeightIs(data, trace, fewer, left, i) {
      assert HeightIs(data, trace, calls, visited, i);
      assert fewer[..i + 1] == calls[..i + 1] && left[..i + 1] == visited[..i + 1];
    }
  }

  lemma {:induction false} StepHolds(data: MonitorData, trace: bool, st: State, sig: Signal, visited: seq<seq<nat>>)
    requires HoldsVisited(data, trace, st, visited) && Step(data, trace, st, sig).Running?
    ensures HoldsVisited(data, trace, Step(data, trace, st, sig).st, Visit(visited, sig))
  {
    match sig.event
    case AfterJump => AfterJumpHolds(data, trace, st, sig, visited);
    case Call => CallHolds(data, trace, st, sig, visited);
    case Exit => ExitHolds(data, trace, st, sig, visited);
    case Enter =>
      if st.phase != Ready {
        SameStacked(data, trace, st.calls, visited, visited);
      }
    case _ =>
  }

  lemma {:induction false} OneMoreVisit(sigs: seq<Signal>, sig: Signal)
    ensures Visited(sigs + [sig]) == Visit(Visited(sigs), sig)
  {
    assert (sigs + [sig])[..|sigs|] == sigs;
  }

  lemma {:induction false} RunHolds(data: MonitorData, trace: bool, before: seq<Signal>, st: State, sigs: seq<Signal>)
    requires HoldsVisited(data, trace, st, Visited(before)) && Run(data, trace, st, sigs).Waiting?
    ensures HoldsVisited(data, trace, Run(data, trace, st, sigs).st, Visited(before + sigs))
    decreases |sigs|
  {
    if sigs == [] {
      assert before + sigs == before;
    } else {
      StepHolds(data, trace, st, sigs[0], Visited(before));
      OneMoreVisit(before, sigs[0]);
      RunHolds(data, trace, before + [sigs[0]], Step(data, trace, st, sigs[0]).st, sigs[1..]);
      OneSignal(before, sigs);
    }
  }

  lemma {:induction false} OneSignal(before: seq<Signal>, sigs: seq<Signal>)
    requires sigs != []
    ensures before + [sigs[0]] + sigs[1..] == before + sigs
  {
  }

  /** After any accepted signals, the block stack is, activation by activation, the greedy post-dominator
      chain through the blocks visited, each followed by the block in which the activation was suspended;
      the chain of the active one ends in topblock.  Without tracing only those last blocks are there. */
  lemma {:induction false} StackIsGreedy(data: MonitorData, trace: bool, sigs: seq<Signal>)
    requires Run(data, trace, INITIAL, sigs).Waiting? && sigs != []
    ensures var st, visited := Run(data, trace, INITIAL, sigs).st, Visited(sigs);
            && |visited| == |st.calls| + 1 && HeightsAre(data, trace, st.calls, visited)
            && st.curblock == LastOf(visited[|st.calls|])
            && if trace then
                 st.blocks + [st.topblock] ==
                 Stacked(data, trace, st.calls, visited) +
                 Greedy(Dominators(data, st.mod, st.fn), visited[|st.calls|])
               else
                 st.blocks == Stacked(data, trace, st.calls, visited)
  {
    RunHolds(data, trace, [], INITIAL, sigs);
    assert [] + sigs == sigs;
    NeverReadyAgain(data, trace, INITIAL, sigs);
  }

  lemma {:induction false} NeverReadyAgain(data: MonitorData, trace: bool, st: State, sigs: seq<Signal>)
    requires Run(data, trace, st, sigs).Waiting? && (sigs != [] || st.phase != Ready)
    ensures Run(data, trace, st, sigs).st.phase != Ready
    decreases |sigs|
  {
    if sigs != [] {
      NeverReadyAgain(data, trace, Step(data, trace, st, sigs[0]).st, sigs[1..]);
    }
  }
}

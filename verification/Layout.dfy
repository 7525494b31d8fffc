/**
 Where the pass puts its events: around the calls, after the phi nodes of a block and before its
 terminator.
 */
module Layout {
  import opened MonitorSpec
  import opened Injector

  // ----- Around the calls

  lemma {:induction false} WithCallsAppend(names: Names, a: seq<Instr>, b: seq<Instr>)
    requires Identified(names, a + b)
    ensures Identified(names, a) && Identified(names, b)
    ensures WithCalls(names, a + b) == WithCalls(names, a) + WithCalls(names, b)
    decreases |a|
  {
    BothIdentified(names, a, b);
    if a == [] {
      assert a + b == b;
    } else {
      assert (a + b)[1..] == a[1..] + b;
      WithCallsAppend(names, a[1..], b);
    }
  }

  lemma {:induction false} BothIdentified(names: Names, a: seq<Instr>, b: seq<Instr>)
    requires Identified(names, a + b)
    ensures Identified(names, a) && Identified(names, b)
  {
    assert forall i | i in a || i in b :: i in a + b;
  }

  lemma {:induction false} OneWithCall(names: Names, i: Instr)
    requires Identified(names, [i])
    ensures i.CallTo? && i.callee !in names.ignored ==> i.callee in names.ids
    ensures WithCalls(names, [i]) ==
            if i.CallTo? && i.callee !in names.ignored then
              [Cfi(Call, names.ids[i.callee], 0), i, Cfi(Returned, names.ids[i.callee], 0)]
            else [i]
  {
    assert i in [i] && [i][1..] == [];
    assert WithCalls(names, [i]) == WithCall(names, i) + [];
  }

  /** Each instruction stays where it is, and the events of a call are right before and right after it, if
      and only if it calls a name that is not ignored. */
  lemma {:induction false} CallsAreSurrounded(names: Names, a: seq<Instr>, i: Instr, b: seq<Instr>)
    requires Identified(names, a + [i] + b)
    ensures Identified(names, a) && Identified(names, b)
    ensures i.CallTo? && i.callee !in names.ignored ==> i.callee in names.ids
    ensures WithCalls(names, a + [i] + b) ==
            WithCalls(names, a) +
            (if i.CallTo? && i.callee !in names.ignored then
               [Cfi(Call, names.ids[i.callee], 0), i, Cfi(Returned, names.ids[i.callee], 0)]
             else [i]) +
            WithCalls(names, b)
  {
    WithCallsAppend(names, a + [i], b);
    WithCallsAppend(names, a, [i]);
    OneWithCall(names, i);
  }

  // ----- In a block

  /** The first n instructions are phi nodes, or debug intrinsics if these count, and the next is not. */
  predicate Leads(instrs: seq<Instr>, n: nat, debugToo: bool) {
    && n <= |instrs|
    && (forall k | 0 <= k < n :: instrs[k] == Phi || (debugToo && instrs[k] == Debug))
    && (n < |instrs| ==> instrs[n] != Phi && !(debugToo && instrs[n] == Debug))
  }

  lemma {:induction false} LeadingAppend(instrs: seq<Instr>, i: Instr, skipDebug: bool)
    requires !i.Phi? && !i.Debug?
    ensures Leading(instrs + [i], skipDebug) == Leading(instrs, skipDebug)
    decreases |instrs|
  {
    if instrs != [] {
      assert (instrs + [i])[1..] == instrs[1..] + [i];
      LeadingAppend(instrs[1..], i, skipDebug);
    }
  }

  lemma {:induction false} InsertedAt(instrs: seq<Instr>, n: nat, new_: seq<Instr>, tail: seq<Instr>)
    requires n <= |instrs|
    ensures Insert(instrs, n, new_) + tail == instrs[..n] + new_ + instrs[n..] + tail
    ensures Insert(instrs + tail, n, new_) == instrs[..n] + new_ + instrs[n..] + tail
    ensures instrs == instrs[..n] + [] + instrs[n..]
  {
    assert (instrs + tail)[..n] == instrs[..n] && (instrs + tail)[n..] == instrs[n..] + tail;
  }

  /** The first block: ENTER after its phi nodes; behind it EXIT if it is the last one, or else the branch. */
  lemma {:induction false} EntryLayout(names: Names, id: nat, traced: bool, last: bool, b: Block) returns (n: nat)
    requires Identified(names, b.instrs)
    ensures var called := WithCalls(names, b.instrs);
            && Leads(called, n, false)
            && InjectedBlock(names, id, traced, 0, last, b).instrs ==
               called[..n] + [ReturnAddress, Cfi(Enter, id, 0)] + called[n..] +
               (if last then [ReturnAddress, Cfi(Exit, id, 0)] else if traced then [Cfi(BeforeJump, id, 0)] else [])
  {
    var called := WithCalls(names, b.instrs);
    n := Leading(called, false);
    if last {
      InsertedAt(called, n, [ReturnAddress, Cfi(Enter, id, 0)], [ReturnAddress, Cfi(Exit, id, 0)]);
    } else if traced {
      LeadingAppend(called, Cfi(BeforeJump, id, 0), false);
      InsertedAt(called, n, [ReturnAddress, Cfi(Enter, id, 0)], [Cfi(BeforeJump, id, 0)]);
    }
  }

  /** Any other block: AFTER_JUMP after its phi nodes and debug intrinsics if blocks are traced, and the same
      behind it. */
  lemma {:induction false} BlockLayout(names: Names, id: nat, traced: bool, idBB: nat, last: bool, b: Block)
    returns (n: nat)
    requires Identified(names, b.instrs) && idBB != 0
    ensures var called := WithCalls(names, b.instrs);
            && Leads(called, n, true)
            && InjectedBlock(names, id, traced, idBB, last, b).instrs ==
               called[..n] + (if traced then [Cfi(AfterJump, id, idBB)] else []) + called[n..] +
               (if last then [ReturnAddress, Cfi(Exit, id, 0)] else if traced then [Cfi(BeforeJump, id, idBB)] else [])
  {
    var called := WithCalls(names, b.instrs);
    n := Leading(called, true);
    InsertedAt(called, n, [Cfi(AfterJump, id, idBB)], []);
  }

  // ----- Phi nodes

  /** The phi nodes are the first n instructions. */
  predicate PhisAre(instrs: seq<Instr>, n: nat) {
    && n <= |instrs| && (forall k | 0 <= k < n :: instrs[k] == Phi)
    && forall k | n <= k < |instrs| :: instrs[k] != Phi
  }

  lemma {:induction false} CallsKeepPhis(names: Names, instrs: seq<Instr>, n: nat)
    requires Identified(names, instrs) && PhisAre(instrs, n)
    ensures PhisAre(WithCalls(names, instrs), n)
    decreases |instrs|
  {
    if instrs != [] {
      CallsKeepPhis(names, instrs[1..], if n == 0 then 0 else n - 1);
    }
  }

  lemma {:induction false} InsertKeepsPhis(instrs: seq<Instr>, n: nat, m: nat, debugToo: bool, new_: seq<Instr>,
                                           tail: seq<Instr>)
    requires PhisAre(instrs, n) && Leads(instrs, m, debugToo)
    requires forall i | i in new_ || i in tail :: i != Phi
    ensures PhisAre(instrs[..m] + new_ + instrs[m..] + tail, n)
  {
    var all, k := instrs[..m] + new_ + instrs[m..] + tail, m + |new_|;
    assert m < |instrs| ==> instrs[m] != Phi;
    forall j | n <= j < |all| ensures all[j] != Phi {
      if m <= j < k {
        assert all[j] == new_[j - m] && new_[j - m] in new_;
      } else if j >= |instrs| + |new_| {
        assert all[j] == tail[j - |instrs| - |new_|] && all[j] in tail;
      } else {
        assert all[j] == if j < m then instrs[j] else instrs[j - |new_|];
      }
    }
  }

  /** The phi nodes of a block stay at its beginning, with nothing between them. */
  lemma {:induction false} PhisStayFirst(names: Names, id: nat, traced: bool, idBB: nat, last: bool, b: Block, n: nat)
    requires Identified(names, b.instrs) && PhisAre(b.instrs, n)
    ensures PhisAre(InjectedBlock(names, id, traced, idBB, last, b).instrs, n)
  {
    var called := WithCalls(names, b.instrs);
    CallsKeepPhis(names, b.instrs, n);
    var tail := if last then [ReturnAddress, Cfi(Exit, id, 0)] else if traced then [Cfi(BeforeJump, id, idBB)] else [];
    if idBB == 0 {
      var m := EntryLayout(names, id, traced, last, b);
      InsertKeepsPhis(called, n, m, false, [ReturnAddress, Cfi(Enter, id, 0)], tail);
    } else {
      var m := BlockLayout(names, id, traced, idBB, last, b);
      InsertKeepsPhis(called, n, m, true, if traced then [Cfi(AfterJump, id, idBB)] else [], tail);
    }
  }
}

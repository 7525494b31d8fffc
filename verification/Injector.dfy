/**
 The instrumentation of llvm_pass/CFI/CFIInjector.cpp on a small intermediate representation.
 A function is a list of basic blocks; a block is a list of instructions and a terminator.
 */
module Injector {
  import opened MonitorTables
  import opened MonitorSpec

  datatype Instr =
    | Phi
    | Debug                                  // debug intrinsic
    | Intrinsic
    | InlineAsm
    | Plain
    | CallTo(callee: string)
    | ReturnAddress                          // the intrinsic inserted before ENTER and EXIT
    | Cfi(event: Event, id: nat, block: nat) // a call to one of the __CFI_INTERNAL functions

  /** Any terminator that is not a return is its list of successors, possibly empty. */
  datatype Terminator = Ret | Branch(succs: seq<nat>)

  datatype Block = Block(instrs: seq<Instr>, terminator: Terminator)

  /** A declaration has no block.  traced: compiled at level 1 and not annotated to ignore blocks. */
  datatype Func = Func(name: string, flag: Flag, traced: bool, blocks: seq<Block>)

  /** What the pass knows of the functions of a binary: the ids given so far and the ignored names. */
  datatype Names = Names(ids: map<string, nat>, ignored: set<string>)

  predicate Monitored(names: Names, i: Instr) {
    i.CallTo? && i.callee !in names.ignored
  }

  /** getIdentifier aborts on an unknown name. */
  predicate Identified(names: Names, instrs: seq<Instr>) {
    forall i | i in instrs && Monitored(names, i) :: i.callee in names.ids
  }

  predicate AllIdentified(names: Names, blocks: seq<Block>) {
    forall b | b in blocks :: Identified(names, b.instrs)
  }

  // ----- What the five loops compute

  function WithCalls(names: Names, instrs: seq<Instr>): seq<Instr>
    requires Identified(names, instrs)
  {
    if instrs == [] then []
    else WithCall(names, instrs[0]) + WithCalls(names, instrs[1..])
  }

  function WithCall(names: Names, i: Instr): seq<Instr>
    requires Identified(names, [i])
  {
    if Monitored(names, i) then
      assert i in [i];
      var id := names.ids[i.callee];
      [Cfi(Call, id, 0), i, Cfi(Returned, id, 0)]
    else
      [i]
  }

  lemma {:induction false} WithCallsAt(names: Names, instrs: seq<Instr>, k: nat, done: seq<Instr>)
    requires Identified(names, instrs) && k < |instrs|
    requires WithCalls(names, instrs) == done + WithCalls(names, instrs[k..])
    ensures Identified(names, [instrs[k]])
    ensures WithCalls(names, instrs) == done + WithCall(names, instrs[k]) + WithCalls(names, instrs[k + 1..])
  {
    assert instrs[k..][1..] == instrs[k + 1..];
  }

  /** The number of leading instructions that an insertion point must come after. */
  function Leading(instrs: seq<Instr>, skipDebug: bool): (n: nat)
    ensures n <= |instrs|
    ensures forall k | 0 <= k < n :: instrs[k].Phi? || (skipDebug && instrs[k].Debug?)
    ensures n < |instrs| ==> !instrs[n].Phi? && !(skipDebug && instrs[n].Debug?)
  {
    if instrs != [] && (instrs[0].Phi? || (skipDebug && instrs[0].Debug?)) then 1 + Leading(instrs[1..], skipDebug)
    else 0
  }

  function Insert(instrs: seq<Instr>, at: nat, new_: seq<Instr>): seq<Instr>
    requires at <= |instrs|
  {
    instrs[..at] + new_ + instrs[at..]
  }

  function Append(b: Block, new_: seq<Instr>): Block {
    b.(instrs := b.instrs + new_)
  }

  function McallBlock(names: Names, b: Block): Block
    requires Identified(names, b.instrs)
  {
    b.(instrs := WithCalls(names, b.instrs))
  }

  function BBEnterBlock(id: nat, idBB: nat, b: Block): Block {
    if idBB == 0 then b
    else b.(instrs := Insert(b.instrs, Leading(b.instrs, true), [Cfi(AfterJump, id, idBB)]))
  }

  function BBLeaveBlock(id: nat, idBB: nat, last: bool, b: Block): Block {
    if last then b else Append(b, [Cfi(BeforeJump, id, idBB)])
  }

  function MentryBlock(id: nat, idBB: nat, b: Block): Block {
    if idBB != 0 then b
    else b.(instrs := Insert(b.instrs, Leading(b.instrs, false), [ReturnAddress, Cfi(Enter, id, 0)]))
  }

  function MexitBlock(id: nat, last: bool, b: Block): Block {
    if last then Append(b, [ReturnAddress, Cfi(Exit, id, 0)]) else b
  }

  /** Block idBB of function id once the five injections have been made, in the order of InjectCode. */
  function InjectedBlock(names: Names, id: nat, traced: bool, idBB: nat, last: bool, b: Block): Block
    requires Identified(names, b.instrs)
  {
    var called := McallBlock(names, b);
    var jumped := if traced then BBLeaveBlock(id, idBB, last, BBEnterBlock(id, idBB, called)) else called;
    MexitBlock(id, last, MentryBlock(id, idBB, jumped))
  }

  // ----- The loops

  class FunctionBody {
    const name: string
    const id: nat
    const traced: bool
    var blocks: seq<Block>

    constructor (name: string, id: nat, traced: bool, blocks: seq<Block>)
      ensures this.name == name && this.id == id && this.traced == traced && this.blocks == blocks
    {
      this.name, this.id, this.traced, this.blocks := name, id, traced, blocks;
    }

    predicate IsDeclaration()
      reads this
    {
      blocks == []
    }

    method InjectMcall(names: Names)
      requires name !in names.ignored
      requires AllIdentified(names, blocks)
      modifies this
      ensures |blocks| == |old(blocks)|
      ensures forall k | 0 <= k < |blocks| :: blocks[k] == McallBlock(names, old(blocks)[k])
    {
      var k := 0;
      while k < |blocks|
        invariant 0 <= k <= |blocks| == |old(blocks)|
        invariant forall j | 0 <= j < k :: blocks[j] == McallBlock(names, old(blocks)[j])
        invariant forall j | k <= j < |blocks| :: blocks[j] == old(blocks)[j]
      {
        assert old(blocks)[k] in old(blocks);
        var instrs := InjectMcallInBlock(names, blocks[k].instrs);
        blocks := blocks[k := blocks[k].(instrs := instrs)];
        k := k + 1;
      }
    }

    /** RETURNED goes before the instruction that follows the call, which may be the terminator. */
    method InjectMcallInBlock(names: Names, instrs: seq<Instr>) returns (out: seq<Instr>)
      requires Identified(names, instrs)
      ensures out == WithCalls(names, instrs)
    {
      out := [];
      var insertAfter, callee := false, "";
      ghost var done := [];
      for k := 0 to |instrs|
        invariant insertAfter ==> callee in names.ids
        invariant done == out + if insertAfter then [Cfi(Returned, names.ids[callee], 0)] else []
        invariant WithCalls(names, instrs) == done + WithCalls(names, instrs[k..])
      {
        if insertAfter {
          out := out + [Cfi(Returned, names.ids[callee], 0)];
          insertAfter := false;
        }
        var i := instrs[k];
        WithCallsAt(names, instrs, k, done);
        done := done + WithCall(names, i);
        ghost var before := out;
        if i.CallTo? && i.callee !in names.ignored {
          callee := i.callee;
          out := out + [Cfi(Call, names.ids[callee], 0)];
          insertAfter := true;
        }
        out := out + [i];
        assert insertAfter ==>
          done == before + [Cfi(Call, names.ids[callee], 0), i, Cfi(Returned, names.ids[callee], 0)];
      }
      assert WithCalls(names, instrs[|instrs|..]) == [];
      if insertAfter {
        out := out + [Cfi(Returned, names.ids[callee], 0)];
      }
    }

    method InjectBBEnter()
      modifies this
      ensures |blocks| == |old(blocks)|
      ensures forall k | 0 <= k < |blocks| :: blocks[k] == BBEnterBlock(id, k, old(blocks)[k])
    {
      var idBB := 0;
      while idBB < |blocks|
        invariant 0 <= idBB <= |blocks| == |old(blocks)|
        invariant forall j | 0 <= j < idBB :: blocks[j] == BBEnterBlock(id, j, old(blocks)[j])
        invariant forall j | idBB <= j < |blocks| :: blocks[j] == old(blocks)[j]
      {
        if idBB != 0 {
          var b := blocks[idBB];
          var at := Leading(b.instrs, true);
          blocks := blocks[idBB := b.(instrs := Insert(b.instrs, at, [Cfi(AfterJump, id, idBB)]))];
        }
        idBB := idBB + 1;
      }
    }

    method InjectBBLeave()
      modifies this
      ensures |blocks| == |old(blocks)|
      ensures forall k | 0 <= k < |blocks| :: blocks[k] == BBLeaveBlock(id, k, k == |blocks| - 1, old(blocks)[k])
    {
      var idBB := 0;
      while idBB < |blocks| - 1
        invariant 0 <= idBB <= |blocks| == |old(blocks)|
        invariant |blocks| > 0 ==> idBB < |blocks|
        invariant forall j | 0 <= j < idBB :: blocks[j] == BBLeaveBlock(id, j, j == |blocks| - 1, old(blocks)[j])
        invariant forall j | idBB <= j < |blocks| :: blocks[j] == old(blocks)[j]
      {
        blocks := blocks[idBB := Append(blocks[idBB], [Cfi(BeforeJump, id, idBB)])];
        idBB := idBB + 1;
      }
    }

    method InjectMentry()
      requires !IsDeclaration()
      modifies this
      ensures |blocks| == |old(blocks)|
      ensures forall k | 0 <= k < |blocks| :: blocks[k] == MentryBlock(id, k, old(blocks)[k])
    {
      var entry := blocks[0];
      var at := Leading(entry.instrs, false);
      blocks := blocks[0 := entry.(instrs := Insert(entry.instrs, at, [ReturnAddress, Cfi(Enter, id, 0)]))];
    }

    method InjectMexit()
      requires !IsDeclaration()
      modifies this
      ensures |blocks| == |old(blocks)|
      ensures forall k | 0 <= k < |blocks| :: blocks[k] == MexitBlock(id, k == |blocks| - 1, old(blocks)[k])
    {
      var last := 0;
      for k := 0 to |blocks|
        invariant k > 0 ==> last == k - 1
      {
        last := k;
      }
      blocks := blocks[last := Append(blocks[last], [ReturnAddress, Cfi(Exit, id, 0)])];
    }

    /** What InjectCode does to one function. */
    method Inject(names: Names)
      requires name !in names.ignored
      requires AllIdentified(names, blocks)
      modifies this
      ensures |blocks| == |old(blocks)|
      ensures forall k | 0 <= k < |blocks| ::
                && Identified(names, old(blocks)[k].instrs)
                && blocks[k] == InjectedBlock(names, id, traced, k, k == |blocks| - 1, old(blocks)[k])
    {
      assert forall k | 0 <= k < |blocks| :: blocks[k] in blocks;
      InjectMcall(names);
      if IsDeclaration() {
        return;
      }
      if traced {
        InjectBBEnter();
        InjectBBLeave();
      }
      InjectMentry();
      InjectMexit();
    }
  }

  // ----- The program is still there

  predicate Inserted(i: Instr) {
    i.Cfi? || i.ReturnAddress?
  }

  function Erase(instrs: seq<Instr>): seq<Instr> {
    if instrs == [] then []
    else (if Inserted(instrs[0]) then [] else [instrs[0]]) + Erase(instrs[1..])
  }

  lemma {:induction false} EraseAppend(a: seq<Instr>, b: seq<Instr>)
    ensures Erase(a + b) == Erase(a) + Erase(b)
    decreases |a|
  {
    if a == [] {
      assert a + b == b;
    } else {
      assert (a + b)[1..] == a[1..] + b;
      EraseAppend(a[1..], b);
    }
  }

  lemma {:induction false} EraseWithCall(names: Names, i: Instr)
    requires Identified(names, [i])
    ensures Erase(WithCall(names, i)) == Erase([i])
  {
    if Monitored(names, i) {
      assert i in [i];
      var id := names.ids[i.callee];
      EraseTwo(Cfi(Call, id, 0), i);
      EraseAppend([Cfi(Call, id, 0), i], [Cfi(Returned, id, 0)]);
      assert [Cfi(Call, id, 0), i] + [Cfi(Returned, id, 0)] == WithCall(names, i);
    }
  }

  lemma {:induction false} EraseTwo(i: Instr, j: Instr)
    ensures Erase([i, j]) == Erase([i]) + Erase([j])
  {
    EraseAppend([i], [j]);
  }

  lemma {:induction false} EraseWithCalls(names: Names, instrs: seq<Instr>)
    requires Identified(names, instrs)
    ensures Erase(WithCalls(names, instrs)) == Erase(instrs)
    decreases |instrs|
  {
    if instrs != [] {
      EraseAppend(WithCall(names, instrs[0]), WithCalls(names, instrs[1..]));
      EraseWithCall(names, instrs[0]);
      EraseWithCalls(names, instrs[1..]);
      assert instrs == [instrs[0]] + instrs[1..];
      EraseAppend([instrs[0]], instrs[1..]);
    }
  }

  lemma {:induction false} EraseInsert(instrs: seq<Instr>, at: nat, new_: seq<Instr>)
    requires at <= |instrs| && Erase(new_) == []
    ensures Erase(Insert(instrs, at, new_)) == Erase(instrs)
    ensures Erase(instrs + new_) == Erase(instrs)
  {
    EraseAppend(instrs[..at] + new_, instrs[at..]);
    EraseAppend(instrs[..at], new_);
    EraseAppend(instrs[..at], instrs[at..]);
    assert instrs[..at] + instrs[at..] == instrs;
    EraseAppend(instrs, new_);
  }

  /** Instrumentation only adds: the instructions that were there are there, in the same order, and
      the terminator is the same. */
  lemma {:induction false} InjectionOnlyAdds(names: Names, id: nat, traced: bool, idBB: nat, last: bool, b: Block)
    requires Identified(names, b.instrs)
    ensures Erase(InjectedBlock(names, id, traced, idBB, last, b).instrs) == Erase(b.instrs)
    ensures InjectedBlock(names, id, traced, idBB, last, b).terminator == b.terminator
  {
    EraseWithCalls(names, b.instrs);
    var called := McallBlock(names, b);
    var entered := BBEnterBlock(id, idBB, called);
    EraseInsert(called.instrs, Leading(called.instrs, true), [Cfi(AfterJump, id, idBB)]);
    EraseInsert(entered.instrs, 0, [Cfi(BeforeJump, id, idBB)]);
    var jumped := if traced then BBLeaveBlock(id, idBB, last, entered) else called;
    EraseTwo(ReturnAddress, Cfi(Enter, id, 0));
    EraseTwo(ReturnAddress, Cfi(Exit, id, 0));
    EraseInsert(jumped.instrs, Leading(jumped.instrs, false), [ReturnAddress, Cfi(Enter, id, 0)]);
    var begun := MentryBlock(id, idBB, jumped);
    EraseInsert(begun.instrs, 0, [ReturnAddress, Cfi(Exit, id, 0)]);
  }
}

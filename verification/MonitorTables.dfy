/**
 The tables the monitor checks events against (monitor/include/monitor_load.h), once loaded.
 They never change during a run, so they are values.
 */
module MonitorTables {
  import opened Wrappers

  datatype Flag = Internal | External | Init | Fini | Main

  /** A table of row pointers, as built by calloc: None is a row that was never allocated. */
  type Matrix = seq<Option<seq<bool>>>

  datatype FunctionData = FunctionData(
    name: string, flags: Flag, nbBlocks: nat, controlFlowGraph: Matrix, immediatePostDominator: seq<nat>)

  datatype ModuleData = ModuleData(
    functions: seq<FunctionData>, callGraph: Matrix, relocations: seq<nat>)

  type MonitorData = seq<ModuleData>

  const FUNCTION_ENTRY_BLOCK_ID: nat := 0

  predicate IsEntrypoint(fd: FunctionData) {
    fd.flags.Main? || fd.flags.Init? || fd.flags.Fini?
  }

  /** The entry (i, j) can be read without going through a missing row or past a row's end. */
  predicate Readable(m: Matrix, i: nat, j: nat) {
    i < |m| && m[i].Some? && j < |m[i].value|
  }

  predicate Edge(m: Matrix, i: nat, j: nat) {
    Readable(m, i, j) && m[i].value[j]
  }

  predicate HasFunction(data: MonitorData, m: nat, f: nat) {
    m < |data| && f < |data[m].functions|
  }

  predicate CallEdge(data: MonitorData, m: nat, f: nat, g: nat) {
    HasFunction(data, m, f) && HasFunction(data, m, g) && Edge(data[m].callGraph, f, g)
  }

  predicate JumpEdge(data: MonitorData, m: nat, f: nat, b: nat, c: nat) {
    && HasFunction(data, m, f)
    && c < data[m].functions[f].nbBlocks
    && Edge(data[m].functions[f].controlFlowGraph, b, c)
  }

  // ----- Relocations: 64-bit words holding a module and a function id (include/picon/shared.h)

  const TWO16: nat := 0x1_0000
  const TWO32: nat := 0x1_0000_0000

  function ModuleFunction(m: nat, f: nat): nat {
    (m % TWO32) * TWO32 + f % TWO32
  }

  /** Shift by 32, then truncation to the 16 bits of module_id. */
  function GetModule(r: nat): nat {
    (r / TWO32) % TWO16
  }

  function GetFunction(r: nat): nat {
    r % TWO32
  }

  /** The packed word gives back exactly the pair it was made of, for every function id, if and only
      if the module index fits module_id. */
  lemma {:induction false} PackingProjectsBack(m: nat, f: nat)
    requires m < TWO32 && f < TWO32
    ensures GetFunction(ModuleFunction(m, f)) == f
    ensures GetModule(ModuleFunction(m, f)) == m % TWO16
    ensures (GetModule(ModuleFunction(m, f)), GetFunction(ModuleFunction(m, f))) == (m, f) <==> m < TWO16
  {
    assert ModuleFunction(m, f) / TWO32 == m && ModuleFunction(m, f) % TWO32 == f;
    assert m < TWO16 ==> m % TWO16 == m;
  }

  /** The function that a call to the local id g of module m runs. */
  function Target(data: MonitorData, m: nat, g: nat): (nat, nat)
    requires HasFunction(data, m, g)
    requires data[m].functions[g].flags.External? ==> g < |data[m].relocations|
  {
    if data[m].functions[g].flags.External? then
      (GetModule(data[m].relocations[g]), GetFunction(data[m].relocations[g]))
    else
      (m, g)
  }

  // ----- Well-formedness: what the loader establishes

  ghost predicate SquareMatrix(m: Matrix, n: nat) {
    |m| == n && forall i | 0 <= i < n && m[i].Some? :: |m[i].value| == n
  }

  ghost predicate WellFormedFunction(fd: FunctionData) {
    && SquareMatrix(fd.controlFlowGraph, fd.nbBlocks)
    && |fd.immediatePostDominator| == fd.nbBlocks
  }

  ghost predicate WellFormedModule(md: ModuleData) {
    && SquareMatrix(md.callGraph, |md.functions|)
    && |md.relocations| == |md.functions|
    && forall f | 0 <= f < |md.functions| :: WellFormedFunction(md.functions[f])
  }

  /** Every relocation entry of an external function names an existing function. */
  ghost predicate RelocationsInRange(data: MonitorData) {
    forall m: nat, g: nat | HasFunction(data, m, g) && data[m].functions[g].flags.External? ::
      && g < |data[m].relocations|
      && HasFunction(data, GetModule(data[m].relocations[g]), GetFunction(data[m].relocations[g]))
  }

  ghost predicate WellFormed(data: MonitorData) {
    && (forall m | 0 <= m < |data| :: WellFormedModule(data[m]))
    && RelocationsInRange(data)
  }

  lemma {:induction false} TargetExists(data: MonitorData, m: nat, g: nat)
    requires WellFormed(data) && HasFunction(data, m, g)
    ensures HasFunction(data, Target(data, m, g).0, Target(data, m, g).1)
  {
  }
}

/**
 The section loaders of monitor/src/monitor_load.c: each walks a packet with a pointer that it moves
 by the size of the record just read, and fills the tables of a module in place.
 */
module Loader {
  import opened Wrappers
  import opened MonitorTables
  import opened Bytes
  import opened Packing

  /** Overrun: the packet ends before the records it announces. */
  datatype Status = Loaded | Error(code: nat) | Overrun

  function NoRow(n: nat): (row: seq<bool>)
    ensures |row| == n && forall j | 0 <= j < n :: !row[j]
  {
    seq(n, _ => false)
  }

  function NoMatrix(n: nat): (m: Matrix)
    ensures |m| == n && forall i | 0 <= i < n :: m[i] == None
  {
    seq(n, _ => None)
  }

  // ----- What the loops compute

  /** count targets are read from offset at and marked in row. */
  function MarkTargets(bytes: Packet, at: nat, count: nat, code: nat, row: seq<bool>): (Status, seq<bool>)
    decreases count
  {
    if count == 0 then (Loaded, row)
    else
      match GetU32(bytes, at)
      case None => (Overrun, row)
      case Some(target) =>
        if target >= |row| then (Error(code), row)
        else MarkTargets(bytes, at + 4, count - 1, code, row[target := true])
  }

  /** A row already there is an error in the call graph, and is completed in a control-flow graph. */
  datatype Section = Section(once: bool, badId: nat, badTarget: nat)

  const CALLS := Section(true, 3, 3)
  const JUMPS := Section(false, 7, 10)

  /** One record: what became of the table, and where the next record starts. */
  datatype Record<T> = Record(status: Status, table: T, next: nat)

  function LoadRow(section: Section, bytes: Packet, at: nat, m: Matrix): Record<Matrix> {
    match GetU32(bytes, at)
    case None => Record(Overrun, m, at)
    case Some(id) =>
      if id >= |m| then Record(Error(section.badId), m, at)
      else if section.once && m[id].Some? then Record(Error(3), m, at)
      else
        var row := if m[id].Some? then m[id].value else NoRow(|m|);
        match GetU32(bytes, at + 4)
        case None => Record(Overrun, m[id := Some(row)], at)
        case Some(size) =>
          var (status, marked) := MarkTargets(bytes, at + 8, size, section.badTarget, row);
          Record(status, m[id := Some(marked)], at + 8 + 4 * size)
  }

  function LoadRows(section: Section, bytes: Packet, at: nat, count: nat, m: Matrix): (Status, Matrix)
    decreases count
  {
    if count == 0 then (Loaded, m)
    else
      var record := LoadRow(section, bytes, at, m);
      if record.status != Loaded then (record.status, record.table)
      else LoadRows(section, bytes, record.next, count - 1, record.table)
  }

  datatype FunctionTable = FunctionTable(functions: seq<FunctionData>, inits: nat, finis: nat)

  const NO_FUNCTION := FunctionData("", Internal, 0, [], [])

  function NoFunctions(n: nat): (fs: seq<FunctionData>)
    ensures |fs| == n && forall i | 0 <= i < n :: fs[i] == NO_FUNCTION
  {
    seq(n, _ => NO_FUNCTION)
  }

  function Zeros(n: nat): (zeros: seq<nat>)
    ensures |zeros| == n && forall i | 0 <= i < n :: zeros[i] == 0
  {
    seq(n, _ => 0)
  }

  function AddEntry(t: FunctionTable, e: Entry): FunctionTable
    requires e.id < |t.functions|
  {
    FunctionTable(t.functions[e.id := FunctionData(e.name, e.flag, 0, [], [])],
                  t.inits + (if e.flag.Init? then 1 else 0), t.finis + (if e.flag.Fini? then 1 else 0))
  }

  function LoadEntry(bytes: Packet, at: nat, t: FunctionTable): Record<FunctionTable> {
    match GetU32(bytes, at)
    case None => Record(Overrun, t, at)
    case Some(id) =>
      if id >= |t.functions| then Record(Error(3), t, at)
      else
        match (GetU32(bytes, at + 4), GetString(bytes, at + 8))
        case (Some(flag), Some(name)) =>
          Record(Loaded, AddEntry(t, Entry(id, IntToFlag(flag), name)), at + 8 + |name| + 1)
        case _ => Record(Overrun, t, at)
  }

  function LoadEntries(bytes: Packet, at: nat, count: nat, t: FunctionTable): (Status, FunctionTable)
    decreases count
  {
    if count == 0 then (Loaded, t)
    else
      var record := LoadEntry(bytes, at, t);
      if record.status != Loaded then (record.status, record.table)
      else LoadEntries(bytes, record.next, count - 1, record.table)
  }

  function SetIpd(fd: FunctionData, b: nat, dominator: nat): FunctionData
    requires b < |fd.immediatePostDominator|
  {
    fd.(immediatePostDominator := fd.immediatePostDominator[b := dominator])
  }

  function LoadIpd(bytes: Packet, at: nat, fs: seq<FunctionData>): Record<seq<FunctionData>> {
    match (GetU32(bytes, at), GetU32(bytes, at + 4), GetU32(bytes, at + 8))
    case (Some(f), block, dominator) =>
      if f >= |fs| then Record(Error(2), fs, at)
      else if fs[f].nbBlocks == 0 then Record(Error(4), fs, at)
      else if block.None? then Record(Overrun, fs, at)
      else if block.value >= fs[f].nbBlocks || block.value >= |fs[f].immediatePostDominator| then
        Record(Error(5), fs, at)
      else if dominator.None? then Record(Overrun, fs, at)
      else Record(Loaded, fs[f := SetIpd(fs[f], block.value, dominator.value)], at + 16)
    case _ => Record(Overrun, fs, at)
  }

  function LoadIpds(bytes: Packet, at: nat, count: nat, fs: seq<FunctionData>): (Status, seq<FunctionData>)
    decreases count
  {
    if count == 0 then (Loaded, fs)
    else
      var record := LoadIpd(bytes, at, fs);
      if record.status != Loaded then (record.status, record.table)
      else LoadIpds(bytes, record.next, count - 1, record.table)
  }

  // ----- The loops

  class ModuleTables {
    /** The three arrays have been allocated. */
    var hasTables: bool
    var functions: seq<FunctionData>
    var callGraph: Matrix
    var relocations: seq<nat>
    var inits: nat
    var finis: nat

    constructor ()
      ensures !hasTables && functions == [] && callGraph == [] && relocations == [] && inits == 0 && finis == 0
    {
      hasTables, functions, callGraph, relocations, inits, finis := false, [], [], [], 0, 0;
    }

    predicate Shaped()
      reads this
    {
      |functions| == |callGraph| == |relocations| && (!hasTables ==> functions == [])
    }

    method LoadFunctionIds(bytes: Packet) returns (status: Status)
      requires Shaped()
      modifies this
      ensures Shaped()
      ensures old(functions) != [] ==> status == Error(1) && unchanged(this)
      ensures old(functions) == [] && GetU32(bytes, 0).None? ==> status == Overrun && unchanged(this)
      ensures old(functions) == [] && GetU32(bytes, 0).Some? ==>
                var n := GetU32(bytes, 0).value;
                var t := FunctionTable(functions, inits, finis);
                && hasTables && callGraph == NoMatrix(n) && relocations == Zeros(n)
                && (status, t) == LoadEntries(bytes, 4, n, FunctionTable(NoFunctions(n), old(inits), old(finis)))
    {
      if |functions| != 0 {
        return Error(1);
      }
      var nb := GetU32(bytes, 0);
      if nb.None? {
        return Overrun;
      }
      hasTables := true;
      callGraph, relocations, functions := NoMatrix(nb.value), Zeros(nb.value), NoFunctions(nb.value);
      status := FillFunctions(bytes);
    }

    /** The loop of LoadFunctionIds. */
    method FillFunctions(bytes: Packet) returns (status: Status)
      modifies this`functions, this`inits, this`finis
      ensures |functions| == |old(functions)|
      ensures (status, FunctionTable(functions, inits, finis)) ==
              LoadEntries(bytes, 4, |old(functions)|, FunctionTable(old(functions), old(inits), old(finis)))
    {
      var n := |functions|;
      var at: nat := 4;
      for i := 0 to n
        invariant |functions| == n
        invariant LoadEntries(bytes, 4, n, FunctionTable(old(functions), old(inits), old(finis))) ==
                  LoadEntries(bytes, at, n - i, FunctionTable(functions, inits, finis))
      {
        status, at := FillFunction(bytes, at);
        if status != Loaded {
          return;
        }
      }
      return Loaded;
    }

    /** The body of that loop; next is where the following record starts. */
    method FillFunction(bytes: Packet, at: nat) returns (status: Status, next: nat)
      modifies this`functions, this`inits, this`finis
      ensures |functions| == |old(functions)|
      ensures Record(status, FunctionTable(functions, inits, finis), next) ==
              LoadEntry(bytes, at, FunctionTable(old(functions), old(inits), old(finis)))
    {
      var id := GetU32(bytes, at);
      if id.None? {
        return Overrun, at;
      }
      if id.value >= |functions| {
        return Error(3), at;
      }
      var flag, name := GetU32(bytes, at + 4), GetString(bytes, at + 8);
      if flag.None? || name.None? {
        return Overrun, at;
      }
      functions := functions[id.value := FunctionData(name.value, IntToFlag(flag.value), 0, [], [])];
      if IntToFlag(flag.value).Init? {
        inits := inits + 1;
      }
      if IntToFlag(flag.value).Fini? {
        finis := finis + 1;
      }
      return Loaded, at + 8 + |name.value| + 1;
    }

    method LoadFunctionTransition(bytes: Packet) returns (status: Status)
      requires Shaped()
      modifies this`callGraph
      ensures Shaped()
      ensures old(functions) == [] ==> status == Error(1) && unchanged(this)
      ensures old(functions) != [] && GetU32(bytes, 0).None? ==> status == Overrun && unchanged(this)
      ensures old(functions) != [] && GetU32(bytes, 0).Some? ==>
                (status, callGraph) == LoadRows(CALLS, bytes, 4, GetU32(bytes, 0).value, old(callGraph))
    {
      if |functions| <= 0 {
        return Error(1);
      }
      var nb := GetU32(bytes, 0);
      if nb.None? {
        return Overrun;
      }
      status, callGraph := LoadMatrix(CALLS, bytes, 4, nb.value, callGraph);
    }

    method LoadBlockTransition(bytes: Packet) returns (status: Status)
      requires Shaped()
      modifies this`functions
      ensures Shaped()
      ensures !hasTables ==> status == Error(1)
      ensures hasTables && functions == [] ==> status == Error(2)
      ensures old(functions) == [] ==> unchanged(this)
      ensures old(functions) != [] ==>
                (status, functions) == LoadBlocks(bytes, old(functions))
    {
      if !hasTables {
        return Error(1);
      }
      if |functions| <= 0 {
        return Error(2);
      }
      var f, n, count := GetU32(bytes, 0), GetU32(bytes, 4), GetU32(bytes, 8);
      if f.None? {
        return Overrun;
      }
      if f.value >= |functions| {
        return Error(3);
      }
      if functions[f.value].nbBlocks != 0 {
        return Error(4);
      }
      if n.None? {
        return Overrun;
      }
      if n.value <= 0 {
        return Error(5);
      }
      var fd := functions[f.value].(nbBlocks := n.value, immediatePostDominator := Zeros(n.value));
      if count.None? {
        functions := functions[f.value := fd.(controlFlowGraph := NoMatrix(n.value))];
        return Overrun;
      }
      var graph;
      status, graph := LoadMatrix(JUMPS, bytes, 12, count.value, NoMatrix(n.value));
      functions := functions[f.value := fd.(controlFlowGraph := graph)];
    }

    method LoadBlockIpd(bytes: Packet) returns (status: Status)
      requires Shaped()
      modifies this`functions
      ensures Shaped()
      ensures !hasTables ==> status == Error(1) && unchanged(this)
      ensures hasTables && GetU32(bytes, 0).None? ==> status == Overrun && unchanged(this)
      ensures hasTables && GetU32(bytes, 0).Some? ==>
                (status, functions) == LoadIpds(bytes, 4, GetU32(bytes, 0).value, old(functions))
    {
      if !hasTables {
        return Error(1);
      }
      var nb := GetU32(bytes, 0);
      if nb.None? {
        return Overrun;
      }
      ghost var goal := LoadIpds(bytes, 4, nb.value, functions);
      var at: nat := 4;
      for i := 0 to nb.value
        invariant |functions| == |old(functions)|
        invariant goal == LoadIpds(bytes, at, nb.value - i, functions)
      {
        var f, b, dominator := GetU32(bytes, at), GetU32(bytes, at + 4), GetU32(bytes, at + 8);
        if f.None? {
          return Overrun;
        }
        if f.value >= |functions| {
          return Error(2);
        }
        var fd := functions[f.value];
        if fd.nbBlocks == 0 {
          return Error(4);
        }
        if b.None? {
          return Overrun;
        }
        if b.value >= fd.nbBlocks || b.value >= |fd.immediatePostDominator| {
          return Error(5);
        }
        if dominator.None? {
          return Overrun;
        }
        functions := functions[f.value :=
          fd.(immediatePostDominator := fd.immediatePostDominator[b.value := dominator.value])];
        at := at + 16;
      }
      return Loaded;
    }
  }

  function LoadBlocks(bytes: Packet, fs: seq<FunctionData>): (Status, seq<FunctionData>) {
    match (GetU32(bytes, 0), GetU32(bytes, 4), GetU32(bytes, 8))
    case (Some(f), n, count) =>
      if f >= |fs| then (Error(3), fs)
      else if fs[f].nbBlocks != 0 then (Error(4), fs)
      else if n.None? then (Overrun, fs)
      else if n.value == 0 then (Error(5), fs)
      else
        var (status, graph) :=
          if count.None? then (Overrun, NoMatrix(n.value))
          else LoadRows(JUMPS, bytes, 12, count.value, NoMatrix(n.value));
        (status, fs[f := fs[f].(nbBlocks := n.value, controlFlowGraph := graph,
                                immediatePostDominator := Zeros(n.value))])
    case _ => (Overrun, fs)
  }

  /** The inner of the two loops that the call-graph and the control-flow loaders share. */
  method MarkRow(bytes: Packet, start: nat, count: nat, code: nat, initial: seq<bool>)
    returns (status: Status, row: seq<bool>)
    ensures (status, row) == MarkTargets(bytes, start, count, code, initial)
    ensures |row| == |initial|
  {
    row := initial;
    var at := start;
    for j := 0 to count
      invariant |row| == |initial|
      invariant MarkTargets(bytes, start, count, code, initial) == MarkTargets(bytes, at, count - j, code, row)
    {
      var target := GetU32(bytes, at);
      if target.None? {
        return Overrun, row;
      }
      if target.value >= |row| {
        return Error(code), row;
      }
      row := row[target.value := true];
      at := at + 4;
    }
    return Loaded, row;
  }

  method LoadMatrix(section: Section, bytes: Packet, start: nat, count: nat, initial: Matrix)
    returns (status: Status, m: Matrix)
    ensures (status, m) == LoadRows(section, bytes, start, count, initial)
    ensures |m| == |initial|
  {
    m := initial;
    var at := start;
    for i := 0 to count
      invariant |m| == |initial|
      invariant LoadRows(section, bytes, start, count, initial) == LoadRows(section, bytes, at, count - i, m)
    {
      var id := GetU32(bytes, at);
      if id.None? {
        return Overrun, m;
      }
      if id.value >= |m| {
        return Error(section.badId), m;
      }
      if section.once && m[id.value].Some? {
        return Error(3), m;
      }
      var row := if m[id.value].Some? then m[id.value].value else NoRow(|m|);
      var size := GetU32(bytes, at + 4);
      if size.None? {
        return Overrun, m[id.value := Some(row)];
      }
      status, row := MarkRow(bytes, at + 8, size.value, section.badTarget, row);
      m := m[id.value := Some(row)];
      if status != Loaded {
        return status, m;
      }
      at := at + 8 + 4 * size.value;
    }
    return Loaded, m;
  }
}

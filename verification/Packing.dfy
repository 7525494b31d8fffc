/**
 The packed sections (gen_packed_* of prelink/picon-prelink).  A dictionary is packed in whatever order
 it is iterated, so a section is a function of a list of its entries.
 */
module Packing {
  import opened MonitorTables
  import opened Bytes

  /** An entry of a transition dictionary: a caller and its callees, or a block and its successors. */
  datatype Row = Row(id: int, targets: seq<int>)

  predicate IsWord(n: int) {
    0 <= n < TWO32
  }

  /** struct.pack refuses anything else. */
  predicate Packable(row: Row) {
    IsWord(row.id) && IsWord(|row.targets|) && forall k | 0 <= k < |row.targets| :: IsWord(row.targets[k])
  }

  predicate AllPackable(rows: seq<Row>) {
    forall k | 0 <= k < |rows| :: Packable(rows[k])
  }

  predicate DistinctIds(rows: seq<Row>) {
    forall i, j | 0 <= i < j < |rows| :: rows[i].id != rows[j].id
  }

  function PackRow(row: Row): Packet
    requires Packable(row)
  {
    U32(row.id) + U32(|row.targets|) + U32s(row.targets)
  }

  function PackRows(rows: seq<Row>): Packet
    requires AllPackable(rows)
  {
    if rows == [] then [] else PackRow(rows[0]) + PackRows(rows[1..])
  }

  function PackCallgraph(rows: seq<Row>): Packet
    requires IsWord(|rows|) && AllPackable(rows)
  {
    U32(|rows|) + PackRows(rows)
  }

  function PackBlocks(f: nat, nbBlocks: nat, rows: seq<Row>): Packet
    requires IsWord(f) && IsWord(nbBlocks) && IsWord(|rows|) && AllPackable(rows)
  {
    U32(f) + U32(nbBlocks) + U32(|rows|) + PackRows(rows)
  }

  /** An entry of the function table. */
  datatype Entry = Entry(id: nat, flag: Flag, name: string)

  /** The values of fct_flag_t. */
  function FlagToInt(flag: Flag): nat {
    match flag
    case Internal => 0
    case External => 1
    case Init => 2
    case Fini => 3
    case Main => 4
  }

  /** An unknown value passes none of the tests that are made of a flag, as Internal does. */
  function IntToFlag(n: nat): Flag {
    if n == 1 then External else if n == 2 then Init else if n == 3 then Fini else if n == 4 then Main else Internal
  }

  function PackEntry(e: Entry): Packet
    requires IsWord(e.id) && IsName(e.name)
  {
    U32(e.id) + U32(FlagToInt(e.flag)) + CString(e.name)
  }

  predicate AllEntries(entries: seq<Entry>) {
    forall k | 0 <= k < |entries| :: IsWord(entries[k].id) && IsName(entries[k].name)
  }

  function PackEntries(entries: seq<Entry>): Packet
    requires AllEntries(entries)
  {
    if entries == [] then [] else PackEntry(entries[0]) + PackEntries(entries[1..])
  }

  function PackFctids(entries: seq<Entry>): Packet
    requires IsWord(|entries|) && AllEntries(entries)
  {
    U32(|entries|) + PackEntries(entries)
  }

  /** A line of the post-dominator table: function, block, its post-dominator, last block. */
  datatype Ipd = Ipd(fn: nat, block: nat, dominator: nat, last: nat)

  predicate AllIpds(ipds: seq<Ipd>) {
    forall k | 0 <= k < |ipds| ::
      IsWord(ipds[k].fn) && IsWord(ipds[k].block) && IsWord(ipds[k].dominator) && IsWord(ipds[k].last)
  }

  function PackIpd(e: Ipd): Packet
    requires IsWord(e.fn) && IsWord(e.block) && IsWord(e.dominator) && IsWord(e.last)
  {
    U32(e.fn) + U32(e.block) + U32(e.dominator) + U32(e.last)
  }

  function PackIpds(ipds: seq<Ipd>): Packet
    requires AllIpds(ipds)
  {
    if ipds == [] then [] else PackIpd(ipds[0]) + PackIpds(ipds[1..])
  }

  function PackBlockIpd(ipds: seq<Ipd>): Packet
    requires IsWord(|ipds|) && AllIpds(ipds)
  {
    U32(|ipds|) + PackIpds(ipds)
  }
}

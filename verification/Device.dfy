/**
 What running a physical batch does to the KV memory, and the results the runner makes up from it.

 A launch sees the flat arrays only. Row by row, a token with a slot has its key and value computed by attending
 to the positions before it, found through the item's line of the block table.
 */
module Device {
  import opened Types
  import opened Engine
  import opened BatchLemmas
  import opened Translation

  // ---------------------------------------------------------------- rows in order

  function RowWritten(c: Config, mem: map<nat, Kv>, table: seq<BlockId>, row: Row): map<nat, Kv> {
    if row.slot < 0 then mem else mem[row.slot := Kv(row.token, Attended(c, mem, table, row.position))]
  }

  function RowsWritten(c: Config, mem: map<nat, Kv>, table: seq<BlockId>, rows: seq<Row>): map<nat, Kv>
    decreases |rows|
  {
    if rows == [] then mem else RowsWritten(c, RowWritten(c, mem, table, rows[0]), table, rows[1..])
  }

  function ItemsWritten(c: Config, mem: map<nat, Kv>, items: seq<WorkItem>): map<nat, Kv>
    decreases |items|
  {
    if items == [] then mem
    else ItemsWritten(c, RowsWritten(c, mem, items[0].table, RowsOf(c, items[0])), items[1..])
  }

  /** The tokens of an item whose input is bound. */
  function Inputs(x: WorkItem): seq<Token> {
    if x.PrefillChunk? then x.tokens else [x.inputToken]
  }

  lemma {:induction false} RowsFrom(c: Config, mem: map<nat, Kv>, x: WorkItem, t: nat)
    requires t <= TokenCount(x) && WritesKv(x)
    ensures RowsWritten(c, mem, x.table, RowsOf(c, x)[t..]) ==
        WriteTokens(c, mem, x.table, x.context + t, Inputs(x)[t..])
    decreases TokenCount(x) - t
  {
    var rows, tokens := RowsOf(c, x)[t..], Inputs(x)[t..];
    if t < TokenCount(x) {
      assert rows[0] == RowOf(c, x, t) && rows[1..] == RowsOf(c, x)[t + 1..];
      assert tokens[0] == Inputs(x)[t] && tokens[1..] == Inputs(x)[t + 1..];
      hide Attended;
      RowsFrom(c, RowWritten(c, mem, x.table, rows[0]), x, t + 1);
    }
  }

  /** Row by row is token by token. */
  lemma ItemWritten(c: Config, mem: map<nat, Kv>, x: WorkItem)
    ensures RowsWritten(c, mem, x.table, RowsOf(c, x)) ==
      if KvCount(x) > 0 then WriteTokens(c, mem, x.table, x.context, Inputs(x)) else mem
  {
    assert RowsOf(c, x)[0..] == RowsOf(c, x) && Inputs(x)[0..] == Inputs(x);
    if WritesKv(x) {
      RowsFrom(c, mem, x, 0);
    } else {
      assert RowsOf(c, x)[1..] == [];
    }
  }

  // ---------------------------------------------------------------- the launch

  /** The slot of a position, through one line of the block table. */
  function LineSlot(c: Config, line: seq<int>, pos: nat): nat {
    if BlockAt(c, pos) < |line| && line[BlockAt(c, pos)] >= 0 then SlotIn(c, line[BlockAt(c, pos)], OffsetAt(c, pos))
        else 0
  }

  lemma LineFinds(c: Config, x: WorkItem, width: nat, pos: nat)
    requires c.blockSize > 0 && |x.table| <= width && pos < Cap(c, |x.table|)
    ensures LineSlot(c, PaddedTable(x, width), pos) == Slot(c, x.table, pos)
  {
    assert BlockAt(c, pos) < |x.table| by { BlockBelow(c, pos, |x.table|); }
  }

  lemma BlockBelow(c: Config, pos: nat, n: nat)
    requires c.blockSize > 0 && pos < Cap(c, n)
    ensures BlockAt(c, pos) < n
  {
    if BlockAt(c, pos) >= n { CapMono(c, n, pos / c.blockSize); }
  }

  /** What attention reads through a line of the block table. */
  function Gathered(c: Config, mem: map<nat, Kv>, line: seq<int>, n: nat): seq<Kv> {
    seq(n, i requires 0 <= i => Read(mem, LineSlot(c, line, i)))
  }

  lemma GatheredTable(c: Config, mem: map<nat, Kv>, x: WorkItem, width: nat, n: nat)
    requires c.blockSize > 0 && |x.table| <= width && n <= Cap(c, |x.table|)
    ensures Gathered(c, mem, PaddedTable(x, width), n) == Attended(c, mem, x.table, n)
  {
    forall i | 0 <= i < n
      ensures Gathered(c, mem, PaddedTable(x, width), n)[i] == Attended(c, mem, x.table, n)[i]
    {
      LineFinds(c, x, width, i);
    }
  }

  lemma {:induction false} PaddedLine(items: seq<WorkItem>, width: nat, i: nat)
    requires i < |items|
    ensures |Padded(items, width)| == |items| * width
    ensures (i + 1) * width <= |items| * width
    ensures Padded(items, width)[i * width..(i + 1) * width] == PaddedTable(items[i], width)
    decreases |items|
  {
    var n := |items| - 1;
    var before := items[..n];
    PaddedSize(before, width);
    RowsFit(i, |items|, width);
    if i < n {
      PaddedLine(before, width, i);
      RowsFit(i, n, width);
    }
  }

  lemma {:induction false} PaddedSize(items: seq<WorkItem>, width: nat)
    ensures |Padded(items, width)| == |items| * width
    decreases |items|
  {
    if items != [] {
      PaddedSize(items[..|items| - 1], width);
      RowsFit(|items| - 1, |items|, width);
    }
  }

  lemma RowPosition(c: Config, x: WorkItem, t: nat)
    requires t < TokenCount(x)
    ensures RowOf(c, x, t).position == PositionOf(x, t)
    ensures RowOf(c, x, t).slot >= 0 ==> Translatable(c, x) ==> PositionOf(x, t) <= Cap(c, |x.table|)
  {
  }

  /** The rows of x stand in the columns from `first` on. */
  ghost predicate RowsAt(c: Config, tokenIds: seq<int>, positions: seq<int>, slots: seq<int>, x: WorkItem, first: nat) {
    && first + TokenCount(x) <= |tokenIds| == |positions| == |slots|
    && forall t: nat | t < TokenCount(x) ::
         positions[first + t] >= 0 && RowOf(c, x, t) == Row(tokenIds[first + t], positions[first + t], slots[first + t])
  }

  /** The rows of an item in the columns, at its offset. */
  lemma ItemRows(c: Config, tokenIds: seq<int>, positions: seq<int>, slots: seq<int>, items: seq<WorkItem>, i: nat)
    requires i < |items| && Columns(tokenIds, positions, slots, Rows(c, items))
    ensures RowsAt(c, tokenIds, positions, slots, items[i], Load(items[..i]))
  {
    hide Rows, RowOf;
    LoadPrefix(items, i);
    LoadMono(items, i + 1, |items|);
    assert items[..|items|] == items;
    var first := Load(items[..i]);
    forall t: nat | t < TokenCount(items[i])
      ensures positions[first + t] >= 0
      ensures RowOf(c, items[i], t) == Row(tokenIds[first + t], positions[first + t], slots[first + t])
    {
      RowAt(c, items, i, t);
    }
  }

  lemma ItemBounds(queryStart: seq<int>, contextLens: seq<int>, logitsIndices: seq<int>, items: seq<WorkItem>, i: nat)
    requires i < |items| && Headers(queryStart, contextLens, logitsIndices, items, |items|)
        && queryStart[|items|] == Load(items)
    ensures queryStart[i] == Load(items[..i]) && queryStart[i + 1] == Load(items[..i]) + TokenCount(items[i])
  {
    hide Sampled;
    LoadPrefix(items, i);
    if i + 1 == |items| { assert items[..i + 1] == items; }
  }

  /** One row more, through a line of the block table. */
  lemma RowNext(c: Config, mem: map<nat, Kv>, x: WorkItem, width: nat, t: nat)
    requires c.blockSize > 0 && Translatable(c, x) && |x.table| <= width && t < TokenCount(x)
    ensures var row := RowOf(c, x, t);
      var kv := Kv(row.token, Gathered(c, mem, PaddedTable(x, width), row.position));
      var mem' := if row.slot < 0 then mem else mem[row.slot := kv];
      RowsWritten(c, mem, x.table, RowsOf(c, x)[t..]) == RowsWritten(c, mem', x.table, RowsOf(c, x)[t + 1..])
  {
    hide Gathered, Attended, RowOf, PaddedTable;
    var row, rows := RowOf(c, x, t), RowsOf(c, x)[t..];
    assert rows[0] == row && rows[1..] == RowsOf(c, x)[t + 1..];
    RowPosition(c, x, t);
    if row.slot >= 0 { GatheredTable(c, mem, x, width, row.position); }
  }

  /** Runs the rows of one item. */
  method LaunchRows(c: Config, tokenIds: array<int>, positions: array<int>, slots: array<int>, line: seq<int>,
                    first: nat, count: nat, mem: map<nat, Kv>, ghost x: WorkItem)
    returns (m: map<nat, Kv>)
    requires c.blockSize > 0 && Translatable(c, x) && |x.table| <= |line| && line == PaddedTable(x, |line|)
    requires count == TokenCount(x) && RowsAt(c, tokenIds[..], positions[..], slots[..], x, first)
    ensures m == RowsWritten(c, mem, x.table, RowsOf(c, x))
  {
    hide RowsOf, RowOf, PaddedTable, RowsWritten, Gathered, Translatable, TokenCount;
    m := mem;
    var t := 0;
    RowsAll(c, x);
    while t < count
      invariant 0 <= t <= count
      invariant RowsWritten(c, m, x.table, RowsOf(c, x)[t..]) == RowsWritten(c, mem, x.table, RowsOf(c, x))
    {
      RowNext(c, m, x, |line|, t);
      var k := first + t;
      if slots[k] >= 0 {
        m := m[slots[k] := Kv(tokenIds[k], Gathered(c, m, line, positions[k]))];
      }
      t := t + 1;
    }
    NoRows(c, m, x.table);
  }

  /** Runs the rows of item i. */
  method LaunchItem(c: Config, p: PhysicalBatch, i: nat, mem: map<nat, Kv>,
                    ghost items: seq<WorkItem>, ghost active: map<SeqId, nat>)
    returns (m: map<nat, Kv>)
    requires c.blockSize > 0 && i < |items| && Describes(c, p, items, active) && Translatable(c, items[i])
    ensures m == RowsWritten(c, mem, items[i].table, RowsOf(c, items[i]))
  {
    hide Rows, RowsOf, RowOf, Padded, PaddedTable, LogitRows, Listed, Topmost, Sampled, RowsWritten, Columns, Headers;
    hide Load, Translatable, RowsAt;
    PaddedLine(items, p.maxBlocks, i);
    HeadersSizes(p.queryStart[..], p.contextLens[..], p.logitsIndices[..], items, |items|);
    ItemBounds(p.queryStart[..], p.contextLens[..], p.logitsIndices[..], items, i);
    ItemRows(c, p.tokenIds[..], p.positions[..], p.slots[..], items, i);
    var first, next := p.queryStart[i], p.queryStart[i + 1];
    var base := i * p.maxBlocks;
    RowsFit(i, |items|, p.maxBlocks);
    var line := p.blockTable[base..base + p.maxBlocks];
    m := LaunchRows(c, p.tokenIds, p.positions, p.slots, line, first, next - first, mem, items[i]);
  }

  /** model.forward, as far as the KV memory goes: all the rows of all the items. */
  method Launch(c: Config, p: PhysicalBatch, mem: map<nat, Kv>, ghost items: seq<WorkItem>, ghost active: map<SeqId,
          nat>)
    returns (m: map<nat, Kv>)
    requires c.blockSize > 0 && Describes(c, p, items, active) && forall i | 0 <= i < |items| ::
        Translatable(c, items[i])
    ensures m == ItemsWritten(c, mem, items)
  {
    hide Describes, Translatable, RowsOf, RowsWritten;
    m := mem;
    var i := 0;
    assert items[0..] == items;
    BatchSize(c, p, items, active);
    while i < |p.meta|
      invariant 0 <= i <= |p.meta|
      invariant ItemsWritten(c, m, items[i..]) == ItemsWritten(c, mem, items)
    {
      assert items[i..][0] == items[i] && items[i..][1..] == items[i + 1..];
      m := LaunchItem(c, p, i, m, items, active);
      i := i + 1;
    }
  }

  lemma BatchSize(c: Config, p: PhysicalBatch, items: seq<WorkItem>, active: map<SeqId, nat>)
    requires Describes(c, p, items, active)
    ensures |p.meta| == |items| && forall i | 0 <= i < |items| :: p.meta[i] == MetaOf(items[i])
  {
    hide Columns, Headers, Padded;
  }

  lemma RowsAll(c: Config, x: WorkItem)
    ensures |RowsOf(c, x)| == TokenCount(x) && RowsOf(c, x)[0..] == RowsOf(c, x) && RowsOf(c, x)[TokenCount(x)..] == []
  {
  }

  lemma NoRows(c: Config, mem: map<nat, Kv>, table: seq<BlockId>)
    ensures RowsWritten(c, mem, table, []) == mem
  {
  }
}

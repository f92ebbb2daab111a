/** Translation of a batch of work items into the flat arrays the device works on. */
module Translation {
  import opened Types
  import opened Engine
  import opened BatchLemmas

  /** One row of the flat batch: a token, its position, and the slot its KV goes to, or -1. */
  datatype Row = Row(token: Token, position: nat, slot: int)

  predicate WritesKv(x: WorkItem) {
    x.PrefillChunk? || x.writeKv
  }

  predicate SamplesToken(x: WorkItem) {
    x.PrefillChunk? ==> x.needsSample
  }

  /** Position of the t-th token of an item; a step that writes nothing re-reads the last position. */
  function PositionOf(x: WorkItem, t: nat): nat {
    if WritesKv(x) then x.context + t else if x.context == 0 then 0 else x.context - 1
  }

  function RowOf(c: Config, x: WorkItem, t: nat): Row
    requires t < TokenCount(x)
  {
    Row(if x.PrefillChunk? then x.tokens[t] else x.inputToken, PositionOf(x, t),
        if WritesKv(x) then Slot(c, x.table, PositionOf(x, t)) else -1)
  }

  function RowsOf(c: Config, x: WorkItem): seq<Row> {
    seq(TokenCount(x), t requires 0 <= t < TokenCount(x) => RowOf(c, x, t))
  }

  function Rows(c: Config, items: seq<WorkItem>): (r: seq<Row>)
    ensures |r| == Load(items)
  {
    if items == [] then [] else Rows(c, items[..|items| - 1]) + RowsOf(c, items[|items| - 1])
  }

  /** Number of sampled items. */
  function Sampled(items: seq<WorkItem>): nat {
    if items == [] then 0 else Sampled(items[..|items| - 1]) + if SamplesToken(items[|items| - 1]) then 1 else 0
  }

  /** The last row of every sampled item, in order. */
  function LogitRows(items: seq<WorkItem>): (r: seq<int>)
    ensures |r| == Sampled(items)
  {
    if items == [] then []
    else LogitRows(items[..|items| - 1]) + if SamplesToken(items[|items| - 1]) then [Load(items) - 1] else []
  }

  /** What translate asserts of its input. */
  predicate Translatable(c: Config, x: WorkItem) {
    && 0 < TokenCount(x) && x.table != [] && (x.DecodeOneToken? ==> !x.lateBind)
    && x.context + KvCount(x) <= Cap(c, |x.table|)
  }

  lemma LoadPrefix(items: seq<WorkItem>, i: nat)
    requires i < |items|
    ensures Load(items[..i + 1]) == Load(items[..i]) + TokenCount(items[i])
    ensures Sampled(items[..i + 1]) == Sampled(items[..i]) + if SamplesToken(items[i]) then 1 else 0
  {
    var pre := items[..i + 1];
    assert pre[..|pre| - 1] == items[..i] && pre[|pre| - 1] == items[i];
  }

  lemma {:induction false} LoadMono(items: seq<WorkItem>, i: nat, j: nat)
    requires i <= j <= |items|
    ensures Load(items[..i]) <= Load(items[..j]) && Sampled(items[..i]) <= Sampled(items[..j])
    decreases j - i
  {
    if i < j {
      LoadMono(items, i, j - 1);
      LoadPrefix(items, j - 1);
    }
  }

  lemma RowsPrefix(c: Config, items: seq<WorkItem>, i: nat)
    requires i < |items|
    ensures Rows(c, items[..i + 1]) == Rows(c, items[..i]) + RowsOf(c, items[i])
    ensures LogitRows(items[..i + 1]) == LogitRows(items[..i]) + if SamplesToken(items[i])
        then [Load(items[..i + 1]) - 1] else []
  {
    var pre := items[..i + 1];
    assert pre[..|pre| - 1] == items[..i] && pre[|pre| - 1] == items[i];
  }

  /** Each token of each item has its row, at the item's offset. */
  lemma {:induction false} RowAt(c: Config, items: seq<WorkItem>, i: nat, t: nat)
    requires i < |items| && t < TokenCount(items[i])
    ensures Load(items[..i]) + t < |Rows(c, items)| && Rows(c, items)[Load(items[..i]) + t] == RowOf(c, items[i], t)
    decreases |items|
  {
    var n := |items| - 1;
    if i == n {
      LoadPrefix(items, n);
      assert items[..n + 1] == items;
    } else {
      RowAt(c, items[..n], i, t);
      assert items[..n][..i] == items[..i];
    }
  }

  /** The k-th logits row is the row of the last token of the k-th sampled item. */
  lemma {:induction false} LogitRowAt(items: seq<WorkItem>, i: nat)
    requires i < |items| && SamplesToken(items[i])
    ensures Sampled(items[..i]) < |LogitRows(items)|
    ensures LogitRows(items)[Sampled(items[..i])] == Load(items[..i]) + TokenCount(items[i]) - 1
    decreases |items|
  {
    var n := |items| - 1;
    LoadPrefix(items, n);
    assert items[..n + 1] == items;
    if i < n {
      LogitRowAt(items[..n], i);
      assert items[..n][..i] == items[..i];
    }
  }

  // ---------------------------------------------------------------- the loops of the source

  datatype Mode = PrefillOnly | DecodeOnly | Mixed

  /** What the host keeps about an item to make up its result. */
  datatype ItemMeta = ItemMeta(seqId: SeqId, prefill: bool, tokens: nat, sampled: bool)

  datatype PhysicalBatch = PhysicalBatch(
    tokenIds: array<int>, positions: array<int>, slots: array<int>, blockTable: array<int>, maxBlocks: nat,
    queryStart: array<int>, contextLens: array<int>, logitsIndices: array<int>, logitsRows: seq<int>,
    meta: seq<ItemMeta>, stateSlots: seq<int>, mode: Mode, maxPosition: nat)

  function MetaOf(x: WorkItem): ItemMeta {
    ItemMeta(x.seqId, x.PrefillChunk?, TokenCount(x), SamplesToken(x))
  }

  /** Every item has its entry, and its state slot or -1. */
  ghost predicate Listed(meta: seq<ItemMeta>, stateSlots: seq<int>, items: seq<WorkItem>, active: map<SeqId, nat>) {
    && |meta| == |stateSlots| == |items|
    && forall i | 0 <= i < |items| ::
         && meta[i] == MetaOf(items[i])
         && stateSlots[i] == if items[i].seqId in active then active[items[i].seqId] else -1
  }

  /** The largest position any token has, and 0 if that is none. */
  ghost predicate Topmost(top: nat, items: seq<WorkItem>) {
    && (forall i, t | 0 <= i < |items| && 0 <= t < TokenCount(items[i]) :: PositionOf(items[i], t) <= top)
    && (top > 0 ==> exists i, t | 0 <= i < |items| && 0 <= t < TokenCount(items[i]) :: PositionOf(items[i], t) == top)
  }

  lemma TopmostNext(top: nat, items: seq<WorkItem>, x: WorkItem)
    requires Topmost(top, items) && 0 < TokenCount(x)
    ensures var last := PositionOf(x, TokenCount(x) - 1); Topmost(if top < last then last else top, items + [x])
  {
    var last := PositionOf(x, TokenCount(x) - 1);
    var top', all := if top < last then last else top, items + [x];
    forall i, t | 0 <= i < |all| && 0 <= t < TokenCount(all[i]) ensures PositionOf(all[i], t) <= top' {
      assert i < |items| ==> all[i] == items[i];
    }
    if top' > 0 {
      if top' == last {
        assert all[|items|] == x;
      } else {
        var i, t :| 0 <= i < |items| && 0 <= t < TokenCount(items[i]) && PositionOf(items[i], t) == top;
        assert all[i] == items[i];
      }
    }
  }

  /** translate: what stays on the host. */
  method TranslateMeta(items: seq<WorkItem>, active: map<SeqId, nat>)
    returns (meta: seq<ItemMeta>, stateSlots: seq<int>, mode: Mode, maxPosition: nat)
    requires forall i | 0 <= i < |items| :: 0 < TokenCount(items[i])
    ensures Listed(meta, stateSlots, items, active) && Topmost(maxPosition, items)
    ensures mode.DecodeOnly? <==> forall x :: x in items ==> x.DecodeOneToken?
    ensures mode.Mixed? <==>
        (exists x :: x in items && x.PrefillChunk?)
        && (exists x :: x in items && x.DecodeOneToken?)
  {
    meta, stateSlots, maxPosition := [], [], 0;
    var hasPrefill, hasDecode, i := false, false, 0;
    while i < |items|
      invariant 0 <= i <= |items|
      invariant Listed(meta, stateSlots, items[..i], active) && Topmost(maxPosition, items[..i])
      invariant hasPrefill <==> exists x :: x in items[..i] && x.PrefillChunk?
      invariant hasDecode <==> exists x :: x in items[..i] && x.DecodeOneToken?
    {
      hide Topmost, MetaOf;
      var x := items[i];
      assert items[..i + 1] == items[..i] + [x];
      TopmostNext(maxPosition, items[..i], x);
      meta := meta + [MetaOf(x)];
      stateSlots := stateSlots + [if x.seqId in active then active[x.seqId] else -1];
      hasPrefill, hasDecode := hasPrefill || x.PrefillChunk?, hasDecode || x.DecodeOneToken?;
      var last := PositionOf(x, TokenCount(x) - 1);
      if maxPosition < last { maxPosition := last; }
      i := i + 1;
    }
    assert items[..i] == items;
    mode := if hasPrefill && hasDecode then Mixed else if hasPrefill then PrefillOnly else DecodeOnly;
  }

  /** Sizes of the arrays, from a first pass over the items. */
  method Measure(items: seq<WorkItem>) returns (maxBlocks: nat, total: nat)
    ensures total == Load(items)
    ensures forall x :: x in items ==> |x.table| <= maxBlocks
    ensures maxBlocks > 0 ==> exists x :: x in items && |x.table| == maxBlocks
  {
    maxBlocks, total := 0, 0;
    var i := 0;
    while i < |items|
      invariant 0 <= i <= |items| && total == Load(items[..i])
      invariant forall j | 0 <= j < i :: |items[j].table| <= maxBlocks
      invariant maxBlocks > 0 ==> exists x :: x in items && |x.table| == maxBlocks
    {
      LoadPrefix(items, i);
      assert items[i] in items;
      if |items[i].table| > maxBlocks { maxBlocks := |items[i].table|; }
      total := total + TokenCount(items[i]);
      i := i + 1;
    }
    assert items[..i] == items;
  }

  /** The three columns hold the first n rows. */
  ghost predicate Columns(tokenIds: seq<int>, positions: seq<int>, slots: seq<int>, rows: seq<Row>) {
    && |rows| <= |tokenIds| == |positions| == |slots|
    && forall k | 0 <= k < |rows| ::
         tokenIds[k] == rows[k].token && positions[k] == rows[k].position && slots[k] == rows[k].slot
  }

  /** Writes the rows of one item at an offset. */
  method FillItem(c: Config, x: WorkItem, offset: nat, tokenIds: array<int>, positions: array<int>,
          slots: array<int>, ghost before: seq<Row>)
    requires c.blockSize > 0 && Translatable(c, x)
    requires tokenIds.Length == positions.Length == slots.Length && offset + TokenCount(x) <= tokenIds.Length
    requires tokenIds != positions && tokenIds != slots && positions != slots
    requires Columns(tokenIds[..], positions[..], slots[..], before) && |before| == offset
    modifies tokenIds, positions, slots
    ensures Columns(tokenIds[..], positions[..], slots[..], before + RowsOf(c, x))
  {
    var t := 0;
    while t < TokenCount(x)
      invariant 0 <= t <= TokenCount(x)
      invariant Columns(tokenIds[..], positions[..], slots[..], before + RowsOf(c, x)[..t])
    {
      hide Columns, Slot;
      var pos := PositionOf(x, t);
      var token := if x.PrefillChunk? then x.tokens[t] else x.inputToken;
      var slot: int := if WritesKv(x) then Slot(c, x.table, pos) else -1;
      ColumnsNext(c, x, t, tokenIds[..], positions[..], slots[..], before, token, pos, slot);
      tokenIds[offset + t] := token;
      positions[offset + t] := pos;
      slots[offset + t] := slot;
      t := t + 1;
    }
    assert RowsOf(c, x)[..t] == RowsOf(c, x);
  }

  lemma ColumnsNext(c: Config, x: WorkItem, t: nat, tokenIds: seq<int>, positions: seq<int>, slots: seq<int>,
          before: seq<Row>, token: int, pos: int, slot: int)
    requires t < TokenCount(x) && Columns(tokenIds, positions, slots, before + RowsOf(c, x)[..t])
    requires |before| + t < |tokenIds| == |positions| == |slots|
    requires pos >= 0 && Row(token, pos, slot) == RowOf(c, x, t)
    ensures var k := |before| + t;
      Columns(tokenIds[k := token], positions[k := pos], slots[k := slot], before + RowsOf(c, x)[..t + 1])
  {
    hide RowOf;
    assert RowsOf(c, x)[..t + 1] == RowsOf(c, x)[..t] + [RowOf(c, x, t)];
    assert before + RowsOf(c, x)[..t + 1] == before + RowsOf(c, x)[..t] + [RowOf(c, x, t)];
  }

  /** translate: the flat columns. */
  method TranslateRows(c: Config, items: seq<WorkItem>, total: nat) returns (tokenIds: array<int>,
          positions: array<int>, slots: array<int>)
    requires c.blockSize > 0 && total == Load(items) && forall i | 0 <= i < |items| :: Translatable(c, items[i])
    ensures fresh(tokenIds) && fresh(positions) && fresh(slots)
    ensures Columns(tokenIds[..], positions[..], slots[..], Rows(c, items)) && tokenIds.Length == total
  {
    tokenIds, positions, slots := new int[total], new int[total], new int[total];
    var offset, i := 0, 0;
    while i < |items|
      invariant 0 <= i <= |items| && offset == Load(items[..i])
      invariant Columns(tokenIds[..], positions[..], slots[..], Rows(c, items[..i]))
    {
      LoadPrefix(items, i);
      LoadMono(items, i + 1, |items|);
      assert items[..|items|] == items;
      RowsPrefix(c, items, i);
      FillItem(c, items[i], offset, tokenIds, positions, slots, Rows(c, items[..i]));
      offset := offset + TokenCount(items[i]);
      i := i + 1;
    }
    assert items[..i] == items;
  }

  /** The first i entries of the per-item columns are filled; no row is marked for sampling beyond. */
  ghost predicate Headers(queryStart: seq<int>, contextLens: seq<int>, logitsIndices: seq<int>, items: seq<WorkItem>,
          i: nat) {
    && |queryStart| == |items| + 1 && |contextLens| == |items| == |logitsIndices| && i <= |items|
    && (forall j | 0 <= j < i :: queryStart[j] == Load(items[..j]))
    && (forall j | 0 <= j < i :: contextLens[j] == items[j].context + if WritesKv(items[j]) then TokenCount(items[j])
      else 0)
    && (forall j | 0 <= j < i :: logitsIndices[j] == if SamplesToken(items[j]) then Sampled(items[..j]) else -1)
    && (forall j | i <= j < |items| :: logitsIndices[j] == -1)
  }

  lemma HeadersNext(queryStart: seq<int>, contextLens: seq<int>, logitsIndices: seq<int>, items: seq<WorkItem>, i: nat)
    requires Headers(queryStart, contextLens, logitsIndices, items, i) && i < |items|
    ensures var x := items[i];
      Headers(queryStart[i := Load(items[..i])], contextLens[i := x.context + if WritesKv(x) then TokenCount(x) else 0],
              if SamplesToken(x) then logitsIndices[i := Sampled(items[..i])] else logitsIndices, items, i + 1)
  {
    hide Load, Sampled;
  }

  /** translate: offsets, context lengths and the rows whose logits are sampled. */
  method TranslateItems(c: Config, items: seq<WorkItem>) returns (queryStart: array<int>, contextLens: array<int>,
          logitsIndices: array<int>, logitsRows: seq<int>)
    ensures fresh(queryStart) && fresh(contextLens) && fresh(logitsIndices)
    ensures Headers(queryStart[..], contextLens[..], logitsIndices[..], items, |items|)
    ensures queryStart[..][|items|] == Load(items) && logitsRows == LogitRows(items)
  {
    hide Headers, Load, Sampled, LogitRows;
    var n := |items|;
    queryStart, contextLens, logitsIndices := new int[n + 1], new int[n], new int[n](_ => -1);
    logitsRows := [];
    var offset, i := 0, 0;
    HeadersNone(queryStart[..], contextLens[..], logitsIndices[..], items);
    while i < n
      invariant 0 <= i <= n && offset == Load(items[..i]) && logitsRows == LogitRows(items[..i])
      invariant Headers(queryStart[..], contextLens[..], logitsIndices[..], items, i)
      invariant queryStart != contextLens && queryStart != logitsIndices && contextLens != logitsIndices
      invariant fresh(queryStart) && fresh(contextLens) && fresh(logitsIndices)
    {
      LoadPrefix(items, i);
      RowsPrefix(c, items, i);
      HeadersNext(queryStart[..], contextLens[..], logitsIndices[..], items, i);
      HeadersSizes(queryStart[..], contextLens[..], logitsIndices[..], items, i);
      var x := items[i];
      SetHeader(x, i, offset, |logitsRows|, queryStart, contextLens, logitsIndices);
      if SamplesToken(x) { logitsRows := logitsRows + [offset + TokenCount(x) - 1]; }
      offset := offset + TokenCount(x);
      i := i + 1;
    }
    assert items[..n] == items;
    HeadersEnd(queryStart[..], contextLens[..], logitsIndices[..], items, offset);
    HeadersSizes(queryStart[..], contextLens[..], logitsIndices[..], items, n);
    ghost var starts := queryStart[..];
    queryStart[n] := offset;
    assert queryStart[..] == starts[n := offset];
  }

  method SetHeader(x: WorkItem, i: nat, offset: nat, index: nat, queryStart: array<int>, contextLens: array<int>,
          logitsIndices: array<int>)
    requires i < queryStart.Length && i < contextLens.Length && i < logitsIndices.Length
    requires queryStart != contextLens && queryStart != logitsIndices && contextLens != logitsIndices
    modifies queryStart, contextLens, logitsIndices
    ensures queryStart[..] == old(queryStart[..])[i := offset]
    ensures contextLens[..] == old(contextLens[..])[i := x.context + if WritesKv(x) then TokenCount(x) else 0]
    ensures logitsIndices[..] == if SamplesToken(x) then old(logitsIndices[..])[i := index] else old(logitsIndices[..])
  {
    queryStart[i] := offset;
    contextLens[i] := x.context + if WritesKv(x) then TokenCount(x) else 0;
    if SamplesToken(x) { logitsIndices[i] := index; }
  }

  lemma HeadersNone(queryStart: seq<int>, contextLens: seq<int>, logitsIndices: seq<int>, items: seq<WorkItem>)
    requires |queryStart| == |items| + 1 && |contextLens| == |items| && logitsIndices == seq(|items|, _ => -1)
    ensures Headers(queryStart, contextLens, logitsIndices, items, 0)
    ensures Load(items[..0]) == 0 && LogitRows(items[..0]) == []
  {
  }

  lemma HeadersSizes(queryStart: seq<int>, contextLens: seq<int>, logitsIndices: seq<int>, items: seq<WorkItem>, i: nat)
    requires Headers(queryStart, contextLens, logitsIndices, items, i)
    ensures |queryStart| == |items| + 1 && |contextLens| == |items| == |logitsIndices|
  {
  }

  lemma HeadersEnd(queryStart: seq<int>, contextLens: seq<int>, logitsIndices: seq<int>, items: seq<WorkItem>,
          last: int)
    requires Headers(queryStart, contextLens, logitsIndices, items, |items|)
    ensures Headers(queryStart[|items| := last], contextLens, logitsIndices, items, |items|)
  {
    hide Load, Sampled;
  }

  // ---------------------------------------------------------------- block tables

  /** One table, padded with -1. */
  function PaddedTable(x: WorkItem, width: nat): (r: seq<int>)
    ensures |r| == width
  {
    seq(width, i requires 0 <= i < width => if i < |x.table| then x.table[i] as int else -1)
  }

  function Padded(items: seq<WorkItem>, width: nat): seq<int> {
    if items == [] then [] else Padded(items[..|items| - 1], width) + PaddedTable(items[|items| - 1], width)
  }

  lemma PaddedPrefix(items: seq<WorkItem>, width: nat, i: nat)
    requires i < |items|
    ensures Padded(items[..i + 1], width) == Padded(items[..i], width) + PaddedTable(items[i], width)
  {
    var pre := items[..i + 1];
    assert pre[..|pre| - 1] == items[..i] && pre[|pre| - 1] == items[i];
  }

  /** Copies one table into its line, which holds -1 everywhere. */
  method FillTable(x: WorkItem, base: nat, width: nat, blockTable: array<int>)
    requires base + width <= blockTable.Length && |x.table| <= width
    requires forall k | base <= k < blockTable.Length :: blockTable[k] == -1
    modifies blockTable
    ensures blockTable[..base + width] == old(blockTable[..base]) + PaddedTable(x, width)
    ensures forall k | base + width <= k < blockTable.Length :: blockTable[k] == -1
  {
    var b := 0;
    while b < |x.table|
      invariant 0 <= b <= |x.table|
      invariant forall k | 0 <= k < base :: blockTable[k] == old(blockTable[k])
      invariant forall k | base <= k < blockTable.Length :: blockTable[k] == if k < base + b then x.table[k - base]
          else -1
    {
      blockTable[base + b] := x.table[b];
      b := b + 1;
    }
  }

  /** translate: the block tables, one padded line per item. */
  method TranslateTables(items: seq<WorkItem>, width: nat) returns (blockTable: array<int>)
    requires forall i | 0 <= i < |items| :: |items[i].table| <= width
    ensures fresh(blockTable) && blockTable[..] == Padded(items, width)
  {
    var size := |items| * width;
    blockTable := new int[size](_ => -1);
    var base, i := 0, 0;
    while i < |items|
      invariant 0 <= i <= |items| && base == i * width && base <= size == blockTable.Length
      invariant blockTable[..base] == Padded(items[..i], width)
      invariant forall k | base <= k < blockTable.Length :: blockTable[k] == -1
    {
      hide Padded, PaddedTable;
      RowsFit(i, |items|, width);
      PaddedPrefix(items, width, i);
      FillTable(items[i], base, width, blockTable);
      base := base + width;
      i := i + 1;
    }
    assert items[..i] == items;
    assert blockTable[..base] == blockTable[..];
  }

  lemma RowsFit(i: nat, n: nat, width: nat)
    requires i < n
    ensures i * width + width == (i + 1) * width <= n * width
  {
    assert (i + 1) * width <= n * width;
  }

  /** The arrays of a physical batch are those of its items. */
  ghost predicate Describes(c: Config, r: PhysicalBatch, items: seq<WorkItem>, active: map<SeqId, nat>)
    reads r.tokenIds, r.positions, r.slots, r.blockTable, r.queryStart, r.contextLens, r.logitsIndices
  {
    && Columns(r.tokenIds[..], r.positions[..], r.slots[..], Rows(c, items)) && r.tokenIds.Length == Load(items)
    && Headers(r.queryStart[..], r.contextLens[..], r.logitsIndices[..], items, |items|)
    && r.queryStart[..][|items|] == Load(items) && r.logitsRows == LogitRows(items)
    && (forall i | 0 <= i < |items| :: |items[i].table| <= r.maxBlocks)
      && r.blockTable[..] == Padded(items, r.maxBlocks)
    && Listed(r.meta, r.stateSlots, items, active) && Topmost(r.maxPosition, items)
  }

  /** translate. */
  method Translate(c: Config, items: seq<WorkItem>, active: map<SeqId, nat>) returns (r: PhysicalBatch)
    requires c.blockSize > 0 && items != [] && forall i | 0 <= i < |items| :: Translatable(c, items[i])
    ensures Describes(c, r, items, active)
    ensures 0 < r.maxBlocks && exists x :: x in items && |x.table| == r.maxBlocks
    ensures r.mode.DecodeOnly? ==> Load(items) == |items|
  {
    hide Columns, Headers, Rows, LogitRows, Listed, Topmost, Padded;
    var maxBlocks, total := Measure(items);
    assert forall i | 0 <= i < |items| :: |items[i].table| <= maxBlocks by {
      forall i | 0 <= i < |items| ensures |items[i].table| <= maxBlocks { assert items[i] in items; }
    }
    assert maxBlocks >= |items[0].table| > 0;
    var tokenIds, positions, slots := TranslateRows(c, items, total);
    var queryStart, contextLens, logitsIndices, logitsRows := TranslateItems(c, items);
    var blockTable := TranslateTables(items, maxBlocks);
    var meta, stateSlots, mode, maxPosition := TranslateMeta(items, active);
    if mode.DecodeOnly? { OneEach(items); }
    r := PhysicalBatch(tokenIds, positions, slots, blockTable, maxBlocks, queryStart, contextLens, logitsIndices,
                       logitsRows, meta, stateSlots, mode, maxPosition);
  }

  lemma {:induction false} OneEach(items: seq<WorkItem>)
    requires forall x :: x in items ==> x.DecodeOneToken?
    ensures Load(items) == |items|
    decreases |items|
  {
    if items != [] {
      assert items[|items| - 1] in items;
      OneEach(items[..|items| - 1]);
    }
  }
}

/** Where a table writer cuts its entries into blocks. */
module TableCut {
  import opened Common
  import opened Codec
  import opened Block
  import opened WalRecord
  import opened Table
  import opened TableReader
  import opened TableSizes

  /** The blocks written so far and the entries of the pending one. */
  datatype Pieces = Pieces(groups: seq<seq<Item>>, cur: seq<Item>)

  function Estimate(items: seq<Item>, interval: nat): nat
    requires interval > 0
  {
    var b := BuildAll(items, interval);
    |b.buf| + 4 * |b.restarts| + 4
  }

  /** A block is closed by the entry that takes it to the target size. */
  function Cut(items: seq<Item>, interval: nat, blockSize: nat): Pieces
    requires interval > 0
  {
    if items == [] then Pieces([], [])
    else Closed(Cut(items[..|items| - 1], interval, blockSize), items[|items| - 1], interval, blockSize)
  }

  function Closed(p: Pieces, it: Item, interval: nat, blockSize: nat): Pieces
    requires interval > 0
  {
    var c := p.cur + [it];
    if Estimate(c, interval) >= blockSize then Pieces(p.groups + [c], []) else Pieces(p.groups, c)
  }

  /** The pending entries become the last block. */
  function Finished(p: Pieces): seq<seq<Item>> {
    if p.cur == [] then p.groups else p.groups + [p.cur]
  }

  function Blocks(items: seq<Item>, interval: nat, blockSize: nat): seq<seq<Item>>
    requires interval > 0
  {
    Finished(Cut(items, interval, blockSize))
  }

  lemma {:induction false} CutGrouped(items: seq<Item>, interval: nat, blockSize: nat)
    requires interval > 0
    ensures Grouped(Cut(items, interval, blockSize).groups) && Grouped(Blocks(items, interval, blockSize))
  {
    hide Estimate;
    if items != [] {
      CutGrouped(items[..|items| - 1], interval, blockSize);
    }
  }

  lemma {:induction false} ConcatOne(groups: seq<seq<Item>>, g: seq<Item>)
    ensures Concat(groups + [g]) == Concat(groups) + g
  {
    hide Concat;
    ConcatLast(groups + [g]);
    assert (groups + [g])[..|groups|] == groups;
  }

  /** Cutting loses and moves nothing. */
  lemma {:induction false} CutExact(items: seq<Item>, interval: nat, blockSize: nat)
    requires interval > 0
    ensures var p := Cut(items, interval, blockSize);
            Concat(p.groups) + p.cur == items && Concat(Blocks(items, interval, blockSize)) == items
  {
    hide Estimate, Concat;
    var p := Cut(items, interval, blockSize);
    if items == [] {
      NoGroups();
    } else {
      var n := |items| - 1;
      var q := Cut(items[..n], interval, blockSize);
      CutExact(items[..n], interval, blockSize);
      ConcatOne(q.groups, q.cur + [items[n]]);
      assert Concat(q.groups) + (q.cur + [items[n]]) == items[..n] + [items[n]] == items;
    }
    ConcatOne(p.groups, p.cur);
  }

  /** Later entries extend the pending block or start new ones; blocks written stay. */
  ghost predicate Continued(p: Pieces, q: Pieces) {
    && p.groups <= q.groups
    && (if |p.groups| == |q.groups| then p.cur <= q.cur else p.cur <= q.groups[|p.groups|])
  }

  lemma {:induction false} CutContinues(items: seq<Item>, n: nat, interval: nat, blockSize: nat)
    requires interval > 0 && n <= |items|
    ensures Continued(Cut(items[..n], interval, blockSize), Cut(items, interval, blockSize))
  {
    hide Estimate;
    if n == |items| {
      assert items[..n] == items;
    } else {
      var m := |items| - 1;
      CutContinues(items[..m], n, interval, blockSize);
      assert items[..m][..n] == items[..n];
    }
  }

  lemma {:induction false} LongerBlock(a: seq<Item>, b: seq<Item>, interval: nat)
    requires interval > 0 && a <= b
    ensures |BuildAll(a, interval).buf| <= |BuildAll(b, interval).buf|
  {
    hide BuildAll;
    OffRises(b, interval, |a|, |b|);
    assert b[..|a|] == a && b[..|b|] == b;
  }

  /** A block or the index has outgrown the 32 bits its offsets are written in. */
  ghost predicate Oversized(crc: Checksum, groups: seq<seq<Item>>, interval: nat)
    requires interval > 0 && Grouped(groups)
  {
    || (exists i | 0 <= i < |groups| :: |BuildAll(groups[i], interval).buf| > MAX_U32)
    || |BuildAll(IndexItems(crc, groups, interval), 1).buf| > MAX_U32
  }

  lemma IndexPrefix(crc: Checksum, a: seq<seq<Item>>, b: seq<seq<Item>>, interval: nat)
    requires interval > 0 && Grouped(a) && Grouped(b) && a <= b
    ensures IndexItems(crc, a, interval) <= IndexItems(crc, b, interval)
  {
    hide BlockOfGroup, DataBytes, PutHandle;
    assert forall i | 0 <= i < |a| :: a[..i] == b[..i];
  }

  /** When a writer runs out of room on the way, the blocks of all the entries are too large. */
  lemma {:induction false} NoRoomOversized(crc: Checksum, items: seq<Item>, n: nat, interval: nat, blockSize: nat)
    requires interval > 0 && n <= |items|
    requires var p := Cut(items[..n], interval, blockSize);
             Grouped(p.groups) && (|BuildAll(p.cur, interval).buf| > MAX_U32 || |BuildAll(IndexItems(crc, p.groups, interval), 1).buf| > MAX_U32)
    ensures Grouped(Blocks(items, interval, blockSize)) && Oversized(crc, Blocks(items, interval, blockSize), interval)
  {
    hide Cut, BuildAll, IndexItems;
    var p, q := Cut(items[..n], interval, blockSize), Cut(items, interval, blockSize);
    var all := Blocks(items, interval, blockSize);
    CutGrouped(items, interval, blockSize);
    CutContinues(items, n, interval, blockSize);
    if |BuildAll(p.cur, interval).buf| > MAX_U32 {
      NothingBuilt(interval);
      assert p.cur <= all[|p.groups|];
      LongerBlock(p.cur, all[|p.groups|], interval);
    } else {
      IndexPrefix(crc, p.groups, all, interval);
      LongerBlock(IndexItems(crc, p.groups, interval), IndexItems(crc, all, interval), 1);
    }
  }

  lemma {:induction false} NothingBuilt(interval: nat)
    requires interval > 0
    ensures BuildAll([], interval).buf == []
  {
  }

  /** Oversize takes heavy entries. */
  lemma {:induction false} OversizedHeavy(crc: Checksum, groups: seq<seq<Item>>, interval: nat)
    requires interval > 0 && Grouped(groups) && Oversized(crc, groups, interval)
    ensures Weight(Concat(groups)) > MAX_U32
  {
    hide BuildAll, Concat, IndexItems, Weight;
    if i :| 0 <= i < |groups| && |BuildAll(groups[i], interval).buf| > MAX_U32 {
      BuiltLength(groups[i], interval);
      GroupWeight(groups, i);
    } else if Weight(Concat(groups)) <= MAX_U32 {
      IndexLength(crc, groups, interval);
    }
  }
}

/** From a sorted run to table bytes and back, as long as every block fits the format. */
module TableTrip {
  import opened Common
  import opened Codec
  import opened Keys
  import opened InternalKey
  import opened Block
  import opened BlockIters
  import opened WalRecord
  import opened Table
  import opened TableReader
  import opened TableSizes
  import opened TableCut
  import opened TableWriter
  import opened TableRun
  import opened TableIters

  lemma {:induction false} ItemWeight(items: seq<Item>, k: nat)
    requires k < |items|
    ensures |items[k].key| + |items[k].value| <= Weight(items)
  {
    if k < |items| - 1 {
      ItemWeight(items[..|items| - 1], k);
    }
  }

  /** Light entries make a table of addressable sizes. */
  lemma {:induction false} SizesWithin(crc: Checksum, groups: seq<seq<Item>>, interval: nat, filter: Bytes)
    requires interval > 0 && Grouped(groups) && Weight(Concat(groups)) + 12 <= MAX_I32 && |filter| <= MAX_I32
    ensures SizesOk(crc, FileBytes(crc, DataBytes(crc, groups, interval), filter, IndexBlock(crc, groups, interval)), groups, interval, filter)
  {
    hide Weight, Concat, DataBytes, BuildAll, IndexItems, Footer;
    DataLength(crc, groups, interval);
    IndexLength(crc, groups, interval);
    forall i | 0 <= i < |groups|
      ensures |BlockOfGroup(groups[i], interval)| <= MAX_I32
      ensures forall k | 0 <= k < |groups[i]| :: |groups[i][k].key| < TWO_64 && |groups[i][k].value| < TWO_64
    {
      GroupWeight(groups, i);
      BlockLength(groups[i], interval);
      forall k | 0 <= k < |groups[i]|
        ensures |groups[i][k].key| < TWO_64 && |groups[i][k].value| < TWO_64
      {
        ItemWeight(groups[i], k);
      }
    }
  }

  function TableBytes(crc: Checksum, groups: seq<seq<Item>>, interval: nat, filter: Bytes): Bytes
    requires interval > 0 && Grouped(groups)
  {
    FileBytes(crc, DataBytes(crc, groups, interval), filter, IndexBlock(crc, groups, interval))
  }

  /** Each block, the index and the filter are within what a reader takes in one piece,
      and file offsets within 64 bits; the table as a whole may be of any size. */
  ghost predicate WithinLimits(crc: Checksum, run: seq<Record>, interval: nat, blockSize: nat, bitsPerKey: nat)
    requires interval > 0
  {
    var groups := RunBlocks(run, interval, blockSize);
    && Grouped(groups)
    && |IndexBlock(crc, groups, interval)| <= MAX_I32
    && (forall i | 0 <= i < |groups| :: |BlockOfGroup(groups[i], interval)| <= MAX_I32)
    && (forall i | 0 <= i < |run| :: |run[i].key| < MAX_I32 && |run[i].value| < MAX_I32)
    && |DataBytes(crc, groups, interval)| < TWO_63
    && Bloom.ArrayBytes(|run|, bitsPerKey) * 8 < Bloom.TWO_32
  }

  const TWO_63: nat := 0x8000_0000_0000_0000

  lemma LimitsFit(crc: Checksum, run: seq<Record>, interval: nat, blockSize: nat, bitsPerKey: nat, filter: Bytes)
    requires interval > 0 && WithinLimits(crc, run, interval, blockSize, bitsPerKey) && |filter| == Bloom.ArrayBytes(|run|, bitsPerKey) + 1
    requires Concat(RunBlocks(run, interval, blockSize)) == ItemsOf(run)
    ensures var groups := RunBlocks(run, interval, blockSize);
            SizesOk(crc, TableBytes(crc, groups, interval, filter), groups, interval, filter)
  {
    hide Concat, DataBytes, IndexBlock, BlockOfGroup, RunBlocks, Footer, Encode;
    var groups: seq<seq<Item>> := RunBlocks(run, interval, blockSize);
    forall i: int, k: int | 0 <= i < |groups| && 0 <= k < |groups[i]|
      ensures |groups[i][k].key| < TWO_64 && |groups[i][k].value| < TWO_64
    {
      ItemAt(groups, i, k);
    }
  }

  /** Blocks a reader takes are blocks a writer can address. */
  lemma LimitsRoom(crc: Checksum, run: seq<Record>, interval: nat, blockSize: nat, bitsPerKey: nat)
    requires interval > 0 && WithinLimits(crc, run, interval, blockSize, bitsPerKey)
    ensures !Oversized(crc, RunBlocks(run, interval, blockSize), interval)
  {
    hide BuildAll, IndexItems, RunBlocks, DataBytes;
    var groups := RunBlocks(run, interval, blockSize);
    forall i | 0 <= i < |groups|
      ensures |BuildAll(groups[i], interval).buf| <= MAX_U32
    {
      assert |BlockOfGroup(groups[i], interval)| <= MAX_I32;
    }
  }

  /** Writes a run as a table, opens the bytes, looks a key up and reads everything back. */
  method WriteAndRead(crc: Checksum, hash: Hash, run: seq<Record>, interval: nat, blockSize: nat, bitsPerKey: nat, probes: nat, key: Bytes, s: nat)
    returns (found: GetResult, all: seq<Item>)
    requires Ascending(run) && Sequenced(run) && s <= MAX_SEQ && interval > 0 && 1 <= probes <= Bloom.MAX_PROBES
    requires WithinLimits(crc, run, interval, blockSize, bitsPerKey)
    ensures found == ResultOf(RunGet(run, key, s))
    ensures all == ItemsOf(run)
  {
    hide Concat, DataBytes, IndexBlock, FileBytes, OffsetsOk, FilterCovers, TableOf, Lookup, RunGet, Ascending, IndexOk, OpenOn, ExpectedIndex,
         IndexItems, SizesOk, Oversized, RunBlocks, BlockOfGroup;
    LimitsRoom(crc, run, interval, blockSize, bitsPerKey);
    var file, filter := WriteRun(crc, hash, run, interval, blockSize, bitsPerKey, probes);
    ghost var groups := RunBlocks(run, interval, blockSize);
    LimitsFit(crc, run, interval, blockSize, bitsPerKey, filter);
    TableAnswers(crc, hash, run, file.value, groups, interval, filter, key, s);
    var r := TableReader.Open(crc, file.value, groups, interval, filter);
    found := TableReader.Get(crc, hash, r.value, key, s, groups, interval);
    OpenedOn(crc, r.value, groups, interval, filter);
    all := ReadAll(crc, r.value, groups, interval);
  }

  /** Light runs are within the limits wherever their blocks are cut. */
  lemma LightFits(crc: Checksum, run: seq<Record>, interval: nat, blockSize: nat, bitsPerKey: nat)
    requires interval > 0 && Weight(ItemsOf(run)) + 12 <= MAX_I32 && Bloom.ArrayBytes(|run|, bitsPerKey) * 8 < Bloom.TWO_32
    ensures WithinLimits(crc, run, interval, blockSize, bitsPerKey)
  {
    hide Weight, Concat, DataBytes, BuildAll, IndexItems, FileBytes, RunBlocks, Cut, Encode;
    BlocksGrouped(run, interval, blockSize);
    var groups := RunBlocks(run, interval, blockSize);
    SizesWithin(crc, groups, interval, []);
    DataLength(crc, groups, interval);
    forall i | 0 <= i < |run|
      ensures |run[i].key| < MAX_I32 && |run[i].value| < MAX_I32
    {
      ItemWeight(ItemsOf(run), i);
    }
  }

  lemma BlocksGrouped(run: seq<Record>, interval: nat, blockSize: nat)
    requires interval > 0
    ensures Grouped(RunBlocks(run, interval, blockSize)) && Concat(RunBlocks(run, interval, blockSize)) == ItemsOf(run)
  {
    CutGrouped(ItemsOf(run), interval, blockSize);
    CutExact(ItemsOf(run), interval, blockSize);
  }

  lemma OpenedOn(crc: Checksum, r: Reader, groups: seq<seq<Item>>, interval: nat, filter: Bytes)
    requires TableOf(crc, r.file, groups, interval, filter) && r.filter == filter && interval > 0 && Grouped(groups)
    requires r.index == ExpectedIndex(crc, groups, interval)
    ensures OpenOn(crc, r, groups, interval)
  {
    hide TableOf, ExpectedIndex;
  }
}

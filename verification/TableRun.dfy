/** A sorted run written as a table: every lookup and every scan of the bytes
    answers as the run does. */
module TableRun {
  import opened Common
  import opened Codec
  import opened Keys
  import opened InternalKey
  import opened Block
  import opened BlockIters
  import opened WalRecord
  import opened Table
  import opened TableReader
  import opened TableWriter
  import opened TableSizes
  import opened TableCut

  function ItemOf(r: Record): Item {
    Item(Encode(KeyOf(r)), r.value)
  }

  function ItemsOf(run: seq<Record>): (items: seq<Item>)
    ensures |items| == |run|
  {
    seq(|run|, i requires 0 <= i < |run| => ItemOf(run[i]))
  }

  ghost predicate Sequenced(run: seq<Record>) {
    forall i | 0 <= i < |run| :: run[i].seqno <= MAX_SEQ
  }

  lemma RunItemsAscend(run: seq<Record>)
    requires Ascending(run) && Sequenced(run)
    ensures KeysAscend(ItemsOf(run)) && WellKeyed(ItemsOf(run))
  {
    hide Encode, Compare, RecLess, Decode;
    var items := ItemsOf(run);
    forall i, j | 0 <= i < j < |items|
      ensures EncLess(items[i].key, items[j].key)
    {
      CompareIsOrder(run[i], run[j]);
    }
    forall i | 0 <= i < |items|
      ensures Decode(items[i].key).Some?
    {
      KeyRoundTrip(KeyOf(run[i]));
    }
  }

  function ResultOf(r: Option<Record>): GetResult {
    if r.None? then NotFound else Found(r.value.value, r.value.kind)
  }

  lemma SeekOrder(r: Record, k: Bytes, s: nat)
    requires r.seqno <= MAX_SEQ && s <= MAX_SEQ
    ensures EncLess(Encode(KeyOf(r)), Encode(SeekKey(k, s))) <==> RecLess(r, Record(k, s, Put, []))
    ensures Decode(Encode(KeyOf(r))) == Some(KeyOf(r))
  {
    hide Compare, RecLess, Decode, Encode;
    CompareIsOrder(r, Record(k, s, Put, []));
    KeyRoundTrip(KeyOf(r));
    assert KeyOf(Record(k, s, Put, [])) == SeekKey(k, s);
  }

  /** The first entry from the seek key on decides the lookup, as the run's newest visible version does. */
  lemma {:induction false} LookupIsRunGet(run: seq<Record>, k: Bytes, s: nat)
    requires Ascending(run) && Sequenced(run) && s <= MAX_SEQ
    ensures Lookup(ItemsOf(run), k, s) == ResultOf(RunGet(run, k, s))
  {
    hide Encode, Decode, EncLess, KeyLess;
    if run != [] {
      var r, q := run[0], Record(k, s, Put, []);
      var items := ItemsOf(run);
      assert items[1..] == ItemsOf(run[1..]);
      SeekOrder(r, k, s);
      KeyIrreflexive(k);
      if r.key == k && r.seqno <= s {
      } else if RecLess(r, q) {
        LookupIsRunGet(run[1..], k, s);
      } else {
        KeyTotal(r.key, k);
        assert KeyLess(k, r.key);
        assert RunGet(run, k, s).None? by { PastKey(run, k, s); }
      }
    }
  }

  /** A run that starts past a key does not hold it. */
  lemma {:induction false} PastKey(run: seq<Record>, k: Bytes, s: nat)
    requires Ascending(run) && run != [] && KeyLess(k, run[0].key)
    ensures RunGet(run, k, s).None?
  {
    hide KeyLess, RunGet;
    var g := RunGet(run, k, s);
    if g.Some? {
      var i :| 0 <= i < |run| && run[i] == g.value;
      KeyIrreflexive(k);
      if i > 0 {
        assert RecLess(run[0], run[i]);
        KeyAsymmetric(k, run[0].key);
      }
    }
  }

  /** Sizes within what the format can address. */
  ghost predicate SizesOk(crc: Checksum, file: Bytes, groups: seq<seq<Item>>, interval: nat, filter: Bytes)
    requires interval > 0 && Grouped(groups)
  {
    && |file| < TWO_64 && |filter| <= MAX_I32 && |IndexBlock(crc, groups, interval)| <= MAX_I32
    && (forall i, k | 0 <= i < |groups| && 0 <= k < |groups[i]| :: |groups[i][k].key| < TWO_64 && |groups[i][k].value| < TWO_64)
    && (forall i | 0 <= i < |groups| :: |BlockOfGroup(groups[i], interval)| <= MAX_I32)
  }

  /** Table format correctness: a file the writer finished, of a sorted run within the
      size limits, is a table whose lookups are exactly the run's. */
  lemma {:induction false} TableAnswers(crc: Checksum, hash: Hash, run: seq<Record>, file: Bytes, groups: seq<seq<Item>>, interval: nat, filter: Bytes,
                     k: Bytes, s: nat)
    requires Ascending(run) && Sequenced(run) && s <= MAX_SEQ && interval > 0 && Grouped(groups)
    requires Concat(groups) == ItemsOf(run)
    requires file == FileBytes(crc, DataBytes(crc, groups, interval), filter, IndexBlock(crc, groups, interval))
    requires (forall i | 0 <= i < |groups| :: OffsetsOk(groups[i], interval)) && OffsetsOk(IndexItems(crc, groups, interval), 1)
    requires SizesOk(crc, file, groups, interval, filter)
    ensures TableOf(crc, file, groups, interval, filter) && WellKeyed(Concat(groups))
    ensures Lookup(Concat(groups), k, s) == ResultOf(RunGet(run, k, s))
  {
    hide Concat, DataBytes, FileBytes, BuildAll, Lookup, RunGet, EncLess, Decode, Encode;
    RunItemsAscend(run);
    LookupIsRunGet(run, k, s);
    forall i | 0 <= i < |groups|
      ensures Encodable(groups[i], interval)
    {
      GroupEncodable(crc, file, run, groups, interval, filter, i);
    }
    IndexEncodable(crc, file, run, groups, interval, filter);
  }

  lemma {:induction false} RunItemKey(run: seq<Record>, groups: seq<seq<Item>>, i: nat, k: nat)
    requires Concat(groups) == ItemsOf(run) && i < |groups| && k < |groups[i]|
    ensures |groups[i][k].key| >= TRAILER_LEN
  {
    hide Concat, Encode;
    ItemAt(groups, i, k);
  }

  lemma {:induction false} GroupEncodable(crc: Checksum, file: Bytes, run: seq<Record>, groups: seq<seq<Item>>, interval: nat, filter: Bytes, i: nat)
    requires interval > 0 && Grouped(groups) && Concat(groups) == ItemsOf(run) && i < |groups|
    requires OffsetsOk(groups[i], interval) && SizesOk(crc, file, groups, interval, filter)
    ensures Encodable(groups[i], interval)
  {
    hide Concat, BuildAll, IndexBlock, BlockOfGroup, Off;
    forall k | 0 <= k < |groups[i]|
      ensures TRAILER_LEN <= |groups[i][k].key| < TWO_64 && |groups[i][k].value| < TWO_64
    {
      RunItemKey(run, groups, i, k);
    }
  }

  lemma {:induction false} IndexEncodable(crc: Checksum, file: Bytes, run: seq<Record>, groups: seq<seq<Item>>, interval: nat, filter: Bytes)
    requires interval > 0 && Grouped(groups) && Concat(groups) == ItemsOf(run)
    requires OffsetsOk(IndexItems(crc, groups, interval), 1) && SizesOk(crc, file, groups, interval, filter)
    requires file == FileBytes(crc, DataBytes(crc, groups, interval), filter, IndexBlock(crc, groups, interval))
    ensures Encodable(IndexItems(crc, groups, interval), 1)
  {
    hide Concat, DataBytes, FileBytes, BuildAll, IndexBlock, BlockOfGroup, Off;
    var items := IndexItems(crc, groups, interval);
    forall i | 0 <= i < |items|
      ensures TRAILER_LEN <= |items[i].key| < TWO_64 && |items[i].value| < TWO_64
    {
      RunItemKey(run, groups, i, |groups[i]| - 1);
      GroupInFile(crc, groups, interval, filter, IndexBlock(crc, groups, interval), i);
      HandleWidth(HandleAt(crc, groups, interval, i));
    }
  }

  // ---------------------------------------------------------- writing a run

  /** The blocks a run is written in. */
  function RunBlocks(run: seq<Record>, interval: nat, blockSize: nat): seq<seq<Item>>
    requires interval > 0
  {
    Blocks(ItemsOf(run), interval, blockSize)
  }

  /** Streams a run into a table, as a flush does. It is refused only when one of its blocks
      or the index outgrows its offsets, or the filter its hashes. */
  method WriteRun(crc: Checksum, hash: Hash, run: seq<Record>, interval: nat, blockSize: nat, bitsPerKey: nat, probes: nat)
    returns (file: Option<Bytes>, ghost filter: Bytes)
    requires Ascending(run) && Sequenced(run) && interval > 0 && 1 <= probes <= Bloom.MAX_PROBES
    ensures Grouped(RunBlocks(run, interval, blockSize))
    ensures file.None? ==> Oversized(crc, RunBlocks(run, interval, blockSize), interval)
                           || Bloom.ArrayBytes(|run|, bitsPerKey) * 8 >= Bloom.TWO_32
    ensures file.Some? ==>
              var groups := RunBlocks(run, interval, blockSize);
              && Concat(groups) == ItemsOf(run)
              && file.value == FileBytes(crc, DataBytes(crc, groups, interval), filter, IndexBlock(crc, groups, interval))
              && FilterCovers(hash, filter, Concat(groups)) && |filter| == Bloom.ArrayBytes(|run|, bitsPerKey) + 1
              && (forall i | 0 <= i < |groups| :: OffsetsOk(groups[i], interval)) && OffsetsOk(IndexItems(crc, groups, interval), 1)
  {
    hide Encode, EncLess, FileBytes, DataBytes, IndexItems, IndexBlock, Writer.Valid, Concat, OffsetsOk, FilterCovers, Ascending, Oversized, Cut;
    RunItemsAscend(run);
    CutGrouped(ItemsOf(run), interval, blockSize);
    var w := new Writer(crc, hash, interval, blockSize, bitsPerKey, probes);
    filter := [];
    var i := 0;
    while i < |run|
      invariant 0 <= i <= |run| && w.Valid() && !w.err && !w.done && w.AsCut() && fresh(w) && fresh(w.data) && fresh(w.index)
      invariant w.Items() == ItemsOf(run[..i])
    {
      var it := ItemOf(run[i]);
      assert ItemsOf(run[..i + 1]) == ItemsOf(run[..i]) + [it];
      NextKey(w, run, i);
      if |w.data.buf| > MAX_U32 || |w.index.buf| > MAX_U32 {
        Stopped(w, run, i);
      }
      var ok := w.Add(it.key, it.value);
      if !ok {
        return None, filter;
      }
      i := i + 1;
    }
    assert run[..|run|] == run;
    if |w.index.buf| > MAX_U32 {
      Stopped(w, run, i);
    }
    file, filter := w.Finish();
  }

  /** A writer with no room left on the way: the run's blocks are too large. */
  lemma Stopped(w: Writer, run: seq<Record>, i: nat)
    requires w.Valid() && !w.err && !w.done && w.AsCut() && i <= |run| && w.Items() == ItemsOf(run[..i])
    requires |w.data.buf| > MAX_U32 || |w.index.buf| > MAX_U32
    ensures var groups := RunBlocks(run, w.interval, w.blockSize);
            Grouped(groups) && Oversized(w.crc, groups, w.interval)
  {
    hide Encode, EncLess, Concat, Oversized, Cut, BuildAll, DataBytes, OffsetsOk, IndexItems, HashesOf, KeysAscend, FullKeys;
    var items := ItemsOf(run);
    assert items[..i] == ItemsOf(run[..i]);
    NoRoomOversized(w.crc, items, i, w.interval, w.blockSize);
  }

  /** The run's next key is one the writer takes. */
  lemma NextKey(w: Writer, run: seq<Record>, i: nat)
    requires w.Valid() && !w.err && !w.done && i < |run| && w.Items() == ItemsOf(run[..i]) && KeysAscend(ItemsOf(run))
    ensures |ItemOf(run[i]).key| >= TRAILER_LEN && (w.numEntries > 0 ==> EncLess(w.lastKey, ItemOf(run[i]).key))
  {
    hide EncLess, BuildAll, DataBytes, Concat, OffsetsOk, IndexItems, HashesOf, BlockBuilder.Holds, FullKeys;
    var items := ItemsOf(run);
    if i > 0 {
      assert EncLess(items[i - 1].key, items[i].key);
    }
  }
}

/** Writing a table: entries stream in, blocks are cut, and the finished file is
    one a reader answers from exactly. */
module TableWriter {
  import opened Common
  import opened Codec
  import opened Keys
  import opened InternalKey
  import opened Block
  import opened BlockIters
  import opened WalRecord
  import opened Table
  import opened TableReader
  import opened TableCut
  import opened Bloom

  function HashOf(hash: Hash, it: Item): (h: nat)
    requires |it.key| >= TRAILER_LEN
    ensures h < TWO_32
  {
    hash(UserOf(it.key)) as nat
  }

  function HashesOf(hash: Hash, items: seq<Item>): (hs: seq<nat>)
    requires forall i | 0 <= i < |items| :: |items[i].key| >= TRAILER_LEN
    ensures |hs| == |items| && forall i | 0 <= i < |hs| :: hs[i] < TWO_32
  {
    seq(|items|, i requires 0 <= i < |items| => HashOf(hash, items[i]))
  }

  ghost predicate FullKeys(items: seq<Item>) {
    forall i | 0 <= i < |items| :: |items[i].key| >= TRAILER_LEN
  }

  /** Every entry starts within the restart offsets' range. */
  ghost predicate OffsetsOk(items: seq<Item>, interval: nat)
    requires interval > 0
  {
    forall i | 0 <= i < |items| :: Off(items, interval, i) <= MAX_U32
  }

  function LastKeyOf(items: seq<Item>): Bytes {
    if items == [] then [] else items[|items| - 1].key
  }

  function BytesOf(f: Filter): (b: Bytes)
    ensures |b| == |f|
  {
    seq(|f|, i requires 0 <= i < |f| => f[i] as int as byte)
  }

  lemma FilterRoundTrip(f: Filter)
    ensures FilterOf(BytesOf(f)) == f
  {
    forall i | 0 <= i < |f|
      ensures FilterOf(BytesOf(f))[i] == f[i]
    {
      ByteRoundTrip(f[i]);
    }
  }

  lemma ByteRoundTrip(x: bv8)
    ensures ((x as int) as byte) as bv8 == x
  {
  }

  lemma {:induction false} OffsetsGrow(items: seq<Item>, it: Item, interval: nat)
    requires interval > 0 && OffsetsOk(items, interval) && |BuildAll(items, interval).buf| <= MAX_U32
    ensures OffsetsOk(items + [it], interval)
  {
    hide BuildAll;
    var now := items + [it];
    forall i | 0 <= i < |now|
      ensures Off(now, interval, i) <= MAX_U32
    {
      assert now[..|items|] == items;
      if i < |items| {
        assert now[..i] == items[..i] && Off(now, interval, i) == Off(items, interval, i);
      }
    }
  }

  /** What has been written and kept is of exactly the items added. */
  ghost predicate Summary(crc: Checksum, hash: Hash, interval: nat, groups: seq<seq<Item>>, cur: seq<Item>,
                          dst: Bytes, hashes: seq<nat>, numEntries: nat, lastKey: Bytes) {
    var items := Concat(groups) + cur;
    && interval > 0 && Grouped(groups) && FullKeys(items) && KeysAscend(items)
    && (forall i | 0 <= i < |groups| :: OffsetsOk(groups[i], interval)) && OffsetsOk(cur, interval)
    && OffsetsOk(IndexItems(crc, groups, interval), 1)
    && dst == DataBytes(crc, groups, interval)
    && hashes == HashesOf(hash, items) && numEntries == |items| && lastKey == LastKeyOf(items)
  }

  lemma SummaryPush(crc: Checksum, hash: Hash, interval: nat, groups: seq<seq<Item>>, cur: seq<Item>,
                    dst: Bytes, hashes: seq<nat>, numEntries: nat, lastKey: Bytes, it: Item)
    requires Summary(crc, hash, interval, groups, cur, dst, hashes, numEntries, lastKey)
    requires |it.key| >= TRAILER_LEN && (numEntries > 0 ==> EncLess(lastKey, it.key)) && OffsetsOk(cur + [it], interval)
    ensures Summary(crc, hash, interval, groups, cur + [it], dst, hashes + [HashOf(hash, it)], numEntries + 1, it.key)
  {
    hide EncLess, BuildAll, DataBytes, Concat, OffsetsOk, IndexItems, HashesOf, KeysAscend, FullKeys;
    var items := Concat(groups) + cur;
    ItemsGrow(items, it, lastKey);
    HashesGrow(hash, items, it);
    assert Concat(groups) + (cur + [it]) == items + [it];
  }

  lemma {:induction false} SummaryFlush(crc: Checksum, hash: Hash, interval: nat, groups: seq<seq<Item>>, cur: seq<Item>,
                     dst: Bytes, hashes: seq<nat>, numEntries: nat, lastKey: Bytes)
    requires Summary(crc, hash, interval, groups, cur, dst, hashes, numEntries, lastKey) && cur != []
    requires var h := PutHandle(Handle(|dst|, |BlockOfGroup(cur, interval)|));
             OffsetsOk(IndexItems(crc, groups, interval) + [Item(lastKey, h)], 1)
    ensures Summary(crc, hash, interval, groups + [cur], [], dst + Sealed(crc, BlockOfGroup(cur, interval)), hashes, numEntries, lastKey)
    ensures Concat(groups + [cur]) == Concat(groups) + cur
    ensures IndexItems(crc, groups + [cur], interval)
            == IndexItems(crc, groups, interval) + [Item(lastKey, PutHandle(Handle(|dst|, |BlockOfGroup(cur, interval)|)))]
  {
    hide EncLess, BuildAll, DataBytes, Concat, OffsetsOk, IndexItems, HashesOf, KeysAscend, FullKeys, Sealed, BlockOfGroup, PutHandle;
    Regroup(crc, groups, cur, interval);
    NoOffsets(interval);
    LastOfCur(groups, cur);
    assert Concat(groups + [cur]) + [] == Concat(groups) + cur;
  }

  class Writer {
    const crc: Checksum
    const hash: Hash
    const interval: nat
    const blockSize: nat
    const bitsPerKey: nat
    const probes: nat
    const data: BlockBuilder
    const index: BlockBuilder
    var dst: Bytes
    var hashes: seq<nat>
    var numEntries: nat
    var smallest: Bytes
    var lastKey: Bytes
    var err: bool
    var done: bool
    ghost var groups: seq<seq<Item>>
    ghost var cur: seq<Item>

    /** All entries added so far. */
    ghost function Items(): seq<Item>
      reads this
    {
      Concat(groups) + cur
    }

    /** What holds until an error: the builders and the bytes written say what was added. */
    ghost predicate Open()
      reads this, data, index
    {
      && !err && !done && !data.overflowed && !index.overflowed
      && Summary(crc, hash, interval, groups, cur, dst, hashes, numEntries, lastKey)
      && data.Holds(cur) && index.Holds(IndexItems(crc, groups, interval))
    }

    ghost predicate Valid()
      reads this, data, index
    {
      && interval > 0 && data.interval == interval && index.interval == 1 && data != index
      && 1 <= probes <= MAX_PROBES
      && (!err && !done ==> Open())
    }

    /** The blocks written and pending are where the target size cuts the entries. */
    ghost predicate AsCut()
      requires interval > 0
      reads this
    {
      Pieces(groups, cur) == Cut(Items(), interval, blockSize)
    }

    constructor (crc: Checksum, hash: Hash, interval: nat, blockSize: nat, bitsPerKey: nat, probes: nat)
      requires interval > 0 && 1 <= probes <= MAX_PROBES
      ensures Valid() && fresh(data) && fresh(index) && Items() == [] && !err && !done && AsCut() && this.blockSize == blockSize
      ensures this.crc == crc && this.hash == hash && this.interval == interval && this.bitsPerKey == bitsPerKey && this.probes == probes
    {
      this.crc, this.hash, this.interval, this.blockSize, this.bitsPerKey, this.probes := crc, hash, interval, blockSize, bitsPerKey, probes;
      data := new BlockBuilder(interval);
      index := new BlockBuilder(1);
      dst, hashes, numEntries, smallest, lastKey, err, done := [], [], 0, [], [], false, false;
      groups, cur := [], [];
    }

    /** Appends an entry whose key must be past every key before it. */
    method Add(key: Bytes, value: Bytes) returns (ok: bool)
      requires Valid()
      modifies this, data, index
      ensures Valid() && done == old(done)
      ensures ok ==> !err && !done && Items() == old(Items()) + [Item(key, value)]
      ensures ok && old(AsCut()) ==> AsCut()
      ensures !ok ==> err || done
      ensures old(err || done) || |key| < TRAILER_LEN || (old(numEntries) > 0 && !EncLess(old(lastKey), key)) ==> !ok
      ensures !ok ==> old(err || done) || |key| < TRAILER_LEN || (old(numEntries) > 0 && !EncLess(old(lastKey), key))
                      || old(|data.buf|) > MAX_U32 || old(|index.buf|) > MAX_U32
    {
      hide EncLess, Summary, Concat, BuildAll;
      LastKnown(this);
      ghost var was, p := Items(), Pieces(groups, cur);
      if err || done {
        return false;
      }
      if |key| < TRAILER_LEN || (numEntries > 0 && !EncLess(lastKey, key)) {
        err := true;
        return false;
      }
      ok := Push(key, value);
      if ok {
        assert (was + [Item(key, value)])[..|was|] == was;
        assert Pieces(groups, cur) == Pieces(p.groups, p.cur + [Item(key, value)]);
      }
      if ok && data.EstimatedSize() >= blockSize {
        ok := FlushDataBlock();
      }
    }

    /** Takes an entry whose key was checked into the pending block. */
    method Push(key: Bytes, value: Bytes) returns (ok: bool)
      requires Valid() && !err && !done && |key| >= TRAILER_LEN && (numEntries > 0 ==> EncLess(lastKey, key))
      modifies this, data
      ensures Valid() && done == old(done) && ok == !err
      ensures ok ==> Items() == old(Items()) + [Item(key, value)] && groups == old(groups) && cur == old(cur) + [Item(key, value)]
      ensures ok <==> |old(data.buf)| <= MAX_U32
    {
      hide EncLess, BuildAll, Concat, OffsetsOk, IndexItems, Summary, BlockBuilder.Holds;
      ghost var it, was := Item(key, value), Items();
      if |data.buf| <= MAX_U32 {
        PendingGrows(this, it);
        SummaryPush(crc, hash, interval, groups, cur, dst, hashes, numEntries, lastKey, it);
      }
      if numEntries == 0 {
        smallest := key;
      }
      lastKey := key;
      hashes := hashes + [hash(UserOf(key)) as nat];
      data.Add(key, value, cur);
      if data.overflowed {
        err := true;
        return false;
      }
      cur := cur + [it];
      numEntries := numEntries + 1;
      assert Items() == was + [it];
      ok := true;
    }

    /** Writes the pending data block and indexes it under its last key. */
    method FlushDataBlock() returns (ok: bool)
      requires Valid() && !err && !done
      modifies this, data, index
      ensures Valid() && ok == !err && done == old(done)
      ensures ok ==> Items() == old(Items()) && groups == Finished(Pieces(old(groups), old(cur))) && cur == []
      ensures |old(index.buf)| <= MAX_U32 ==> ok
    {
      hide EncLess, BuildAll, Concat, OffsetsOk, IndexItems, Summary, Contents;
      if data.counter == 0 {
        return true;
      }
      IndexFits(this);
      ghost var was := Items();
      ghost var items := IndexItems(crc, groups, interval);
      ghost var pending := cur;
      var contents := data.Finish(cur);
      var handle := PutHandle(Handle(|dst|, |contents|));
      if |index.buf| <= MAX_U32 {
        IndexGrows(this, Item(lastKey, handle));
        SummaryFlush(crc, hash, interval, groups, cur, dst, hashes, numEntries, lastKey);
      }
      dst := dst + Sealed(crc, contents);
      index.Add(lastKey, handle, items);
      if index.overflowed {
        err := true;
        return false;
      }
      data.Reset();
      groups, cur := groups + [pending], [];
      assert Items() == was;
      ok := true;
    }

    /** Writes what is pending, the filter, the index and the footer. */
    method Finish() returns (file: Option<Bytes>, ghost filter: Bytes)
      requires Valid()
      modifies this, data, index
      ensures old(err || done) ==> file.None?
      ensures file.None? ==> old(err || done) || old(|index.buf|) > MAX_U32 || ArrayBytes(old(|Items()|), bitsPerKey) * 8 >= TWO_32
      ensures file.Some? ==> |filter| == ArrayBytes(old(|Items()|), bitsPerKey) + 1
      ensures file.Some? ==>
                && Concat(groups) == old(Items()) && Grouped(groups) && interval > 0
                && groups == Finished(Pieces(old(groups), old(cur)))
                && file.value == FileBytes(crc, DataBytes(crc, groups, interval), filter, IndexBlock(crc, groups, interval))
                && FilterCovers(hash, filter, Concat(groups)) && KeysAscend(Concat(groups)) && FullKeys(Concat(groups))
                && (forall i | 0 <= i < |groups| :: OffsetsOk(groups[i], interval))
                && OffsetsOk(IndexItems(crc, groups, interval), 1)
    {
      hide EncLess, BuildAll, DataBytes, Concat, OffsetsOk, IndexItems, HashesOf, KeysAscend, Contents, Footer, Sealed, FilterCovers;
      filter := [];
      if err || done {
        return None, filter;
      }
      ItemCount(this);
      var ok := FlushDataBlock();
      if !ok {
        return None, filter;
      }
      ItemCount(this);
      assert Items() == Concat(groups);
      if ArrayBytes(|hashes|, bitsPerKey) * 8 >= TWO_32 {
        err := true;
        return None, filter;
      }
      var bloom := BuildBloom(hashes, bitsPerKey, probes);
      var bits := BytesOf(bloom);
      Covers(hash, Concat(groups), bloom);
      filter := bits;
      ghost var blocks := dst;
      var filterHandle := Handle(|dst|, |bits|);
      dst := dst + Sealed(crc, bits);
      var contents := index.Finish(IndexItems(crc, groups, interval));
      var indexHandle := Handle(|dst|, |contents|);
      dst := dst + Sealed(crc, contents);
      dst := dst + Footer(crc, filterHandle, indexHandle);
      done := true;
      file := Some(dst);
    }
  }

  lemma ItemCount(w: Writer)
    requires w.Valid() && w.Open()
    ensures |w.hashes| == |w.Items()|
  {
    hide BuildAll, DataBytes, Concat, OffsetsOk, IndexItems, KeysAscend, FullKeys, BlockBuilder.Holds;
  }

  lemma LastKnown(w: Writer)
    requires w.Valid()
    ensures !w.err && !w.done && w.numEntries > 0 ==> |w.lastKey| >= TRAILER_LEN
  {
    hide BuildAll, DataBytes, Concat, OffsetsOk, IndexItems, HashesOf, KeysAscend, BlockBuilder.Holds;
  }

  lemma PendingGrows(w: Writer, it: Item)
    requires w.Valid() && w.Open() && |w.data.buf| <= MAX_U32
    ensures OffsetsOk(w.cur + [it], w.interval)
  {
    hide BuildAll, DataBytes, Concat, OffsetsOk, IndexItems, HashesOf, KeysAscend, FullKeys;
    OffsetsGrow(w.cur, it, w.interval);
  }

  lemma IndexFits(w: Writer)
    requires w.Valid() && w.Open()
    ensures Grouped(w.groups) && OffsetsOk(IndexItems(w.crc, w.groups, w.interval), 1)
  {
    hide BuildAll, DataBytes, Concat, OffsetsOk, IndexItems, HashesOf, KeysAscend, FullKeys, BlockBuilder.Holds;
  }

  lemma IndexGrows(w: Writer, it: Item)
    requires w.interval > 0 && w.index.interval == 1 && Grouped(w.groups) && w.index.Holds(IndexItems(w.crc, w.groups, w.interval))
    requires OffsetsOk(IndexItems(w.crc, w.groups, w.interval), 1) && |w.index.buf| <= MAX_U32
    ensures OffsetsOk(IndexItems(w.crc, w.groups, w.interval) + [it], 1)
  {
    hide BuildAll, OffsetsOk, IndexItems;
    OffsetsGrow(IndexItems(w.crc, w.groups, w.interval), it, 1);
  }

  lemma {:induction false} LastOfCur(groups: seq<seq<Item>>, cur: seq<Item>)
    requires cur != []
    ensures LastKeyOf(Concat(groups) + cur) == LastOf(cur)
  {
    hide Concat;
  }

  lemma NoOffsets(interval: nat)
    requires interval > 0
    ensures OffsetsOk([], interval)
  {
  }

  /** Closing the pending block moves its items into the groups. */
  lemma {:induction false} Regroup(crc: Checksum, groups: seq<seq<Item>>, cur: seq<Item>, interval: nat)
    requires interval > 0 && Grouped(groups) && cur != []
    ensures Grouped(groups + [cur]) && Concat(groups + [cur]) == Concat(groups) + cur
    ensures DataBytes(crc, groups + [cur], interval) == DataBytes(crc, groups, interval) + Sealed(crc, BlockOfGroup(cur, interval))
    ensures IndexItems(crc, groups + [cur], interval)
            == IndexItems(crc, groups, interval)
               + [Item(LastOf(cur), PutHandle(Handle(|DataBytes(crc, groups, interval)|, |BlockOfGroup(cur, interval)|)))]
  {
    hide BlockOfGroup, Sealed, PutHandle;
    var next := groups + [cur];
    assert next[..|groups|] == groups;
    ConcatAppend(groups, cur);
    forall i | 0 <= i < |groups|
      ensures HandleAt(crc, next, interval, i) == HandleAt(crc, groups, interval, i)
    {
      assert next[..i] == groups[..i];
    }
  }

  lemma {:induction false} ConcatAppend(groups: seq<seq<Item>>, cur: seq<Item>)
    ensures Concat(groups + [cur]) == Concat(groups) + cur
  {
    if groups == [] {
      assert groups + [cur] == [cur] && [cur][1..] == [];
    } else {
      assert (groups + [cur])[1..] == groups[1..] + [cur];
      ConcatAppend(groups[1..], cur);
    }
  }

  /** The built filter excludes no item's user key. */
  lemma Covers(hash: Hash, items: seq<Item>, bloom: Filter)
    requires FullKeys(items) && |bloom| >= 2 && (|bloom| - 1) * 8 < TWO_32
    requires forall i | 0 <= i < |items| :: Marked(bloom, (|bloom| - 1) * 8, HashesOf(hash, items)[i], bloom[|bloom| - 1] as nat)
    ensures FilterCovers(hash, BytesOf(bloom), items)
  {
    hide Marked, MayHold;
    FilterRoundTrip(bloom);
    forall i | 0 <= i < |items|
      ensures MayHold(FilterOf(BytesOf(bloom)), hash(UserOf(items[i].key)) as nat)
    {
      assert HashesOf(hash, items)[i] == hash(UserOf(items[i].key)) as nat;
      MarkedHolds(bloom, hash(UserOf(items[i].key)) as nat);
    }
  }

  lemma ItemsGrow(items: seq<Item>, it: Item, lastKey: Bytes)
    requires KeysAscend(items) && FullKeys(items) && |it.key| >= TRAILER_LEN
    requires lastKey == LastKeyOf(items) && (items != [] ==> EncLess(lastKey, it.key))
    ensures KeysAscend(items + [it]) && FullKeys(items + [it])
  {
    hide EncLess;
    var now := items + [it];
    forall i, j | 0 <= i < j < |now|
      ensures EncLess(now[i].key, now[j].key)
    {
      if j == |items| && i < |items| - 1 {
        EncTransitive(items[i].key, lastKey, it.key);
      }
    }
  }

  lemma HashesGrow(hash: Hash, items: seq<Item>, it: Item)
    requires FullKeys(items) && |it.key| >= TRAILER_LEN
    ensures FullKeys(items + [it]) && HashesOf(hash, items + [it]) == HashesOf(hash, items) + [hash(UserOf(it.key)) as nat]
  {
  }
}

/** Opening a table file and looking up a key in it. */
module TableReader {
  import opened Common
  import opened Codec
  import opened Keys
  import opened InternalKey
  import opened Block
  import opened BlockIters
  import opened WalRecord
  import opened Table
  import opened Bloom

  datatype IndexEntry = IndexEntry(lastKey: Bytes, handle: Handle)

  datatype Reader = Reader(file: Bytes, index: seq<IndexEntry>, filter: Bytes)

  predicate InFile(h: Handle, size: nat) {
    size >= FOOTER_LEN && h.offset + h.length + CRC_LEN <= size - FOOTER_LEN
  }

  /** An index item whose value is the handle of a block in the file. */
  predicate Locates(it: Item, size: nat) {
    && GetHandle(it.value).Some? && GetHandle(it.value).value.rest == []
    && InFile(GetHandle(it.value).value.handle, size)
  }

  function EntriesOf(items: seq<Item>, size: nat): (es: seq<IndexEntry>)
    requires forall i | 0 <= i < |items| :: Locates(items[i], size)
    ensures |es| == |items|
  {
    seq(|items|, i requires 0 <= i < |items| && Locates(items[i], size) => IndexEntry(items[i].key, GetHandle(items[i].value).value.handle))
  }

  /** The index as the reader keeps it: full keys, strictly ascending. */
  ghost predicate IndexOk(index: seq<IndexEntry>) {
    && (forall i | 0 <= i < |index| :: |index[i].lastKey| >= TRAILER_LEN)
    && forall i, j | 0 <= i < j < |index| :: EncLess(index[i].lastKey, index[j].lastKey)
  }

  /** Decodes the index eagerly; None when an entry is not a full key, a key does
      not ascend, or a handle is out of range. */
  method ParseIndexBlock(size: nat, contents: Bytes, ghost items: seq<Item>) returns (r: Option<seq<IndexEntry>>)
    ensures r.Some? ==> IndexOk(r.value)
    ensures (&& Parse(contents).Some? && BlockOf(Parse(contents).value, items, 1)
             && (forall i | 0 <= i < |items| :: Locates(items[i], size))) ==> r == Some(EntriesOf(items, size))
  {
    hide Parse, GetHandle, EncLess, BlockOf, DecodeAt, IndexOk, EntriesOf;
    NoEntries();
    var pb := ParseBlock(contents);
    if pb.None? {
      return None;
    }
    ghost var good := BlockOf(pb.value, items, 1) && forall i | 0 <= i < |items| :: Locates(items[i], size);
    var it := new BlockIter(pb.value);
    var index: seq<IndexEntry> := [];
    it.First(items, 1);
    ghost var n: nat := 0;
    while it.valid
      invariant it.err ==> !it.valid
      invariant it.valid ==> it.nextOffset <= |it.b.entries| && |it.key| >= TRAILER_LEN
      invariant it.b == pb.value && IndexOk(index)
      invariant good ==> |index| == n <= |items| && index == EntriesOf(items, size)[..n]
      invariant good ==> if n < |items| then it.At(items, 1, n) else it.Done()
      decreases it.valid, |it.b.entries| - it.nextOffset
    {
      if good {
        FullKey(items, n);
      }
      if it.lastShared != 0 {
        return None;
      }
      var h := GetHandle(it.value);
      if h.None? || h.value.rest != [] || !InFile(h.value.handle, size) {
        return None;
      }
      if good {
        NextAscends(pb.value, items, size, index, n);
      }
      if |index| > 0 && !EncLess(index[|index| - 1].lastKey, it.key) {
        return None;
      }
      AppendOk(index, IndexEntry(it.key, h.value.handle));
      if good {
        EntriesStep(items, size, index, n);
      }
      index := index + [IndexEntry(it.key, h.value.handle)];
      it.Next(items, 1, n);
      n := n + 1;
    }
    if it.err {
      return None;
    }
    if good {
      OneRestartEach(pb.value, items);
      assert EntriesOf(items, size)[..|items|] == EntriesOf(items, size);
    }
    if |index| != |pb.value.restarts| && !(|index| == 0 && |pb.value.restarts| == 1) {
      return None;
    }
    r := Some(index);
  }

  lemma NoEntries()
    ensures IndexOk([])
  {
  }

  lemma FullKey(items: seq<Item>, n: nat)
    ensures n < |items| ==> SharedAt(items, 1, n) == 0
  {
  }

  lemma EntriesStep(items: seq<Item>, size: nat, index: seq<IndexEntry>, n: nat)
    requires (forall i | 0 <= i < |items| :: Locates(items[i], size)) && n < |items| && index == EntriesOf(items, size)[..n]
    ensures index + [IndexEntry(items[n].key, GetHandle(items[n].value).value.handle)] == EntriesOf(items, size)[..n + 1]
  {
    hide GetHandle;
    assert Locates(items[n], size);
  }

  lemma AppendOk(index: seq<IndexEntry>, e: IndexEntry)
    requires IndexOk(index) && |e.lastKey| >= TRAILER_LEN
    requires |index| > 0 ==> EncLess(index[|index| - 1].lastKey, e.lastKey)
    ensures IndexOk(index + [e])
  {
    hide EncLess;
    var now := index + [e];
    forall i, j | 0 <= i < j < |now|
      ensures EncLess(now[i].lastKey, now[j].lastKey)
    {
      if j == |index| && i < |index| - 1 {
        EncTransitive(index[i].lastKey, index[|index| - 1].lastKey, e.lastKey);
      }
    }
  }

  lemma NextAscends(b: Parsed, items: seq<Item>, size: nat, index: seq<IndexEntry>, n: nat)
    requires BlockOf(b, items, 1) && forall i | 0 <= i < |items| :: Locates(items[i], size)
    requires n < |items| && |index| == n && index == EntriesOf(items, size)[..n]
    ensures n > 0 ==> EncLess(index[n - 1].lastKey, items[n].key)
  {
    hide EncLess, Encodable, BuildAll, GetHandle;
  }

  /** In an index block every entry is a restart. */
  lemma OneRestartEach(b: Parsed, items: seq<Item>)
    requires BlockOf(b, items, 1)
    ensures |b.restarts| == if items == [] then 1 else |items|
  {
    hide BuildAll, Encodable, KeysAscend, Off;
    var n := |items|;
    assert items[..n] == items;
    RestartsAre(items, 1, n);
    if items == [] {
      NoItems(1);
    }
  }

  // --------------------------------------------------------------- the table

  /** The data blocks' items in order. */
  function Concat(groups: seq<seq<Item>>): seq<Item> {
    if groups == [] then [] else groups[0] + Concat(groups[1..])
  }

  function IndexBlock(crc: Checksum, groups: seq<seq<Item>>, interval: nat): Bytes
    requires interval > 0 && Grouped(groups)
  {
    Contents(BuildAll(IndexItems(crc, groups, interval), 1))
  }

  /** `file` is the table of `groups`, within the sizes the format can address. */
  ghost predicate TableOf(crc: Checksum, file: Bytes, groups: seq<seq<Item>>, interval: nat, filter: Bytes) {
    && interval > 0 && Grouped(groups) && |file| < TWO_64 && |filter| <= MAX_I32
    && file == FileBytes(crc, DataBytes(crc, groups, interval), filter, IndexBlock(crc, groups, interval))
    && (forall i | 0 <= i < |groups| :: Encodable(groups[i], interval) && |BlockOfGroup(groups[i], interval)| <= MAX_I32)
    && KeysAscend(Concat(groups))
    && Encodable(IndexItems(crc, groups, interval), 1) && |IndexBlock(crc, groups, interval)| <= MAX_I32
  }

  function ExpectedIndex(crc: Checksum, groups: seq<seq<Item>>, interval: nat): (es: seq<IndexEntry>)
    requires interval > 0 && Grouped(groups)
    ensures |es| == |groups|
  {
    seq(|groups|, i requires 0 <= i < |groups| => IndexEntry(LastOf(groups[i]), HandleAt(crc, groups, interval, i)))
  }

  // ------------------------------------------------------ items and groups

  /** Where group `i` starts among all items. */
  function Start(groups: seq<seq<Item>>, i: nat): nat
    requires i <= |groups|
  {
    |Concat(groups[..i])|
  }

  lemma {:induction false} ConcatSplit(groups: seq<seq<Item>>, i: nat)
    requires i < |groups|
    ensures Concat(groups) == Concat(groups[..i]) + groups[i] + Concat(groups[i + 1..])
  {
    if i == 0 {
      assert groups[..0] == [];
    } else {
      ConcatSplit(groups[1..], i - 1);
      assert groups[1..][..i - 1] == groups[..i][1..] && groups[1..][i..] == groups[i + 1..];
      assert groups[1..][i - 1] == groups[i];
    }
  }

  lemma {:induction false} ItemAt(groups: seq<seq<Item>>, i: nat, k: nat)
    requires i < |groups| && k < |groups[i]|
    ensures Start(groups, i) + k < |Concat(groups)| && Concat(groups)[Start(groups, i) + k] == groups[i][k]
  {
    hide Concat;
    ConcatSplit(groups, i);
  }

  lemma StartsRise(groups: seq<seq<Item>>, i: nat, j: nat)
    requires i < j <= |groups|
    ensures Start(groups, i) + |groups[i]| <= Start(groups, j)
  {
    hide Concat;
    ConcatSplit(groups[..j], i);
    assert groups[..j][..i] == groups[..i] && groups[..j][i] == groups[i];
  }

  /** Items of an earlier group sort before those of a later one, and within a group in order. */
  lemma {:induction false} GroupsAscend(groups: seq<seq<Item>>, i: nat, k: nat, j: nat, m: nat)
    requires KeysAscend(Concat(groups)) && i <= j < |groups| && k < |groups[i]| && m < |groups[j]| && (i == j ==> k < m)
    ensures EncLess(groups[i][k].key, groups[j][m].key)
  {
    hide Concat, EncLess, Start;
    ItemAt(groups, i, k);
    ItemAt(groups, j, m);
    if i < j {
      StartsRise(groups, i, j);
    }
  }

  lemma {:induction false} GroupAscends(groups: seq<seq<Item>>, i: nat)
    requires KeysAscend(Concat(groups)) && i < |groups|
    ensures KeysAscend(groups[i])
  {
    hide Concat, EncLess;
    forall k, m | 0 <= k < m < |groups[i]|
      ensures EncLess(groups[i][k].key, groups[i][m].key)
    {
      GroupsAscend(groups, i, k, i, m);
    }
  }

  // ----------------------------------------------------------------- opening

  lemma {:induction false} IndexAscends(crc: Checksum, groups: seq<seq<Item>>, interval: nat)
    requires interval > 0 && Grouped(groups) && KeysAscend(Concat(groups))
    ensures KeysAscend(IndexItems(crc, groups, interval))
  {
    hide Concat, EncLess, HandleAt;
    var items := IndexItems(crc, groups, interval);
    forall i, j | 0 <= i < j < |items|
      ensures EncLess(items[i].key, items[j].key)
    {
      GroupsAscend(groups, i, |groups[i]| - 1, j, |groups[j]| - 1);
    }
  }

  lemma {:induction false} GroupInFile(crc: Checksum, groups: seq<seq<Item>>, interval: nat, filter: Bytes, index: Bytes, i: nat)
    requires interval > 0 && i < |groups|
    ensures InFile(HandleAt(crc, groups, interval, i), |FileBytes(crc, DataBytes(crc, groups, interval), filter, index)|)
  {
    hide DataBytes, Sealed, BlockOfGroup, Footer;
    DataSplit(crc, groups, interval, i);
  }

  /** The index items of a table locate its blocks. */
  lemma IndexLocates(crc: Checksum, file: Bytes, groups: seq<seq<Item>>, interval: nat, filter: Bytes)
    requires TableOf(crc, file, groups, interval, filter)
    ensures forall i | 0 <= i < |groups| :: Locates(IndexItems(crc, groups, interval)[i], |file|)
    ensures EntriesOf(IndexItems(crc, groups, interval), |file|) == ExpectedIndex(crc, groups, interval)
  {
    hide DataBytes, BlockOfGroup, FileBytes, Encodable, KeysAscend, Concat, GetHandle, PutHandle, IndexBlock;
    var items := IndexItems(crc, groups, interval);
    forall i | 0 <= i < |groups|
      ensures Locates(items[i], |file|) && GetHandle(items[i].value) == Some(HandleRead(HandleAt(crc, groups, interval, i), []))
    {
      GroupInFile(crc, groups, interval, filter, IndexBlock(crc, groups, interval), i);
      HandleRoundTrip(HandleAt(crc, groups, interval, i));
    }
  }

  /** Everything opening reads is what was written. */
  lemma OpensWell(crc: Checksum, file: Bytes, groups: seq<seq<Item>>, interval: nat, filter: Bytes)
    requires TableOf(crc, file, groups, interval, filter)
    ensures interval > 0 && Grouped(groups) && |file| >= FOOTER_LEN
    ensures DecodeFooter(crc, file[|file| - FOOTER_LEN..]).Some?
    ensures var h := DecodeFooter(crc, file[|file| - FOOTER_LEN..]).value;
            ReadBlock(crc, file, h.filter) == Some(filter) && ReadBlock(crc, file, h.index) == Some(IndexBlock(crc, groups, interval))
    ensures Parse(IndexBlock(crc, groups, interval)).Some?
    ensures BlockOf(Parse(IndexBlock(crc, groups, interval)).value, IndexItems(crc, groups, interval), 1)
  {
    hide DataBytes, FileBytes, Encodable, KeysAscend, Concat, DecodeFooter, ReadBlock, Parse, BuildAll;
    var data, index := DataBytes(crc, groups, interval), IndexBlock(crc, groups, interval);
    ReadFooter(crc, data, filter, index);
    ReadFilter(crc, data, filter, index);
    ReadIndex(crc, data, filter, index);
    IndexAscends(crc, groups, interval);
    ParseBuilt(IndexItems(crc, groups, interval), 1);
  }

  /** Opens a table: footer, filter and index are validated at once. */
  method Open(crc: Checksum, file: Bytes, ghost groups: seq<seq<Item>>, ghost interval: nat, ghost filter: Bytes) returns (r: Option<Reader>)
    ensures r.Some? ==> r.value.file == file && IndexOk(r.value.index)
    ensures TableOf(crc, file, groups, interval, filter) ==> r == Some(Reader(file, ExpectedIndex(crc, groups, interval), filter))
  {
    hide TableOf, DecodeFooter, ReadBlock, IndexOk;
    if TableOf(crc, file, groups, interval, filter) {
      OpensWell(crc, file, groups, interval, filter);
      IndexLocates(crc, file, groups, interval, filter);
    }
    if |file| < FOOTER_LEN {
      return None;
    }
    var foot := DecodeFooter(crc, file[|file| - FOOTER_LEN..]);
    if foot.None? {
      return None;
    }
    var f := ReadBlock(crc, file, foot.value.filter);
    if f.None? {
      return None;
    }
    var contents := ReadBlock(crc, file, foot.value.index);
    if contents.None? {
      return None;
    }
    ghost var items := if interval > 0 && Grouped(groups) then IndexItems(crc, groups, interval) else [];
    var index := ParseIndexBlock(|file|, contents.value, items);
    if index.None? {
      return None;
    }
    r := Some(Reader(file, index.value, f.value));
  }

  // ---------------------------------------------------------------- looking up

  /** The first data block whose last key is not before `target`. */
  method SeekIndex(index: seq<IndexEntry>, target: Bytes) returns (i: nat)
    requires IndexOk(index) && |target| >= TRAILER_LEN
    ensures i <= |index| && (forall j | 0 <= j < i :: EncLess(index[j].lastKey, target))
    ensures forall j | i <= j < |index| :: !EncLess(index[j].lastKey, target)
  {
    hide EncLess;
    i := 0;
    var hi := |index|;
    while i < hi
      invariant 0 <= i <= hi <= |index|
      invariant forall j | 0 <= j < i :: EncLess(index[j].lastKey, target)
      invariant forall j | hi <= j < |index| :: !EncLess(index[j].lastKey, target)
    {
      var mid := (i + hi) / 2;
      if !EncLess(index[mid].lastKey, target) {
        forall j | mid <= j < |index|
          ensures !EncLess(index[j].lastKey, target)
        {
          if j > mid && EncLess(index[j].lastKey, target) {
            EncTransitive(index[mid].lastKey, index[j].lastKey, target);
          }
        }
        hi := mid;
      } else {
        forall j | 0 <= j <= mid
          ensures EncLess(index[j].lastKey, target)
        {
          if j < mid {
            EncTransitive(index[j].lastKey, index[mid].lastKey, target);
          }
        }
        i := mid + 1;
      }
    }
  }

  /** The first item from `target` on is in the block the index points to. */
  lemma {:induction false} InPointedBlock(groups: seq<seq<Item>>, i: nat, target: Bytes)
    requires Grouped(groups) && KeysAscend(Concat(groups)) && i <= |groups|
    requires i > 0 ==> EncLess(LastOf(groups[i - 1]), target)
    requires i < |groups| ==> !EncLess(LastOf(groups[i]), target)
    ensures i < |groups| ==> FirstFrom(groups[i], target) < |groups[i]|
    ensures FirstFrom(Concat(groups), target) == Start(groups, i) + if i < |groups| then FirstFrom(groups[i], target) else 0
  {
    hide Concat, EncLess, FirstFrom, Start, KeysAscend;
    var all := Concat(groups);
    var k := if i < |groups| then FirstFrom(groups[i], target) else 0;
    var n := Start(groups, i) + k;
    if i < |groups| {
      assert k < |groups[i]|;
      ItemAt(groups, i, k);
    } else {
      assert n == |all| by { StartAll(groups); }
    }
    if n > 0 {
      BeforeFound(groups, i, k, target);
    }
    FirstUnique(all, target, n);
  }

  lemma {:induction false} StartAll(groups: seq<seq<Item>>)
    ensures Start(groups, |groups|) == |Concat(groups)|
  {
    assert groups[..|groups|] == groups;
  }

  /** The item before the one found sorts before `target`. */
  lemma {:induction false} BeforeFound(groups: seq<seq<Item>>, i: nat, k: nat, target: Bytes)
    requires Grouped(groups) && i <= |groups| && (i > 0 ==> EncLess(LastOf(groups[i - 1]), target))
    requires if i < |groups| then k <= |groups[i]| && k == FirstFrom(groups[i], target) else k == 0
    requires Start(groups, i) + k > 0
    ensures Start(groups, i) + k <= |Concat(groups)| && EncLess(Concat(groups)[Start(groups, i) + k - 1].key, target)
  {
    hide Concat, EncLess;
    if k > 0 {
      ItemAt(groups, i, k - 1);
    } else {
      assert i > 0 by { StartNone(groups); }
      ConcatSplit(groups[..i], i - 1);
      assert groups[..i][..i - 1] == groups[..i - 1] && groups[..i][i - 1] == groups[i - 1] && groups[..i][i..] == [];
      assert Concat([]) == [] by { NoGroups(); }
      ItemAt(groups, i - 1, |groups[i - 1]| - 1);
      assert Start(groups, i) == Start(groups, i - 1) + |groups[i - 1]|;
    }
  }

  lemma NoGroups()
    ensures Concat([]) == []
  {
  }

  lemma StartNone(groups: seq<seq<Item>>)
    ensures Start(groups, 0) == 0
  {
    assert groups[..0] == [];
  }

  datatype GetResult = NotFound | Corrupt | Found(value: Bytes, kind: Kind)

  /** What a lookup of `user` at `s` should return of the items of a table. */
  function Lookup(items: seq<Item>, user: Bytes, s: nat): GetResult {
    var n := FirstFrom(items, Encode(SeekKey(user, s)));
    if n < |items| && Decode(items[n].key).Some? && Decode(items[n].key).value.user == user
    then Found(items[n].value, Decode(items[n].key).value.kind) else NotFound
  }

  type Hash = Bytes -> u32

  function FilterOf(b: Bytes): Filter {
    seq(|b|, i requires 0 <= i < |b| => b[i] as bv8)
  }

  /** The filter does not exclude the user key of any item. */
  ghost predicate FilterCovers(hash: Hash, filter: Bytes, items: seq<Item>) {
    forall i | 0 <= i < |items| && |items[i].key| >= TRAILER_LEN :: MayHold(FilterOf(filter), hash(UserOf(items[i].key)) as nat)
  }

  ghost predicate WellKeyed(items: seq<Item>) {
    forall i | 0 <= i < |items| :: Decode(items[i].key).Some?
  }

  /** A key the filter excludes is in no item. */
  lemma Excluded(hash: Hash, filter: Bytes, items: seq<Item>, user: Bytes, s: nat)
    requires FilterCovers(hash, filter, items) && !MayHold(FilterOf(filter), hash(user) as nat)
    ensures Lookup(items, user, s) == NotFound
  {
    hide FirstFrom, MayHold, Encode;
  }

  lemma GroupParses(crc: Checksum, file: Bytes, groups: seq<seq<Item>>, interval: nat, filter: Bytes, i: nat)
    requires TableOf(crc, file, groups, interval, filter) && i < |groups|
    ensures Parse(BlockOfGroup(groups[i], interval)).Some?
    ensures BlockOf(Parse(BlockOfGroup(groups[i], interval)).value, groups[i], interval)
  {
    hide DataBytes, FileBytes, Encodable, KeysAscend, Concat, Parse, BuildAll, IndexBlock, IndexItems;
    GroupAscends(groups, i);
    ParseBuilt(groups[i], interval);
  }

  lemma ParsedOk(contents: Bytes)
    requires Parse(contents).Some?
    ensures var b := Parse(contents).value; RestartsOk(b.restarts, |b.entries|) && |b.restarts| > 0
  {
    hide GetLE;
  }

  lemma Reached(it: BlockIter, group: seq<Item>, interval: nat, n: nat)
    requires n < |group| && it.At(group, interval, n)
    ensures it.valid && !it.err && it.key == group[n].key && it.value == group[n].value
  {
  }

  /** A lookup through the filter, the index and one block. */
  method Get(crc: Checksum, hash: Hash, r: Reader, user: Bytes, s: nat, ghost groups: seq<seq<Item>>, ghost interval: nat)
    returns (res: GetResult)
    requires IndexOk(r.index) && s <= MAX_SEQ
    ensures (&& TableOf(crc, r.file, groups, interval, r.filter) && r.index == ExpectedIndex(crc, groups, interval)
             && FilterCovers(hash, r.filter, Concat(groups)) && WellKeyed(Concat(groups)))
            ==> res == Lookup(Concat(groups), user, s)
  {
    hide EncLess, ReadBlock, Parse, FirstFrom, KeysAscend, Encodable, Concat, Decode, Encode, MayHold, IndexOk, DataBytes, FileBytes, IndexBlock, BlockIter.At;
    ghost var good := && TableOf(crc, r.file, groups, interval, r.filter) && r.index == ExpectedIndex(crc, groups, interval)
                      && FilterCovers(hash, r.filter, Concat(groups)) && WellKeyed(Concat(groups));
    var may := MayContain(FilterOf(r.filter), hash(user) as nat);
    if !may {
      if good {
        Excluded(hash, r.filter, Concat(groups), user, s);
      }
      return NotFound;
    }
    var seek := Encode(SeekKey(user, s));
    var i := SeekIndex(r.index, seek);
    if good {
      assert i > 0 ==> r.index[i - 1].lastKey == LastOf(groups[i - 1]);
      assert i < |groups| ==> r.index[i].lastKey == LastOf(groups[i]);
      InPointedBlock(groups, i, seek);
      if i < |groups| {
        ItemAt(groups, i, FirstFrom(groups[i], seek));
      }
    }
    if i == |r.index| {
      if good {
        StartAll(groups);
      }
      return NotFound;
    }
    res := GetInBlock(crc, r, i, user, seek, groups, interval, good);
  }

  /** The lookup's last leg: read one data block and seek in it. */
  method GetInBlock(crc: Checksum, r: Reader, i: nat, user: Bytes, seek: Bytes,
                    ghost groups: seq<seq<Item>>, ghost interval: nat, ghost good: bool) returns (res: GetResult)
    requires i < |r.index| && |seek| >= TRAILER_LEN
    requires good ==> && TableOf(crc, r.file, groups, interval, r.filter) && r.index == ExpectedIndex(crc, groups, interval)
                      && FirstFrom(groups[i], seek) < |groups[i]| && Decode(groups[i][FirstFrom(groups[i], seek)].key).Some?
    ensures good ==> var it := groups[i][FirstFrom(groups[i], seek)];
                     res == if Decode(it.key).value.user == user then Found(it.value, Decode(it.key).value.kind) else NotFound
  {
    hide ReadBlock, Parse, FirstFrom, KeysAscend, Encodable, Concat, Decode, DataBytes, FileBytes, IndexBlock, BlockIter.At, BlockOfGroup;
    if good {
      ReadGroup(crc, groups, interval, r.filter, IndexBlock(crc, groups, interval), i);
      GroupParses(crc, r.file, groups, interval, r.filter, i);
    }
    var contents := ReadBlock(crc, r.file, r.index[i].handle);
    if contents.None? {
      return Corrupt;
    }
    var pb := ParseBlock(contents.value);
    if pb.None? {
      return Corrupt;
    }
    ParsedOk(contents.value);
    var it := new BlockIter(pb.value);
    ghost var group := if i < |groups| then groups[i] else [];
    it.SeekGE(seek, group, interval);
    if good {
      Reached(it, group, interval, FirstFrom(group, seek));
    }
    if it.err || !it.valid {
      return Corrupt;
    }
    var ik := Decode(it.key);
    if ik.None? {
      return Corrupt;
    }
    if ik.value.user != user {
      return NotFound;
    }
    res := Found(it.value, ik.value.kind);
  }
}

/** The table file: data blocks, a filter, an index of the blocks' last keys, and a
    footer; and what a reader finds in it. */
module Table {
  import opened Common
  import opened Codec
  import opened Keys
  import opened InternalKey
  import opened Block
  import opened BlockIters
  import opened WalRecord

  const FOOTER_LEN: nat := 48

  const CRC_LEN: nat := 4

  const MAX_I32: nat := 0x7FFF_FFFF

  const TABLE_MAGIC: nat := 0xba5a17557ab1e000

  const FORMAT_VERSION: nat := 1

  datatype Handle = Handle(offset: nat, length: nat)

  function PutHandle(h: Handle): Bytes {
    PutUvarint(h.offset) + PutUvarint(h.length)
  }

  datatype HandleRead = HandleRead(handle: Handle, rest: Bytes)

  function GetHandle(b: Bytes): Option<HandleRead> {
    match GetUvarint(b, 0)
    case None => None
    case Some(x) =>
      match GetUvarint(b[x.width..], 0)
      case None => None
      case Some(y) => Some(HandleRead(Handle(x.value, y.value), b[x.width..][y.width..]))
  }

  lemma HandleRoundTrip(h: Handle)
    requires h.offset < TWO_64 && h.length < TWO_64
    ensures GetHandle(PutHandle(h)) == Some(HandleRead(h, []))
  {
    hide GetUvarint, PutUvarint;
    var a, b := PutUvarint(h.offset), PutUvarint(h.length);
    UvarintRoundTrip(h.offset, b);
    assert (a + b)[|a|..] == b == b + [];
    UvarintRoundTrip(h.length, []);
  }

  // ----------------------------------------------------------------- the file

  function Sealed(crc: Checksum, contents: Bytes): (b: Bytes)
    ensures |b| == |contents| + CRC_LEN
  {
    contents + PutLE(crc(contents) as nat, 4)
  }

  function BlockOfGroup(group: seq<Item>, interval: nat): Bytes
    requires interval > 0
  {
    Contents(BuildAll(group, interval))
  }

  /** The data blocks, one after another. */
  function DataBytes(crc: Checksum, groups: seq<seq<Item>>, interval: nat): Bytes
    requires interval > 0
  {
    if groups == [] then []
    else DataBytes(crc, groups[..|groups| - 1], interval) + Sealed(crc, BlockOfGroup(groups[|groups| - 1], interval))
  }

  function HandleAt(crc: Checksum, groups: seq<seq<Item>>, interval: nat, i: nat): Handle
    requires interval > 0 && i < |groups|
  {
    Handle(|DataBytes(crc, groups[..i], interval)|, |BlockOfGroup(groups[i], interval)|)
  }

  function LastOf(group: seq<Item>): Bytes
    requires group != []
  {
    group[|group| - 1].key
  }

  ghost predicate Grouped(groups: seq<seq<Item>>) {
    forall i | 0 <= i < |groups| :: groups[i] != []
  }

  /** Each block's last key with its handle. */
  function IndexItems(crc: Checksum, groups: seq<seq<Item>>, interval: nat): (items: seq<Item>)
    requires interval > 0 && Grouped(groups)
    ensures |items| == |groups|
  {
    seq(|groups|, i requires 0 <= i < |groups| => Item(LastOf(groups[i]), PutHandle(HandleAt(crc, groups, interval, i))))
  }

  function FooterHead(filter: Handle, index: Handle): (b: Bytes)
    ensures |b| == 36
  {
    PutLE(filter.offset, 8) + PutLE(filter.length, 8) + PutLE(index.offset, 8) + PutLE(index.length, 8) + PutLE(FORMAT_VERSION, 4)
  }

  function Footer(crc: Checksum, filter: Handle, index: Handle): (b: Bytes)
    ensures |b| == FOOTER_LEN
  {
    var head := FooterHead(filter, index);
    head + PutLE(crc(head) as nat, 4) + PutLE(TABLE_MAGIC, 8)
  }

  datatype Handles = Handles(filter: Handle, index: Handle)

  /** None when the magic, checksum or version is wrong. */
  function DecodeFooter(crc: Checksum, b: Bytes): Option<Handles>
    requires |b| == FOOTER_LEN
  {
    if GetLE(b[40..]) != TABLE_MAGIC || GetLE(b[36..40]) != crc(b[..36]) as nat || GetLE(b[32..36]) != FORMAT_VERSION then None
    else Some(Handles(Handle(GetLE(b[..8]), GetLE(b[8..16])), Handle(GetLE(b[16..24]), GetLE(b[24..32]))))
  }

  function FilterHandle(data: Bytes, filter: Bytes): Handle {
    Handle(|data|, |filter|)
  }

  function IndexHandle(data: Bytes, filter: Bytes, index: Bytes): Handle {
    Handle(|data| + |filter| + CRC_LEN, |index|)
  }

  /** The whole file. */
  function FileBytes(crc: Checksum, data: Bytes, filter: Bytes, index: Bytes): Bytes {
    data + Sealed(crc, filter) + Sealed(crc, index) + Footer(crc, FilterHandle(data, filter), IndexHandle(data, filter, index))
  }

  // ------------------------------------------------------------- reading back

  /** Reads and verifies one block; None when it is out of range or its checksum is wrong. */
  function ReadBlock(crc: Checksum, file: Bytes, h: Handle): Option<Bytes> {
    if h.length > MAX_I32 || |file| < FOOTER_LEN || h.offset + h.length + CRC_LEN > |file| - FOOTER_LEN then None
    else
      var contents := file[h.offset..h.offset + h.length];
      if crc(contents) as nat != GetLE(file[h.offset + h.length..h.offset + h.length + CRC_LEN]) then None else Some(contents)
  }

  lemma ReadBack(crc: Checksum, pre: Bytes, contents: Bytes, post: Bytes)
    requires |contents| <= MAX_I32 && |post| >= FOOTER_LEN
    ensures ReadBlock(crc, pre + Sealed(crc, contents) + post, Handle(|pre|, |contents|)) == Some(contents)
  {
    hide PutLE, GetLE;
    var sum := PutLE(crc(contents) as nat, 4);
    var file := pre + Sealed(crc, contents) + post;
    var n := |pre| + |contents|;
    assert file == pre + contents + sum + post;
    assert file[|pre|..n] == contents && file[n..n + CRC_LEN] == sum;
    Pow256Values();
    LERoundTrip(crc(contents) as nat, 4);
  }

  lemma FooterParts(crc: Checksum, f: Handle, x: Handle)
    ensures var b := Footer(crc, f, x);
            && b[..8] == PutLE(f.offset, 8) && b[8..16] == PutLE(f.length, 8) && b[16..24] == PutLE(x.offset, 8)
            && b[24..32] == PutLE(x.length, 8) && b[32..36] == PutLE(FORMAT_VERSION, 4)
            && b[..36] == FooterHead(f, x) && b[36..40] == PutLE(crc(FooterHead(f, x)) as nat, 4) && b[40..] == PutLE(TABLE_MAGIC, 8)
  {
    hide PutLE;
  }

  lemma FooterRoundTrip(crc: Checksum, f: Handle, x: Handle)
    requires f.offset < TWO_64 && f.length < TWO_64 && x.offset < TWO_64 && x.length < TWO_64
    ensures DecodeFooter(crc, Footer(crc, f, x)) == Some(Handles(f, x))
  {
    hide PutLE, GetLE, Footer, FooterHead;
    FooterParts(crc, f, x);
    Pow256Values();
    LERoundTrip(f.offset, 8);
    LERoundTrip(f.length, 8);
    LERoundTrip(x.offset, 8);
    LERoundTrip(x.length, 8);
    LERoundTrip(FORMAT_VERSION, 4);
    LERoundTrip(crc(FooterHead(f, x)) as nat, 4);
    LERoundTrip(TABLE_MAGIC, 8);
  }

  /** Block `i` lies whole within the data. */
  lemma {:induction false} DataSplit(crc: Checksum, groups: seq<seq<Item>>, interval: nat, i: nat)
    requires interval > 0 && i < |groups|
    ensures DataBytes(crc, groups[..i], interval) + Sealed(crc, BlockOfGroup(groups[i], interval)) <= DataBytes(crc, groups, interval)
    decreases |groups|
  {
    hide Sealed, BlockOfGroup;
    var n := |groups| - 1;
    if i == n {
      assert groups[..n + 1] == groups;
    } else {
      DataSplit(crc, groups[..n], interval, i);
      assert groups[..n][..i] == groups[..i];
    }
  }

  /** Reading a data block by its handle returns that block. */
  lemma {:induction false} ReadGroup(crc: Checksum, groups: seq<seq<Item>>, interval: nat, filter: Bytes, index: Bytes, i: nat)
    requires interval > 0 && i < |groups| && |BlockOfGroup(groups[i], interval)| <= MAX_I32
    ensures ReadBlock(crc, FileBytes(crc, DataBytes(crc, groups, interval), filter, index), HandleAt(crc, groups, interval, i))
            == Some(BlockOfGroup(groups[i], interval))
  {
    hide Sealed, BlockOfGroup, Footer, ReadBlock, DataBytes;
    DataSplit(crc, groups, interval, i);
    var data := DataBytes(crc, groups, interval);
    var pre := DataBytes(crc, groups[..i], interval);
    var mid := Sealed(crc, BlockOfGroup(groups[i], interval));
    var file := FileBytes(crc, data, filter, index);
    var post := data[|pre| + |mid|..] + Sealed(crc, filter) + Sealed(crc, index)
                + Footer(crc, FilterHandle(data, filter), IndexHandle(data, filter, index));
    assert data == pre + mid + data[|pre| + |mid|..];
    assert file == pre + mid + post;
    ReadBack(crc, pre, BlockOfGroup(groups[i], interval), post);
  }

  lemma ReadFilter(crc: Checksum, data: Bytes, filter: Bytes, index: Bytes)
    requires |filter| <= MAX_I32
    ensures ReadBlock(crc, FileBytes(crc, data, filter, index), FilterHandle(data, filter)) == Some(filter)
  {
    hide Sealed, Footer, ReadBlock;
    var post := Sealed(crc, index) + Footer(crc, FilterHandle(data, filter), IndexHandle(data, filter, index));
    assert FileBytes(crc, data, filter, index) == data + Sealed(crc, filter) + post;
    ReadBack(crc, data, filter, post);
  }

  lemma ReadIndex(crc: Checksum, data: Bytes, filter: Bytes, index: Bytes)
    requires |index| <= MAX_I32
    ensures ReadBlock(crc, FileBytes(crc, data, filter, index), IndexHandle(data, filter, index)) == Some(index)
  {
    hide Sealed, Footer, ReadBlock;
    var pre := data + Sealed(crc, filter);
    ReadBack(crc, pre, index, Footer(crc, FilterHandle(data, filter), IndexHandle(data, filter, index)));
  }

  lemma ReadFooter(crc: Checksum, data: Bytes, filter: Bytes, index: Bytes)
    requires |FileBytes(crc, data, filter, index)| < TWO_64
    ensures var file := FileBytes(crc, data, filter, index);
            && |file| >= FOOTER_LEN
            && DecodeFooter(crc, file[|file| - FOOTER_LEN..]) == Some(Handles(FilterHandle(data, filter), IndexHandle(data, filter, index)))
  {
    hide Sealed, Footer, DecodeFooter;
    var file := FileBytes(crc, data, filter, index);
    var foot := Footer(crc, FilterHandle(data, filter), IndexHandle(data, filter, index));
    assert file[|file| - FOOTER_LEN..] == foot;
    FooterRoundTrip(crc, FilterHandle(data, filter), IndexHandle(data, filter, index));
  }
}

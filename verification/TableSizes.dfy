/** How long the bytes of a table can get, in terms of the entries put in. */
module TableSizes {
  import opened Common
  import opened Codec
  import opened Block
  import opened WalRecord
  import opened Table
  import opened TableReader

  /** A bound on what the entries take: their lengths twice over and a constant each. */
  function Weight(items: seq<Item>): nat {
    if items == [] then 0
    else
      var it := items[|items| - 1];
      Weight(items[..|items| - 1]) + 2 * |it.key| + 2 * |it.value| + 64
  }

  lemma {:induction false} WeightConcat(a: seq<Item>, b: seq<Item>)
    ensures Weight(a + b) == Weight(a) + Weight(b)
  {
    if b == [] {
      assert a + b == a;
    } else {
      var n := |b| - 1;
      assert (a + b)[..|a + b| - 1] == a + b[..n];
      WeightConcat(a, b[..n]);
    }
  }

  lemma {:induction false} UvarintLinear(n: nat)
    ensures |PutUvarint(n)| <= n + 1
  {
    if n >= 128 {
      UvarintLinear(n / 128);
    }
  }

  lemma {:induction false} UvarintWidth(n: nat, i: nat)
    requires i < MAX_VARINT_LEN && n < Cap(i)
    ensures |PutUvarint(n)| <= MAX_VARINT_LEN - i
  {
    hide PutUvarint;
    PutOn(n);
    if n >= 128 {
      SevenBits(n, Cap(i + 1));
      UvarintWidth(n / 128, i + 1);
    }
  }

  lemma HandleWidth(h: Handle)
    requires h.offset < TWO_64 && h.length < TWO_64
    ensures |PutHandle(h)| <= 20
  {
    hide PutUvarint, Cap;
    CapIsWord();
    UvarintWidth(h.offset, 0);
    UvarintWidth(h.length, 0);
  }

  lemma EntryLength(shared: nat, it: Item)
    requires shared <= |it.key|
    ensures |EntryBytes(shared, it)| <= 2 * |it.key| + 2 * |it.value| + 3
  {
    hide PutUvarint;
    UvarintLinear(shared);
    UvarintLinear(|it.key| - shared);
    UvarintLinear(|it.value|);
  }

  lemma {:induction false} BuiltLength(items: seq<Item>, interval: nat)
    requires interval > 0
    ensures var b := BuildAll(items, interval); |b.buf| + 61 * |items| <= Weight(items) && |b.restarts| <= |items|
  {
    hide EntryBytes, SharedLen;
    if items != [] {
      var n := |items| - 1;
      BuiltLength(items[..n], interval);
      var b := BuildAll(items[..n], interval);
      EntryLength(0, items[n]);
      EntryLength(SharedLen(b.lastKey, items[n].key), items[n]);
    }
  }

  lemma {:induction false} BlockLength(items: seq<Item>, interval: nat)
    requires interval > 0
    ensures |BlockOfGroup(items, interval)| + CRC_LEN <= Weight(items) + 12
    ensures items != [] ==> |BlockOfGroup(items, interval)| + CRC_LEN <= Weight(items)
  {
    hide BuildAll, Weight;
    BuiltLength(items, interval);
  }

  lemma {:induction false} ConcatLast(groups: seq<seq<Item>>)
    requires groups != []
    ensures Concat(groups) == Concat(groups[..|groups| - 1]) + groups[|groups| - 1]
  {
    var n := |groups| - 1;
    ConcatSplit(groups, n);
    assert groups[n + 1..] == [];
    assert Concat(groups[..n]) + groups[n] + [] == Concat(groups[..n]) + groups[n];
  }

  lemma {:induction false} DataLength(crc: Checksum, groups: seq<seq<Item>>, interval: nat)
    requires interval > 0 && Grouped(groups)
    ensures |DataBytes(crc, groups, interval)| <= Weight(Concat(groups))
  {
    hide Weight, BlockOfGroup, Sealed, Concat;
    if groups == [] {
    } else {
      var n := |groups| - 1;
      DataLength(crc, groups[..n], interval);
      BlockLength(groups[n], interval);
      ConcatLast(groups);
      WeightConcat(Concat(groups[..n]), groups[n]);
    }
  }

  /** The index of all blocks is that of all but the last, and the last's entry. */
  lemma {:induction false} IndexLast(crc: Checksum, groups: seq<seq<Item>>, interval: nat)
    requires interval > 0 && Grouped(groups) && groups != []
    ensures var n := |groups| - 1; var items := IndexItems(crc, groups, interval);
            && items[..n] == IndexItems(crc, groups[..n], interval)
            && items[n] == Item(LastOf(groups[n]), PutHandle(HandleAt(crc, groups, interval, n)))
  {
    hide BlockOfGroup, DataBytes, PutHandle;
    var n := |groups| - 1;
    assert forall i | 0 <= i < n :: groups[..i] == groups[..n][..i];
  }

  lemma {:induction false} WeightLast(items: seq<Item>)
    requires items != []
    ensures var n := |items| - 1; Weight(items) == Weight(items[..n]) + 2 * |items[n].key| + 2 * |items[n].value| + 64
  {
  }

  /** Index entries weigh no more than the blocks they stand for, but for their handles. */
  lemma {:induction false} IndexWeight(crc: Checksum, groups: seq<seq<Item>>, interval: nat)
    requires interval > 0 && Grouped(groups) && Weight(Concat(groups)) < TWO_64
    ensures Weight(IndexItems(crc, groups, interval)) <= Weight(Concat(groups)) + 40 * |groups|
  {
    hide BlockOfGroup, DataBytes, Concat, PutHandle, IndexItems, Weight;
    if groups == [] {
      NoWeight();
    } else {
      var n := |groups| - 1;
      var init, last := groups[..n], groups[n];
      ConcatLast(groups);
      WeightConcat(Concat(init), last);
      IndexWeight(crc, init, interval);
      IndexLast(crc, groups, interval);
      WeightLast(IndexItems(crc, groups, interval));
      DataLength(crc, init, interval);
      BlockLength(last, interval);
      HandleWidth(HandleAt(crc, groups, interval, n));
      LastWeight(last);
    }
  }

  lemma NoWeight()
    ensures Weight([]) == 0
  {
  }

  lemma {:induction false} LastWeight(group: seq<Item>)
    requires group != []
    ensures Weight(group) >= 2 * |LastOf(group)| + 64
  {
  }

  lemma {:induction false} IndexLength(crc: Checksum, groups: seq<seq<Item>>, interval: nat)
    requires interval > 0 && Grouped(groups) && Weight(Concat(groups)) < TWO_64
    ensures |BuildAll(IndexItems(crc, groups, interval), 1).buf| <= Weight(Concat(groups))
    ensures |BlockOfGroup(IndexItems(crc, groups, interval), 1)| <= Weight(Concat(groups)) + 12
  {
    hide BuildAll, Weight, IndexItems, Concat;
    IndexWeight(crc, groups, interval);
    BuiltLength(IndexItems(crc, groups, interval), 1);
  }

  lemma {:induction false} GroupWeight(groups: seq<seq<Item>>, i: nat)
    requires i < |groups|
    ensures Weight(groups[i]) <= Weight(Concat(groups))
  {
    hide Weight, Concat;
    ConcatSplit(groups, i);
    WeightConcat(Concat(groups[..i]) + groups[i], Concat(groups[i + 1..]));
    WeightConcat(Concat(groups[..i]), groups[i]);
  }
}

/** Walking a whole table in key order, a block at a time. */
module TableIters {
  import opened Common
  import opened Codec
  import opened InternalKey
  import opened Block
  import opened BlockIters
  import opened WalRecord
  import opened Table
  import opened TableReader

  /** `r` is open on the table of `groups`. */
  ghost predicate OpenOn(crc: Checksum, r: Reader, groups: seq<seq<Item>>, interval: nat) {
    TableOf(crc, r.file, groups, interval, r.filter) && r.index == ExpectedIndex(crc, groups, interval)
  }

  class TableIter {
    const crc: Checksum
    const r: Reader
    var blockIdx: nat
    var bi: BlockIter?
    var err: bool

    constructor (crc: Checksum, r: Reader)
      ensures this.crc == crc && this.r == r && bi == null && !err
    {
      this.crc, this.r := crc, r;
      blockIdx, bi, err := 0, null, false;
    }

    /** Positioned on item `k` of block `i`. */
    ghost predicate At(groups: seq<seq<Item>>, interval: nat, i: nat, k: nat)
      reads this, bi
    {
      && !err && bi != null && blockIdx == i < |groups|
      && bi.At(groups[i], interval, k) && BlockOf(bi.b, groups[i], interval)
    }

    ghost predicate Done()
      reads this
    {
      !err && bi == null
    }

    /** Opens data block `i`. */
    method LoadBlock(i: nat, ghost groups: seq<seq<Item>>, ghost interval: nat) returns (b: BlockIter?)
      requires i < |r.index|
      modifies this
      ensures b == null ==> err && bi == null
      ensures b != null ==> fresh(b) && !b.err && blockIdx == i && err == old(err) && bi == old(bi)
      ensures b != null ==> RestartsOk(b.b.restarts, |b.b.entries|) && |b.b.restarts| > 0
      ensures OpenOn(crc, r, groups, interval) ==> b != null && BlockOf(b.b, groups[i], interval)
    {
      hide ReadBlock, Parse, DataBytes, FileBytes, Encodable, KeysAscend, Concat, IndexBlock, BlockOfGroup, BuildAll;
      if OpenOn(crc, r, groups, interval) {
        ReadGroup(crc, groups, interval, r.filter, IndexBlock(crc, groups, interval), i);
        GroupParses(crc, r.file, groups, interval, r.filter, i);
      }
      var contents := ReadBlock(crc, r.file, r.index[i].handle);
      if contents.None? {
        err, bi := true, null;
        return null;
      }
      var pb := ParseBlock(contents.value);
      if pb.None? {
        err, bi := true, null;
        return null;
      }
      ParsedOk(contents.value);
      blockIdx := i;
      b := new BlockIter(pb.value);
    }

    /** Resolves a block iterator that ran off its block by moving to the next block. */
    method Settle(b: BlockIter, ghost groups: seq<seq<Item>>, ghost interval: nat, ghost i: nat, ghost k: nat)
      requires !err
      modifies this
      ensures bi == null || bi == b || fresh(bi)
      ensures OpenOn(crc, r, groups, interval) && old(blockIdx) == i < |groups| && BlockOf(b.b, groups[i], interval) ==>
                && (b.At(groups[i], interval, k) ==> At(groups, interval, i, k))
                && (b.Done() ==> if i + 1 < |groups| then At(groups, interval, i + 1, 0) else Done())
    {
      hide OpenOn, BlockOf;
      ghost var good := OpenOn(crc, r, groups, interval) && blockIdx == i < |groups| && BlockOf(b.b, groups[i], interval);
      if b.err {
        err, bi := true, null;
        return;
      }
      if b.valid {
        bi := b;
        return;
      }
      if good {
        SameLength(crc, r, groups, interval);
      }
      if blockIdx + 1 >= |r.index| {
        bi := null;
        return;
      }
      var next := LoadBlock(blockIdx + 1, groups, interval);
      if next != null {
        ghost var group := if i + 1 < |groups| then groups[i + 1] else [];
        next.First(group, interval);
        if next.err || !next.valid {
          err, bi := true, null;
          return;
        }
        bi := next;
      }
    }

    method First(ghost groups: seq<seq<Item>>, ghost interval: nat)
      requires !err
      modifies this
      ensures bi == null || fresh(bi)
      ensures OpenOn(crc, r, groups, interval) ==> if groups == [] then Done() else At(groups, interval, 0, 0)
    {
      hide OpenOn, BlockOf, BlockIter.At;
      if OpenOn(crc, r, groups, interval) {
        SameLength(crc, r, groups, interval);
      }
      bi := null;
      if |r.index| == 0 {
        return;
      }
      var b := LoadBlock(0, groups, interval);
      if b != null {
        b.First(if groups != [] then groups[0] else [], interval);
        Settle(b, groups, interval, 0, 0);
      }
    }

    /** Positions at the first entry not before `target`. */
    method SeekGE(target: Bytes, ghost groups: seq<seq<Item>>, ghost interval: nat) returns (ghost i: nat)
      requires !err && IndexOk(r.index) && |target| >= TRAILER_LEN
      modifies this
      ensures bi == null || fresh(bi)
      ensures OpenOn(crc, r, groups, interval) ==>
                && i <= |groups|
                && FirstFrom(Concat(groups), target) == Start(groups, i) + (if i < |groups| then FirstFrom(groups[i], target) else 0)
                && if i < |groups| then At(groups, interval, i, FirstFrom(groups[i], target)) else Done()
    {
      hide OpenOn, BlockOf, BlockIter.At, EncLess, IndexOk, FirstFrom, Concat, Start;
      bi := null;
      var n := SeekIndex(r.index, target);
      i := n;
      if OpenOn(crc, r, groups, interval) {
        SameLength(crc, r, groups, interval);
        SeekPoints(crc, r, groups, interval, n, target);
      }
      if n == |r.index| {
        return;
      }
      var b := LoadBlock(n, groups, interval);
      if b != null {
        ghost var group := if n < |groups| then groups[n] else [];
        b.SeekGE(target, group, interval);
        Settle(b, groups, interval, n, FirstFrom(group, target));
        if err {
          return;
        }
        if OpenOn(crc, r, groups, interval) {
          NotBefore(this, groups, interval, n, FirstFrom(group, target), target);
        }
        if bi != null && bi.valid && EncLess(bi.key, target) {
          err, bi := true, null;
        }
      }
    }

    method Next(ghost groups: seq<seq<Item>>, ghost interval: nat, ghost i: nat, ghost k: nat)
      requires !err && bi != null && bi.valid && !bi.err
      modifies this, bi
      ensures bi == null || bi == old(bi) || fresh(bi)
      ensures OpenOn(crc, r, groups, interval) && old(At(groups, interval, i, k)) ==>
                if k + 1 < |groups[i]| then At(groups, interval, i, k + 1)
                else if i + 1 < |groups| then At(groups, interval, i + 1, 0) else Done()
    {
      hide OpenOn, BlockOf, BlockIter.At;
      var b := bi;
      b.Next(if i < |groups| then groups[i] else [], interval, k);
      Settle(b, groups, interval, i, k + 1);
    }
  }

  lemma {:induction false} SeekPoints(crc: Checksum, r: Reader, groups: seq<seq<Item>>, interval: nat, n: nat, target: Bytes)
    requires OpenOn(crc, r, groups, interval) && n <= |r.index|
    requires forall j | 0 <= j < n :: EncLess(r.index[j].lastKey, target)
    requires forall j | n <= j < |r.index| :: !EncLess(r.index[j].lastKey, target)
    ensures n <= |groups|
    ensures n < |groups| ==> FirstFrom(groups[n], target) < |groups[n]|
    ensures FirstFrom(Concat(groups), target) == Start(groups, n) + if n < |groups| then FirstFrom(groups[n], target) else 0
  {
    hide EncLess, FirstFrom, Concat, Start, KeysAscend, Encodable, DataBytes, FileBytes, IndexBlock;
    assert n > 0 ==> r.index[n - 1].lastKey == LastOf(groups[n - 1]);
    assert n < |groups| ==> r.index[n].lastKey == LastOf(groups[n]);
    InPointedBlock(groups, n, target);
  }

  lemma {:induction false} NotBefore(it: TableIter, groups: seq<seq<Item>>, interval: nat, i: nat, k: nat, target: Bytes)
    requires it.At(groups, interval, i, k) && k == FirstFrom(groups[i], target)
    ensures it.bi.valid && !EncLess(it.bi.key, target)
  {
    hide EncLess;
  }

  lemma SameLength(crc: Checksum, r: Reader, groups: seq<seq<Item>>, interval: nat)
    requires OpenOn(crc, r, groups, interval)
    ensures |r.index| == |groups| && Grouped(groups)
  {
  }

  /** Reads a table from end to end. */
  method ReadAll(crc: Checksum, r: Reader, ghost groups: seq<seq<Item>>, ghost interval: nat) returns (out: seq<Item>)
    requires OpenOn(crc, r, groups, interval)
    ensures out == Concat(groups)
  {
    hide OpenOn, BlockOf, BlockIter.At, Concat;
    SameLength(crc, r, groups, interval);
    var it := new TableIter(crc, r);
    it.First(groups, interval);
    out := [];
    ghost var i: nat, k: nat := 0, 0;
    if groups == [] {
      NoGroups();
    } else {
      StartNone(groups);
      ItemAt(groups, 0, 0);
    }
    while it.bi != null
      invariant fresh(it) && (it.bi == null || fresh(it.bi)) && it.crc == crc && it.r == r
      invariant it.bi != null ==> it.At(groups, interval, i, k) && |out| == Start(groups, i) + k < |Concat(groups)|
      invariant it.bi != null ==> out == Concat(groups)[..|out|]
      invariant it.bi == null ==> out == Concat(groups)
      decreases |Concat(groups)| - |out|
    {
      OnItem(it, groups, interval, i, k);
      ItemAt(groups, i, k);
      out := out + [Item(it.bi.key, it.bi.value)];
      it.Next(groups, interval, i, k);
      NextPosition(groups, i, k);
      if k + 1 < |groups[i]| {
        k := k + 1;
        ItemAt(groups, i, k);
      } else {
        i, k := i + 1, 0;
        if i < |groups| {
          ItemAt(groups, i, 0);
        }
      }
    }
  }

  lemma OnItem(it: TableIter, groups: seq<seq<Item>>, interval: nat, i: nat, k: nat)
    requires it.At(groups, interval, i, k)
    ensures i < |groups| && k < |groups[i]| && !it.err && it.bi.valid && !it.bi.err && Item(it.bi.key, it.bi.value) == groups[i][k]
  {
  }

  /** Past a block's last item comes the next block's first. */
  lemma {:induction false} NextPosition(groups: seq<seq<Item>>, i: nat, k: nat)
    requires i < |groups| && k < |groups[i]|
    ensures k + 1 == |groups[i]| ==> Start(groups, i) + k + 1 == Start(groups, i + 1)
    ensures k + 1 == |groups[i]| && i + 1 == |groups| ==> Start(groups, i) + k + 1 == |Concat(groups)|
  {
    hide Concat;
    ConcatSplit(groups[..i + 1], i);
    assert groups[..i + 1][..i] == groups[..i] && groups[..i + 1][i] == groups[i] && groups[..i + 1][i + 1..] == [];
    NoGroups();
    assert i + 1 == |groups| ==> groups[..i + 1] == groups;
  }
}

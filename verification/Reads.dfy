/** Point reads: the first layer that knows the key answers, with one
    binary-searched candidate file per level. */
module Reads {
  import opened Common
  import opened Keys
  import opened Layers
  import opened Engine
  import opened Compaction
  import opened CompactionSafety
  import opened CompactionPick

  lemma {:induction false} StackGetConcat(a: Stack, b: Stack, k: Bytes, s: nat)
    ensures StackGet(a + b, k, s) == if StackGet(a, k, s).Some? then StackGet(a, k, s) else StackGet(b, k, s)
  {
    hide RunGet;
    if a == [] {
      assert a + b == b;
    } else {
      assert (a + b)[1..] == a[1..] + b;
      StackGetConcat(a[1..], b, k, s);
    }
  }

  lemma {:induction false} StackGetOne(run: seq<Record>, k: Bytes, s: nat)
    ensures StackGet([run], k, s) == RunGet(run, k, s)
  {
    hide RunGet;
    assert [run][1..] == [];
  }

  /** The first file whose largest key is not below `key`. */
  method SearchFile(files: seq<Table>, key: Bytes) returns (i: nat)
    requires NonEmpty(files) && KeyAscending(LevelRun(files))
    ensures i <= |files| && forall j | 0 <= j < i :: KeyLess(LargestKey(files[j]), key)
    ensures forall j | i <= j < |files| :: !KeyLess(LargestKey(files[j]), key)
  {
    hide KeyLess, KeyAscending, LevelRun;
    i := 0;
    var hi := |files|;
    while i < hi
      invariant i <= hi <= |files|
      invariant forall j | 0 <= j < i :: KeyLess(LargestKey(files[j]), key)
      invariant forall j | hi <= j < |files| :: !KeyLess(LargestKey(files[j]), key)
    {
      var mid := (i + hi) / 2;
      if !KeyLess(LargestKey(files[mid]), key) {
        forall j | mid <= j < |files|
          ensures !KeyLess(LargestKey(files[j]), key)
        {
          LaterNotBelow(files, mid, j, key);
        }
        hi := mid;
      } else {
        forall j | 0 <= j <= mid
          ensures KeyLess(LargestKey(files[j]), key)
        {
          EarlierBelow(files, j, mid, key);
        }
        i := mid + 1;
      }
    }
  }

  lemma {:induction false} EarlierBelow(files: seq<Table>, j: nat, i: nat, key: Bytes)
    requires NonEmpty(files) && KeyAscending(LevelRun(files)) && j <= i < |files| && KeyLess(LargestKey(files[i]), key)
    ensures KeyLess(LargestKey(files[j]), key)
  {
    hide KeyLess, KeyAscending, LevelRun;
    if j < i {
      FilesOrdered(files, j, i);
      KeyTransitive(LargestKey(files[j]), LargestKey(files[i]), key);
    }
  }

  lemma {:induction false} LaterNotBelow(files: seq<Table>, i: nat, j: nat, key: Bytes)
    requires NonEmpty(files) && KeyAscending(LevelRun(files)) && i <= j < |files| && !KeyLess(LargestKey(files[i]), key)
    ensures !KeyLess(LargestKey(files[j]), key)
  {
    hide KeyLess, KeyAscending, LevelRun;
    if KeyLess(LargestKey(files[j]), key) {
      EarlierBelow(files, i, j, key);
    }
  }

  /** A file that does not span the key does not hold it. */
  lemma {:induction false} NotSpanned(files: seq<Table>, j: nat, key: Bytes, x: Record)
    requires NonEmpty(files) && KeyAscending(LevelRun(files)) && j < |files| && x in files[j].recs && x.key == key
    ensures !KeyLess(LargestKey(files[j]), key) && !KeyLess(key, SmallestKey(files[j]))
  {
    hide KeyLess, LevelRun;
    TableAscends(files, j);
    KeyAscendingAscends(files[j].recs);
    WithinBounds(files[j], x);
    if KeyLess(LargestKey(files[j]), key) {
      NotLeq(LargestKey(files[j]), key);
    }
    if KeyLess(key, SmallestKey(files[j])) {
      NotLeq(key, SmallestKey(files[j]));
    }
  }

  /** Only the candidate file can hold the key. */
  lemma {:induction false} OnlyCandidate(files: seq<Table>, i: nat, key: Bytes, j: nat, x: Record)
    requires NonEmpty(files) && KeyAscending(LevelRun(files)) && i <= |files| && j < |files| && x in files[j].recs && x.key == key
    requires forall j | 0 <= j < i :: KeyLess(LargestKey(files[j]), key)
    requires i < |files| ==> !KeyLess(LargestKey(files[i]), key)
    ensures j == i && !KeyLess(key, SmallestKey(files[i]))
  {
    hide KeyLess, KeyAscending, LevelRun;
    NotSpanned(files, j, key, x);
    if i < j {
      FilesOrdered(files, i, j);
      NotLessLeq(LargestKey(files[i]), key);
      LeqLess(key, LargestKey(files[i]), SmallestKey(files[j]));
    }
  }

  /** The newest visible version of `key` in a level below level 0. */
  method LevelGet(files: seq<Table>, key: Bytes, s: nat) returns (r: Option<Record>)
    requires NonEmpty(files) && KeyAscending(LevelRun(files))
    ensures r == RunGet(LevelRun(files), key, s)
  {
    hide KeyLess, KeyAscending, LevelRun, RunGet;
    var i := SearchFile(files, key);
    if i == |files| || KeyLess(key, SmallestKey(files[i])) {
      r := None;
    } else {
      r := RunGet(files[i].recs, key, s);
    }
    LevelAnswer(files, i, key, s, r);
  }

  lemma {:induction false} LevelAnswer(files: seq<Table>, i: nat, key: Bytes, s: nat, r: Option<Record>)
    requires NonEmpty(files) && KeyAscending(LevelRun(files)) && i <= |files|
    requires forall j | 0 <= j < i :: KeyLess(LargestKey(files[j]), key)
    requires i < |files| ==> !KeyLess(LargestKey(files[i]), key)
    requires r == if i == |files| || KeyLess(key, SmallestKey(files[i])) then None else RunGet(files[i].recs, key, s)
    ensures r == RunGet(LevelRun(files), key, s)
  {
    hide KeyLess, LevelRun, RunGet;
    var g := RunGet(LevelRun(files), key, s);
    if g.Some? {
      var j := InOneTable(files, g.value);
      OnlyCandidate(files, i, key, j, g.value);
      assert r.Some?;
    }
    if r.Some? {
      TableIn(files, i);
      assert r.value in LevelRun(files);
      assert g.Some?;
      OneVersion(LevelRun(files), r.value, g.value);
    }
  }

  /** The layered lookup of a read view. */
  method ViewGet(mem: seq<Record>, imm: Option<seq<Record>>, v: Version, key: Bytes, s: nat) returns (r: Option<Record>)
    requires VersionOk(v)
    ensures r == StackGet((if imm.Some? then [mem, imm.value] else [mem]) + VersionStack(v), key, s)
  {
    hide KeyLess, KeyAscending, LevelRun, RunGet, StackGet, TableRuns, DeepRuns;
    ghost var tables := VersionStack(v);
    ghost var mems := if imm.Some? then [mem, imm.value] else [mem];
    StackGetConcat(mems, tables, key, s);
    MemsGet(mem, imm, key, s);
    r := RunGet(mem, key, s);
    if r.Some? {
      return;
    }
    if imm.Some? {
      r := RunGet(imm.value, key, s);
      if r.Some? {
        return;
      }
    }
    StackGetConcat(TableRuns(v[0]), DeepRuns(v, 1), key, s);
    r := FrontGet(v[0], key, s);
    if r.Some? {
      return;
    }
    var lvl := 1;
    while lvl < NUM_LEVELS
      invariant 1 <= lvl <= NUM_LEVELS
      invariant StackGet(DeepRuns(v, 1), key, s) == StackGet(DeepRuns(v, lvl), key, s)
      invariant r.None?
    {
      DeepGetStep(v, lvl, key, s);
      if |v[lvl]| == 0 {
        EmptyLevel(v[lvl], key, s);
      } else {
        r := LevelGet(v[lvl], key, s);
        if r.Some? {
          return;
        }
      }
      lvl := lvl + 1;
    }
    NoLevels(v, key, s);
  }

  lemma {:induction false} MemsGet(mem: seq<Record>, imm: Option<seq<Record>>, key: Bytes, s: nat)
    ensures StackGet(if imm.Some? then [mem, imm.value] else [mem], key, s)
            == if RunGet(mem, key, s).Some? then RunGet(mem, key, s)
               else if imm.Some? then RunGet(imm.value, key, s) else None
  {
    hide RunGet;
    if imm.Some? {
      assert [mem, imm.value][1..] == [imm.value];
      StackGetOne(imm.value, key, s);
    } else {
      StackGetOne(mem, key, s);
    }
  }

  /** Level 0: newest file first. */
  method FrontGet(files: seq<Table>, key: Bytes, s: nat) returns (r: Option<Record>)
    ensures r == StackGet(TableRuns(files), key, s)
  {
    hide RunGet;
    r := None;
    var i := 0;
    assert files[0..] == files;
    while i < |files|
      invariant 0 <= i <= |files| && r.None?
      invariant StackGet(TableRuns(files), key, s) == StackGet(TableRuns(files[i..]), key, s)
    {
      assert files[i..][1..] == files[i + 1..];
      assert TableRuns(files[i..])[1..] == TableRuns(files[i + 1..]);
      r := RunGet(files[i].recs, key, s);
      if r.Some? {
        return;
      }
      i := i + 1;
    }
  }

  lemma {:induction false} DeepGetStep(v: Version, l: nat, key: Bytes, s: nat)
    requires l < |v|
    ensures StackGet(DeepRuns(v, l), key, s)
            == var r := RunGet(LevelRun(v[l]), key, s); if r.Some? then r else StackGet(DeepRuns(v, l + 1), key, s)
  {
    hide RunGet, LevelRun;
    assert DeepRuns(v, l)[1..] == DeepRuns(v, l + 1);
  }

  lemma {:induction false} EmptyLevel(files: seq<Table>, key: Bytes, s: nat)
    requires files == []
    ensures RunGet(LevelRun(files), key, s) == None
  {
  }

  lemma {:induction false} NoLevels(v: Version, key: Bytes, s: nat)
    ensures StackGet(DeepRuns(v, |v|), key, s) == None
  {
  }
}

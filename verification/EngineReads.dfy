/** Reads, scans and compactions run on an engine state. */
module EngineReads {
  import opened Common
  import opened Keys
  import opened Layers
  import opened Engine
  import opened EngineSteps
  import opened Compaction
  import opened CompactionSafety
  import opened CompactionPick
  import opened CompactionRun
  import opened Merge
  import opened MergingIters
  import opened Scan
  import opened Reads

  // ------------------------------------------- the sources of a merge apart

  function Flatten(st: Stack): seq<Record> {
    if st == [] then [] else st[0] + Flatten(st[1..])
  }

  ghost predicate Distinct(f: seq<Record>) {
    forall i, j | 0 <= i < j < |f| :: f[i].seqno != f[j].seqno
  }

  lemma {:induction false} FlattenConcat(a: Stack, b: Stack)
    ensures Flatten(a + b) == Flatten(a) + Flatten(b)
  {
    if a == [] {
      assert a + b == b;
    } else {
      assert (a + b)[1..] == a[1..] + b;
      FlattenConcat(a[1..], b);
    }
  }

  lemma {:induction false} FlattenTables(ts: seq<Table>)
    ensures Flatten(TableRuns(ts)) == LevelRun(ts)
  {
    if ts != [] {
      FlattenTables(ts[1..]);
      assert TableRuns(ts)[1..] == TableRuns(ts[1..]);
    }
  }

  lemma {:induction false} FlattenElems(st: Stack)
    ensures Elems(Flatten(st)) == All(st)
  {
    if st != [] {
      FlattenElems(st[1..]);
      AllSingle(st[0]);
      AllConcat([st[0]], st[1..]);
      assert [st[0]] + st[1..] == st;
    }
  }

  lemma DistinctConcat(a: seq<Record>, b: seq<Record>)
    ensures Distinct(a + b) <==> Distinct(a) && Distinct(b) && Apart(a, b)
  {
    var c := a + b;
    assert forall i | 0 <= i < |a| :: c[i] == a[i];
    assert forall i | 0 <= i < |b| :: c[|a| + i] == b[i];
    if Distinct(c) {
      forall x, y | x in a && y in b
        ensures x.seqno != y.seqno
      {
        var i :| 0 <= i < |a| && a[i] == x;
        var j :| 0 <= j < |b| && b[j] == y;
        assert c[i].seqno != c[|a| + j].seqno;
      }
      assert Distinct(a) by {
        forall i, j | 0 <= i < j < |a| ensures a[i].seqno != a[j].seqno { assert c[i].seqno != c[j].seqno; }
      }
      assert Distinct(b) by {
        forall i, j | 0 <= i < j < |b| ensures b[i].seqno != b[j].seqno { assert c[|a| + i].seqno != c[|a| + j].seqno; }
      }
    }
    if Distinct(a) && Distinct(b) && Apart(a, b) {
      forall i, j | 0 <= i < j < |c|
        ensures c[i].seqno != c[j].seqno
      {
        if i < |a| <= j {
          assert c[i] in a && c[j] in b;
        } else if |a| <= i {
          assert b[i - |a|].seqno != b[j - |a|].seqno;
        }
      }
    }
  }

  /** In a run of authentic records no sequence number repeats. */
  lemma RunDistinct(run: seq<Record>, ops: Ops)
    requires Ascending(run) && Authentic(Elems(run), ops)
    ensures Distinct(run)
  {
    hide RecLess;
    forall i, j | 0 <= i < j < |run|
      ensures run[i].seqno != run[j].seqno
    {
      assert run[i] in Elems(run) && run[j] in Elems(run);
      RecIrreflexive(run[i]);
    }
  }

  /** Recent layers of authentic records share no sequence number. */
  lemma {:induction false} StackDistinct(st: Stack, ops: Ops)
    requires Sorted(st) && Recent(st) && Authentic(All(st), ops)
    ensures Distinct(Flatten(st))
  {
    hide Ascending, Sorted, Recent, All, Distinct;
    if st == [] {
      assert Distinct([]) by { NoneDistinct(); }
    } else {
      var rest := st[1..];
      assert st == [st[0]] + rest;
      AllConcat([st[0]], rest);
      AllSingle(st[0]);
      RecentConcat([st[0]], rest);
      SortedConcat([st[0]], rest);
      StackDistinct(rest, ops);
      FlattenElems(rest);
      assert Ascending(st[0]) by { TopSorted(st); }
      RunDistinct(st[0], ops);
      assert Apart(st[0], Flatten(rest)) by {
        forall x, y | x in st[0] && y in Flatten(rest)
          ensures x.seqno != y.seqno
        {
          assert x in Elems(st[0]) && y in Elems(Flatten(rest));
        }
      }
      DistinctConcat(st[0], Flatten(rest));
    }
  }

  lemma NoneDistinct()
    ensures Distinct([])
  {
  }

  lemma TopSorted(st: Stack)
    requires Sorted(st) && st != []
    ensures Ascending(st[0])
  {
    hide Ascending;
  }

  /** Sorted runs whose records are all distinct can be merged. */
  lemma {:induction false} DistinctSources(runs: Runs)
    requires Distinct(Flatten(runs)) && forall i | 0 <= i < |runs| :: Ascending(runs[i])
    ensures SourcesOk(runs, [])
  {
    hide Ascending, Distinct;
    if runs != [] {
      var rest := runs[1..];
      DistinctConcat(runs[0], Flatten(rest));
      DistinctSources(rest);
      forall i, j | 0 <= i < j < |runs|
        ensures Apart(runs[i], runs[j])
      {
        if i == 0 {
          InFlatten(rest, j - 1);
        } else {
          assert Apart(rest[i - 1], rest[j - 1]);
        }
      }
    }
  }

  lemma {:induction false} InFlatten(st: Stack, i: nat)
    requires i < |st|
    ensures forall x | x in st[i] :: x in Flatten(st)
  {
    if i > 0 {
      InFlatten(st[1..], i - 1);
    }
  }

  // ----------------------------------------------------- one source per file

  function FileRuns(v: Version, l: nat): Runs
    decreases |v| - l
  {
    if l >= |v| then [] else TableRuns(v[l]) + FileRuns(v, l + 1)
  }

  function LevelsRun(v: Version, l: nat): seq<Record>
    decreases |v| - l
  {
    if l >= |v| then [] else LevelRun(v[l]) + LevelsRun(v, l + 1)
  }

  lemma {:induction false} FilesFlat(v: Version, l: nat)
    ensures Flatten(FileRuns(v, l)) == LevelsRun(v, l) == Flatten(DeepRuns(v, l))
    decreases |v| - l
  {
    hide LevelRun;
    if l < |v| {
      FilesFlat(v, l + 1);
      FlattenConcat(TableRuns(v[l]), FileRuns(v, l + 1));
      FlattenTables(v[l]);
      assert DeepRuns(v, l)[1..] == DeepRuns(v, l + 1);
    }
  }

  /** Splitting the levels into files rearranges nothing. */
  lemma {:induction false} SameFlat(v: Version)
    ensures Flatten(FileRuns(v, 0)) == LevelsRun(v, 0) == Flatten(VersionStack(v))
  {
    hide LevelRun;
    FilesFlat(v, 0);
    FilesFlat(v, 1);
    if v != [] {
      FlattenConcat(TableRuns(v[0]), DeepRuns(v, 1));
      FlattenTables(v[0]);
    }
  }

  lemma {:induction false} VersionFilesSorted(v: Version)
    requires Sorted(VersionStack(v))
    ensures Sorted(FileRuns(v, 0))
  {
    hide Sorted, DeepRuns;
    if v == [] {
      assert FileRuns(v, 0) == VersionStack(v);
    } else {
      SortedConcat(TableRuns(v[0]), DeepRuns(v, 1));
      FilesSorted(v, 1);
      SortedConcat(TableRuns(v[0]), FileRuns(v, 1));
    }
  }

  lemma {:induction false} PartAscends(ts: seq<Table>, i: nat)
    requires Ascending(LevelRun(ts)) && i < |ts|
    ensures Ascending(ts[i].recs)
  {
    hide RecLess;
    var a, b := ts[0].recs, LevelRun(ts[1..]);
    assert LevelRun(ts) == a + b;
    assert forall k | 0 <= k < |a| :: (a + b)[k] == a[k];
    assert forall k | 0 <= k < |b| :: (a + b)[|a| + k] == b[k];
    if i > 0 {
      PartAscends(ts[1..], i - 1);
    }
  }

  lemma {:induction false} TableRunsAt(ts: seq<Table>)
    ensures |TableRuns(ts)| == |ts| && forall i | 0 <= i < |ts| :: TableRuns(ts)[i] == ts[i].recs
  {
    if ts != [] {
      TableRunsAt(ts[1..]);
    }
  }

  /** Every file of a sorted version is a sorted run. */
  lemma {:induction false} FilesSorted(v: Version, l: nat)
    requires Sorted(DeepRuns(v, l))
    ensures Sorted(FileRuns(v, l))
    decreases |v| - l
  {
    hide Ascending, LevelRun;
    if l < |v| {
      assert DeepRuns(v, l)[0] == LevelRun(v[l]) && DeepRuns(v, l)[1..] == DeepRuns(v, l + 1);
      FilesSorted(v, l + 1);
      TableRunsAt(v[l]);
      forall i | 0 <= i < |v[l]|
        ensures Ascending(v[l][i].recs)
      {
        PartAscends(v[l], i);
      }
      SortedConcat(TableRuns(v[l]), FileRuns(v, l + 1));
    }
  }

  /** The sources of a scan: the memtables and every file. */
  function ViewRuns(mems: Stack, v: Version): Runs {
    mems + FileRuns(v, 0)
  }

  /** A reader's view, split into one source per file, can be merged and holds the same records. */
  lemma ViewSources(mems: Stack, v: Version, ops: Ops, s: nat)
    requires StackOk(mems + VersionStack(v), ops, s)
    ensures SourcesOk(ViewRuns(mems, v), []) && All(ViewRuns(mems, v)) == All(mems + VersionStack(v))
  {
    hide Ascending, Sorted, Recent, Reflects, All, Distinct, LevelRun, Flatten, FileRuns, VersionStack;
    var st: Stack := mems + VersionStack(v);
    StackDistinct(st, ops);
    SameFlat(v);
    FlattenConcat(mems, VersionStack(v));
    FlattenConcat(mems, FileRuns(v, 0));
    FlattenElems(st);
    FlattenElems(ViewRuns(mems, v));
    SortedConcat(mems, VersionStack(v));
    SortedConcat(mems, FileRuns(v, 0));
    VersionFilesSorted(v);
    assert forall i | 0 <= i < |ViewRuns(mems, v)| :: Ascending(ViewRuns(mems, v)[i]) by { AllSorted(ViewRuns(mems, v)); }
    DistinctSources(ViewRuns(mems, v));
  }

  lemma AllSorted(st: Stack)
    requires Sorted(st)
    ensures forall i | 0 <= i < |st| :: Ascending(st[i])
  {
    hide Ascending;
  }

  // ----------------------------------------------------------------- reading

  /** A point read of the current state. */
  method Get(e: Engine, ghost ops: Ops, key: Bytes) returns (v: Option<Bytes>)
    requires Inv(e, ops)
    ensures v == Visible(ops, |ops|, key)
  {
    hide StackOk, VersionOk, WalOk, JobOk, PinOk, StackGet, Visible, VersionStack;
    var m := |e.mems| - 1;
    var r := ViewGet(e.mems[m], if e.sealed then Some(e.mems[m - 1]) else None, e.version, key, e.seqno);
    assert r == StackGet(Current(e), key, e.seqno);
    assert Interpret(r) == Visible(ops, |ops|, key) by { CurrentGet(e, ops, key); }
    v := Interpret(r);
  }

  lemma {:induction false} CurrentGet(e: Engine, ops: Ops, key: Bytes)
    requires Shaped(e) && Numbered(ops) && StackOk(Current(e), ops, |ops|)
    ensures Interpret(StackGet(Current(e), key, |ops|)) == Visible(ops, |ops|, key)
  {
    hide Sorted, Recent, Authentic, Reflects, StackGet, Visible;
    GetRefines(Current(e), ops, |ops|, key);
  }

  /** A range scan on a pinned view, while `incoming` is written to its live memtable. */
  method ScanPin(e: Engine, ghost ops: Ops, p: Pin, incoming: seq<Record>,
                 start: Option<Bytes>, end: Option<Bytes>, includeReserved: bool) returns (out: seq<Pair>)
    requires Inv(e, ops) && p in e.pins
    requires (forall i | 0 <= i < |incoming| :: incoming[i].seqno > |ops|)
    requires (forall i, j | 0 <= i < j < |incoming| :: incoming[i].seqno != incoming[j].seqno)
    ensures p.seqno <= |ops|
    ensures forall i, j | 0 <= i < j < |out| :: KeyLess(out[i].key, out[j].key)
    ensures forall q :: q in out <==> Shown(ops, p.seqno, start, end, includeReserved, q)
  {
    hide KeyLess, VersionOk, WalOk, CountersOk, JobOk, Current, Sorted, Recent, All, VersionStack, FileRuns, Shown, SourcesOk;
    assert PinOk(e, ops, p);
    var mems := MemStack(e.mems, p.mem, p.imm);
    ViewSources(mems, p.version, ops, p.seqno);
    var runs := ViewRuns(mems, p.version);
    assert SourcesOk(runs, incoming) by { NewWrites(runs, incoming, ops); }
    out := Collect(runs, incoming, ops, p.seqno, start, end, includeReserved);
  }

  lemma NewWrites(runs: Runs, incoming: seq<Record>, ops: Ops)
    requires SourcesOk(runs, []) && Authentic(All(runs), ops) && runs != []
    requires (forall i | 0 <= i < |incoming| :: incoming[i].seqno > |ops|)
    requires (forall i, j | 0 <= i < j < |incoming| :: incoming[i].seqno != incoming[j].seqno)
    ensures SourcesOk(runs, incoming)
  {
    hide Ascending;
    forall i | 0 <= i < |runs|
      ensures Apart(runs[i], incoming)
    {
      forall x, y | x in runs[i] && y in incoming
        ensures x.seqno != y.seqno
      {
        assert x in All(runs);
      }
    }
  }

  // -------------------------------------------------------------- compacting

  lemma {:induction false} DeeperDistinct(v: Version, l: nat, m: nat)
    requires Distinct(LevelsRun(v, l)) && l <= m
    ensures Distinct(LevelsRun(v, m))
    decreases |v| - l
  {
    hide LevelRun, Distinct;
    if l < m {
      if l < |v| {
        DistinctConcat(LevelRun(v[l]), LevelsRun(v, l + 1));
        DeeperDistinct(v, l + 1, m);
      } else {
        assert LevelsRun(v, m) == LevelsRun(v, l);
      }
    }
  }

  lemma {:induction false} SliceDistinct(ts: seq<Table>, lo: nat, hi: nat)
    requires Distinct(LevelRun(ts)) && lo <= hi <= |ts|
    ensures Distinct(LevelRun(ts[lo..hi])) && forall x | x in LevelRun(ts[lo..hi]) :: x in LevelRun(ts)
  {
    hide LevelRun, Distinct;
    assert ts == ts[..lo] + ts[lo..hi] + ts[hi..];
    LevelConcat(ts[..lo] + ts[lo..hi], ts[hi..]);
    LevelConcat(ts[..lo], ts[lo..hi]);
    DistinctConcat(LevelRun(ts[..lo]) + LevelRun(ts[lo..hi]), LevelRun(ts[hi..]));
    DistinctConcat(LevelRun(ts[..lo]), LevelRun(ts[lo..hi]));
  }

  /** A job's input files can be merged. */
  lemma InputSources(mems: Stack, v: Version, c: Job, ops: Ops)
    requires StackOk(mems + VersionStack(v), ops, |ops|) && VersionOk(v) && JobOk(v, c)
    ensures SourcesOk(InputRuns(v, c), [])
    ensures forall x | x in All(InputRuns(v, c)) :: x.seqno <= |ops|
  {
    hide KeysBefore, LevelRun, Distinct, Ascending, KeyAscending, Recent, Reflects, All, Sorted, Flatten, VersionStack;
    var st: Stack := mems + VersionStack(v);
    StackDistinct(st, ops);
    FlattenConcat(mems, VersionStack(v));
    DistinctConcat(Flatten(mems), Flatten(VersionStack(v)));
    SameFlat(v);
    DeeperDistinct(v, 0, c.level);
    var a, b := LevelRun(v[c.level]), LevelRun(v[c.level + 1]);
    assert LevelsRun(v, c.level) == a + (b + LevelsRun(v, c.level + 2));
    DistinctConcat(a, b + LevelsRun(v, c.level + 2));
    DistinctConcat(b, LevelsRun(v, c.level + 2));
    var lo, hi := UpperSlice(v, c);
    SliceDistinct(v[c.level], lo, hi);
    SliceDistinct(v[c.level + 1], c.lo, c.hi);
    DistinctConcat(LevelRun(c.upper), LevelRun(Lower(v, c)));
    FlattenTables(c.upper);
    FlattenTables(Lower(v, c));
    FlattenConcat(TableRuns(c.upper), TableRuns(Lower(v, c)));
    SortedConcat(mems, VersionStack(v));
    InputsSorted(v, c, lo, hi);
    DistinctSources(InputRuns(v, c));
    forall x | x in All(InputRuns(v, c))
      ensures x.seqno <= |ops|
    {
      FlattenElems(InputRuns(v, c));
      InLevels(v, c, x);
      FlattenElems(VersionStack(v));
      AllConcat(mems, VersionStack(v));
    }
  }

  lemma {:induction false} InLevels(v: Version, c: Job, x: Record)
    requires |v| == NUM_LEVELS && c.level + 1 < |v| && c.lo <= c.hi <= |v[c.level + 1]|
    requires x in LevelRun(v[c.level]) || x in LevelRun(v[c.level + 1])
    ensures x in LevelsRun(v, 0)
  {
    hide LevelRun;
    LevelIn(v, 0, c.level);
    LevelIn(v, 0, c.level + 1);
  }

  lemma {:induction false} LevelIn(v: Version, l: nat, m: nat)
    requires l <= m < |v|
    ensures forall x | x in LevelRun(v[m]) :: x in LevelsRun(v, l)
    decreases m - l
  {
    hide LevelRun;
    if l < m {
      LevelIn(v, l + 1, m);
    }
  }

  lemma InputsSorted(v: Version, c: Job, lo: nat, hi: nat)
    requires VersionOk(v) && JobOk(v, c) && Sorted(VersionStack(v))
    requires lo <= hi <= |v[c.level]| && c.upper == v[c.level][lo..hi]
    ensures forall i | 0 <= i < |InputRuns(v, c)| :: Ascending(InputRuns(v, c)[i])
  {
    hide KeysBefore, Ascending, KeyAscending, LevelRun, DeepRuns;
    assert forall i | 0 <= i < |v[0]| :: Ascending(v[0][i].recs) by { FrontSorted(v); }
    LevelRuns(v, c.level);
    LevelRuns(v, c.level + 1);
    TableRunsAt(c.upper);
    TableRunsAt(Lower(v, c));
  }

  lemma FrontSorted(v: Version)
    requires |v| == NUM_LEVELS && Sorted(VersionStack(v))
    ensures forall i | 0 <= i < |v[0]| :: Ascending(v[0][i].recs)
  {
    hide Ascending, DeepRuns;
    TableRunsAt(v[0]);
    forall i | 0 <= i < |v[0]|
      ensures Ascending(v[0][i].recs)
    {
      assert VersionStack(v)[i] == TableRuns(v[0])[i];
    }
  }

  /** Picks and runs one compaction to its install, in a state where none runs. */
  method CompactOnce(e: Engine, ghost ops: Ops, level: nat, ptr: Option<Record>) returns (e': Engine, next: Option<Record>)
    requires Inv(e, ops) && e.compaction.None? && level + 1 < NUM_LEVELS && e.version[level] != []
    ensures Inv(e', ops)
    ensures e'.mems == e.mems && e'.wal == e.wal && e'.pins == e.pins && e'.seqno == e.seqno && e'.nextFile >= e.nextFile
  {
    hide StackOk, VersionOk, WalOk, CountersOk, JobOk, Merges, Writes, VersionStack, SourcesOk;
    var mems := MemStack(e.mems, |e.mems| - 1, e.sealed);
    assert Sorted(VersionStack(e.version)) by { TablesSorted(mems, e.version, ops); }
    FrontSorted(e.version);
    assert VersionOk(e.version) && forall l | 0 <= l < |e.version| :: NonEmpty(e.version[l]) by { NoEmptyFiles(e.version); }
    var c;
    c, next := PickCompaction(e.version, level, ptr);
    InputSources(mems, e.version, c, ops);
    var outs, num, merged := RunCompaction(e.version, c, e.nextFile, |ops|);
    ghost var picked := e.(compaction := Some(c));
    PickedKeeps(e, ops, c);
    InstallKeeps(picked, ops, merged, outs);
    e' := Install(e.(compaction := Some(c)), outs);
    RenumberKeeps(e', ops, num);
    e' := e'.(nextFile := num);
  }

  lemma TablesSorted(mems: Stack, v: Version, ops: Ops)
    requires StackOk(mems + VersionStack(v), ops, |ops|)
    ensures Sorted(VersionStack(v))
  {
    hide Sorted, Recent, Reflects, Authentic;
    SortedConcat(mems, VersionStack(v));
  }

  lemma NoEmptyFiles(v: Version)
    requires VersionOk(v)
    ensures forall l | 0 <= l < |v| :: NonEmpty(v[l])
  {
    hide KeyAscending, LevelRun;
  }

  lemma PickedKeeps(e: Engine, ops: Ops, job: Job)
    requires Inv(e, ops) && JobOk(e.version, job)
    ensures Inv(e.(compaction := Some(job)), ops)
  {
    hide StackOk, VersionOk, JobOk, WalOk, CountersOk, VersionStack;
    var f := e.(compaction := Some(job));
    CountersSame(e, f, ops);
    WalSame(e, f);
    forall p | p in f.pins
      ensures PinOk(f, ops, p)
    {
      PinOther(e, f, ops, p);
    }
  }

  lemma RenumberKeeps(e: Engine, ops: Ops, num: nat)
    requires Inv(e, ops)
    ensures Inv(e.(nextFile := num), ops)
  {
    hide StackOk, VersionOk, JobOk, WalOk, CountersOk, VersionStack;
    var f := e.(nextFile := num);
    CountersSame(e, f, ops);
    WalSame(e, f);
    forall p | p in f.pins
      ensures PinOk(f, ops, p)
    {
      PinOther(e, f, ops, p);
    }
  }
}

/** Crash and reopen: what survives on disk, and the state rebuilt from it. */
module Recovery {
  import opened Common
  import opened Keys
  import opened Layers
  import opened Engine
  import opened EngineSteps
  import opened Compaction

  /** What a crash leaves: the manifest's durable state and the log's segments. */
  datatype Disk = Disk(version: Version, logNumber: nat, lastSeq: nat, wal: seq<Segment>, nextFile: nat)

  function DiskOf(e: Engine): Disk {
    Disk(e.version, e.logNumber, e.lastSeq, e.wal, e.nextFile)
  }

  function FlatBatches(bs: seq<seq<Record>>): seq<Record> {
    if bs == [] then [] else bs[0] + FlatBatches(bs[1..])
  }

  /** Every logged record, in log order. */
  function Flat(wal: seq<Segment>): seq<Record> {
    if wal == [] then [] else FlatBatches(wal[0].batches) + Flat(wal[1..])
  }

  /** Deletes dead segments in ascending order. */
  function DropBelow(wal: seq<Segment>, upto: nat): seq<Segment> {
    if wal != [] && wal[0].id < upto then DropBelow(wal[1..], upto) else wal
  }

  predicate Contiguous(wal: seq<Segment>) {
    forall i | 0 < i < |wal| :: wal[i].id == wal[i - 1].id + 1
  }

  function MaxSeqno(s: nat, recs: seq<Record>): (m: nat)
    ensures m >= s
    decreases |recs|
  {
    if recs == [] then s else MaxSeqno(Max(s, recs[0].seqno), recs[1..])
  }

  function FreshSegment(wal: seq<Segment>): seq<Segment> {
    if wal == [] then [Segment(1, [])] else Rotated(wal)
  }

  /** The engine rebuilt from disk: the tables, a memtable replayed from the log, and a fresh segment. */
  function Reopen(d: Disk): Engine {
    var w := DropBelow(d.wal, d.logNumber);
    var recs := Flat(w);
    var s := MaxSeqno(d.lastSeq, recs);
    Engine([InsertAll([], recs)], false, d.version, s, 0, 0, d.logNumber, d.lastSeq, s, FreshSegment(w), d.nextFile, None, {})
  }

  /** The log is the end of the history: nothing is logged twice or out of order. */
  ghost predicate LogTail(wal: seq<Segment>, ops: Ops) {
    var f := Flat(wal);
    |f| <= |ops| && f == ops[|ops| - |f|..]
  }

  // -------------------------------------------------------------- replaying

  lemma {:induction false} FlatBatchesConcat(a: seq<seq<Record>>, b: seq<seq<Record>>)
    ensures FlatBatches(a + b) == FlatBatches(a) + FlatBatches(b)
  {
    if a == [] {
      assert a + b == b;
    } else {
      assert (a + b)[1..] == a[1..] + b;
      FlatBatchesConcat(a[1..], b);
    }
  }

  lemma {:induction false} FlatConcat(a: seq<Segment>, b: seq<Segment>)
    ensures Flat(a + b) == Flat(a) + Flat(b)
  {
    hide FlatBatches;
    if a == [] {
      assert a + b == b;
    } else {
      assert (a + b)[1..] == a[1..] + b;
      FlatConcat(a[1..], b);
    }
  }

  lemma {:induction false} InsertAllConcat(run: seq<Record>, a: seq<Record>, b: seq<Record>)
    ensures InsertAll(run, a + b) == InsertAll(InsertAll(run, a), b)
    decreases |a|
  {
    hide Insert;
    if a == [] {
      assert a + b == b;
    } else {
      assert (a + b)[1..] == a[1..] + b;
      InsertAllConcat(Insert(run, a[0]), a[1..], b);
    }
  }

  lemma {:induction false} MaxSeqnoConcat(s: nat, a: seq<Record>, b: seq<Record>)
    ensures MaxSeqno(s, a + b) == MaxSeqno(MaxSeqno(s, a), b)
    decreases |a|
  {
    if a == [] {
      assert a + b == b;
    } else {
      assert (a + b)[1..] == a[1..] + b;
      MaxSeqnoConcat(Max(s, a[0].seqno), a[1..], b);
    }
  }

  /** Adds one batch's records to the memtable under their own sequence numbers. */
  method ReplayBatch(mem: seq<Record>, maxSeq: nat, batch: seq<Record>) returns (mem': seq<Record>, maxSeq': nat)
    ensures mem' == InsertAll(mem, batch) && maxSeq' == MaxSeqno(maxSeq, batch)
  {
    hide Insert;
    mem', maxSeq' := mem, maxSeq;
    var i := 0;
    assert batch[0..] == batch;
    while i < |batch|
      invariant 0 <= i <= |batch|
      invariant InsertAll(mem', batch[i..]) == InsertAll(mem, batch)
      invariant MaxSeqno(maxSeq', batch[i..]) == MaxSeqno(maxSeq, batch)
    {
      assert batch[i..][1..] == batch[i + 1..];
      mem' := Insert(mem', batch[i]);
      if batch[i].seqno > maxSeq' {
        maxSeq' := batch[i].seqno;
      }
      i := i + 1;
    }
  }

  /** Replays one segment. */
  method ReplaySegment(mem: seq<Record>, maxSeq: nat, seg: Segment) returns (mem': seq<Record>, maxSeq': nat)
    ensures mem' == InsertAll(mem, FlatBatches(seg.batches)) && maxSeq' == MaxSeqno(maxSeq, FlatBatches(seg.batches))
  {
    hide Insert, InsertAll, MaxSeqno;
    mem', maxSeq' := mem, maxSeq;
    var i := 0;
    var bs := seg.batches;
    assert bs[0..] == bs;
    while i < |bs|
      invariant 0 <= i <= |bs|
      invariant InsertAll(mem', FlatBatches(bs[i..])) == InsertAll(mem, FlatBatches(bs))
      invariant MaxSeqno(maxSeq', FlatBatches(bs[i..])) == MaxSeqno(maxSeq, FlatBatches(bs))
    {
      assert bs[i..][1..] == bs[i + 1..];
      InsertAllConcat(mem', bs[i], FlatBatches(bs[i + 1..]));
      MaxSeqnoConcat(maxSeq', bs[i], FlatBatches(bs[i + 1..]));
      mem', maxSeq' := ReplayBatch(mem', maxSeq', bs[i]);
      i := i + 1;
    }
    assert InsertAll(mem', []) == mem' && MaxSeqno(maxSeq', []) == maxSeq' by { NothingMore(mem', maxSeq'); }
  }

  lemma {:induction false} NothingMore(mem: seq<Record>, s: nat)
    ensures InsertAll(mem, []) == mem && MaxSeqno(s, []) == s
  {
  }

  /** Opens the engine: prunes, replays every segment in order, refuses a gap. */
  method Open(d: Disk) returns (r: Option<Engine>)
    ensures r == if Contiguous(DropBelow(d.wal, d.logNumber)) then Some(Reopen(d)) else None
  {
    hide Insert, InsertAll, MaxSeqno, FlatBatches;
    var w := d.wal;
    while w != [] && w[0].id < d.logNumber
      invariant DropBelow(w, d.logNumber) == DropBelow(d.wal, d.logNumber)
    {
      w := w[1..];
    }
    var mem: seq<Record>, maxSeq := [], d.lastSeq;
    var i := 0;
    assert w[0..] == w;
    while i < |w|
      invariant 0 <= i <= |w| && forall j | 0 < j < i :: w[j].id == w[j - 1].id + 1
      invariant InsertAll(mem, Flat(w[i..])) == InsertAll([], Flat(w))
      invariant MaxSeqno(maxSeq, Flat(w[i..])) == MaxSeqno(d.lastSeq, Flat(w))
    {
      if i > 0 && w[i].id != w[i - 1].id + 1 {
        return None;
      }
      assert w[i..][1..] == w[i + 1..];
      InsertAllConcat(mem, FlatBatches(w[i].batches), Flat(w[i + 1..]));
      MaxSeqnoConcat(maxSeq, FlatBatches(w[i].batches), Flat(w[i + 1..]));
      mem, maxSeq := ReplaySegment(mem, maxSeq, w[i]);
      i := i + 1;
    }
    NothingMore(mem, maxSeq);
    r := Some(Engine([mem], false, d.version, maxSeq, 0, 0, d.logNumber, d.lastSeq, maxSeq, FreshSegment(w), d.nextFile, None, {}));
  }

  // ---------------------------------------------------------- what survives

  /** Pruning every dead segment keeps the state whole and ends with live segments only. */
  lemma {:induction false} DropKeeps(e: Engine, ops: Ops)
    requires Inv(e, ops) && LogTail(e.wal, ops)
    ensures var f := e.(wal := DropBelow(e.wal, e.logNumber));
            Inv(f, ops) && LogTail(f.wal, ops) && f.wal[0].id >= f.logNumber
    decreases |e.wal|
  {
    hide StackOk, VersionOk, JobOk, CountersOk, WalOk, LogTail;
    if e.wal[0].id < e.logNumber {
      PruneKeeps(e, ops);
      assert LogTail(e.wal[1..], ops) by { TailShorter(e.wal, ops); }
      DropKeeps(Prune(e), ops);
    } else {
      assert e.(wal := DropBelow(e.wal, e.logNumber)) == e;
    }
  }

  lemma TailShorter(wal: seq<Segment>, ops: Ops)
    requires LogTail(wal, ops) && wal != []
    ensures LogTail(wal[1..], ops)
  {
    hide FlatBatches;
    var f, g := Flat(wal), Flat(wal[1..]);
    assert g == f[|f| - |g|..];
  }

  lemma {:induction false} FlatBatchesElems(bs: seq<seq<Record>>)
    ensures Elems(FlatBatches(bs)) == BatchRecs(bs)
  {
    if bs != [] {
      FlatBatchesElems(bs[1..]);
      forall x
        ensures x in FlatBatches(bs) <==> x in BatchRecs(bs)
      {
        assert x in FlatBatches(bs) <==> x in bs[0] || x in Elems(FlatBatches(bs[1..]));
        if x in BatchRecs(bs[1..]) {
          var i :| 0 <= i < |bs[1..]| && x in bs[1..][i];
          assert x in bs[i + 1];
        }
        if x in BatchRecs(bs) && x !in bs[0] {
          var i :| 0 <= i < |bs| && x in bs[i];
          assert x in bs[1..][i - 1];
        }
      }
    }
  }

  /** The records of live segments, as a list and as a set. */
  lemma {:induction false} FlatElems(wal: seq<Segment>, lo: nat, hi: nat)
    requires forall i | 0 <= i < |wal| :: lo <= wal[i].id < hi
    ensures Elems(Flat(wal)) == Logged(wal, lo, hi)
  {
    hide BatchRecs;
    if wal != [] {
      FlatElems(wal[1..], lo, hi);
      FlatBatchesElems(wal[0].batches);
      forall x
        ensures x in Flat(wal) <==> x in Logged(wal, lo, hi)
      {
        assert x in Flat(wal) <==> x in Elems(FlatBatches(wal[0].batches)) || x in Elems(Flat(wal[1..]));
        if x in Logged(wal[1..], lo, hi) {
          var i :| 0 <= i < |wal[1..]| && x in BatchRecs(wal[1..][i].batches);
          assert x in BatchRecs(wal[i + 1].batches);
        }
        if x in Logged(wal, lo, hi) && x !in BatchRecs(wal[0].batches) {
          var i :| 0 <= i < |wal| && x in BatchRecs(wal[i].batches);
          assert wal[1..][i - 1] == wal[i];
        }
      }
    }
  }

  /** With live segments only, the log holds exactly what the memtables hold. */
  lemma LiveLog(e: Engine)
    requires Shaped(e) && WalOk(e) && e.wal[0].id >= e.logNumber
    ensures Elems(Flat(e.wal)) == All(MemStack(e.mems, |e.mems| - 1, e.sealed))
  {
    hide Flat, BatchRecs, Logged;
    var top := e.wal[|e.wal| - 1].id + 1;
    assert forall i | 0 <= i < |e.wal| :: e.wal[i].id == e.wal[0].id + i;
    FlatElems(e.wal, e.logNumber, top);
    var m := |e.mems| - 1;
    AllSingle(e.mems[m]);
    if e.sealed {
      LoggedSplit(e.wal, e.logNumber, e.immBound, top);
      AllSingle(e.mems[m - 1]);
      AllConcat([e.mems[m]], [e.mems[m - 1]]);
      assert MemStack(e.mems, m, true) == [e.mems[m]] + [e.mems[m - 1]];
    }
  }

  lemma LoggedSplit(wal: seq<Segment>, lo: nat, mid: nat, hi: nat)
    requires lo <= mid <= hi
    ensures Logged(wal, lo, hi) == Logged(wal, lo, mid) + Logged(wal, mid, hi)
  {
    hide BatchRecs;
  }

  /** Replaying the log rebuilds one memtable with the records of both, none twice. */
  lemma {:induction false} Rebuilt(wal: seq<Segment>, ops: Ops)
    requires LogTail(wal, ops) && Numbered(ops)
    ensures var mem := InsertAll([], Flat(wal)); Ascending(mem) && Elems(mem) == Elems(Flat(wal))
  {
    hide Flat;
    var f := Flat(wal);
    assert forall i | 0 <= i < |f| :: f[i] == ops[|ops| - |f| + i];
    assert Ascending([]) by { EmptyAscending(); }
    InsertAllKeeps([], f);
    assert Elems([]) == {};
  }

  /** One memtable in place of two with the same records. */
  lemma OneMemtable(mems: Stack, mem: seq<Record>, tables: Stack, ops: Ops, s: nat)
    requires StackOk(mems + tables, ops, s) && Ascending(mem) && Elems(mem) == All(mems)
    ensures StackOk([mem] + tables, ops, s)
  {
    hide Sorted, Recent, All, Ascending, Reflects, OverAll;
    AllConcat(mems, tables);
    AllConcat([mem], tables);
    AllSingle(mem);
    RecentConcat(mems, tables);
    RecentConcat([mem], tables);
    SortedConcat(mems, tables);
    SortedConcat([mem], tables);
    assert Recent([mem]) && Sorted([mem]) by { OneRun(mem); }
  }

  lemma OneRun(mem: seq<Record>)
    requires Ascending(mem)
    ensures Recent([mem]) && Sorted([mem])
  {
    hide Ascending;
  }

  lemma {:induction false} MaxBound(s: nat, recs: seq<Record>, n: nat)
    requires s <= n && forall i | 0 <= i < |recs| :: recs[i].seqno <= n
    requires s == n || (recs != [] && recs[|recs| - 1].seqno == n)
    ensures MaxSeqno(s, recs) == n
    decreases |recs|
  {
    if recs != [] {
      MaxBound(Max(s, recs[0].seqno), recs[1..], n);
    }
  }

  /** The published sequence number is recovered exactly. */
  lemma SeqnoRecovered(e: Engine, ops: Ops)
    requires Inv(e, ops) && LogTail(e.wal, ops) && e.wal[0].id >= e.logNumber
    ensures MaxSeqno(e.lastSeq, Flat(e.wal)) == |ops|
  {
    hide Flat, StackOk, VersionOk, JobOk;
    var f := Flat(e.wal);
    LiveLog(e);
    if e.lastSeq < |ops| {
      var x := ops[|ops| - 1];
      assert Logs(e, x);
      assert x in All(MemStack(e.mems, |e.mems| - 1, e.sealed)) by { LogsHeld(e, x); }
      assert x in f;
    }
    assert forall i | 0 <= i < |f| :: f[i] == ops[|ops| - |f| + i];
    MaxBound(e.lastSeq, f, |ops|);
  }

  lemma LogsHeld(e: Engine, x: Record)
    requires Shaped(e)
    ensures Logs(e, x) <==> x in All(MemStack(e.mems, |e.mems| - 1, e.sealed))
  {
    var m := |e.mems| - 1;
    AllSingle(e.mems[m]);
    if e.sealed {
      AllSingle(e.mems[m - 1]);
      AllConcat([e.mems[m]], [e.mems[m - 1]]);
      assert MemStack(e.mems, m, true) == [e.mems[m]] + [e.mems[m - 1]];
    }
  }

  lemma ReopenedWal(e: Engine, ops: Ops, mem: seq<Record>)
    requires Inv(e, ops) && LogTail(e.wal, ops) && e.wal[0].id >= e.logNumber
    requires Elems(mem) == Elems(Flat(e.wal))
    ensures var w := Rotated(e.wal);
            && (forall i | 0 <= i < |w| :: w[i].id == w[0].id + i)
            && Elems(mem) == Logged(w, e.logNumber, w[|w| - 1].id + 1) && LogTail(w, ops)
  {
    hide StackOk, VersionOk, JobOk, CountersOk, Flat, Logged;
    var w := Rotated(e.wal);
    var top := w[|w| - 1].id + 1;
    assert forall i | 0 <= i < |e.wal| :: e.wal[i].id == e.wal[0].id + i;
    FlatElems(e.wal, e.logNumber, top);
    RotatedLogs(e.wal, e.logNumber, top);
    FlatConcat(e.wal, [Segment(top - 1, [])]);
    assert Flat([Segment(top - 1, [])]) == [] by { EmptySegment(top - 1); }
  }

  lemma EmptySegment(id: nat)
    ensures Flat([Segment(id, [])]) == []
  {
    assert [Segment(id, [])][1..] == [];
  }

  /** Crash recovery: whatever the moment of the crash, reopening rebuilds a
      state whose history is the one the engine had, and no internal key twice. */
  lemma ReopenKeeps(e: Engine, ops: Ops)
    requires Inv(e, ops) && LogTail(e.wal, ops)
    ensures Contiguous(DropBelow(e.wal, e.logNumber))
    ensures Inv(Reopen(DiskOf(e)), ops) && LogTail(Reopen(DiskOf(e)).wal, ops)
  {
    hide StackOk, VersionOk, JobOk, CountersOk, LogTail, Flat, VersionStack, InsertAll;
    DropKeeps(e, ops);
    var f := e.(wal := DropBelow(e.wal, e.logNumber));
    var g := Reopen(DiskOf(e));
    var mem := InsertAll([], Flat(f.wal));
    Rebuilt(f.wal, ops);
    LiveLog(f);
    SeqnoRecovered(f, ops);
    ReopenedWal(f, ops, mem);
    OneMemtable(MemStack(f.mems, |f.mems| - 1, f.sealed), mem, VersionStack(f.version), ops, |ops|);
    assert g.mems == [mem] && Current(g) == [mem] + VersionStack(f.version);
    assert CountersOk(g, ops) by { ReopenedCounters(f, g, ops, mem); }
  }

  lemma ReopenedCounters(f: Engine, g: Engine, ops: Ops, mem: seq<Record>)
    requires Shaped(f) && Shaped(g) && CountersOk(f, ops)
    requires Elems(mem) == All(MemStack(f.mems, |f.mems| - 1, f.sealed))
    requires g.mems == [mem] && !g.sealed && g.seqno == g.raisedSeq == |ops| && g.lastSeq == f.lastSeq
    ensures CountersOk(g, ops)
  {
    hide All;
    forall i | g.lastSeq <= i < |ops|
      ensures Logs(g, ops[i])
    {
      LogsHeld(f, ops[i]);
      assert ops[i] in Elems(mem);
    }
  }

  /** The replayed records are in no table. */
  lemma ReplayedOnce(e: Engine, ops: Ops, x: Record, y: Record)
    requires Inv(e, ops) && LogTail(e.wal, ops)
    requires x in Reopen(DiskOf(e)).mems[0] && y in All(VersionStack(e.version))
    ensures !(x.key == y.key && x.seqno == y.seqno)
  {
    hide StackOk, VersionOk, JobOk, CountersOk, LogTail, Flat, VersionStack, InsertAll, WalOk;
    ReopenKeeps(e, ops);
    var g := Reopen(DiskOf(e));
    assert Recent([g.mems[0]] + VersionStack(e.version)) by {
      StackRecent(Current(g), ops, |ops|);
      assert Current(g) == [g.mems[0]] + VersionStack(e.version);
    }
    RecentConcat([g.mems[0]], VersionStack(e.version));
    AllSingle(g.mems[0]);
  }

  lemma StackRecent(st: Stack, ops: Ops, s: nat)
    requires StackOk(st, ops, s)
    ensures Recent(st)
  {
  }
}

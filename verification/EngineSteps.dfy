/** Writing, sealing, flushing, pruning and pinning keep the engine's invariant. */
module EngineSteps {
  import opened Common
  import opened Keys
  import opened Layers
  import opened Engine

  // -------------------------------------------------- stacks and histories

  lemma LatestPrefix(ops: Ops, more: Ops, s: nat, i: nat)
    requires s <= |ops|
    ensures Latest(ops + more, s, i) <==> Latest(ops, s, i)
    ensures i < |ops| ==> (ops + more)[i] == ops[i]
  {
    assert forall j | 0 <= j < s :: (ops + more)[j] == ops[j];
  }

  /** More history does not change what a snapshot must show. */
  lemma MoreHistory(st: Stack, ops: Ops, more: Ops, s: nat)
    requires StackOk(st, ops, s) && s <= |ops|
    ensures StackOk(st, ops + more, s)
  {
    hide Sorted, Recent;
    forall i: nat | Latest(ops + more, s, i)
      ensures (ops + more)[i] in All(st) || Gone(All(st), (ops + more)[i], s)
    {
      LatestPrefix(ops, more, s, i);
    }
  }

  /** `t` is `st` with fresh records in its first layer. */
  ghost predicate Topped(st: Stack, t: Stack, recs: seq<Record>) {
    && |st| == |t| > 0 && t[1..] == st[1..]
    && Ascending(t[0]) && Elems(t[0]) == Elems(st[0]) + Elems(recs)
  }

  lemma ToppedAll(st: Stack, t: Stack, recs: seq<Record>)
    requires Topped(st, t, recs)
    ensures All(t) == All(st) + Elems(recs)
  {
    hide Ascending;
    forall x
      ensures x in All(t) <==> x in All(st) || x in recs
    {
      assert x in t[0] <==> x in Elems(t[0]);
      assert x in st[0] <==> x in Elems(st[0]);
      if x in All(t) {
        var l := InLayer(t, x);
        if l > 0 {
          assert t[l] == t[1..][l - 1] == st[1..][l - 1] == st[l];
        }
      }
      if x in All(st) {
        var l := InLayer(st, x);
        if l > 0 {
          assert t[l] == t[1..][l - 1] == st[1..][l - 1] == st[l];
        }
      }
    }
  }

  /** Fresh records are newer than anything below them. */
  lemma ToppedRecent(st: Stack, t: Stack, ops: Ops, recs: seq<Record>)
    requires Topped(st, t, recs) && Sorted(st) && Recent(st) && Authentic(All(st), ops)
    requires forall x | x in recs :: x.seqno > |ops|
    ensures Sorted(t) && Recent(t)
  {
    hide Ascending;
    forall i, j | 0 <= i < j < |t|
      ensures Over(t[i], t[j])
    {
      assert t[j] == t[1..][j - 1] == st[1..][j - 1] == st[j];
      assert Over(st[i], st[j]);
      if i > 0 {
        assert t[i] == t[1..][i - 1] == st[1..][i - 1] == st[i];
      } else {
        forall x, y | x in t[0] && y in t[j] && x.key == y.key
          ensures x.seqno > y.seqno
        {
          assert x in Elems(t[0]);
          assert y in All(st);
          assert x in st[0] || x in recs;
        }
      }
    }
    forall l | 0 <= l < |t|
      ensures Ascending(t[l])
    {
      if l > 0 {
        assert t[l] == t[1..][l - 1] == st[1..][l - 1] == st[l];
      }
    }
  }

  /** New writes on top are invisible at an old snapshot. */
  lemma ToppedSnapshot(st: Stack, t: Stack, ops: Ops, recs: seq<Record>, s: nat)
    requires StackOk(st, ops, s) && Topped(st, t, recs) && s <= |ops| && Numbered(ops + recs)
    ensures StackOk(t, ops + recs, s)
  {
    hide Sorted, Recent, Topped;
    FreshSeqnos(ops, recs);
    ToppedAll(st, t, recs);
    ToppedRecent(st, t, ops, recs);
    ToppedAuthentic(All(st), ops, recs);
    forall i: nat | Latest(ops + recs, s, i)
      ensures (ops + recs)[i] in All(t) || Gone(All(t), (ops + recs)[i], s)
    {
      LatestPrefix(ops, recs, s, i);
    }
  }

  lemma FreshSeqnos(ops: Ops, recs: seq<Record>)
    requires Numbered(ops + recs)
    ensures forall x | x in recs :: x.seqno > |ops|
    ensures forall i | 0 <= i < |recs| :: recs[i].seqno == |ops| + i + 1
  {
    assert forall i | 0 <= i < |recs| :: recs[i] == (ops + recs)[|ops| + i];
  }

  lemma ToppedAuthentic(all: set<Record>, ops: Ops, recs: seq<Record>)
    requires Authentic(all, ops) && Numbered(ops + recs)
    ensures Authentic(all + Elems(recs), ops + recs)
  {
    assert forall i | 0 <= i < |recs| :: recs[i] == (ops + recs)[|ops| + i];
  }

  /** New writes on top are what the present shows. */
  lemma ToppedPresent(st: Stack, t: Stack, ops: Ops, recs: seq<Record>)
    requires StackOk(st, ops, |ops|) && Topped(st, t, recs) && Numbered(ops + recs)
    ensures StackOk(t, ops + recs, |ops + recs|)
  {
    hide Sorted, Recent, Topped;
    FreshSeqnos(ops, recs);
    ToppedAll(st, t, recs);
    ToppedRecent(st, t, ops, recs);
    ToppedAuthentic(All(st), ops, recs);
    var now := ops + recs;
    forall i: nat | Latest(now, |now|, i)
      ensures now[i] in All(t) || Gone(All(t), now[i], |now|)
    {
      if i < |ops| {
        assert Latest(ops, |ops|, i) by {
          assert forall j | i < j < |ops| :: now[j] == ops[j];
        }
        if now[i] !in All(st) {
          assert Gone(All(st), now[i], |ops|);
          assert forall j | 0 <= j < |recs| :: recs[j] == now[|ops| + j];
        }
      } else {
        assert now[i] == recs[i - |ops|];
      }
    }
  }

  // ---------------------------------------------------------------- writing

  lemma StampNumbered(ops: Ops, batch: seq<Op>)
    requires Numbered(ops)
    ensures Numbered(ops + Stamp(batch, |ops| + 1))
  {
  }

  /** The memtable accepts the batch: every record is new to it. */
  lemma {:induction false} MemAccepts(mem: seq<Record>, ops: Ops, recs: seq<Record>)
    requires Ascending(mem) && Authentic(Elems(mem), ops) && Numbered(ops + recs)
    ensures Ascending(InsertAll(mem, recs)) && Elems(InsertAll(mem, recs)) == Elems(mem) + Elems(recs)
    ensures forall x, y | x in mem && y in recs :: x.seqno != y.seqno
  {
    FreshSeqnos(ops, recs);
    forall x, i | x in mem && 0 <= i < |recs|
      ensures x.seqno != recs[i].seqno
    {
      assert x in Elems(mem);
    }
    InsertAllKeeps(mem, recs);
  }

  /** A view whose mutable memtable received `recs`. */
  lemma {:induction false} ViewTopped(mems: seq<seq<Record>>, imm: bool, v: Version, ops: Ops, recs: seq<Record>, s: nat)
    requires |mems| > 0 && (imm ==> |mems| > 1) && Numbered(ops + recs)
    requires StackOk(View(mems, |mems| - 1, imm, v), ops, s)
    ensures var m := |mems| - 1;
            Topped(View(mems, m, imm, v), View(mems[m := InsertAll(mems[m], recs)], m, imm, v), recs)
  {
    hide StackOk, Ascending, VersionStack, InsertAll, Authentic, Elems, Numbered;
    var m := |mems| - 1;
    var st := View(mems, m, imm, v);
    var t := View(mems[m := InsertAll(mems[m], recs)], m, imm, v);
    TopRun(st, ops, s);
    MemAccepts(mems[m], ops, recs);
    assert t[1..] == st[1..];
  }

  lemma TopRun(st: Stack, ops: Ops, s: nat)
    requires StackOk(st, ops, s) && st != []
    ensures Ascending(st[0]) && Authentic(Elems(st[0]), ops)
  {
    hide Reflects, Recent, Ascending;
    forall x | x in Elems(st[0])
      ensures x in All(st)
    {
    }
  }

  lemma LoggingAdds(wal: seq<Segment>, recs: seq<Record>, lo: nat, hi: nat)
    requires |wal| > 0
    ensures Logged(Logging(wal, recs), lo, hi)
            == Logged(wal, lo, hi) + (if lo <= wal[|wal| - 1].id < hi then Elems(recs) else {})
  {
    var last := |wal| - 1;
    var w := Logging(wal, recs);
    var bs := wal[last].batches;
    assert w[last].batches == bs + [recs];
    assert BatchRecs(bs + [recs]) == BatchRecs(bs) + Elems(recs) by { BatchAdds(bs, recs); }
    forall x
      ensures x in Logged(w, lo, hi) <==> x in Logged(wal, lo, hi) || (lo <= wal[last].id < hi && x in recs)
    {
      if x in Logged(w, lo, hi) {
        var i :| 0 <= i < |w| && lo <= w[i].id < hi && x in BatchRecs(w[i].batches);
        assert i < last ==> w[i] == wal[i];
      }
      if x in Logged(wal, lo, hi) {
        var i :| 0 <= i < |wal| && lo <= wal[i].id < hi && x in BatchRecs(wal[i].batches);
        assert i < last ==> w[i] == wal[i];
        assert x in BatchRecs(w[i].batches);
      }
      if lo <= wal[last].id < hi && x in recs {
        assert x in BatchRecs(w[last].batches);
      }
    }
  }

  lemma BatchAdds(bs: seq<seq<Record>>, recs: seq<Record>)
    ensures BatchRecs(bs + [recs]) == BatchRecs(bs) + Elems(recs)
  {
    var cs := bs + [recs];
    forall x
      ensures x in BatchRecs(cs) <==> x in BatchRecs(bs) || x in recs
    {
      if x in BatchRecs(bs) {
        var i :| 0 <= i < |bs| && x in bs[i];
        assert cs[i] == bs[i];
      }
      if x in recs {
        assert cs[|bs|] == recs;
      }
    }
  }

  lemma WriteLog(e: Engine, ops: Ops, batch: seq<Op>)
    requires Shaped(e) && WalOk(e)
    requires var m := e.mems[|e.mems| - 1]; var recs := Stamp(batch, e.seqno + 1);
             Elems(InsertAll(m, recs)) == Elems(m) + Elems(recs)
    ensures Shaped(Write(e, batch)) && WalOk(Write(e, batch))
  {
    hide Logged, InsertAll, Stamp;
    var f := Write(e, batch);
    var recs := Stamp(batch, e.seqno + 1);
    var last := |e.wal| - 1;
    var top := e.wal[last].id + 1;
    var bound := if e.sealed then e.immBound else e.logNumber;
    assert e.wal[last].id == e.wal[0].id + last;
    LoggingAdds(e.wal, recs, bound, top);
    LoggingAdds(e.wal, recs, e.logNumber, bound);
    assert |f.wal| == |e.wal| && f.wal[last].id == e.wal[last].id;
    assert forall i | 0 <= i < last :: f.wal[i] == e.wal[i];
  }

  lemma WriteCounters(e: Engine, ops: Ops, batch: seq<Op>)
    requires Shaped(e) && CountersOk(e, ops)
    requires var m := e.mems[|e.mems| - 1]; var recs := Stamp(batch, e.seqno + 1);
             Elems(InsertAll(m, recs)) == Elems(m) + Elems(recs)
    ensures Shaped(Write(e, batch)) && CountersOk(Write(e, batch), ops + Stamp(batch, e.seqno + 1))
  {
    hide InsertAll, Stamp;
    var f := Write(e, batch);
    var m := |e.mems| - 1;
    var recs := Stamp(batch, e.seqno + 1);
    var now := ops + recs;
    assert |recs| == |batch| by { StampLength(batch, e.seqno + 1); }
    forall x | x in e.mems[m] || x in recs
      ensures x in f.mems[m]
    {
      assert x in Elems(f.mems[m]);
    }
    forall i | e.lastSeq <= i < |now|
      ensures Logs(f, now[i])
    {
      assert i < |ops| ==> Logs(e, ops[i]);
    }
  }

  lemma StampLength(batch: seq<Op>, first: nat)
    ensures |Stamp(batch, first)| == |batch|
  {
  }

  lemma {:induction false} PinWritten(e: Engine, ops: Ops, recs: seq<Record>, mem: seq<Record>, p: Pin)
    requires |e.mems| > 0 && PinOk(e, ops, p) && p.seqno <= |ops| && Numbered(ops + recs)
    requires mem == InsertAll(e.mems[|e.mems| - 1], recs)
    ensures PinOk(e.(mems := e.mems[|e.mems| - 1 := mem]), ops + recs, p)
  {
    hide StackOk, VersionStack, Topped, InsertAll;
    var m := |e.mems| - 1;
    if p.mem == m {
      ViewTopped(e.mems, p.imm, p.version, ops, recs, p.seqno);
      ToppedSnapshot(View(e.mems, m, p.imm, p.version), View(e.mems[m := mem], m, p.imm, p.version), ops, recs, p.seqno);
    } else {
      assert View(e.mems[m := mem], p.mem, p.imm, p.version) == View(e.mems, p.mem, p.imm, p.version);
      MoreHistory(View(e.mems, p.mem, p.imm, p.version), ops, recs, p.seqno);
    }
  }

  lemma PinOther(e: Engine, f: Engine, ops: Ops, p: Pin)
    requires PinOk(e, ops, p) && f.mems == e.mems
    ensures PinOk(f, ops, p)
  {
  }

  lemma SnapshotBound(st: Stack, ops: Ops, s: nat)
    requires StackOk(st, ops, s)
    ensures s <= |ops|
  {
  }

  /** A committed batch extends the history; every pinned snapshot still shows what it did. */
  lemma WriteKeeps(e: Engine, ops: Ops, batch: seq<Op>)
    requires Inv(e, ops)
    ensures Inv(Write(e, batch), ops + Stamp(batch, e.seqno + 1))
  {
    hide StackOk, VersionOk, WalOk, VersionStack, InsertAll, Stamp, Topped, Numbered;
    var f := Write(e, batch);
    var m := |e.mems| - 1;
    var recs := Stamp(batch, e.seqno + 1);
    StampNumbered(ops, batch);
    ViewTopped(e.mems, e.sealed, e.version, ops, recs, |ops|);
    ToppedMem(e.mems, e.sealed, e.version, recs);
    ToppedPresent(Current(e), Current(f), ops, recs);
    WriteLog(e, ops, batch);
    WriteCounters(e, ops, batch);
    hide CountersOk;
    forall p | p in f.pins
      ensures PinOk(f, ops + recs, p)
    {
      assert PinOk(e, ops, p);
      SnapshotBound(View(e.mems, p.mem, p.imm, p.version), ops, p.seqno);
      PinWritten(e, ops, recs, f.mems[m], p);
      PinOther(e.(mems := e.mems[m := f.mems[m]]), f, ops + recs, p);
    }
  }

  lemma {:induction false} ToppedMem(mems: seq<seq<Record>>, imm: bool, v: Version, recs: seq<Record>)
    requires |mems| > 0 && (imm ==> |mems| > 1)
    requires var m := |mems| - 1;
             Topped(View(mems, m, imm, v), View(mems[m := InsertAll(mems[m], recs)], m, imm, v), recs)
    ensures var m := |mems| - 1; Elems(InsertAll(mems[m], recs)) == Elems(mems[m]) + Elems(recs)
  {
    hide InsertAll, VersionStack;
  }

  // ------------------------------------------------------------- log segments

  lemma RotatedLogs(wal: seq<Segment>, lo: nat, hi: nat)
    requires |wal| > 0
    ensures Logged(Rotated(wal), lo, hi) == Logged(wal, lo, hi)
  {
    var w := Rotated(wal);
    forall x
      ensures x in Logged(w, lo, hi) <==> x in Logged(wal, lo, hi)
    {
      if x in Logged(w, lo, hi) {
        var i :| 0 <= i < |w| && lo <= w[i].id < hi && x in BatchRecs(w[i].batches);
        assert i < |wal| && w[i] == wal[i];
      }
      if x in Logged(wal, lo, hi) {
        var i :| 0 <= i < |wal| && lo <= wal[i].id < hi && x in BatchRecs(wal[i].batches);
        assert w[i] == wal[i];
      }
    }
  }

  /** Bounds beyond the newest segment all mean "to the end". */
  lemma LoggedToEnd(wal: seq<Segment>, lo: nat, hi: nat, hi': nat)
    requires forall i | 0 <= i < |wal| :: wal[i].id < hi && wal[i].id < hi'
    ensures Logged(wal, lo, hi) == Logged(wal, lo, hi')
  {
  }

  lemma NothingLogged(wal: seq<Segment>, lo: nat, hi: nat)
    requires forall i | 0 <= i < |wal| :: wal[i].id < lo
    ensures Logged(wal, lo, hi) == {}
  {
  }

  lemma PrunedLogs(wal: seq<Segment>, lo: nat, hi: nat)
    requires |wal| > 0 && wal[0].id < lo
    ensures Logged(wal[1..], lo, hi) == Logged(wal, lo, hi)
  {
    forall x | x in Logged(wal, lo, hi)
      ensures x in Logged(wal[1..], lo, hi)
    {
      var i :| 0 <= i < |wal| && lo <= wal[i].id < hi && x in BatchRecs(wal[i].batches);
      assert wal[1..][i - 1] == wal[i];
    }
  }

  lemma RotateLogKeeps(e: Engine, ops: Ops)
    requires Inv(e, ops)
    ensures Inv(RotateLog(e), ops)
  {
    hide StackOk, VersionOk, CountersOk, JobOk, Logged, VersionStack;
    var f := RotateLog(e);
    var top := e.wal[|e.wal| - 1].id + 1;
    var bound := if e.sealed then e.immBound else e.logNumber;
    RotatedLogs(e.wal, bound, top + 1);
    RotatedLogs(e.wal, e.logNumber, bound);
    LoggedToEnd(e.wal, bound, top, top + 1);
    assert CountersOk(f, ops) by { CountersSame(e, f, ops); }
    assert WalOk(f);
    forall p | p in f.pins
      ensures PinOk(f, ops, p)
    {
      PinOther(e, f, ops, p);
    }
  }

  lemma CountersSame(e: Engine, f: Engine, ops: Ops)
    requires Shaped(e) && Shaped(f) && CountersOk(e, ops)
    requires f.mems == e.mems && f.sealed == e.sealed && f.seqno == e.seqno && f.immSeq == e.immSeq
    requires f.raisedSeq == e.raisedSeq && (f.lastSeq == e.lastSeq || f.lastSeq == e.raisedSeq)
    ensures CountersOk(f, ops)
  {
    forall i | f.lastSeq <= i < |ops|
      ensures Logs(f, ops[i])
    {
      assert Logs(e, ops[i]);
    }
  }

  // ---------------------------------------------------------------- sealing

  /** An empty layer on top changes nothing. */
  lemma EmptyTop(st: Stack, ops: Ops, s: nat)
    requires StackOk(st, ops, s)
    ensures StackOk([[]] + st, ops, s)
  {
    var t := [[]] + st;
    assert forall l | 0 < l < |t| :: t[l] == st[l - 1];
    assert All(t) == All(st) by {
      forall x
        ensures x in All(t) <==> x in All(st)
      {
        if x in All(st) {
          var l := InLayer(st, x);
          assert t[l + 1] == st[l];
        }
        if x in All(t) {
          var l := InLayer(t, x);
          assert l > 0 && t[l] == st[l - 1];
        }
      }
    }
    hide Ascending, Authentic, Reflects;
    forall i, j | 0 <= i < j < |t|
      ensures Over(t[i], t[j])
    {
      if i > 0 {
        assert Over(st[i - 1], st[j - 1]);
      }
    }
    assert forall l | 0 <= l < |t| :: Ascending(t[l]) by { assert Ascending([]) by { EmptyAscending(); } }
  }

  lemma EmptyAscending()
    ensures Ascending([])
  {
  }

  lemma PinPrefix(e: Engine, f: Engine, ops: Ops, p: Pin)
    requires PinOk(e, ops, p) && e.mems <= f.mems
    ensures PinOk(f, ops, p)
  {
    hide StackOk, VersionStack;
    assert View(f.mems, p.mem, p.imm, p.version) == View(e.mems, p.mem, p.imm, p.version);
  }

  lemma SealLog(e: Engine)
    requires Shaped(e) && !e.sealed && WalOk(e)
    ensures Shaped(Seal(e)) && WalOk(Seal(e))
  {
    hide Logged, VersionStack;
    var f := Seal(e);
    var top := e.wal[|e.wal| - 1].id + 1;
    assert forall i | 0 <= i < |e.wal| :: e.wal[i].id < top;
    RotatedLogs(e.wal, top, top + 1);
    NothingLogged(e.wal, top, top + 1);
    RotatedLogs(e.wal, e.logNumber, top);
    assert Elems([]) == {};
  }

  lemma SealKeeps(e: Engine, ops: Ops)
    requires Inv(e, ops) && !e.sealed && e.mems[|e.mems| - 1] != []
    ensures Inv(Seal(e), ops)
  {
    hide StackOk, VersionOk, JobOk, WalOk, VersionStack;
    var f := Seal(e);
    SealLog(e);
    EmptyTop(Current(e), ops, |ops|);
    assert Current(f) == [[]] + Current(e);
    forall i | e.lastSeq <= i < |ops|
      ensures Logs(f, ops[i])
    {
      assert Logs(e, ops[i]);
    }
    forall p | p in f.pins
      ensures PinOk(f, ops, p)
    {
      PinPrefix(e, f, ops, p);
    }
  }

  // --------------------------------------------------------------- flushing

  lemma {:induction false} DeepSame(v: Version, w: Version, l: nat)
    requires |v| == |w| && forall i | l <= i < |v| :: v[i] == w[i]
    ensures DeepRuns(v, l) == DeepRuns(w, l)
    decreases |v| - l
  {
    if l < |v| {
      DeepSame(v, w, l + 1);
    }
  }

  /** Moving the frozen memtable into level 0 leaves the stack as it was. */
  lemma FlushStack(e: Engine)
    requires Shaped(e) && e.sealed
    ensures Shaped(Flush(e)) && Current(Flush(e)) == Current(e)
  {
    var f := Flush(e);
    var t := Table(e.nextFile, e.mems[|e.mems| - 2]);
    DeepSame(e.version, f.version, 1);
    assert TableRuns([t] + e.version[0]) == [t.recs] + TableRuns(e.version[0]) by {
      assert ([t] + e.version[0])[1..] == e.version[0];
    }
  }

  lemma FlushVersion(v: Version, t: Table)
    requires VersionOk(v) && t.recs != []
    ensures VersionOk(v[0 := [t] + v[0]])
  {
    hide KeyAscending, LevelRun;
  }

  lemma FlushCompaction(v: Version, t: Table, c: Job)
    requires |v| == NUM_LEVELS && JobOk(v, c)
    ensures JobOk(v[0 := [t] + v[0]], c)
  {
    hide KeysBefore;
    var w := v[0 := [t] + v[0]];
    if c.level == 0 {
      assert w[0][|w[0]| - |c.upper|..] == v[0][|v[0]| - |c.upper|..];
    }
  }

  /** Flushing keeps every read, pins included, and leaves in the log what is not in tables. */
  lemma FlushKeeps(e: Engine, ops: Ops)
    requires Inv(e, ops) && e.sealed
    ensures Inv(Flush(e), ops)
  {
    hide StackOk, VersionOk, JobOk, VersionStack, Logged;
    var f := Flush(e);
    FlushStack(e);
    FlushVersion(e.version, Table(e.nextFile, e.mems[|e.mems| - 2]));
    if e.compaction.Some? {
      FlushCompaction(e.version, Table(e.nextFile, e.mems[|e.mems| - 2]), e.compaction.value);
    }
    forall p | p in f.pins
      ensures PinOk(f, ops, p)
    {
      PinOther(e, f, ops, p);
    }
    assert forall i | f.lastSeq <= i < |ops| :: Logs(f, ops[i]);
  }

  /** The manifest never refuses the flush's counters as a regression. */
  lemma FlushAdvances(e: Engine, ops: Ops)
    requires Inv(e, ops) && e.sealed
    ensures e.logNumber <= Flush(e).logNumber && e.raisedSeq <= Flush(e).lastSeq
  {
    hide StackOk, VersionOk, JobOk, VersionStack, Logged;
  }

  // ---------------------------------------------------------------- pruning

  lemma PruneKeeps(e: Engine, ops: Ops)
    requires Inv(e, ops) && e.wal[0].id < e.logNumber
    ensures |e.wal| > 1 && Inv(Prune(e), ops)
  {
    hide StackOk, VersionOk, JobOk, CountersOk, VersionStack, Logged;
    var f := Prune(e);
    var top := e.wal[|e.wal| - 1].id + 1;
    var bound := if e.sealed then e.immBound else e.logNumber;
    assert e.wal[|e.wal| - 1].id == e.wal[0].id + (|e.wal| - 1);
    PrunedLogs(e.wal, bound, top);
    PrunedLogs(e.wal, e.logNumber, bound);
    assert forall i | 0 <= i < |f.wal| :: f.wal[i] == e.wal[i + 1];
    assert WalOk(f);
    CountersSame(e, f, ops);
    forall p | p in f.pins
      ensures PinOk(f, ops, p)
    {
      PinOther(e, f, ops, p);
    }
  }

  // ---------------------------------------------------------------- pinning

  lemma AcquireKeeps(e: Engine, ops: Ops)
    requires Inv(e, ops)
    ensures Inv(e.(pins := e.pins + {Acquire(e)}), ops)
  {
    hide StackOk, VersionOk, JobOk, WalOk, VersionStack;
    var f := e.(pins := e.pins + {Acquire(e)});
    CountersSame(e, f, ops);
    hide CountersOk;
    assert PinOk(f, ops, Acquire(e));
    forall p | p in e.pins
      ensures PinOk(f, ops, p)
    {
      PinOther(e, f, ops, p);
    }
    assert WalOk(f) by { WalSame(e, f); }
  }

  lemma WalSame(e: Engine, f: Engine)
    requires Shaped(e) && WalOk(e)
    requires f.wal == e.wal && f.mems == e.mems && f.sealed == e.sealed && f.immBound == e.immBound && f.logNumber == e.logNumber
    requires Shaped(f)
    ensures WalOk(f)
  {
  }

  lemma ReleaseKeeps(e: Engine, ops: Ops, p: Pin)
    requires Inv(e, ops)
    ensures Inv(e.(pins := e.pins - {p}), ops)
  {
    hide StackOk, VersionOk, JobOk, WalOk, VersionStack;
    var f := e.(pins := e.pins - {p});
    CountersSame(e, f, ops);
    hide CountersOk;
    WalSame(e, f);
    forall q | q in f.pins
      ensures PinOk(f, ops, q)
    {
      PinOther(e, f, ops, q);
    }
  }
}

/** The engine object: fields updated in place under the mutex, every method one or
    more of the engine's steps. */
module Database {
  import opened Common
  import opened Keys
  import opened Layers
  import opened Engine
  import opened EngineSteps
  import opened Compaction
  import opened CompactionSafety
  import opened CompactionPick
  import opened CompactionRun
  import opened Merge
  import opened Scan
  import opened Reads
  import opened EngineReads
  import opened Recovery
  import opened EngineRuns
  import opened WalBatch
  import Files = ManifestEngine
  import Eng = Engine

  datatype WriteResult = Accepted | ReservedKey | Closed | Poisoned | Waits | TooLarge

  /** What the environment decides about a write: whether the memtable is over its
      size, whether level 0 is over its stop threshold, whether the log segment is
      over its size afterwards, and the longest record the log takes. */
  datatype Load = Load(full: bool, stalled: bool, rotates: bool, maxRecord: nat)

  predicate HasReserved(batch: seq<Op>) {
    exists i | 0 <= i < |batch| :: Reserved(batch[i].key)
  }

  // ------------------------------------------------------- what a state offers

  lemma GoodShape(w: World)
    requires Good(w)
    ensures Shaped(w.engine) && w.engine.seqno == |w.ops| && Numbered(w.ops)
    ensures StackOk(Current(w.engine), w.ops, |w.ops|) && VersionOk(w.engine.version)
  {
    hide StackOk, VersionOk, WalOk, JobOk, PinOk, LogTail, Files.NumbersOk;
  }

  lemma GoodReopens(w: World)
    requires Good(w)
    ensures Good(World(Reopen(DiskOf(w.engine)), w.ops))
    ensures Contiguous(DropBelow(w.engine.wal, w.engine.logNumber))
  {
    hide StackOk, VersionOk, CountersOk, JobOk, PinOk, LogTail, Files.NumbersOk, Reopen;
    StepGood(w, CrashReopen);
    DropContiguous(w.engine.wal, w.engine.logNumber);
  }

  lemma {:induction false} DropContiguous(wal: seq<Segment>, upto: nat)
    requires forall i | 0 <= i < |wal| :: wal[i].id == wal[0].id + i
    ensures Contiguous(DropBelow(wal, upto))
  {
    if wal != [] && wal[0].id < upto {
      DropContiguous(wal[1..], upto);
    }
  }

  lemma ReopenedFields(d: Disk)
    ensures var e := Reopen(d);
            |e.mems| == 1 && e == Eng.Engine([e.mems[0]], false, d.version, e.seqno, 0, 0, d.logNumber, d.lastSeq, e.raisedSeq, e.wal, d.nextFile, None, {})
  {
  }

  lemma GoodFront(w: World)
    requires Good(w)
    ensures VersionOk(w.engine.version) && forall i | 0 <= i < |w.engine.version[0]| :: Ascending(w.engine.version[0][i].recs)
  {
    hide StackOk, VersionOk, WalOk, CountersOk, JobOk, PinOk, LogTail, Files.NumbersOk, VersionStack, Ascending;
    var e := w.engine;
    TablesSorted(MemStack(e.mems, |e.mems| - 1, e.sealed), e.version, w.ops);
    FrontSorted(e.version);
  }

  /** The inputs of a compaction can be merged. */
  ghost predicate Mergeable(v: Version, c: Job, s: nat) {
    && |v| == NUM_LEVELS && JobOk(v, c) && SourcesOk(InputRuns(v, c), [])
    && (forall l | 0 <= l < |v| :: NonEmpty(v[l]))
    && (forall x | x in All(InputRuns(v, c)) :: x.seqno <= s)
  }

  lemma GoodJob(w: World)
    requires Good(w) && w.engine.compaction.Some?
    ensures Mergeable(w.engine.version, w.engine.compaction.value, |w.ops|)
  {
    hide StackOk, WalOk, CountersOk, JobOk, PinOk, LogTail, Files.NumbersOk, VersionStack, SourcesOk, All, KeyAscending;
    var e := w.engine;
    InputSources(MemStack(e.mems, |e.mems| - 1, e.sealed), e.version, e.compaction.value, w.ops);
    NoEmptyFiles(e.version);
  }

  lemma NumberedFresh(outs: seq<Table>, next: nat, num: nat)
    requires NumberedFrom(outs, next, num)
    ensures Files.FreshOuts(outs, next, num)
  {
  }

  lemma InstallFields(e: Engine, outs: seq<Table>)
    requires |e.version| == NUM_LEVELS && e.compaction.Some? && JobOk(e.version, e.compaction.value)
    ensures Install(e, outs) == e.(version := Installed(e.version, e.compaction.value, outs), compaction := None, lastSeq := e.raisedSeq)
  {
    hide JobOk, Installed;
  }

  lemma StackAuthentic(st: Stack, ops: Ops, s: nat)
    requires StackOk(st, ops, s)
    ensures Authentic(All(st), ops) && Reflects(All(st), ops, s)
  {
  }

  lemma CommitStep(w: World, batch: seq<Op>)
    requires Good(w)
    ensures Shaped(w.engine) && Good(World(Eng.Write(w.engine, batch), w.ops + Stamp(batch, w.engine.seqno + 1)))
  {
    hide Good, Eng.Write, Stamp, StackOk, VersionOk;
    GoodShape(w);
    StepGood(w, EngineRuns.Commit(batch));
  }

  lemma SealStep(w: World)
    requires Good(w) && !w.engine.sealed && w.engine.mems != [] && w.engine.mems[|w.engine.mems| - 1] != []
    ensures Shaped(w.engine) && Good(World(Eng.Seal(w.engine), w.ops))
  {
    hide Good, Eng.Seal, StackOk, VersionOk;
    GoodShape(w);
    StepGood(w, SealMem);
  }

  lemma RotateStep(w: World)
    requires Good(w)
    ensures Shaped(w.engine) && Good(World(RotateLog(w.engine), w.ops))
  {
    hide Good, RotateLog, StackOk, VersionOk;
    GoodShape(w);
    StepGood(w, RotateWal);
  }

  lemma FlushStep(w: World)
    requires Good(w) && w.engine.sealed
    ensures Shaped(w.engine) && Good(World(Eng.Flush(w.engine), w.ops))
  {
    hide Good, Eng.Flush, StackOk, VersionOk;
    GoodShape(w);
    StepGood(w, FlushMem);
  }

  lemma PruneStep(w: World)
    requires Good(w)
    ensures w.engine.wal != [] && (w.engine.wal[0].id < w.engine.logNumber ==> Good(World(w.engine.(wal := w.engine.wal[1..]), w.ops)))
  {
    hide Good, StackOk, VersionOk;
    GoodShape(w);
    if w.engine.wal[0].id < w.engine.logNumber {
      StepGood(w, PruneWal);
    }
  }

  lemma PickStep(w: World, c: Job)
    requires Good(w) && w.engine.compaction.None? && |w.engine.version| == NUM_LEVELS && JobOk(w.engine.version, c)
    ensures Good(World(w.engine.(compaction := Some(c)), w.ops))
  {
    hide Good, StackOk, VersionOk, JobOk;
    GoodShape(w);
    StepGood(w, PickJob(c));
  }

  lemma InstallStep(w: World, merged: seq<Record>, outs: seq<Table>, num: nat)
    requires Good(w) && w.engine.compaction.Some? && Mergeable(w.engine.version, w.engine.compaction.value, |w.ops|)
    requires var v, c := w.engine.version, w.engine.compaction.value;
             Merges(v, c, merged) && Writes(v, c, merged, outs) && NumberedFrom(outs, w.engine.nextFile, num)
    ensures var e := w.engine;
            Good(World(e.(version := Installed(e.version, e.compaction.value, outs), compaction := None, lastSeq := e.raisedSeq, nextFile := num), w.ops))
  {
    hide Good, StackOk, VersionOk, JobOk, Merges, Writes, Install, Installed, SourcesOk, All, NumberedFrom;
    GoodShape(w);
    NumberedFresh(outs, w.engine.nextFile, num);
    StepGood(w, InstallJob(merged, outs, num));
    InstallFields(w.engine, outs);
  }

  lemma SeqnoIsLength(w: World)
    requires Good(w)
    ensures w.engine.seqno == |w.ops|
  {
    hide StackOk, VersionOk, WalOk, JobOk, PinOk, LogTail, Files.NumbersOk;
  }

  class DB {
    var mem: seq<Record>
    var imm: Option<seq<Record>>
    var version: Version
    var seqno: nat
    var immSeq: nat
    var immBound: nat
    var logNumber: nat
    var lastSeq: nat
    var raisedSeq: nat
    var wal: seq<Segment>
    var nextFile: nat
    var compacting: Option<Job>
    var compactPtr: seq<Option<Record>>
    var closed: bool
    var poisoned: bool
    /** Memtables flushed before, readers' pins, and every write committed so far. */
    ghost var past: seq<seq<Record>>
    ghost var pins: set<Pin>
    ghost var ops: Ops

    ghost function Value(): Engine
      reads this
    {
      Eng.Engine(past + (if imm.Some? then [imm.value] else []) + [mem], imm.Some?, version, seqno, immSeq, immBound,
                    logNumber, lastSeq, raisedSeq, wal, nextFile, compacting, pins)
    }

    ghost predicate Valid()
      reads this
    {
      Good(World(Value(), ops)) && |compactPtr| == NUM_LEVELS
    }

    /** An engine as recovery hands it over: one memtable, nothing running. */
    constructor (e: Engine, ghost ops: Ops)
      requires Good(World(e, ops)) && |e.mems| == 1 && !e.sealed && e.compaction.None? && e.pins == {}
      ensures Valid() && Value() == e && !closed && !poisoned && this.ops == ops
    {
      hide Good;
      mem, imm, version, seqno, immSeq, immBound := e.mems[0], None, e.version, e.seqno, e.immSeq, e.immBound;
      logNumber, lastSeq, raisedSeq, wal, nextFile := e.logNumber, e.lastSeq, e.raisedSeq, e.wal, e.nextFile;
      compacting, closed, poisoned := None, false, false;
      compactPtr := seq(NUM_LEVELS, _ => None);
      past, pins, this.ops := [], {}, ops;
      new;
      assert past + [] + [mem] == e.mems;
      assert Value() == e;
    }

    /** Commits one batch, or says why not and changes no key. */
    method Write(batch: seq<Op>, allowReserved: bool, load: Load) returns (r: WriteResult)
      requires Valid()
      modifies this
      ensures Valid() && closed == old(closed) && poisoned == old(poisoned) && pins == old(pins)
      ensures r.Accepted? ==> ops == old(ops) + Stamp(batch, |old(ops)| + 1)
      ensures !r.Accepted? ==> ops == old(ops)
      ensures r.ReservedKey? <==> !allowReserved && HasReserved(batch)
      ensures r.Closed? <==> !(!allowReserved && HasReserved(batch)) && old(closed)
      ensures r.Poisoned? <==> !(!allowReserved && HasReserved(batch)) && !old(closed) && old(poisoned)
      ensures r.Accepted? || r.TooLarge? ==> (r.TooLarge? <==> |EncodeBatch(Batch(|old(ops)| + 1, batch))| > load.maxRecord)
      ensures r.Waits? <==> !(!allowReserved && HasReserved(batch)) && !old(closed) && !old(poisoned)
                            && load.full && old(mem) != [] && (old(imm).Some? || load.stalled)
    {
      hide Good, EncodeBatch, Stamp, Insert;
      if !allowReserved {
        var i := 0;
        while i < |batch|
          invariant 0 <= i <= |batch| && forall j | 0 <= j < i :: !Reserved(batch[j].key)
        {
          if Reserved(batch[i].key) {
            return ReservedKey;
          }
          i := i + 1;
        }
      }
      if closed {
        return Closed;
      }
      if poisoned {
        return Poisoned;
      }
      SeqnoIsLength(World(Value(), ops));
      if load.full && |mem| > 0 {
        if imm.Some? || load.stalled {
          return Waits;
        }
        Seal();
      }
      SeqnoIsLength(World(Value(), ops));
      var payload := EncodeBatch(Batch(seqno + 1, batch));
      if |payload| > load.maxRecord {
        return TooLarge;
      }
      Commit(batch);
      if load.rotates {
        RotateSegment();
      }
      r := Accepted;
    }

    /** The log first, then the memtable record by record, then publication. */
    method Commit(batch: seq<Op>)
      requires Valid()
      modifies `wal, `mem, `seqno, `ops
      ensures Valid() && Value() == Eng.Write(old(Value()), batch) && ops == old(ops) + Stamp(batch, old(seqno) + 1)
    {
      hide Good, Insert;
      ghost var e := Value();
      CommitStep(World(e, ops), batch);
      var recs := Stamp(batch, seqno + 1);
      wal := Logging(wal, recs);
      var m, i := mem, 0;
      assert recs[0..] == recs;
      while i < |batch|
        invariant 0 <= i <= |batch| && InsertAll(m, recs[i..]) == InsertAll(mem, recs)
      {
        assert recs[i..][0] == recs[i] && recs[i..][1..] == recs[i + 1..];
        m := Insert(m, recs[i]);
        i := i + 1;
      }
      assert recs[i..] == [];
      NothingMore(m, 0);
      mem := m;
      seqno := seqno + |batch|;
      ops := ops + recs;
      assert Value().mems == e.mems[|e.mems| - 1 := mem];
    }

    method RotateSegment()
      requires Valid()
      modifies `wal
      ensures Valid() && Value() == RotateLog(old(Value()))
    {
      hide Good;
      RotateStep(World(Value(), ops));
      wal := wal + [Segment(wal[|wal| - 1].id + 1, [])];
    }

    /** Freezes the memtable behind a fresh one and a fresh log segment. */
    method Seal()
      requires Valid() && imm.None? && mem != []
      modifies `wal, `immBound, `imm, `mem, `immSeq
      ensures Valid() && Value() == Eng.Seal(old(Value()))
    {
      hide Good;
      ghost var e := Value();
      SealStep(World(e, ops));
      wal := wal + [Segment(wal[|wal| - 1].id + 1, [])];
      immBound := wal[|wal| - 1].id;
      imm, mem := Some(mem), [];
      immSeq := seqno;
      assert Value().mems == e.mems + [[]];
    }

    /** Writes the frozen memtable as the newest level-0 table and moves the log boundary past it. */
    method FlushImm()
      requires Valid() && imm.Some?
      modifies `version, `nextFile, `logNumber, `lastSeq, `raisedSeq, `imm, `past
      ensures Valid() && Value() == Eng.Flush(old(Value())) && imm.None?
    {
      hide Good;
      ghost var e := Value();
      FlushStep(World(e, ops));
      assert e.mems[|e.mems| - 2] == imm.value;
      var t := Table(nextFile, imm.value);
      version := version[0 := [t] + version[0]];
      nextFile := nextFile + 1;
      logNumber, lastSeq, raisedSeq := immBound, immSeq, immSeq;
      past := past + [imm.value];
      imm := None;
      assert Value().mems == e.mems;
    }

    /** Deletes every log segment below the manifest's boundary, oldest first. */
    method PruneLog()
      requires Valid()
      modifies `wal
      ensures Valid() && wal != [] && wal[0].id >= logNumber
    {
      hide Good;
      PruneStep(World(Value(), ops));
      while wal[0].id < logNumber
        invariant Valid() && wal != []
        decreases |wal|
      {
        PruneStep(World(Value(), ops));
        wal := wal[1..];
        PruneStep(World(Value(), ops));
      }
    }

    /** Chooses a level's next compaction and remembers where its rotation stands. */
    method ScheduleCompaction(level: nat)
      requires Valid() && level + 1 < NUM_LEVELS
      modifies `compacting, `compactPtr
      ensures Valid()
      ensures old(compacting).Some? || version[level] == [] ==> compacting == old(compacting)
      ensures old(compacting).None? && version[level] != [] ==> compacting.Some? && compacting.value.level == level
    {
      hide Good, JobOk, StackOk, VersionOk, Current, Ascending;
      GoodShape(World(Value(), ops));
      if compacting.Some? || |version[level]| == 0 {
        return;
      }
      GoodFront(World(Value(), ops));
      var c, next := PickCompaction(version, level, compactPtr[level]);
      PickStep(World(Value(), ops), c);
      compacting := Some(c);
      compactPtr := compactPtr[level := next];
    }

    /** Merges the chosen inputs and swaps them for the outputs in one edit. */
    method Compact() returns (outs: seq<Table>, ghost merged: seq<Record>)
      requires Valid() && compacting.Some?
      modifies `version, `nextFile, `compacting, `lastSeq
      ensures Valid() && compacting.None?
      ensures var v, c := old(version), old(compacting).value;
              && Mergeable(v, c, |ops|) && Merges(v, c, merged) && Writes(v, c, merged, outs) && version == Installed(v, c, outs)
    {
      hide Good, JobOk, Merges, Writes, Installed, SourcesOk, All, NumberedFrom, NonEmpty;
      ghost var w := World(Value(), ops);
      GoodJob(w);
      var c := compacting.value;
      var num;
      outs, num, merged := RunCompaction(version, c, nextFile, |ops|);
      InstallStep(w, merged, outs, num);
      version := Installed(version, c, outs);
      compacting, lastSeq, nextFile := None, raisedSeq, num;
    }

    /** The value of a key, or nothing; None once the database is closed. */
    method Get(key: Bytes) returns (r: Option<Option<Bytes>>)
      requires Valid()
      ensures r == if closed then None else Some(Visible(ops, |ops|, key))
    {
      hide Good, Visible, StackGet, VersionStack, StackOk, VersionOk;
      if closed {
        return None;
      }
      ghost var e := Value();
      GoodShape(World(e, ops));
      var x := ViewGet(mem, imm, version, key, seqno);
      assert Current(e) == (if imm.Some? then [mem, imm.value] else [mem]) + VersionStack(version);
      CurrentGet(e, ops, key);
      r := Some(Interpret(x));
    }

    /** Pins the current view and scans it. */
    method Scan(start: Option<Bytes>, end: Option<Bytes>, includeReserved: bool) returns (r: Option<seq<Pair>>)
      requires Valid()
      ensures r.None? <==> closed
      ensures r.Some? ==> forall i, j | 0 <= i < j < |r.value| :: KeyLess(r.value[i].key, r.value[j].key)
      ensures r.Some? ==> forall q :: q in r.value <==> Shown(ops, |ops|, start, end, includeReserved, q)
    {
      hide Good, StackOk, VersionOk, VersionStack, FileRuns, Shown, SourcesOk, KeyLess, All;
      if closed {
        return None;
      }
      ghost var e := Value();
      GoodShape(World(e, ops));
      var mems := if imm.Some? then [mem, imm.value] else [mem];
      assert Current(e) == mems + VersionStack(version);
      ViewSources(mems, version, ops, |ops|);
      StackAuthentic(mems + VersionStack(version), ops, |ops|);
      var runs := ViewRuns(mems, version);
      var out := Collect(runs, [], ops, seqno, start, end, includeReserved);
      r := Some(out);
    }

    method Close()
      requires Valid()
      modifies `closed
      ensures Valid() && closed
    {
      closed := true;
    }
  }
  /** Opens what a crash at any point left on disk: every committed write is there. */
  method OpenDatabase(ghost before: World, disk: Disk) returns (db: DB)
    requires Good(before) && disk == DiskOf(before.engine)
    ensures fresh(db) && db.Valid() && !db.closed && !db.poisoned && db.ops == before.ops
  {
    hide Good, Reopen, Contiguous, DropBelow, DB.Valid;
    GoodReopens(before);
    ReopenedFields(disk);
    var e := Recovery.Open(disk);
    db := new DB(e.value, before.ops);
  }
}

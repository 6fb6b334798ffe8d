/** The engine over whole runs: writes, flushes, compactions, readers and
    crashes in any order, against the plain sequence of committed writes. */
module EngineRuns {
  import opened Common
  import opened Keys
  import opened Layers
  import opened Engine
  import opened EngineSteps
  import opened Compaction
  import opened CompactionSafety
  import opened CompactionPick
  import opened CompactionRun
  import opened Merge
  import opened MergingIters
  import opened Scan
  import opened Reads
  import opened EngineReads
  import opened Recovery
  import Files = ManifestEngine
  import Manifest

  /** `ops` is every write logged so far; an acknowledged write is among them. */
  datatype World = World(engine: Engine, ops: Ops)

  datatype Event =
    | Commit(batch: seq<Op>)
    | RotateWal
    | SealMem
    | FlushMem
    | PruneWal
    | PickJob(job: Job)
    | InstallJob(merged: seq<Record>, outs: seq<Table>, next: nat)
    | Pinning
    | Unpinning(pin: Pin)
    | CrashReopen

  /** When each step may happen: sealing needs a full memtable and no flush in
      flight, one compaction runs at a time, dead segments are pruned from the
      oldest. A crash between logging and publishing is a commit, then a crash. */
  ghost predicate Enabled(w: World, ev: Event) {
    var e := w.engine;
    && Shaped(e)
    && match ev
       case Commit(_) => true
       case RotateWal => true
       case SealMem => !e.sealed && e.mems[|e.mems| - 1] != []
       case FlushMem => e.sealed
       case PruneWal => e.wal[0].id < e.logNumber
       case PickJob(job) => e.compaction.None? && JobOk(e.version, job)
       case InstallJob(merged, outs, next) =>
         && e.compaction.Some? && JobOk(e.version, e.compaction.value)
         && Merges(e.version, e.compaction.value, merged) && Writes(e.version, e.compaction.value, merged, outs)
         && Files.FreshOuts(outs, e.nextFile, next)
       case Pinning => true
       case Unpinning(_) => true
       case CrashReopen => true
  }

  ghost function After(w: World, ev: Event): World
    requires Enabled(w, ev)
  {
    var e := w.engine;
    match ev
    case Commit(batch) => World(Write(e, batch), w.ops + Stamp(batch, e.seqno + 1))
    case RotateWal => w.(engine := RotateLog(e))
    case SealMem => w.(engine := Seal(e))
    case FlushMem => w.(engine := Flush(e))
    case PruneWal => w.(engine := Prune(e))
    case PickJob(job) => w.(engine := e.(compaction := Some(job)))
    case InstallJob(_, outs, next) => w.(engine := Install(e, outs).(nextFile := next))
    case Pinning => w.(engine := e.(pins := e.pins + {Acquire(e)}))
    case Unpinning(pin) => w.(engine := e.(pins := e.pins - {pin}))
    case CrashReopen => w.(engine := Reopen(DiskOf(e)))
  }

  /** A directory opened for the first time. */
  function Fresh(): World {
    World(Reopen(Disk(seq(NUM_LEVELS, _ => []), 0, 0, [], 1)), [])
  }

  ghost predicate IsRun(states: seq<World>, events: seq<Event>) {
    && |states| == |events| + 1 && states[0] == Fresh()
    && forall i | 0 <= i < |events| :: Enabled(states[i], events[i]) && states[i + 1] == After(states[i], events[i])
  }

  ghost predicate Good(w: World) {
    Inv(w.engine, w.ops) && LogTail(w.engine.wal, w.ops) && Files.NumbersOk(w.engine.version, w.engine.nextFile)
  }

  // ------------------------------------------------------------ every step

  lemma FreshGood()
    ensures Good(Fresh())
  {
    hide StackOk, VersionOk, VersionStack, Files.NumbersOk, LogTail;
    var e := Fresh().engine;
    FreshShape();
    assert VersionOk(e.version) && StackOk(Current(e), [], 0) && Files.NumbersOk(e.version, 1) by { NoTables(e.version); }
    assert Logged(e.wal, 0, 2) == {} by { NothingLoggedYet(); }
    assert Elems([]) == {};
    EmptyTail();
  }

  lemma EmptyTail()
    ensures LogTail([Segment(1, [])], [])
  {
    EmptySegment(1);
  }

  lemma NothingLoggedYet()
    ensures Logged([Segment(1, [])], 0, 2) == {}
  {
    assert BatchRecs([]) == {};
  }

  lemma FreshShape()
    ensures var e := Fresh().engine;
            && e.mems == [[]] && e.wal == [Segment(1, [])] && e.seqno == e.lastSeq == e.raisedSeq == 0
            && !e.sealed && e.compaction.None? && e.pins == {} && e.logNumber == 0 && e.nextFile == 1
            && |e.version| == NUM_LEVELS && forall l | 0 <= l < NUM_LEVELS :: e.version[l] == []
  {
  }

  /** No files, no records. */
  lemma NoTables(v: Version)
    requires |v| == NUM_LEVELS && forall l | 0 <= l < |v| :: v[l] == []
    ensures VersionOk(v) && StackOk([[]] + VersionStack(v), [], 0) && Files.NumbersOk(v, 1)
  {
    hide StackOk;
    NoDeep(v, 1);
    EmptyStack([[]] + VersionStack(v));
  }

  lemma {:induction false} NoDeep(v: Version, l: nat)
    requires forall l | 0 <= l < |v| :: v[l] == []
    ensures forall i | 0 <= i < |DeepRuns(v, l)| :: DeepRuns(v, l)[i] == []
    decreases |v| - l
  {
    if l < |v| {
      NoDeep(v, l + 1);
    }
  }

  lemma EmptyStack(st: Stack)
    requires forall l | 0 <= l < |st| :: st[l] == []
    ensures StackOk(st, [], 0)
  {
  }

  lemma CommitTail(wal: seq<Segment>, ops: Ops, recs: seq<Record>)
    requires LogTail(wal, ops) && wal != []
    ensures LogTail(Logging(wal, recs), ops + recs)
  {
    hide FlatBatches;
    var n := |wal| - 1;
    var last := wal[n];
    var grown := last.(batches := last.batches + [recs]);
    assert wal == wal[..n] + [last];
    FlatConcat(wal[..n], [last]);
    FlatConcat(wal[..n], [grown]);
    FlatBatchesConcat(last.batches, [recs]);
    FlatOne(last);
    FlatOne(grown);
    assert FlatBatches([recs]) == recs by { BatchOne(recs); }
    assert Flat(Logging(wal, recs)) == Flat(wal) + recs;
  }

  lemma FlatOne(seg: Segment)
    ensures Flat([seg]) == FlatBatches(seg.batches)
  {
    hide FlatBatches;
    assert [seg][1..] == [];
  }

  lemma BatchOne(recs: seq<Record>)
    ensures FlatBatches([recs]) == recs
  {
    assert [recs][1..] == [];
  }

  lemma RotateTail(wal: seq<Segment>, ops: Ops)
    requires LogTail(wal, ops) && wal != []
    ensures LogTail(Rotated(wal), ops)
  {
    hide Flat;
    var id := wal[|wal| - 1].id + 1;
    FlatConcat(wal, [Segment(id, [])]);
    EmptySegment(id);
  }

  lemma StepGood(w: World, ev: Event)
    requires Good(w) && Enabled(w, ev)
    ensures Good(After(w, ev))
  {
    hide Inv, LogTail, JobOk, Merges, Writes, Write, Seal, Flush, Prune, RotateLog, Install, Reopen, Files.NumbersOk, Files.FreshOuts;
    var e := w.engine;
    SameFiles(e);
    match ev
    case Commit(batch) =>
      WriteKeeps(e, w.ops, batch);
      CommitTail(e.wal, w.ops, Stamp(batch, e.seqno + 1));
      WriteWal(e, batch);
    case RotateWal =>
      RotateLogKeeps(e, w.ops);
      RotateTail(e.wal, w.ops);
      RotateShape(e);
    case SealMem =>
      SealKeeps(e, w.ops);
      RotateTail(e.wal, w.ops);
      RotateShape(e);
    case FlushMem =>
      FlushKeeps(e, w.ops);
      FlushShape(e);
      Files.FlushNumbers(e.version, FlushTable(e));
    case PruneWal =>
      PruneKeeps(e, w.ops);
      TailShorter(e.wal, w.ops);
      PruneShape(e);
    case PickJob(job) =>
      PickedKeeps(e, w.ops, job);
    case InstallJob(merged, outs, next) =>
      InstallKeeps(e, w.ops, merged, outs);
      RenumberKeeps(Install(e, outs), w.ops, next);
      InstallShape(e, outs);
      Files.InstalledNumbers(e.version, e.compaction.value, outs, e.nextFile, next);
    case Pinning =>
      AcquireKeeps(e, w.ops);
    case Unpinning(pin) =>
      ReleaseKeeps(e, w.ops, pin);
    case CrashReopen =>
      ReopenKeeps(e, w.ops);
  }

  lemma WriteWal(e: Engine, batch: seq<Op>)
    requires Shaped(e)
    ensures Write(e, batch).wal == Logging(e.wal, Stamp(batch, e.seqno + 1))
  {
  }

  /** The table a flush writes. */
  function FlushTable(e: Engine): Table
    requires Shaped(e) && e.sealed
  {
    Table(e.nextFile, e.mems[|e.mems| - 2])
  }

  /** Most steps leave the files alone. */
  lemma SameFiles(e: Engine)
    requires Shaped(e)
    ensures forall batch :: Write(e, batch).version == e.version && Write(e, batch).nextFile == e.nextFile
    ensures RotateLog(e).version == Seal(e).version == Prune(e).version == Reopen(DiskOf(e)).version == e.version
    ensures RotateLog(e).nextFile == Seal(e).nextFile == Prune(e).nextFile == Reopen(DiskOf(e)).nextFile == e.nextFile
  {
  }

  lemma RotateShape(e: Engine)
    requires Shaped(e)
    ensures RotateLog(e).wal == Rotated(e.wal) && Seal(e).wal == Rotated(e.wal)
  {
  }

  lemma FlushShape(e: Engine)
    requires Shaped(e) && e.sealed
    ensures Flush(e).wal == e.wal && Flush(e).nextFile == e.nextFile + 1
    ensures Flush(e).version == e.version[0 := [FlushTable(e)] + e.version[0]]
  {
  }

  lemma PruneShape(e: Engine)
    requires Shaped(e)
    ensures Prune(e).wal == e.wal[1..]
  {
  }

  lemma InstallShape(e: Engine, outs: seq<Table>)
    requires |e.version| == NUM_LEVELS && e.compaction.Some? && JobOk(e.version, e.compaction.value)
    ensures Install(e, outs).wal == e.wal && Install(e, outs).version == Installed(e.version, e.compaction.value, outs)
  {
    hide JobOk;
  }

  /** Every state of every run is whole. */
  lemma {:induction false} RunGood(states: seq<World>, events: seq<Event>, i: nat)
    requires IsRun(states, events) && i <= |events|
    ensures Good(states[i])
  {
    hide Good, Enabled, After, Fresh;
    if i == 0 {
      FreshGood();
    } else {
      RunGood(states, events, i - 1);
      StepGood(states[i - 1], events[i - 1]);
    }
  }

  // --------------------------------------------------------------- theorems

  /** Point reads refine the map: in every state of every run, the layered lookup
      of any key returns what the committed writes leave for it. */
  lemma {:induction false} GetIsMap(states: seq<World>, events: seq<Event>, i: nat, key: Bytes)
    requires IsRun(states, events) && i <= |events|
    ensures Shaped(states[i].engine)
    ensures Interpret(StackGet(Current(states[i].engine), key, states[i].engine.seqno)) == Visible(states[i].ops, |states[i].ops|, key)
  {
    hide Enabled, After, Fresh, VersionOk, WalOk, PinOk, StackGet, Visible, Current, Sorted, Recent, Reflects, Authentic;
    RunGood(states, events, i);
    GetRefines(Current(states[i].engine), states[i].ops, |states[i].ops|, key);
  }

  /** A pinned reader keeps its snapshot: through every later step, its view
      answers with the map as of the writes it was taken at. */
  lemma {:induction false} PinnedIsSnapshot(states: seq<World>, events: seq<Event>, i: nat, p: Pin, key: Bytes)
    requires IsRun(states, events) && i <= |events| && p in states[i].engine.pins
    ensures var e := states[i].engine;
            && p.mem < |e.mems| && (p.imm ==> p.mem > 0) && p.seqno <= |states[i].ops|
            && Interpret(StackGet(View(e.mems, p.mem, p.imm, p.version), key, p.seqno)) == Visible(states[i].ops, p.seqno, key)
  {
    hide Enabled, After, Fresh, VersionOk, WalOk, CountersOk, StackGet, Visible, Current, Sorted, Recent, Authentic, View, JobOk;
    RunGood(states, events, i);
    var e := states[i].engine;
    assert PinOk(e, states[i].ops, p);
    GetRefines(View(e.mems, p.mem, p.imm, p.version), states[i].ops, p.seqno, key);
  }

  /** The recorded history only grows. */
  lemma {:induction false} HistoryGrows(states: seq<World>, events: seq<Event>, i: nat, j: nat)
    requires IsRun(states, events) && i <= j <= |events|
    ensures states[i].ops <= states[j].ops
  {
    hide Enabled;
    if i < j {
      HistoryGrows(states, events, i, j - 1);
      StepGrows(states[j - 1], events[j - 1]);
    }
  }

  lemma StepGrows(w: World, ev: Event)
    requires Enabled(w, ev)
    ensures w.ops <= After(w, ev).ops
  {
    hide JobOk, Merges, Writes, Reopen, Install;
  }

  lemma {:induction false} VisibleFrame(a: Ops, b: Ops, s: nat, key: Bytes)
    requires a <= b && s <= |a|
    ensures Visible(a, s, key) == Visible(b, s, key)
  {
    if s > 0 {
      VisibleFrame(a, b, s - 1, key);
    }
  }

  lemma {:induction false} VisibleSkips(ops: Ops, s: nat, t: nat, key: Bytes)
    requires s <= t <= |ops| && forall i | s <= i < t :: ops[i].key != key
    ensures Visible(ops, t, key) == Visible(ops, s, key)
    decreases t
  {
    if s < t {
      VisibleSkips(ops, s, t - 1, key);
    }
  }

  /** No committed write is lost: between any two states of a run, crashes in between
      included, the engine's answer for a key changes only if a write in between names it. */
  lemma {:induction false} WritesSurvive(states: seq<World>, events: seq<Event>, i: nat, j: nat, key: Bytes)
    requires IsRun(states, events) && i <= j <= |events|
    requires forall n | |states[i].ops| <= n < |states[j].ops| :: states[j].ops[n].key != key
    ensures Shaped(states[i].engine) && Shaped(states[j].engine)
    ensures Interpret(StackGet(Current(states[j].engine), key, states[j].engine.seqno))
            == Interpret(StackGet(Current(states[i].engine), key, states[i].engine.seqno))
  {
    hide Enabled, After, Fresh, StackGet, Visible, Current, Interpret;
    GetIsMap(states, events, i, key);
    GetIsMap(states, events, j, key);
    HistoryGrows(states, events, i, j);
    VisibleFrame(states[i].ops, states[j].ops, |states[i].ops|, key);
    VisibleSkips(states[j].ops, |states[i].ops|, |states[j].ops|, key);
  }

  /** Nor does a reader see anything move: while it holds a view, every lookup in it
      keeps its answer, whatever is written, flushed or compacted meanwhile. */
  lemma {:induction false} PinnedStaysPut(states: seq<World>, events: seq<Event>, i: nat, j: nat, p: Pin, key: Bytes)
    requires IsRun(states, events) && i <= j <= |events| && p in states[i].engine.pins && p in states[j].engine.pins
    ensures var d, e := states[i].engine, states[j].engine;
            && p.mem < |d.mems| && p.mem < |e.mems| && (p.imm ==> p.mem > 0)
            && Interpret(StackGet(View(e.mems, p.mem, p.imm, p.version), key, p.seqno))
               == Interpret(StackGet(View(d.mems, p.mem, p.imm, p.version), key, p.seqno))
  {
    hide Enabled, After, Fresh, StackGet, Visible, View, Interpret;
    PinnedIsSnapshot(states, events, i, p, key);
    PinnedIsSnapshot(states, events, j, p, key);
    HistoryGrows(states, events, i, j);
    VisibleFrame(states[i].ops, states[j].ops, p.seqno, key);
  }

  // ------------------------------------------------------------- the manifest

  /** The manifest agrees: whenever a flush or a compaction finishes, the edit it
      logs, which names files by number, is accepted and yields the version installed. */
  lemma ManifestAgrees(states: seq<World>, events: seq<Event>, i: nat)
    requires IsRun(states, events) && i < |events|
    ensures Files.Filled(states[i].engine.version) && Files.Filled(states[i + 1].engine.version)
    ensures var e, f := states[i].engine, states[i + 1].engine;
            && (events[i].FlushMem? ==>
                  && FlushTable(e).recs != []
                  && Manifest.ApplyEdit(Files.MetaVersion(e.version), Files.FlushEdit(FlushTable(e))) == Some(Files.MetaVersion(f.version)))
            && (events[i].InstallJob? ==>
                  && e.compaction.Some? && JobOk(e.version, e.compaction.value) && NonEmpty(events[i].outs)
                  && Manifest.ApplyEdit(Files.MetaVersion(e.version), Files.CompactEdit(e.version, e.compaction.value, events[i].outs))
                     == Some(Files.MetaVersion(f.version)))
  {
    hide Fresh, Good, JobOk, Merges, Files.NumbersOk, Files.FreshOuts, Manifest.ApplyEdit, Files.MetaVersion, Install, Flush, Kept;
    RunGood(states, events, i);
    RunGood(states, events, i + 1);
    var w := states[i];
    var e := w.engine;
    GoodFiles(w);
    GoodFiles(states[i + 1]);
    match events[i]
    case FlushMem =>
      FlushShape(e);
      SealedTable(w);
      Files.FlushApplies(e.version, FlushTable(e));
    case InstallJob(merged, outs, next) =>
      InstallShape(e, outs);
      Files.CompactApplies(e.version, e.compaction.value, merged, outs, e.nextFile, next);
    case _ =>
  }

  lemma GoodFiles(w: World)
    requires Good(w)
    ensures Files.Filled(w.engine.version) && VersionOk(w.engine.version) && Files.NumbersOk(w.engine.version, w.engine.nextFile)
    ensures forall j | 0 <= j < |w.engine.version[0]| :: Ascending(w.engine.version[0][j].recs)
  {
    hide Recent, Reflects, Authentic, KeyAscending, LevelRun, Ascending, WalOk, CountersOk, JobOk, Files.NumbersOk, VersionStack, PinOk;
    var e := w.engine;
    TablesSorted(MemStack(e.mems, |e.mems| - 1, e.sealed), e.version, w.ops);
    FrontSorted(e.version);
  }

  lemma SealedTable(w: World)
    requires Good(w) && w.engine.sealed
    ensures FlushTable(w.engine).recs != [] && Ascending(FlushTable(w.engine).recs)
  {
    hide Recent, Reflects, Authentic, KeyAscending, LevelRun, Ascending, WalOk, JobOk, Files.NumbersOk, VersionStack, PinOk;
    var e := w.engine;
    assert Current(e)[1] == FlushTable(e).recs;
  }
}

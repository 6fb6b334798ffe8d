/** The manifest log on disk: appending edits, rotating to a snapshot, and what a
    crash between any two file operations leaves. */
module ManifestLog {
  import opened Common
  import opened Keys
  import opened Manifest
  import opened ManifestEdits

  /** What replaying a manifest recovers. */
  datatype State = State(files: Files, logNumber: nat, lastSeq: nat)

  /** A logged edit with the counters stamped on it. */
  datatype Logged = Logged(edit: Edit, logNumber: nat, lastSeq: nat)

  function Initial(): State {
    State(Empty(), 0, 0)
  }

  function Step(s: State, r: Logged): Option<State>
    requires |s.files| == NUM_LEVELS
  {
    match ApplyEdit(s.files, r.edit)
    case None => None
    case Some(v) => Some(State(v, r.logNumber, r.lastSeq))
  }

  /** Replays a manifest's records in order. */
  function Replay(s: State, rs: seq<Logged>): (t: Option<State>)
    requires |s.files| == NUM_LEVELS
    ensures t.Some? ==> |t.value.files| == NUM_LEVELS
    decreases |rs|
  {
    if rs == [] then Some(s)
    else
      match Step(s, rs[0])
      case None => None
      case Some(t) => Replay(t, rs[1..])
  }

  lemma {:induction false} ReplayAppend(s: State, rs: seq<Logged>, r: Logged)
    requires |s.files| == NUM_LEVELS && Replay(s, rs).Some?
    ensures Replay(s, rs + [r]) == Step(Replay(s, rs).value, r)
    decreases |rs|
  {
    hide ApplyEdit;
    if rs == [] {
      assert (rs + [r])[1..] == [];
    } else {
      assert (rs + [r])[1..] == rs[1..] + [r];
      ReplayAppend(Step(s, rs[0]).value, rs[1..], r);
    }
  }

  function SnapshotRecord(s: State): Logged {
    Logged(Snapshot(s.files), s.logNumber, s.lastSeq)
  }

  /** A manifest that holds one snapshot recovers the state it was taken of. */
  lemma SnapshotRecovers(s: State)
    requires WellFormed(s.files)
    ensures Replay(Initial(), [SnapshotRecord(s)]) == Some(s)
  {
    hide ApplyEdit, WellFormed, Snapshot;
    SnapshotRoundTrip(s.files);
    assert [SnapshotRecord(s)][1..] == [];
  }

  // ------------------------------------------------------------ the directory

  /** A manifest file: its records, of which the first `synced` are durable. */
  datatype LogFile = LogFile(records: seq<Logged>, synced: nat)

  /** `linked` names the files whose directory entries are durable; `current` is
      CURRENT's durable target and `visible` its target after a rename not yet synced;
      `tables` numbers the table files, named by an edit or not. */
  datatype Dir = Dir(manifests: map<nat, LogFile>, linked: set<nat>, current: nat, visible: nat, tables: set<nat>)

  /** What a crash leaves: CURRENT's old or new target, the durable entries and
      perhaps others, and of each file any prefix that covers what was synced. A
      record cut short does not parse and counts as absent. */
  ghost predicate CrashLeaves(d: Dir, after: map<nat, seq<Logged>>, current: nat) {
    && (current == d.current || current == d.visible)
    && d.linked <= after.Keys
    && forall n | n in after :: n in d.manifests && after[n] <= d.manifests[n].records && d.manifests[n].synced <= |after[n]|
  }

  // ----------------------------------------------------------- the protocol

  /** Where the version set is: idle, between writing an edit and syncing it, or
      between two operations of a rotation to manifest `num`. */
  datatype Phase =
    | Idle
    | Appended(next: State)
    | Created(num: nat)
    | Written(num: nat)
    | Synced(num: nat)
    | LinkedFile(num: nat)
    | Renamed(num: nat)

  datatype VersionSet = VersionSet(mem: State, manifestNum: nat, nextFile: nat, dir: Dir, phase: Phase)

  datatype Op =
    | Append(edit: Edit, logNumber: Option<nat>, lastSeq: Option<nat>)
    | SyncLog
    | Create
    | WriteSnapshot
    | SyncSnapshot
    | SyncDir
    | Rename
    | SyncCurrent
    | Allocate
    | Raise(to: nat)
    | Collect(num: nat)
    | CollectTable(num: nat)

  function Stamped(v: VersionSet, e: Edit, logNumber: Option<nat>, lastSeq: Option<nat>): Logged {
    Logged(e, if logNumber.Some? then logNumber.value else v.mem.logNumber, if lastSeq.Some? then lastSeq.value else v.mem.lastSeq)
  }

  /** The order in which Apply and rotate make their file operations; an edit that
      does not apply or takes a counter back is refused before anything is written. */
  ghost predicate Enabled(v: VersionSet, op: Op) {
    match op
    case Append(e, logNumber, lastSeq) =>
      && v.phase.Idle? && |v.mem.files| == NUM_LEVELS && ApplyEdit(v.mem.files, e).Some?
      && (logNumber.Some? ==> logNumber.value >= v.mem.logNumber) && (lastSeq.Some? ==> lastSeq.value >= v.mem.lastSeq)
    case SyncLog => v.phase.Appended?
    case Create => v.phase.Idle?
    case WriteSnapshot => v.phase.Created?
    case SyncSnapshot => v.phase.Written?
    case SyncDir => v.phase.Synced?
    case Rename => v.phase.LinkedFile?
    case SyncCurrent => v.phase.Renamed?
    case Allocate => true
    case Raise(s) => v.phase.Idle? && s >= v.mem.lastSeq
    case Collect(n) => v.phase.Idle? && n != v.manifestNum
    case CollectTable(_) => v.phase.Idle?
  }

  function Log(v: VersionSet): LogFile
    requires v.manifestNum in v.dir.manifests
  {
    v.dir.manifests[v.manifestNum]
  }

  function WithFile(d: Dir, n: nat, f: LogFile): Dir {
    d.(manifests := d.manifests[n := f])
  }

  ghost predicate Holds(v: VersionSet) {
    && v.manifestNum in v.dir.manifests
    && match v.phase
       case Idle => true
       case Appended(_) => true
       case Created(n) => n in v.dir.manifests
       case Written(n) => n in v.dir.manifests
       case Synced(n) => n in v.dir.manifests
       case LinkedFile(n) => n in v.dir.manifests
       case Renamed(n) => n in v.dir.manifests
  }

  ghost function After(v: VersionSet, op: Op): VersionSet
    requires Enabled(v, op) && Holds(v)
  {
    var d := v.dir;
    match op
    case Append(e, logNumber, lastSeq) =>
      var r := Stamped(v, e, logNumber, lastSeq);
      v.(dir := WithFile(d, v.manifestNum, Log(v).(records := Log(v).records + [r])), phase := Appended(Step(v.mem, r).value))
    case SyncLog =>
      v.(dir := WithFile(d, v.manifestNum, Log(v).(synced := |Log(v).records|)), mem := v.phase.next, phase := Idle)
    case Create =>
      v.(dir := WithFile(d, v.nextFile, LogFile([], 0)), nextFile := v.nextFile + 1, phase := Created(v.nextFile))
    case WriteSnapshot =>
      var n := v.phase.num;
      v.(dir := WithFile(d, n, LogFile([SnapshotRecord(v.mem)], 0)), phase := Written(n))
    case SyncSnapshot =>
      var n := v.phase.num;
      v.(dir := WithFile(d, n, d.manifests[n].(synced := |d.manifests[n].records|)), phase := Synced(n))
    case SyncDir =>
      v.(dir := d.(linked := d.linked + {v.phase.num}), phase := LinkedFile(v.phase.num))
    case Rename =>
      v.(dir := d.(visible := v.phase.num), phase := Renamed(v.phase.num))
    case SyncCurrent =>
      v.(dir := d.(current := v.phase.num), manifestNum := v.phase.num, phase := Idle)
    case Allocate => v.(nextFile := v.nextFile + 1, dir := d.(tables := d.tables + {v.nextFile}))
    case Raise(s) => v.(mem := v.mem.(lastSeq := s))
    case Collect(n) => v.(dir := d.(manifests := map m | m in d.manifests && m != n :: d.manifests[m], linked := d.linked - {n}))
    case CollectTable(n) => v.(dir := d.(tables := d.tables - {n}))
  }

  /** The states recovery may arrive at: the acknowledged one, or the edit being logged. */
  ghost predicate Allowed(v: VersionSet, s: State) {
    || Same(s, v.mem)
    || (v.phase.Appended? && Same(s, v.phase.next))
  }

  /** Equal but for a sequence counter raised in memory since the last edit. */
  ghost predicate Same(s: State, mem: State) {
    s.files == mem.files && s.logNumber == mem.logNumber && s.lastSeq <= mem.lastSeq
  }

  /** A file's records, from what is synced on, recover an allowed state. */
  ghost predicate FileOk(v: VersionSet, f: LogFile) {
    && f.synced <= |f.records|
    && forall k | f.synced <= k <= |f.records| ::
         Replay(Initial(), f.records[..k]).Some? && Allowed(v, Replay(Initial(), f.records[..k]).value)
  }

  /** The same of a file that is durable as a whole. */
  ghost predicate Whole(v: VersionSet, f: LogFile) {
    FileOk(v, f) && f.synced == |f.records|
  }

  ghost predicate Inv(v: VersionSet) {
    && Holds(v) && v.manifestNum in v.dir.linked && v.dir.linked <= v.dir.manifests.Keys
    && (forall n | n in v.dir.manifests :: n < v.nextFile && n !in v.dir.tables)
    && (forall n | n in v.dir.tables :: n < v.nextFile)
    && WellFormed(v.mem.files) && (v.phase.Appended? ==> WellFormed(v.phase.next.files))
    && v.dir.current == v.manifestNum
    && (!v.phase.Renamed? ==> v.dir.visible == v.dir.current)
    && FileOk(v, Log(v))
    && LogSettled(v)
    && match v.phase
       case Synced(n) => Whole(v, v.dir.manifests[n])
       case LinkedFile(n) => n in v.dir.linked && Whole(v, v.dir.manifests[n])
       case Renamed(n) => n in v.dir.linked && v.dir.visible == n && Whole(v, v.dir.manifests[n])
       case Written(n) => n != v.manifestNum && v.dir.manifests[n].records == [SnapshotRecord(v.mem)]
       case Created(n) => n != v.manifestNum
       case _ => true
  }

  /** All of the log replays to the newest state, all but a record in flight being synced. */
  ghost predicate LogSettled(v: VersionSet)
    requires v.manifestNum in v.dir.manifests
  {
    var f := Log(v);
    if v.phase.Appended? then f.synced + 1 == |f.records| && Replay(Initial(), f.records) == Some(v.phase.next)
    else f.synced == |f.records|
  }

  /** Manifest crash safety: at every step, whatever a crash leaves, CURRENT names a
      manifest that is there and replays to the version before or after the last edit. */
  lemma CrashSafe(v: VersionSet, after: map<nat, seq<Logged>>, current: nat)
    requires Inv(v) && CrashLeaves(v.dir, after, current)
    ensures current in after && Replay(Initial(), after[current]).Some? && Allowed(v, Replay(Initial(), after[current]).value)
  {
    hide WellFormed, Replay, Allowed, LogSettled;
    var f := v.dir.manifests[current];
    assert FileOk(v, f);
    assert after[current] == f.records[..|after[current]|];
  }

  // ------------------------------------------------------------- every step

  lemma AppendKeeps(v: VersionSet, e: Edit, logNumber: Option<nat>, lastSeq: Option<nat>)
    requires Inv(v) && Enabled(v, Append(e, logNumber, lastSeq))
    ensures Inv(After(v, Append(e, logNumber, lastSeq)))
  {
    hide WellFormed, ApplyEdit, Replay, Basic;
    var w := After(v, Append(e, logNumber, lastSeq));
    var f, r := Log(v), Stamped(v, e, logNumber, lastSeq);
    var g := Log(w);
    NextWellFormed(v.mem.files, e);
    assert f.records[..|f.records|] == f.records;
    var was := Replay(Initial(), f.records).value;
    ReplayAppend(Initial(), f.records, r);
    assert Step(was, r) == Step(v.mem, r) by { SameStep(was, v.mem, r); }
    forall k | g.synced <= k <= |g.records|
      ensures Replay(Initial(), g.records[..k]).Some? && Allowed(w, Replay(Initial(), g.records[..k]).value)
    {
      if k == |f.records| {
        assert g.records[..k] == f.records;
      } else {
        assert g.records[..k] == f.records + [r];
      }
    }
  }

  lemma SameStep(s: State, t: State, r: Logged)
    requires |s.files| == NUM_LEVELS && s.files == t.files
    ensures Step(s, r) == Step(t, r)
  {
  }

  lemma NextWellFormed(v: Files, e: Edit)
    requires WellFormed(v) && ApplyEdit(v, e).Some?
    ensures WellFormed(ApplyEdit(v, e).value)
  {
    hide ApplyEdit, Basic;
    var any := FileMeta(0, 0, Record([], 0, Put, []), Record([], 0, Put, []));
    ApplyEditExact(v, e, 0, any);
  }

  lemma SyncLogKeeps(v: VersionSet)
    requires Inv(v) && Enabled(v, SyncLog)
    ensures Inv(After(v, SyncLog))
  {
    hide WellFormed, Replay;
    var w := After(v, SyncLog);
    var f := Log(v);
    assert f.records[..|f.records|] == f.records;
  }

  lemma RotateKeeps(v: VersionSet, op: Op)
    requires Inv(v) && Enabled(v, op) && (op.Create? || op.WriteSnapshot? || op.SyncDir? || op.Rename? || op.Allocate? || op.CollectTable?)
    ensures Inv(After(v, op))
  {
    hide WellFormed, Replay, ApplyEdit;
    var w := After(v, op);
    assert Log(w) == Log(v);
    FileStays(v, w, Log(v));
    if op.SyncDir? || op.Rename? {
      FileStays(v, w, v.dir.manifests[v.phase.num]);
    }
    if op.Allocate? && (v.phase.Synced? || v.phase.LinkedFile? || v.phase.Renamed?) {
      FileStays(v, w, v.dir.manifests[v.phase.num]);
    }
  }

  /** What a file may recover to does not depend on the rotation. */
  lemma FileStays(v: VersionSet, w: VersionSet, f: LogFile)
    requires FileOk(v, f) && w.mem == v.mem && (v.phase.Appended? ==> w.phase == v.phase)
    ensures FileOk(w, f)
  {
    hide Replay;
  }

  lemma SyncSnapshotKeeps(v: VersionSet)
    requires Inv(v) && Enabled(v, SyncSnapshot)
    ensures Inv(After(v, SyncSnapshot))
  {
    hide WellFormed, Replay, ApplyEdit;
    var w := After(v, SyncSnapshot);
    assert Log(w) == Log(v);
    FileStays(v, w, Log(v));
    var g := w.dir.manifests[v.phase.num];
    assert g == LogFile([SnapshotRecord(v.mem)], 1) && g.records[..1] == g.records;
    SnapshotRecovers(v.mem);
    assert FileOk(w, g);
  }

  lemma SyncCurrentKeeps(v: VersionSet)
    requires Inv(v) && Enabled(v, SyncCurrent)
    ensures Inv(After(v, SyncCurrent))
  {
    hide WellFormed, Replay, ApplyEdit;
    var w := After(v, SyncCurrent);
    FileStays(v, w, v.dir.manifests[v.phase.num]);
  }

  lemma RaiseKeeps(v: VersionSet, s: nat)
    requires Inv(v) && Enabled(v, Raise(s))
    ensures Inv(After(v, Raise(s)))
  {
    hide WellFormed, Replay, ApplyEdit;
    var w := After(v, Raise(s));
    assert FileOk(w, Log(w));
  }

  lemma CollectKeeps(v: VersionSet, n: nat)
    requires Inv(v) && Enabled(v, Collect(n))
    ensures Inv(After(v, Collect(n)))
  {
    hide WellFormed, Replay, ApplyEdit;
    var w := After(v, Collect(n));
    assert Log(w) == Log(v);
    FileStays(v, w, Log(v));
  }

  lemma StepKeeps(v: VersionSet, op: Op)
    requires Inv(v) && Enabled(v, op)
    ensures Inv(After(v, op))
  {
    hide Inv, After;
    assert Holds(v) by { InvHolds(v); }
    match op
    case Append(e, logNumber, lastSeq) => AppendKeeps(v, e, logNumber, lastSeq);
    case SyncLog => SyncLogKeeps(v);
    case SyncSnapshot => SyncSnapshotKeeps(v);
    case SyncCurrent => SyncCurrentKeeps(v);
    case Raise(s) => RaiseKeeps(v, s);
    case Collect(n) => CollectKeeps(v, n);
    case _ => RotateKeeps(v, op);
  }

  lemma InvHolds(v: VersionSet)
    requires Inv(v)
    ensures Holds(v)
  {
  }

  // -------------------------------------------------------------- whole runs

  /** A freshly rotated version set, as opening leaves it: the next number is past every file. */
  function Opened(s: State, num: nat, nextFile: nat, tables: set<nat>): VersionSet {
    VersionSet(s, num, nextFile, Dir(map[num := LogFile([SnapshotRecord(s)], 1)], {num}, num, num, tables), Idle)
  }

  ghost predicate Past(num: nat, nextFile: nat, tables: set<nat>) {
    num < nextFile && num !in tables && forall n | n in tables :: n < nextFile
  }

  ghost predicate IsRun(states: seq<VersionSet>, ops: seq<Op>) {
    && |states| == |ops| + 1
    && (exists s: State, num: nat, nextFile: nat, tables: set<nat> ::
          WellFormed(s.files) && Past(num, nextFile, tables) && states[0] == Opened(s, num, nextFile, tables))
    && forall i | 0 <= i < |ops| :: Enabled(states[i], ops[i]) && Holds(states[i]) && states[i + 1] == After(states[i], ops[i])
  }

  lemma {:induction false} RunInv(states: seq<VersionSet>, ops: seq<Op>, i: nat)
    requires IsRun(states, ops) && i <= |ops|
    ensures Inv(states[i])
  {
    hide Inv, Enabled, After, WellFormed, Holds, Opened;
    if i == 0 {
      var s: State, num: nat, nextFile: nat, tables: set<nat>
        :| WellFormed(s.files) && Past(num, nextFile, tables) && states[0] == Opened(s, num, nextFile, tables);
      OpenedInv(s, num, nextFile, tables);
    } else {
      RunInv(states, ops, i - 1);
      StepKeeps(states[i - 1], ops[i - 1]);
    }
  }

  lemma OpenedInv(s: State, num: nat, nextFile: nat, tables: set<nat>)
    requires WellFormed(s.files) && Past(num, nextFile, tables)
    ensures Inv(Opened(s, num, nextFile, tables))
  {
    hide WellFormed, Replay, ApplyEdit;
    SnapshotRecovers(s);
    var f := [SnapshotRecord(s)];
    assert f[..1] == f;
  }

  /** In every run of edits, rotations and collections, a crash at any point recovers
      the acknowledged version, or that one and the whole of the edit being logged;
      and no file on disk, table or manifest, has a number to be handed out, nor do a
      table and a manifest share one. */
  lemma ManifestSurvives(states: seq<VersionSet>, ops: seq<Op>, i: nat, after: map<nat, seq<Logged>>, current: nat)
    requires IsRun(states, ops) && i <= |ops| && CrashLeaves(states[i].dir, after, current)
    ensures current in after && Replay(Initial(), after[current]).Some?
    ensures Allowed(states[i], Replay(Initial(), after[current]).value)
    ensures forall n | n in after || n in states[i].dir.tables :: n < states[i].nextFile
    ensures after.Keys !! states[i].dir.tables
  {
    hide Inv, Enabled, After, WellFormed, Opened, Replay, Allowed;
    RunInv(states, ops, i);
    CrashSafe(states[i], after, current);
    NumbersAhead(states[i]);
  }

  lemma NumbersAhead(v: VersionSet)
    requires Inv(v)
    ensures forall n | n in v.dir.manifests || n in v.dir.tables :: n < v.nextFile
    ensures forall n | n in v.dir.manifests :: n !in v.dir.tables
  {
    hide FileOk, LogSettled, WellFormed;
  }
}

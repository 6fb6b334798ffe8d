/** The storage engine's state and the steps it takes under its mutex. */
module Engine {
  import opened Common
  import opened Keys
  import opened Layers

  const NUM_LEVELS: nat := 7

  /** One table file; its manifest bounds are its first and last internal keys. */
  datatype Table = Table(num: nat, recs: seq<Record>)

  /** Level 0 newest first; deeper levels sorted by smallest key. */
  type Version = seq<seq<Table>>

  /** A write-ahead-log segment: the batches of one file, oldest first. */
  datatype Segment = Segment(id: nat, batches: seq<seq<Record>>)

  /** The running compaction's inputs, fixed when it was picked: `upper` from
      `level` (all of level 0, or file `index` of a deeper level) and the files
      `[lo, hi)` of the next level, which overlap them. */
  datatype Job = Job(level: nat, upper: seq<Table>, index: nat, lo: nat, hi: nat)

  /** A reader's pinned view: the memtables (by position in `mems`) and the table set it holds, and its snapshot. */
  datatype Pin = Pin(mem: nat, imm: bool, version: Version, seqno: nat)

  /** `mems` lists every memtable ever created, the mutable one last; the one
      before it is still to be flushed when `sealed`. `logNumber` and `lastSeq`
      are the manifest's durable counters, `raisedSeq` its in-memory one. */
  datatype Engine = Engine(
    mems: seq<seq<Record>>,
    sealed: bool,
    version: Version,
    seqno: nat,
    immSeq: nat,
    immBound: nat,
    logNumber: nat,
    lastSeq: nat,
    raisedSeq: nat,
    wal: seq<Segment>,
    nextFile: nat,
    compaction: Option<Job>,
    pins: set<Pin>)

  // ------------------------------------------------------------- read views

  function LevelRun(ts: seq<Table>): seq<Record> {
    if ts == [] then [] else ts[0].recs + LevelRun(ts[1..])
  }

  function TableRuns(ts: seq<Table>): Stack {
    if ts == [] then [] else [ts[0].recs] + TableRuns(ts[1..])
  }

  function DeepRuns(v: Version, l: nat): Stack
    decreases |v| - l
  {
    if l >= |v| then [] else [LevelRun(v[l])] + DeepRuns(v, l + 1)
  }

  /** Every level-0 table is a layer of its own; each deeper level is one layer. */
  function VersionStack(v: Version): Stack {
    if v == [] then [] else TableRuns(v[0]) + DeepRuns(v, 1)
  }

  function MemStack(mems: seq<seq<Record>>, mem: nat, imm: bool): Stack
    requires mem < |mems| && (imm ==> mem > 0)
  {
    if imm then [mems[mem], mems[mem - 1]] else [mems[mem]]
  }

  function View(mems: seq<seq<Record>>, mem: nat, imm: bool, v: Version): Stack
    requires mem < |mems| && (imm ==> mem > 0)
  {
    MemStack(mems, mem, imm) + VersionStack(v)
  }

  predicate Shaped(e: Engine) {
    && |e.mems| > 0 && (e.sealed ==> |e.mems| > 1)
    && |e.version| == NUM_LEVELS
    && |e.wal| > 0
  }

  function Current(e: Engine): Stack
    requires Shaped(e)
  {
    View(e.mems, |e.mems| - 1, e.sealed, e.version)
  }

  // -------------------------------------------------------------- invariant

  /** What any stack a reader holds must satisfy at its snapshot. */
  ghost predicate StackOk(st: Stack, ops: Ops, s: nat) {
    Sorted(st) && Recent(st) && Authentic(All(st), ops) && Reflects(All(st), ops, s)
  }

  /** Below level 0: non-empty files, keys ascending across the whole level, one version per key. */
  ghost predicate VersionOk(v: Version) {
    && |v| == NUM_LEVELS
    && (forall l, i | 0 <= l < |v| && 0 <= i < |v[l]| :: v[l][i].recs != [])
    && (forall l | 0 < l < |v| :: KeyAscending(LevelRun(v[l])))
  }

  ghost function BatchRecs(bs: seq<seq<Record>>): set<Record> {
    set i, x | 0 <= i < |bs| && x in bs[i] :: x
  }

  /** The records logged in segments with ids in `[lo, hi)`. */
  ghost function Logged(wal: seq<Segment>, lo: nat, hi: nat): set<Record> {
    set i, x | 0 <= i < |wal| && lo <= wal[i].id < hi && x in BatchRecs(wal[i].batches) :: x
  }

  ghost predicate WalOk(e: Engine)
    requires Shaped(e)
  {
    var top := e.wal[|e.wal| - 1].id + 1;
    var bound := if e.sealed then e.immBound else e.logNumber;
    && (forall i | 0 <= i < |e.wal| :: e.wal[i].id == e.wal[0].id + i)
    && e.logNumber <= bound < top
    && Elems(e.mems[|e.mems| - 1]) == Logged(e.wal, bound, top)
    && (e.sealed ==> Elems(e.mems[|e.mems| - 2]) == Logged(e.wal, e.logNumber, bound))
  }

  /** The manifest's sequence counter is behind the published one only by what the log still holds. */
  ghost predicate CountersOk(e: Engine, ops: Ops)
    requires Shaped(e)
  {
    && e.seqno == |ops|
    && e.lastSeq <= e.raisedSeq <= e.seqno
    && (e.sealed ==> e.raisedSeq <= e.immSeq <= e.seqno && e.mems[|e.mems| - 2] != [])
    && (forall i | e.lastSeq <= i < |ops| :: Logs(e, ops[i]))
    && (e.sealed ==> forall i | e.immSeq <= i < |ops| :: ops[i] in e.mems[|e.mems| - 1])
  }

  ghost predicate Logs(e: Engine, x: Record)
    requires Shaped(e)
  {
    x in e.mems[|e.mems| - 1] || (e.sealed && x in e.mems[|e.mems| - 2])
  }

  /** Every key of `a` sorts before every key of `b`. */
  ghost predicate KeysBefore(a: seq<Record>, b: seq<Record>) {
    forall x, y | x in a && y in b :: KeyLess(x.key, y.key)
  }

  /** The inputs are still where they were picked: flushes only add to the front of
      level 0, and no other compaction runs. */
  ghost predicate JobOk(v: Version, c: Job)
    requires |v| == NUM_LEVELS
  {
    && c.level + 1 < NUM_LEVELS
    && c.upper != []
    && (if c.level == 0 then
          |c.upper| <= |v[0]| && v[0][|v[0]| - |c.upper|..] == c.upper
        else
          c.index < |v[c.level]| && c.upper == [v[c.level][c.index]])
    && c.lo <= c.hi <= |v[c.level + 1]|
    && KeysBefore(LevelRun(v[c.level + 1][..c.lo]), LevelRun(c.upper))
    && KeysBefore(LevelRun(c.upper), LevelRun(v[c.level + 1][c.hi..]))
  }

  ghost predicate PinOk(e: Engine, ops: Ops, p: Pin) {
    && p.mem < |e.mems| && (p.imm ==> p.mem > 0)
    && StackOk(View(e.mems, p.mem, p.imm, p.version), ops, p.seqno)
  }

  ghost predicate Inv(e: Engine, ops: Ops) {
    && Shaped(e)
    && Numbered(ops)
    && StackOk(Current(e), ops, |ops|)
    && VersionOk(e.version)
    && WalOk(e)
    && CountersOk(e, ops)
    && (e.compaction.Some? ==> JobOk(e.version, e.compaction.value))
    && (forall p | p in e.pins :: PinOk(e, ops, p))
  }

  // ------------------------------------------------------------------ steps

  datatype Op = Op(kind: Kind, key: Bytes, value: Bytes)

  /** A batch's writes under consecutive sequence numbers. */
  function Stamp(batch: seq<Op>, first: nat): seq<Record> {
    seq(|batch|, i requires 0 <= i < |batch| => Record(batch[i].key, first + i, batch[i].kind, batch[i].value))
  }

  /** Appends one record to the newest segment. */
  function Logging(wal: seq<Segment>, recs: seq<Record>): seq<Segment>
    requires |wal| > 0
  {
    var last := wal[|wal| - 1];
    wal[..|wal| - 1] + [last.(batches := last.batches + [recs])]
  }

  function Rotated(wal: seq<Segment>): seq<Segment>
    requires |wal| > 0
  {
    wal + [Segment(wal[|wal| - 1].id + 1, [])]
  }

  /** Commits one batch: the log first, then the memtable, then publication. */
  function Write(e: Engine, batch: seq<Op>): Engine
    requires Shaped(e)
  {
    var recs := Stamp(batch, e.seqno + 1);
    var m := |e.mems| - 1;
    e.(wal := Logging(e.wal, recs), mems := e.mems[m := InsertAll(e.mems[m], recs)], seqno := e.seqno + |batch|)
  }

  /** A segment that reached its size is closed behind the writer. */
  function RotateLog(e: Engine): Engine
    requires Shaped(e)
  {
    e.(wal := Rotated(e.wal))
  }

  /** Freezes the memtable and starts a fresh one with a fresh segment. */
  function Seal(e: Engine): Engine
    requires Shaped(e)
  {
    var w := Rotated(e.wal);
    e.(wal := w, immBound := w[|w| - 1].id, mems := e.mems + [[]], sealed := true, immSeq := e.seqno)
  }

  /** The frozen memtable becomes the newest level-0 table; the manifest moves the log boundary past it. */
  function Flush(e: Engine): Engine
    requires Shaped(e) && e.sealed
  {
    var t := Table(e.nextFile, e.mems[|e.mems| - 2]);
    e.(version := e.version[0 := [t] + e.version[0]], nextFile := e.nextFile + 1, sealed := false,
       logNumber := e.immBound, lastSeq := e.immSeq, raisedSeq := e.immSeq)
  }

  /** Deletes the oldest dead segment. */
  function Prune(e: Engine): Engine
    requires Shaped(e)
  {
    e.(wal := e.wal[1..])
  }

  function Acquire(e: Engine): Pin
    requires Shaped(e)
  {
    Pin(|e.mems| - 1, e.sealed, e.version, e.seqno)
  }
}

/** Recovery from the bytes a crash leaves in the log directory. */
module CrashRecovery {
  import opened Common
  import opened Keys
  import opened Layers
  import opened Engine
  import opened EngineSteps
  import opened Recovery
  import opened EngineRuns
  import opened WalRecord
  import opened WalBatch
  import opened WalSegments

  /** The records a logged batch stands for. */
  function RecordsOf(b: Batch): seq<Record> {
    Stamp(b.ops, b.baseSeq)
  }

  function RecordBatches(bs: seq<Batch>): seq<seq<Record>> {
    seq(|bs|, i requires 0 <= i < |bs| => RecordsOf(bs[i]))
  }

  /** The batches replay finds in a file; a file that holds none that decode is empty. */
  function FileBatches(crc: Checksum, bytes: Bytes): seq<Batch> {
    match DecodeAll(Records(crc, bytes))
    case None => []
    case Some(bs) => bs
  }

  /** The log as replay reads it from the directory. */
  function SegmentsOf(crc: Checksum, dir: Dir): seq<Segment> {
    seq(|dir|, i requires 0 <= i < |dir| => Segment(dir[i].id, RecordBatches(FileBatches(crc, dir[i].bytes))))
  }

  /** The engine's log, batch for batch. */
  ghost predicate Denotes(wal: seq<LogSegment>, log: seq<Segment>) {
    && |wal| == |log|
    && forall i | 0 <= i < |wal| :: log[i] == Segment(wal[i].id, RecordBatches(wal[i].batches))
  }

  /** The directory reads back as the log, with the batch in flight at its end or nowhere. */
  lemma ImageReads(crc: Checksum, wal: seq<LogSegment>, inFlight: seq<Batch>, cut: nat, dir: Dir, log: seq<Segment>)
    requires CrashImage(crc, wal, inFlight, cut, dir) && Denotes(wal, log)
    ensures SegmentsOf(crc, dir) == log
            || (inFlight != [] && SegmentsOf(crc, dir) == Logging(log, RecordsOf(inFlight[0])))
  {
    hide Frames, Records, Loggable, DecodeAll, RecordsOf;
    var n := |wal| - 1;
    var read := SegmentsOf(crc, dir);
    forall i | 0 <= i < n
      ensures read[i] == log[i]
    {
      FinishedFile(crc, wal[i].batches);
    }
    NewestFile(crc, wal[n].batches, inFlight, cut);
    if FileBatches(crc, dir[n].bytes) == wal[n].batches {
      assert read == log;
    } else {
      assert inFlight == [inFlight[0]];
      assert RecordBatches(wal[n].batches + inFlight) == RecordBatches(wal[n].batches) + [RecordsOf(inFlight[0])];
      assert read == Logging(log, RecordsOf(inFlight[0]));
    }
  }

  /** Engine crash recovery: from whatever bytes a crash leaves of the log, with a
      batch perhaps half appended, reopening yields a state whose history is that of
      the engine at the crash, or that history and the whole of that one batch. */
  lemma CrashRecovers(e: Engine, ops: Ops, crc: Checksum, wal: seq<LogSegment>, batch: Option<seq<Op>>, cut: nat, dir: Dir)
    requires Good(World(e, ops)) && Denotes(wal, e.wal) && e.wal != []
    requires CrashImage(crc, wal, if batch.None? then [] else [Batch(e.seqno + 1, batch.value)], cut, dir)
    ensures Sound(crc, dir)
    ensures var d := DiskOf(e).(wal := SegmentsOf(crc, dir));
            || Good(World(Reopen(d), ops))
            || (batch.Some? && Good(World(Reopen(d), ops + Stamp(batch.value, e.seqno + 1))))
  {
    hide Good, CrashImage, Denotes, Reopen, SegmentsOf, Sound, Stamp;
    var inFlight := if batch.None? then [] else [Batch(e.seqno + 1, batch.value)];
    ReplayImage(crc, wal, inFlight, cut, dir);
    ImageReads(crc, wal, inFlight, cut, dir, e.wal);
    if SegmentsOf(crc, dir) == e.wal {
      WithoutBatch(e, ops);
    } else {
      WithBatch(e, ops, batch.value, SegmentsOf(crc, dir));
    }
  }

  lemma WithoutBatch(e: Engine, ops: Ops)
    requires Good(World(e, ops))
    ensures Good(World(Reopen(DiskOf(e).(wal := e.wal)), ops))
  {
    hide Good, Reopen;
    assert Shaped(e) by { GoodShaped(World(e, ops)); }
    StepGood(World(e, ops), CrashReopen);
    assert DiskOf(e).(wal := e.wal) == DiskOf(e);
  }

  lemma WithBatch(e: Engine, ops: Ops, batch: seq<Op>, log: seq<Segment>)
    requires Good(World(e, ops)) && e.wal != [] && log == Logging(e.wal, Stamp(batch, e.seqno + 1))
    ensures Good(World(Reopen(DiskOf(e).(wal := log)), ops + Stamp(batch, e.seqno + 1)))
  {
    hide Good, Reopen, Write, Stamp, Logging;
    var w := World(e, ops);
    GoodShaped(w);
    WroteLog(e, batch);
    StepGood(w, Commit(batch));
    var x := After(w, Commit(batch));
    GoodShaped(x);
    StepGood(x, CrashReopen);
  }

  lemma GoodShaped(w: World)
    requires Good(w)
    ensures Shaped(w.engine)
  {
    hide StackOk, VersionOk, WalOk, CountersOk, JobOk, PinOk;
  }

  lemma WroteLog(e: Engine, batch: seq<Op>)
    requires Shaped(e)
    ensures Write(e, batch).wal == Logging(e.wal, Stamp(batch, e.seqno + 1))
    ensures DiskOf(Write(e, batch)) == DiskOf(e).(wal := Write(e, batch).wal)
  {
  }
}

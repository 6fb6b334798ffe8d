/** The log directory: numbered segment files, of which only the newest may be torn. */
module WalSegments {
  import opened Common
  import opened Codec
  import opened WalRecord
  import opened WalBatch

  datatype SegmentFile = SegmentFile(id: nat, bytes: Bytes)

  type Dir = seq<SegmentFile>

  predicate Clean(crc: Checksum, bytes: Bytes) {
    CleanLen(crc, bytes) == |bytes|
  }

  /** Ids without a gap, and every file but the newest clean. */
  ghost predicate Sound(crc: Checksum, dir: Dir) {
    && (forall i | 0 < i < |dir| :: dir[i].id == dir[i - 1].id + 1)
    && (forall i | 0 <= i < |dir| - 1 :: Clean(crc, dir[i].bytes))
  }

  /** Every record that parses, across the files in order. */
  function AllRecords(crc: Checksum, dir: Dir): seq<Bytes> {
    if dir == [] then [] else Records(crc, dir[0].bytes) + AllRecords(crc, dir[1..])
  }

  lemma {:induction false} AllRecordsConcat(crc: Checksum, a: Dir, b: Dir)
    ensures AllRecords(crc, a + b) == AllRecords(crc, a) + AllRecords(crc, b)
  {
    hide Records;
    if a == [] {
      assert a + b == b;
    } else {
      assert (a + b)[1..] == a[1..] + b;
      AllRecordsConcat(crc, a[1..], b);
    }
  }

  /** Streams every committed record; None when a file is missing or damage is not a torn tail. */
  method Replay(crc: Checksum, dir: Dir) returns (r: Option<seq<Bytes>>)
    ensures r.Some? <==> Sound(crc, dir)
    ensures r.Some? ==> r.value == AllRecords(crc, dir)
  {
    hide Records, CleanLen, AllRecords;
    NothingHere(crc);
    var out: seq<Bytes> := [];
    var i := 0;
    while i < |dir|
      invariant 0 <= i <= |dir|
      invariant forall j | 0 < j < i :: dir[j].id == dir[j - 1].id + 1
      invariant forall j | 0 <= j < i :: j < |dir| - 1 ==> Clean(crc, dir[j].bytes)
      invariant out == AllRecords(crc, dir[..i])
    {
      if i > 0 && dir[i].id != dir[i - 1].id + 1 {
        return None;
      }
      var ps, clean, ok := ScanRecords(crc, dir[i].bytes, _ => true);
      NextFile(crc, dir, i);
      out := out + ps;
      if clean != |dir[i].bytes| {
        if i == |dir| - 1 {
          assert dir[..i + 1] == dir;
          return Some(out);
        }
        return None;
      }
      i := i + 1;
    }
    assert dir[..i] == dir;
    r := Some(out);
  }

  lemma NextFile(crc: Checksum, dir: Dir, i: nat)
    requires i < |dir|
    ensures AllRecords(crc, dir[..i + 1]) == AllRecords(crc, dir[..i]) + Records(crc, dir[i].bytes)
  {
    hide Records, AllRecords;
    assert dir[..i + 1] == dir[..i] + [dir[i]];
    AllRecordsConcat(crc, dir[..i], [dir[i]]);
    OneFile(crc, dir[i]);
  }

  lemma OneFile(crc: Checksum, f: SegmentFile)
    ensures AllRecords(crc, [f]) == Records(crc, f.bytes)
  {
    hide Records;
    assert [f][1..] == [];
  }

  /** Opens the log for appending: the newest file loses its torn tail, and a fresh one follows it. */
  method OpenWriter(crc: Checksum, dir: Dir) returns (next: Dir)
    requires Sound(crc, dir)
    ensures Sound(crc, next) && next != [] && next[|next| - 1].bytes == []
    ensures forall i | 0 <= i < |next| :: Clean(crc, next[i].bytes)
    ensures AllRecords(crc, next) == AllRecords(crc, dir)
    ensures next[|next| - 1].id == if dir == [] then 1 else dir[|dir| - 1].id + 1
    ensures |next| == |dir| + 1 && forall i | 0 <= i < |dir| :: next[i].id == dir[i].id
  {
    hide Records, CleanLen, AllRecords;
    NothingHere(crc);
    if dir == [] {
      next := [SegmentFile(1, [])];
      OneFile(crc, next[0]);
      return;
    }
    var n := |dir| - 1;
    var last := dir[n];
    var ps, clean, ok := ScanRecords(crc, last.bytes, _ => true);
    var repaired := last.(bytes := last.bytes[..clean]);
    next := dir[..n] + [repaired] + [SegmentFile(last.id + 1, [])];
    Repaired(crc, dir, repaired, last.id + 1);
  }

  /** Cutting the newest file's torn tail and starting the next one loses no record. */
  lemma {:induction false} Repaired(crc: Checksum, dir: Dir, repaired: SegmentFile, id: nat)
    requires dir != [] && var last := dir[|dir| - 1]; repaired == last.(bytes := last.bytes[..CleanLen(crc, last.bytes)])
    ensures Clean(crc, repaired.bytes)
    ensures AllRecords(crc, dir[..|dir| - 1] + [repaired] + [SegmentFile(id, [])]) == AllRecords(crc, dir)
  {
    hide Records, CleanLen, AllRecords;
    var n := |dir| - 1;
    var last, tail := dir[n], SegmentFile(id, []);
    var front := dir[..n];
    RepairKeeps(crc, last.bytes);
    NothingHere(crc);
    assert dir == front + [last];
    AllRecordsConcat(crc, front, [last]);
    AllRecordsConcat(crc, front, [repaired]);
    AllRecordsConcat(crc, front + [repaired], [tail]);
    OneFile(crc, last);
    OneFile(crc, repaired);
    OneFile(crc, tail);
  }

  lemma NothingHere(crc: Checksum)
    ensures CleanLen(crc, []) == 0 && Records(crc, []) == [] && AllRecords(crc, []) == []
  {
    NothingParses(crc);
  }

  // ------------------------------------------------------- images of a log

  /** A segment's batches, oldest first. */
  datatype LogSegment = LogSegment(id: nat, batches: seq<Batch>)

  function AllBatches(wal: seq<LogSegment>): seq<Batch> {
    if wal == [] then [] else wal[0].batches + AllBatches(wal[1..])
  }

  /** What a crash can leave of a log whose every acknowledged record was synced:
      finished segments whole, the newest holding at least its acknowledged batches
      and at most the one being appended besides, cut anywhere. */
  ghost predicate CrashImage(crc: Checksum, wal: seq<LogSegment>, inFlight: seq<Batch>, cut: nat, dir: Dir) {
    && wal != [] && |inFlight| <= 1
    && (forall i | 0 <= i < |wal| :: Loggable(wal[i].batches))
    && (forall i | 0 < i < |wal| :: wal[i].id == wal[i - 1].id + 1)
    && |dir| == |wal| && (forall i | 0 <= i < |dir| :: dir[i].id == wal[i].id)
    && (forall i | 0 <= i < |dir| - 1 :: dir[i].bytes == Frames(crc, Payloads(wal[i].batches)))
    && var n := |wal| - 1;
       && Loggable(wal[n].batches + inFlight)
       && |Frames(crc, Payloads(wal[n].batches))| <= cut <= |Frames(crc, Payloads(wal[n].batches + inFlight))|
       && dir[n].bytes == Frames(crc, Payloads(wal[n].batches + inFlight))[..cut]
  }

  lemma {:induction false} DecodeAllConcat(a: seq<Bytes>, b: seq<Bytes>)
    requires DecodeAll(a).Some? && DecodeAll(b).Some?
    ensures DecodeAll(a + b) == Some(DecodeAll(a).value + DecodeAll(b).value)
  {
    hide DecodeBatch;
    if a == [] {
      assert a + b == b && [] + DecodeAll(b).value == DecodeAll(b).value;
    } else {
      assert (a + b)[0] == a[0] && (a + b)[1..] == a[1..] + b;
      DecodeAllConcat(a[1..], b);
      var head := [DecodeBatch(a[0]).value];
      assert head + (DecodeAll(a[1..]).value + DecodeAll(b).value) == head + DecodeAll(a[1..]).value + DecodeAll(b).value;
    }
  }

  /** Enough bytes for the first `m` records deliver at least them. */
  lemma {:induction false} WholeAtLeast(crc: Checksum, ps: seq<Bytes>, m: nat, n: nat)
    requires Fits(ps) && m <= |ps| && |Frames(crc, ps[..m])| <= n
    ensures Whole(ps, n) >= m
  {
    hide Frame;
    if m > 0 {
      assert ps[..m][1..] == ps[1..][..m - 1];
      WholeAtLeast(crc, ps[1..], m - 1, n - HEADER_LEN - |ps[0]|);
    }
  }

  /** The newest file of a crash image replays as its acknowledged batches, with the
      one in flight whole or not at all. */
  lemma {:induction false} NewestFile(crc: Checksum, acked: seq<Batch>, inFlight: seq<Batch>, cut: nat)
    requires Loggable(acked + inFlight) && Loggable(acked) && |inFlight| <= 1
    requires |Frames(crc, Payloads(acked))| <= cut <= |Frames(crc, Payloads(acked + inFlight))|
    ensures var got := DecodeAll(Records(crc, Frames(crc, Payloads(acked + inFlight))[..cut]));
            got == Some(acked) || got == Some(acked + inFlight)
  {
    hide Frames, Records, DecodeAll, Whole, Loggable;
    var all := acked + inFlight;
    TornLog(crc, all, cut);
    assert Fits(Payloads(all)) by { LoggableFits(all); }
    PayloadsAt(all, |acked|);
    assert all[..|acked|] == acked;
    WholeAtLeast(crc, Payloads(all), |acked|, cut);
    assert all[..|all|] == all;
  }

  lemma {:induction false} LoggableFits(bs: seq<Batch>)
    requires Loggable(bs)
    ensures Fits(Payloads(bs)) && forall i | 0 <= i < |bs| :: BatchOk(bs[i])
  {
  }

  /** A finished segment replays as its batches. */
  lemma {:induction false} FinishedFile(crc: Checksum, bs: seq<Batch>)
    requires Loggable(bs)
    ensures DecodeAll(Records(crc, Frames(crc, Payloads(bs)))) == Some(bs) && Clean(crc, Frames(crc, Payloads(bs)))
  {
    hide Frames, Records, DecodeAll, CleanLen, BatchOk;
    WholeScan(crc, Payloads(bs));
    PayloadsDecode(bs);
  }

  lemma {:induction false} FinishedFiles(crc: Checksum, wal: seq<LogSegment>, dir: Dir)
    requires |dir| == |wal| && forall i | 0 <= i < |wal| :: Loggable(wal[i].batches) && dir[i].bytes == Frames(crc, Payloads(wal[i].batches))
    ensures DecodeAll(AllRecords(crc, dir)) == Some(AllBatches(wal))
  {
    hide Frames, Records, Loggable;
    if wal != [] {
      FinishedFile(crc, wal[0].batches);
      FinishedFiles(crc, wal[1..], dir[1..]);
      DecodeAllConcat(Records(crc, dir[0].bytes), AllRecords(crc, dir[1..]));
    }
  }

  lemma {:induction false} AllBatchesConcat(a: seq<LogSegment>, b: seq<LogSegment>)
    ensures AllBatches(a + b) == AllBatches(a) + AllBatches(b)
  {
    if a == [] {
      assert a + b == b;
    } else {
      assert (a + b)[1..] == a[1..] + b;
      AllBatchesConcat(a[1..], b);
    }
  }

  /** Whatever a crash leaves of the log is accepted by replay, and holds every
      acknowledged batch, in order, and the one in flight wholly or not at all. */
  lemma {:induction false} ReplayImage(crc: Checksum, wal: seq<LogSegment>, inFlight: seq<Batch>, cut: nat, dir: Dir)
    requires CrashImage(crc, wal, inFlight, cut, dir)
    ensures Sound(crc, dir)
    ensures var got := DecodeAll(AllRecords(crc, dir));
            got == Some(AllBatches(wal)) || got == Some(AllBatches(wal) + inFlight)
  {
    hide Frames, Records, Loggable, DecodeAll, CleanLen, AllRecords, AllBatches;
    var n := |wal| - 1;
    forall i | 0 <= i < n
      ensures Clean(crc, dir[i].bytes)
    {
      FinishedFile(crc, wal[i].batches);
    }
    assert dir == dir[..n] + [dir[n]] && wal == wal[..n] + [wal[n]];
    FinishedFiles(crc, wal[..n], dir[..n]);
    AllRecordsConcat(crc, dir[..n], [dir[n]]);
    OneFile(crc, dir[n]);
    NewestFile(crc, wal[n].batches, inFlight, cut);
    DecodeAllConcat(AllRecords(crc, dir[..n]), Records(crc, dir[n].bytes));
    AllBatchesConcat(wal[..n], [wal[n]]);
    assert AllBatches([wal[n]]) == wal[n].batches by { OneSegment(wal[n]); }
    assert AllBatches(wal[..n]) + (wal[n].batches + inFlight) == AllBatches(wal[..n]) + wal[n].batches + inFlight;
  }

  lemma OneSegment(s: LogSegment)
    ensures AllBatches([s]) == s.batches
  {
    assert [s][1..] == [];
  }
}

/** Log framing: checksummed, length-prefixed records, and what a scan of a torn
    file delivers. The checksum is any function of the bytes it covers. */
module WalRecord {
  import opened Common
  import opened Codec

  const HEADER_LEN: nat := 8

  newtype u32 = x: int | 0 <= x < 0x1_0000_0000

  type Checksum = Bytes -> u32

  /** One framed record: checksum of length and payload, length, payload. */
  function Frame(crc: Checksum, payload: Bytes): (f: Bytes)
    requires |payload| <= MAX_U32
    ensures |f| == HEADER_LEN + |payload|
  {
    var length := PutLE(|payload|, 4);
    PutLE(crc(length + payload) as nat, 4) + length + payload
  }

  /** Appends one record; a payload past the length field is a logic error. */
  function AppendRecord(crc: Checksum, dst: Bytes, payload: Bytes): Checked<Bytes> {
    if |payload| > MAX_U32 then Panic else Ok(dst + Frame(crc, payload))
  }

  /** Parses one record; None when it is torn or corrupt. */
  function NextRecord(crc: Checksum, buf: Bytes): (r: Option<Split>)
    ensures r.Some? ==> |buf| == HEADER_LEN + |r.value.value| + |r.value.rest| && r.value.rest == buf[HEADER_LEN + |r.value.value|..]
  {
    if |buf| < HEADER_LEN then None
    else
      var length := GetLE(buf[4..8]);
      if length > |buf| - HEADER_LEN then None
      else
        var end := HEADER_LEN + length;
        if crc(buf[4..8] + buf[HEADER_LEN..end]) as nat != GetLE(buf[..4]) then None
        else Some(Split(buf[HEADER_LEN..end], buf[end..]))
  }

  /** The payloads of the longest parseable prefix. */
  function Records(crc: Checksum, buf: Bytes): seq<Bytes> {
    match NextRecord(crc, buf)
    case None => []
    case Some(r) => [r.value] + Records(crc, r.rest)
  }

  function CleanLen(crc: Checksum, buf: Bytes): (n: nat)
    ensures n <= |buf|
  {
    match NextRecord(crc, buf)
    case None => 0
    case Some(r) => HEADER_LEN + |r.value| + CleanLen(crc, r.rest)
  }

  ghost predicate Fits(ps: seq<Bytes>) {
    forall i | 0 <= i < |ps| :: |ps[i]| <= MAX_U32
  }

  function Frames(crc: Checksum, ps: seq<Bytes>): Bytes
    requires Fits(ps)
  {
    if ps == [] then [] else Frame(crc, ps[0]) + Frames(crc, ps[1..])
  }

  // ------------------------------------------------------------ one record

  lemma NextOfFrame(crc: Checksum, payload: Bytes, rest: Bytes)
    requires |payload| <= MAX_U32
    ensures NextRecord(crc, Frame(crc, payload) + rest) == Some(Split(payload, rest))
  {
    hide PutLE, GetLE;
    var length := PutLE(|payload|, 4);
    var sum := PutLE(crc(length + payload) as nat, 4);
    var buf := Frame(crc, payload) + rest;
    assert buf == sum + length + payload + rest;
    assert buf[..4] == sum && buf[4..8] == length && buf[8..] == payload + rest;
    Pow256Values();
    LERoundTrip(|payload|, 4);
    LERoundTrip(crc(length + payload) as nat, 4);
    assert buf[8..8 + |payload|] == payload && buf[8 + |payload|..] == rest;
  }

  /** A record cut short does not parse. */
  lemma TornFrame(crc: Checksum, payload: Bytes, n: nat)
    requires |payload| <= MAX_U32 && n < |Frame(crc, payload)|
    ensures NextRecord(crc, Frame(crc, payload)[..n]) == None
  {
    hide PutLE, GetLE;
    if n >= HEADER_LEN {
      var length := PutLE(|payload|, 4);
      var buf := Frame(crc, payload)[..n];
      assert buf[4..8] == length;
      Pow256Values();
      LERoundTrip(|payload|, 4);
    }
  }

  // ------------------------------------------------------------- whole files

  /** How many of the records lie whole within the first `n` bytes. */
  function Whole(ps: seq<Bytes>, n: nat): (k: nat)
    ensures k <= |ps|
  {
    if ps == [] || HEADER_LEN + |ps[0]| > n then 0 else 1 + Whole(ps[1..], n - HEADER_LEN - |ps[0]|)
  }

  /** Truncation: a scan of any prefix of a written file delivers exactly the
      records that fit whole in it, and returns where they end. */
  lemma {:induction false} TruncatedScan(crc: Checksum, ps: seq<Bytes>, n: nat)
    requires Fits(ps) && n <= |Frames(crc, ps)|
    ensures Records(crc, Frames(crc, ps)[..n]) == ps[..Whole(ps, n)]
    ensures CleanLen(crc, Frames(crc, ps)[..n]) == |Frames(crc, ps[..Whole(ps, n)])| <= n
  {
    hide Frame, NextRecord;
    if ps == [] {
      NothingParses(crc);
    } else {
      var f := Frame(crc, ps[0]);
      var file := Frames(crc, ps);
      if n < |f| {
        assert file[..n] == f[..n];
        TornFrame(crc, ps[0], n);
      } else {
        var m := n - |f|;
        assert file[..n] == f + Frames(crc, ps[1..])[..m];
        NextOfFrame(crc, ps[0], Frames(crc, ps[1..])[..m]);
        TruncatedScan(crc, ps[1..], m);
        var k := Whole(ps[1..], m);
        assert ps[..k + 1] == [ps[0]] + ps[1..][..k];
        assert ps[..k + 1][1..] == ps[1..][..k];
      }
    }
  }

  lemma NothingParses(crc: Checksum)
    ensures NextRecord(crc, []) == None
  {
  }

  /** `k` is the number of whole records: their bytes end at or before the cut, one more would not. */
  lemma {:induction false} WholeExact(crc: Checksum, ps: seq<Bytes>, n: nat)
    requires Fits(ps)
    ensures var k := Whole(ps, n);
            |Frames(crc, ps[..k])| <= n && (k < |ps| ==> n < |Frames(crc, ps[..k + 1])|)
  {
    hide Frame;
    if ps != [] {
      if HEADER_LEN + |ps[0]| <= n {
        var k := Whole(ps[1..], n - HEADER_LEN - |ps[0]|);
        WholeExact(crc, ps[1..], n - HEADER_LEN - |ps[0]|);
        assert ps[..k + 1][1..] == ps[1..][..k];
        if k + 1 < |ps| {
          assert ps[..k + 2][1..] == ps[1..][..k + 1];
        }
      } else {
        assert ps[..1] == [ps[0]] && ps[..1][1..] == [];
      }
    }
  }

  /** A clean file reads back whole. */
  lemma {:induction false} WholeScan(crc: Checksum, ps: seq<Bytes>)
    requires Fits(ps)
    ensures Records(crc, Frames(crc, ps)) == ps && CleanLen(crc, Frames(crc, ps)) == |Frames(crc, ps)|
  {
    hide Frame, NextRecord, Records, CleanLen;
    var f := Frames(crc, ps);
    assert f[..|f|] == f;
    TruncatedScan(crc, ps, |f|);
    AllWhole(crc, ps);
    assert ps[..|ps|] == ps;
  }

  lemma {:induction false} AllWhole(crc: Checksum, ps: seq<Bytes>)
    requires Fits(ps)
    ensures Whole(ps, |Frames(crc, ps)|) == |ps|
  {
    hide Frame;
    if ps != [] {
      AllWhole(crc, ps[1..]);
    }
  }

  /** Repair: cutting any file at its clean length keeps every parseable record and
      leaves nothing torn. */
  lemma {:induction false} RepairKeeps(crc: Checksum, buf: Bytes)
    ensures var cut := buf[..CleanLen(crc, buf)];
            Records(crc, cut) == Records(crc, buf) && CleanLen(crc, cut) == |cut|
  {
    match NextRecord(crc, buf)
    case None =>
      NothingParses(crc);
    case Some(r) =>
      RepairKeeps(crc, r.rest);
      var n := HEADER_LEN + |r.value|;
      var cut := buf[..CleanLen(crc, buf)];
      assert cut[n..] == r.rest[..CleanLen(crc, r.rest)];
      SameHead(crc, buf, |cut|);
  }

  /** Cutting a buffer past its first record does not change that record. */
  lemma SameHead(crc: Checksum, buf: Bytes, n: nat)
    requires NextRecord(crc, buf).Some? && HEADER_LEN + |NextRecord(crc, buf).value.value| <= n <= |buf|
    ensures var r := NextRecord(crc, buf).value;
            NextRecord(crc, buf[..n]) == Some(Split(r.value, buf[HEADER_LEN + |r.value|..n]))
  {
    hide GetLE;
    var r := NextRecord(crc, buf).value;
    var end := HEADER_LEN + |r.value|;
    var cut := buf[..n];
    assert cut[..4] == buf[..4] && cut[4..8] == buf[4..8] && cut[HEADER_LEN..end] == buf[HEADER_LEN..end];
    assert cut[end..] == buf[end..n];
  }

  /** Records appended to a clean file follow those already there. */
  lemma {:induction false} AppendToClean(crc: Checksum, a: Bytes, b: Bytes)
    requires CleanLen(crc, a) == |a|
    ensures Records(crc, a + b) == Records(crc, a) + Records(crc, b)
    ensures CleanLen(crc, a + b) == |a| + CleanLen(crc, b)
  {
    hide NextRecord;
    match NextRecord(crc, a)
    case None =>
      assert a + b == b;
    case Some(r) =>
      AppendToClean(crc, r.rest, b);
      var n := HEADER_LEN + |r.value|;
      var buf := a + b;
      NextWithin(crc, a, b);
      assert a[n..] + b == buf[n..];
  }

  lemma NextWithin(crc: Checksum, a: Bytes, b: Bytes)
    requires NextRecord(crc, a).Some?
    ensures NextRecord(crc, a + b) == Some(Split(NextRecord(crc, a).value.value, NextRecord(crc, a).value.rest + b))
  {
    hide GetLE;
    var r := NextRecord(crc, a).value;
    var end := HEADER_LEN + |r.value|;
    var buf := a + b;
    assert buf[..4] == a[..4] && buf[4..8] == a[4..8] && buf[HEADER_LEN..end] == a[HEADER_LEN..end];
    assert buf[end..] == a[end..] + b;
  }

  // ---------------------------------------------------------------- the scan

  /** Walks the records of a buffer, handing each payload to a consumer that may
      refuse it; returns the offset where it stopped. */
  method ScanRecords(crc: Checksum, buf: Bytes, accept: Bytes -> bool) returns (out: seq<Bytes>, clean: nat, ok: bool)
    ensures ok ==> out == Records(crc, buf) && clean == CleanLen(crc, buf)
    ensures forall i | 0 <= i < |out| :: accept(out[i])
    ensures !ok ==> out < Records(crc, buf) && !accept(Records(crc, buf)[|out|])
    ensures clean <= |buf|
  {
    hide NextRecord;
    out, ok := [], true;
    var rest := buf;
    clean := 0;
    while |rest| > 0
      invariant clean + |rest| == |buf|
      invariant out + Records(crc, rest) == Records(crc, buf)
      invariant clean + CleanLen(crc, rest) == CleanLen(crc, buf)
      invariant forall i | 0 <= i < |out| :: accept(out[i])
      decreases |rest|
    {
      var r := NextRecord(crc, rest);
      if r.None? {
        return;
      }
      if !accept(r.value.value) {
        ok := false;
        return;
      }
      out := out + [r.value.value];
      clean := clean + HEADER_LEN + |r.value.value|;
      rest := r.value.rest;
    }
    NothingParses(crc);
  }
}

/** The batch payload the engine logs per write. */
module WalBatch {
  import opened Common
  import opened Codec
  import opened Keys
  import opened Engine
  import opened WalRecord

  datatype Batch = Batch(baseSeq: nat, ops: seq<Op>)

  predicate OpOk(op: Op) {
    |op.key| < TWO_64 && |op.value| < TWO_64 && (op.kind == Delete ==> op.value == [])
  }

  ghost predicate BatchOk(b: Batch) {
    b.baseSeq < TWO_64 && |b.ops| < TWO_64 && forall i | 0 <= i < |b.ops| :: OpOk(b.ops[i])
  }

  function KindByte(k: Kind): byte {
    if k == Put then 1 else 0
  }

  function PutOp(op: Op): (b: Bytes)
    ensures |b| >= 2
  {
    [KindByte(op.kind)] + PutBytes(op.key) + if op.kind == Put then PutBytes(op.value) else []
  }

  function PutOps(ops: seq<Op>): (b: Bytes)
    ensures |b| >= 2 * |ops|
  {
    if ops == [] then [] else PutOp(ops[0]) + PutOps(ops[1..])
  }

  /** Base sequence number, op count, then the ops. */
  function EncodeBatch(b: Batch): Bytes {
    PutLE(b.baseSeq, 8) + PutUvarint(|b.ops|) + PutOps(b.ops)
  }

  datatype Parsed = Parsed(ops: seq<Op>, rest: Bytes)

  datatype ParsedOp = ParsedOp(op: Op, rest: Bytes)

  function GetOp(b: Bytes): (r: Option<ParsedOp>)
    ensures r.Some? ==> |r.value.rest| < |b|
  {
    if b == [] || b[0] > 1 then None
    else
      match GetBytes(b[1..])
      case None => None
      case Some(k) =>
        if b[0] == 0 then Some(ParsedOp(Op(Delete, k.value, []), k.rest))
        else
          match GetBytes(k.rest)
          case None => None
          case Some(v) => Some(ParsedOp(Op(Put, k.value, v.value), v.rest))
  }

  function GetOps(b: Bytes, n: nat): Option<Parsed> {
    if n == 0 then Some(Parsed([], b))
    else
      match GetOp(b)
      case None => None
      case Some(p) =>
        match GetOps(p.rest, n - 1)
        case None => None
        case Some(q) => Some(Parsed([p.op] + q.ops, q.rest))
  }

  /** A batch decodes exactly or not at all. */
  function DecodeBatch(payload: Bytes): Option<Batch> {
    if |payload| < 8 then None
    else
      var rest := payload[8..];
      match GetUvarint(rest, 0)
      case None => None
      case Some(u) =>
        var body := rest[u.width..];
        if u.value > |body| / 2 then None
        else
          match GetOps(body, u.value)
          case None => None
          case Some(p) => if p.rest != [] then None else Some(Batch(GetLE(payload[..8]), p.ops))
  }

  // ------------------------------------------------------------- round trip

  lemma OpRoundTrip(op: Op, rest: Bytes)
    requires OpOk(op)
    ensures GetOp(PutOp(op) + rest) == Some(ParsedOp(op, rest))
  {
    hide PutBytes, GetBytes;
    var b := PutOp(op) + rest;
    if op.kind == Put {
      assert b[1..] == PutBytes(op.key) + (PutBytes(op.value) + rest);
      BytesRoundTrip(op.key, PutBytes(op.value) + rest);
      BytesRoundTrip(op.value, rest);
    } else {
      assert b[1..] == PutBytes(op.key) + rest;
      BytesRoundTrip(op.key, rest);
    }
  }

  lemma {:induction false} OpsRoundTrip(ops: seq<Op>, rest: Bytes)
    requires forall i | 0 <= i < |ops| :: OpOk(ops[i])
    ensures GetOps(PutOps(ops) + rest, |ops|) == Some(Parsed(ops, rest))
  {
    hide PutOp, GetOp;
    if ops == [] {
      assert PutOps(ops) + rest == rest;
    } else {
      assert PutOps(ops) + rest == PutOp(ops[0]) + (PutOps(ops[1..]) + rest);
      OpRoundTrip(ops[0], PutOps(ops[1..]) + rest);
      OpsRoundTrip(ops[1..], rest);
      assert ops == [ops[0]] + ops[1..];
    }
  }

  /** An encoded batch decodes to itself; with anything after it, it does not decode. */
  lemma BatchRoundTrip(b: Batch, extra: Bytes)
    requires BatchOk(b)
    ensures DecodeBatch(EncodeBatch(b) + extra) == if extra == [] then Some(b) else None
  {
    hide PutOps, GetOps, PutUvarint, GetUvarint, PutLE, GetLE;
    var p := EncodeBatch(b) + extra;
    var u := PutUvarint(|b.ops|);
    var body := PutOps(b.ops) + extra;
    assert p[8..] == u + body && p[..8] == PutLE(b.baseSeq, 8);
    UvarintRoundTrip(|b.ops|, body);
    assert p[8..][|u|..] == body;
    OpsRoundTrip(b.ops, extra);
    Pow256Values();
    LERoundTrip(b.baseSeq, 8);
  }

  // ------------------------------------------------------------- torn batches

  lemma OpTorn(op: Op, k: nat)
    requires OpOk(op) && k < |PutOp(op)|
    ensures GetOp(PutOp(op)[..k]) == None
  {
    hide PutBytes, GetBytes;
    var b := PutOp(op)[..k];
    if k > 0 {
      var key := PutBytes(op.key);
      if k - 1 < |key| {
        assert b[1..] == key[..k - 1];
        BytesTorn(op.key, k - 1);
      } else {
        var m := k - 1 - |key|;
        assert b[1..] == key + PutBytes(op.value)[..m];
        BytesRoundTrip(op.key, PutBytes(op.value)[..m]);
        BytesTorn(op.value, m);
      }
    }
  }

  lemma {:induction false} OpsTorn(ops: seq<Op>, k: nat)
    requires (forall i | 0 <= i < |ops| :: OpOk(ops[i])) && k < |PutOps(ops)|
    ensures GetOps(PutOps(ops)[..k], |ops|) == None
  {
    hide PutOp, GetOp;
    var first := PutOp(ops[0]);
    if k < |first| {
      assert PutOps(ops)[..k] == first[..k];
      OpTorn(ops[0], k);
    } else {
      var m := k - |first|;
      assert PutOps(ops)[..k] == first + PutOps(ops[1..])[..m];
      OpRoundTrip(ops[0], PutOps(ops[1..])[..m]);
      OpsTorn(ops[1..], m);
    }
  }

  /** No proper prefix of an encoded batch decodes. */
  lemma BatchTorn(b: Batch, k: nat)
    requires BatchOk(b) && k < |EncodeBatch(b)|
    ensures DecodeBatch(EncodeBatch(b)[..k]) == None
  {
    hide PutOps, GetOps, PutUvarint, GetUvarint, PutLE, GetLE;
    var p := EncodeBatch(b)[..k];
    var u := PutUvarint(|b.ops|);
    if 8 <= k < 8 + |u| {
      assert p[8..] == u[..k - 8];
      UvarintTorn(|b.ops|, k - 8, 0);
    } else if k >= 8 + |u| {
      var m := k - 8 - |u|;
      assert p[8..] == u + PutOps(b.ops)[..m];
      UvarintRoundTrip(|b.ops|, PutOps(b.ops)[..m]);
      assert p[8..][|u|..] == PutOps(b.ops)[..m];
      OpsTorn(b.ops, m);
    }
  }

  // ---------------------------------------------------------------- the loops

  lemma {:induction false} PutOpsAppend(ops: seq<Op>, op: Op)
    ensures PutOps(ops + [op]) == PutOps(ops) + PutOp(op)
  {
    hide PutOp;
    if ops == [] {
      assert ops + [op] == [op] && [op][1..] == [];
    } else {
      assert (ops + [op])[1..] == ops[1..] + [op];
      PutOpsAppend(ops[1..], op);
    }
  }

  /** Appends the batch encoding to `dst`. */
  method Encode(b: Batch, dst: Bytes) returns (r: Bytes)
    ensures r == dst + EncodeBatch(b)
  {
    hide PutOp;
    r := dst + PutLE(b.baseSeq, 8) + PutUvarint(|b.ops|);
    ghost var head := r;
    var i := 0;
    while i < |b.ops|
      invariant 0 <= i <= |b.ops|
      invariant r == head + PutOps(b.ops[..i])
    {
      assert b.ops[..i + 1] == b.ops[..i] + [b.ops[i]];
      PutOpsAppend(b.ops[..i], b.ops[i]);
      r := r + PutOp(b.ops[i]);
      i := i + 1;
    }
    assert b.ops[..|b.ops|] == b.ops;
  }

  /** `ops` in front of whatever parses next. */
  function Prepend(ops: seq<Op>, p: Option<Parsed>): Option<Parsed> {
    if p.None? then None else Some(Parsed(ops + p.value.ops, p.value.rest))
  }

  lemma {:induction false} PrependStep(ops: seq<Op>, b: Bytes, n: nat)
    requires n > 0
    ensures GetOp(b).None? ==> Prepend(ops, GetOps(b, n)).None?
    ensures GetOp(b).Some? ==> Prepend(ops, GetOps(b, n)) == Prepend(ops + [GetOp(b).value.op], GetOps(GetOp(b).value.rest, n - 1))
  {
    hide GetOp;
    if GetOp(b).Some? {
      var op := GetOp(b).value.op;
      var q := GetOps(GetOp(b).value.rest, n - 1);
      if q.Some? {
        assert ops + ([op] + q.value.ops) == ops + [op] + q.value.ops;
      }
    }
  }

  /** Parses a payload op by op. */
  method Decode(payload: Bytes) returns (r: Option<Batch>)
    ensures r == DecodeBatch(payload)
  {
    hide GetOps, GetUvarint, GetLE;
    if |payload| < 8 {
      return None;
    }
    var rest := payload[8..];
    var u := GetUvarint(rest, 0);
    if u.None? {
      return None;
    }
    rest := rest[u.value.width..];
    var count := u.value.value;
    if count > |rest| / 2 {
      return None;
    }
    var p := DecodeOps(rest, count);
    if p.None? || |p.value.rest| != 0 {
      return None;
    }
    r := Some(Batch(GetLE(payload[..8]), p.value.ops));
  }

  method DecodeOps(body: Bytes, count: nat) returns (r: Option<Parsed>)
    ensures r == GetOps(body, count)
  {
    hide GetOp;
    var rest := body;
    var ops: seq<Op> := [];
    var i := 0;
    assert GetOps(body, count).Some? ==> [] + GetOps(body, count).value.ops == GetOps(body, count).value.ops;
    while i < count
      invariant 0 <= i <= count
      invariant Prepend(ops, GetOps(rest, count - i)) == GetOps(body, count)
    {
      PrependStep(ops, rest, count - i);
      var p := GetOp(rest);
      if p.None? {
        return None;
      }
      ops := ops + [p.value.op];
      rest := p.value.rest;
      i := i + 1;
    }
    assert ops + [] == ops;
    r := Some(Parsed(ops, rest));
  }

  // ------------------------------------------------------- batches in a file

  function Payloads(bs: seq<Batch>): seq<Bytes> {
    if bs == [] then [] else [EncodeBatch(bs[0])] + Payloads(bs[1..])
  }

  /** What replay makes of a file: each record decoded, None when one is not a batch. */
  function DecodeAll(ps: seq<Bytes>): Option<seq<Batch>> {
    if ps == [] then Some([])
    else
      match DecodeBatch(ps[0])
      case None => None
      case Some(b) =>
        match DecodeAll(ps[1..])
        case None => None
        case Some(bs) => Some([b] + bs)
  }

  ghost predicate Loggable(bs: seq<Batch>) {
    (forall i | 0 <= i < |bs| :: BatchOk(bs[i])) && Fits(Payloads(bs))
  }

  lemma {:induction false} PayloadsAt(bs: seq<Batch>, k: nat)
    requires k <= |bs|
    ensures |Payloads(bs)| == |bs| && Payloads(bs)[..k] == Payloads(bs[..k])
  {
    hide EncodeBatch;
    if bs == [] {
      assert bs[..k] == [];
    } else {
      PayloadsAt(bs[1..], if k > 0 then k - 1 else 0);
      if k > 0 {
        assert bs[..k][1..] == bs[1..][..k - 1];
        assert Payloads(bs)[..k] == [EncodeBatch(bs[0])] + Payloads(bs[1..])[..k - 1];
      }
    }
  }

  lemma {:induction false} PayloadsDecode(bs: seq<Batch>)
    requires forall i | 0 <= i < |bs| :: BatchOk(bs[i])
    ensures DecodeAll(Payloads(bs)) == Some(bs)
  {
    hide EncodeBatch, DecodeBatch;
    if bs != [] {
      PayloadsDecode(bs[1..]);
      BatchRoundTrip(bs[0], []);
      assert EncodeBatch(bs[0]) + [] == EncodeBatch(bs[0]);
      assert Payloads(bs)[0] == EncodeBatch(bs[0]) && Payloads(bs)[1..] == Payloads(bs[1..]);
      assert bs == [bs[0]] + bs[1..];
    }
  }

  /** A torn batch is never partly visible: a log file cut anywhere replays as a
      prefix of its batches, each whole. */
  lemma {:induction false} TornLog(crc: Checksum, bs: seq<Batch>, n: nat)
    requires Loggable(bs) && n <= |Frames(crc, Payloads(bs))|
    ensures var k := Whole(Payloads(bs), n);
            k <= |bs| && DecodeAll(Records(crc, Frames(crc, Payloads(bs))[..n])) == Some(bs[..k])
  {
    hide Frames, Records, DecodeAll, Whole, CleanLen;
    var k := Whole(Payloads(bs), n);
    TruncatedScan(crc, Payloads(bs), n);
    PayloadsAt(bs, 0);
    PayloadsAt(bs, k);
    PayloadsDecode(bs[..k]);
  }
}

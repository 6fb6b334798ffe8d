/** The raft state file: typed records in the write-ahead log's framing, and the
    fold that turns them back into a node's durable state. */
module RaftStorage {
  import opened Common
  import opened Codec
  import opened RaftTypes
  import opened WalRecord

  // -------------------------------------------------------------- the records

  datatype StateRecord =
    | HardRecord(hs: HardState)
    | EntriesRecord(es: seq<Entry>)
    | TruncateRecord(from: nat)
    | CompactRecord(index: nat, term: nat)

  const REC_HARD_STATE: byte := 1
  const REC_ENTRIES: byte := 2
  const REC_TRUNCATE: byte := 3
  const REC_COMPACT: byte := 4

  const ENTRY_HEADER: nat := 21

  function EntryBytes(e: Entry): Bytes {
    [e.etype] + PutLE(e.index, 8) + PutLE(e.term, 8) + PutLE(|e.data|, 4) + e.data
  }

  function AllBytes(es: seq<Entry>): Bytes {
    if es == [] then [] else EntryBytes(es[0]) + AllBytes(es[1..])
  }

  function EntriesBytes(es: seq<Entry>): Bytes {
    PutLE(|es|, 4) + AllBytes(es)
  }

  datatype Parsed = Parsed(entry: Entry, rest: Bytes)

  /** One entry and what follows it; None when the header or the data is cut short. */
  function ParseEntry(body: Bytes): (r: Option<Parsed>)
    ensures r.Some? ==> |r.value.rest| < |body|
  {
    if |body| < ENTRY_HEADER then None
    else
      var n := GetLE(body[17..21]);
      if n > |body| - ENTRY_HEADER then None
      else
        Some(Parsed(Entry(body[0], GetLE(body[1..9]), GetLE(body[9..17]), body[21..21 + n]), body[21 + n..]))
  }

  function Behind(es: seq<Entry>, r: Option<seq<Entry>>): Option<seq<Entry>> {
    match r
    case None => None
    case Some(more) => Some(es + more)
  }

  lemma BehindNothing(r: Option<seq<Entry>>)
    ensures Behind([], r) == r
  {
    if r.Some? {
      assert [] + r.value == r.value;
    }
  }

  lemma BehindOne(es: seq<Entry>, e: Entry, r: Option<seq<Entry>>)
    ensures Behind(es, Behind([e], r)) == Behind(es + [e], r)
  {
    if r.Some? {
      assert es + ([e] + r.value) == es + [e] + r.value;
    }
  }

  lemma NothingBehind(es: seq<Entry>)
    ensures Behind(es, None) == None && Behind(es, Some([])) == Some(es)
  {
    assert es + [] == es;
  }

  function ParseAll(n: nat, body: Bytes): Option<seq<Entry>> {
    if n == 0 then
      if body == [] then Some([]) else None
    else
      match ParseEntry(body)
      case None => None
      case Some(p) =>
        Behind([p.entry], ParseAll(n - 1, p.rest))
  }

  function ParseEntries(body: Bytes): Option<seq<Entry>> {
    if |body| < 4 then None else ParseAll(GetLE(body[..4]), body[4..])
  }

  function HardBytes(hs: HardState): Bytes {
    PutLE(hs.term, 8) + PutLE(hs.vote, 8) + PutLE(hs.commit, 8)
  }

  function Payload(r: StateRecord): (p: Bytes)
    ensures p != []
  {
    match r
    case HardRecord(hs) => [REC_HARD_STATE] + HardBytes(hs)
    case EntriesRecord(es) => [REC_ENTRIES] + EntriesBytes(es)
    case TruncateRecord(from) => [REC_TRUNCATE] + PutLE(from, 8)
    case CompactRecord(index, term) => [REC_COMPACT] + (PutLE(index, 8) + PutLE(term, 8))
  }

  function ParseBody(tag: byte, body: Bytes): Option<StateRecord> {
    if tag == REC_HARD_STATE then
      if |body| != 24 then None else Some(HardRecord(HardState(GetLE(body[..8]), GetLE(body[8..16]), GetLE(body[16..]))))
    else if tag == REC_COMPACT then
      if |body| != 16 then None else Some(CompactRecord(GetLE(body[..8]), GetLE(body[8..])))
    else if tag == REC_ENTRIES then
      match ParseEntries(body)
      case None => None
      case Some(es) => Some(EntriesRecord(es))
    else if tag == REC_TRUNCATE then
      if |body| != 8 then None else Some(TruncateRecord(GetLE(body)))
    else None
  }

  function Parse(payload: Bytes): Option<StateRecord> {
    if payload == [] then None else ParseBody(payload[0], payload[1..])
  }

  // ------------------------------------------------------------- round trips

  ghost predicate Word(n: nat) {
    n < TWO_64
  }

  ghost predicate EntryFits(e: Entry) {
    Word(e.index) && Word(e.term) && |e.data| <= MAX_U32
  }

  ghost predicate EntriesFit(es: seq<Entry>) {
    |es| <= MAX_U32 && forall i | 0 <= i < |es| :: EntryFits(es[i])
  }

  ghost predicate HardFits(hs: HardState) {
    Word(hs.term) && Word(hs.vote) && Word(hs.commit)
  }

  /** Every number fits its field. */
  ghost predicate RecordFits(r: StateRecord) {
    match r
    case HardRecord(hs) => HardFits(hs)
    case EntriesRecord(es) => EntriesFit(es)
    case TruncateRecord(from) => Word(from)
    case CompactRecord(index, term) => Word(index) && Word(term)
  }

  lemma {:induction false} WordRoundTrip(n: nat)
    requires Word(n)
    ensures GetLE(PutLE(n, 8)) == n
  {
    Pow256Values();
    LERoundTrip(n, 8);
  }

  lemma {:induction false} HalfRoundTrip(n: nat)
    requires n <= MAX_U32
    ensures GetLE(PutLE(n, 4)) == n
  {
    Pow256Values();
    LERoundTrip(n, 4);
  }

  lemma EntryRoundTrip(e: Entry, rest: Bytes)
    requires EntryFits(e)
    ensures ParseEntry(EntryBytes(e) + rest) == Some(Parsed(e, rest))
  {
    hide PutLE, GetLE;
    var a, b, c := PutLE(e.index, 8), PutLE(e.term, 8), PutLE(|e.data|, 4);
    var body := EntryBytes(e) + rest;
    assert body == [e.etype] + a + b + c + e.data + rest;
    assert body[1..9] == a && body[9..17] == b && body[17..21] == c;
    WordRoundTrip(e.index);
    WordRoundTrip(e.term);
    HalfRoundTrip(|e.data|);
    assert body[21..21 + |e.data|] == e.data && body[21 + |e.data|..] == rest;
  }

  lemma {:induction false} AllRoundTrip(es: seq<Entry>)
    requires forall i | 0 <= i < |es| :: EntryFits(es[i])
    ensures ParseAll(|es|, AllBytes(es)) == Some(es)
  {
    hide ParseEntry, EntryBytes, EntryFits;
    if es != [] {
      EntryRoundTrip(es[0], AllBytes(es[1..]));
      AllRoundTrip(es[1..]);
      assert [es[0]] + es[1..] == es;
    }
  }

  lemma EntriesRoundTrip(es: seq<Entry>)
    requires EntriesFit(es)
    ensures ParseEntries(EntriesBytes(es)) == Some(es)
  {
    hide ParseAll, AllBytes, PutLE, GetLE, EntryFits;
    var b := EntriesBytes(es);
    assert b[..4] == PutLE(|es|, 4) && b[4..] == AllBytes(es);
    HalfRoundTrip(|es|);
    AllRoundTrip(es);
  }

  lemma HardRoundTrip(hs: HardState)
    requires HardFits(hs)
    ensures ParseBody(REC_HARD_STATE, HardBytes(hs)) == Some(HardRecord(hs))
  {
    hide PutLE, GetLE;
    var b := HardBytes(hs);
    assert b[..8] == PutLE(hs.term, 8) && b[8..16] == PutLE(hs.vote, 8) && b[16..] == PutLE(hs.commit, 8);
    WordRoundTrip(hs.term);
    WordRoundTrip(hs.vote);
    WordRoundTrip(hs.commit);
  }

  /** Every record reads back as itself. */
  lemma RecordRoundTrip(r: StateRecord)
    requires RecordFits(r)
    ensures Parse(Payload(r)) == Some(r)
  {
    hide PutLE, GetLE, ParseEntries, EntriesBytes, HardBytes, EntriesFit, HardFits;
    match r
    case HardRecord(hs) =>
      HardRoundTrip(hs);
      assert Payload(r)[1..] == HardBytes(hs);
    case EntriesRecord(es) =>
      EntriesRoundTrip(es);
      assert Payload(r)[1..] == EntriesBytes(es);
    case TruncateRecord(from) =>
      WordRoundTrip(from);
      assert Payload(r)[1..] == PutLE(from, 8);
    case CompactRecord(index, term) =>
      WordRoundTrip(index);
      WordRoundTrip(term);
      var b := Payload(r)[1..];
      assert b[..8] == PutLE(index, 8) && b[8..] == PutLE(term, 8);
  }

  lemma {:induction false} AllBytesOn(es: seq<Entry>, k: nat)
    requires k < |es|
    ensures AllBytes(es[..k + 1]) == AllBytes(es[..k]) + EntryBytes(es[k])
  {
    hide EntryBytes;
    if k == 0 {
      assert es[..1] == [es[0]] && es[..0] == [] && AllBytes([es[0]][1..]) == [];
    } else {
      AllBytesOn(es[1..], k - 1);
      assert es[..k + 1][1..] == es[1..][..k] && es[..k][1..] == es[1..][..k - 1];
    }
  }

  method EncodeEntries(es: seq<Entry>) returns (buf: Bytes)
    ensures buf == EntriesBytes(es)
    ensures EntriesFit(es) ==> ParseEntries(buf) == Some(es)
  {
    hide PutLE, EntryFits, ParseEntries;
    buf := PutLE(|es|, 4);
    var i := 0;
    assert AllBytes(es[..0]) == [];
    while i < |es|
      invariant 0 <= i <= |es| && buf == PutLE(|es|, 4) + AllBytes(es[..i])
    {
      AllBytesOn(es, i);
      buf := buf + [es[i].etype];
      buf := buf + PutLE(es[i].index, 8);
      buf := buf + PutLE(es[i].term, 8);
      buf := buf + PutLE(|es[i].data|, 4);
      buf := buf + es[i].data;
      i := i + 1;
    }
    assert es[..i] == es;
    if EntriesFit(es) {
      EntriesRoundTrip(es);
    }
  }

  method DecodeEntries(payload: Bytes) returns (r: Option<seq<Entry>>)
    ensures r == ParseEntries(payload)
  {
    hide GetLE, ParseEntry, Behind;
    if |payload| < 4 {
      return None;
    }
    var n := GetLE(payload[..4]);
    var body := payload[4..];
    var es: seq<Entry> := [];
    var i := 0;
    BehindNothing(ParseEntries(payload));
    while i < n
      invariant 0 <= i <= n
      invariant ParseEntries(payload) == Behind(es, ParseAll(n - i, body))
    {
      var p := ParseEntry(body);
      if p.None? {
        NothingBehind(es);
        return None;
      }
      BehindOne(es, p.value.entry, ParseAll(n - i - 1, p.value.rest));
      es := es + [p.value.entry];
      body := p.value.rest;
      i := i + 1;
    }
    NothingBehind(es);
    if |body| != 0 {
      return None;
    }
    return Some(es);
  }

  // -------------------------------------------------------------- the replay

  /** Puts one entry where its index says; whatever was there or above is gone. */
  function Place(rec: Recovered, e: Entry): Option<Recovered> {
    if e.index <= rec.snapIndex then None
    else
      var pos := e.index - rec.snapIndex;
      if pos <= |rec.entries| then Some(rec.(entries := rec.entries[..pos - 1] + [e]))
      else if pos == |rec.entries| + 1 then Some(rec.(entries := rec.entries + [e]))
      else None
  }

  function PlaceAll(rec: Recovered, es: seq<Entry>): Option<Recovered>
    decreases |es|
  {
    if es == [] then Some(rec)
    else
      match Place(rec, es[0])
      case None => None
      case Some(r) => PlaceAll(r, es[1..])
  }

  /** One event of the file. */
  function Apply(rec: Recovered, r: StateRecord): Option<Recovered> {
    match r
    case HardRecord(hs) => Some(rec.(hard := hs))
    case CompactRecord(index, term) =>
      if rec.entries != [] || rec.snapIndex != 0 then None else Some(rec.(snapIndex := index, snapTerm := term))
    case EntriesRecord(es) => PlaceAll(rec, es)
    case TruncateRecord(from) =>
      if from <= rec.snapIndex then None
      else
        var pos := from - rec.snapIndex;
        if pos - 1 < |rec.entries| then Some(rec.(entries := rec.entries[..pos - 1])) else Some(rec)
  }

  function ApplyPayload(rec: Recovered, payload: Bytes): Option<Recovered> {
    match Parse(payload)
    case None => None
    case Some(r) => Apply(rec, r)
  }

  /** Replay: the events in file order, the first bad one ends it. */
  function Fold(rec: Recovered, ps: seq<Bytes>): Option<Recovered>
    decreases |ps|
  {
    if ps == [] then Some(rec)
    else
      match ApplyPayload(rec, ps[0])
      case None => None
      case Some(r) => Fold(r, ps[1..])
  }

  function Replay(crc: Checksum, file: Bytes): Option<Recovered> {
    Fold(NO_STATE, Records(crc, file))
  }

  lemma {:induction false} FoldNothing(rec: Recovered)
    ensures Fold(rec, []) == Some(rec)
  {
  }

  lemma {:induction false} FoldOn(rec: Recovered, a: seq<Bytes>, b: seq<Bytes>)
    ensures Fold(rec, a + b) == match Fold(rec, a) { case None => None case Some(r) => Fold(r, b) }
    decreases |a|
  {
    hide ApplyPayload;
    if a == [] {
      assert a + b == b;
    } else {
      assert (a + b)[1..] == a[1..] + b;
      match ApplyPayload(rec, a[0])
      case None =>
      case Some(r) => FoldOn(r, a[1..], b);
    }
  }

  /** Applies one record to the state being recovered. */
  method ApplyRecord(payload: Bytes, rec: Recovered) returns (out: Option<Recovered>)
    ensures out == ApplyPayload(rec, payload)
  {
    hide GetLE, ParseEntries;
    if |payload| < 1 {
      return None;
    }
    var body := payload[1..];
    if payload[0] == REC_ENTRIES {
      var es := DecodeEntries(body);
      if es.None? {
        return None;
      }
      out := PlaceEach(rec, es.value);
    } else {
      var r := ParseBody(payload[0], body);
      if r.None? {
        return None;
      }
      out := Apply(rec, r.value);
    }
  }

  method PlaceEach(rec: Recovered, es: seq<Entry>) returns (out: Option<Recovered>)
    ensures out == PlaceAll(rec, es)
  {
    var cur := rec;
    var i := 0;
    while i < |es|
      invariant 0 <= i <= |es| && PlaceAll(rec, es) == PlaceAll(cur, es[i..])
    {
      assert es[i..][1..] == es[i + 1..];
      if es[i].index <= cur.snapIndex {
        return None;
      }
      var pos := es[i].index - cur.snapIndex;
      if pos <= |cur.entries| {
        var kept := cur.entries[pos - 1 := es[i]];
        assert kept[..pos] == cur.entries[..pos - 1] + [es[i]];
        cur := cur.(entries := kept[..pos]);
      } else if pos == |cur.entries| + 1 {
        cur := cur.(entries := cur.entries + [es[i]]);
      } else {
        return None;
      }
      i := i + 1;
    }
    return Some(cur);
  }

  /** Opening the file: every whole record is replayed, a torn tail ends it. */
  method Open(crc: Checksum, file: Bytes) returns (r: Option<Recovered>, lastIndex: nat)
    ensures r == Replay(crc, file)
    ensures r.Some? ==> lastIndex == r.value.snapIndex + |r.value.entries|
  {
    hide ApplyPayload, NextRecord;
    lastIndex := 0;
    var cur := NO_STATE;
    var rest := file;
    while |rest| > 0
      invariant Replay(crc, file) == Fold(cur, Records(crc, rest))
      decreases |rest|
    {
      var next := NextRecord(crc, rest);
      if next.None? {
        break;
      }
      var recs := Records(crc, rest);
      assert recs[0] == next.value.value && recs[1..] == Records(crc, next.value.rest);
      var out := ApplyRecord(next.value.value, cur);
      if out.None? {
        return None, 0;
      }
      cur := out.value;
      rest := next.value.rest;
    }
    if |rest| == 0 {
      NothingParses(crc);
    }
    return Some(cur), cur.snapIndex + |cur.entries|;
  }

  // ------------------------------------------------------ what is meant to be

  ghost predicate ContiguousFrom(es: seq<Entry>, first: nat) {
    forall k | 0 <= k < |es| :: es[k].index == first + k
  }

  ghost predicate WellFormed(st: Recovered) {
    ContiguousFrom(st.entries, st.snapIndex + 1)
  }

  function LastOf(st: Recovered): nat {
    st.snapIndex + |st.entries|
  }

  /** A batch that continues the log or overwrites its tail. */
  ghost predicate Continues(st: Recovered, es: seq<Entry>) {
    es != [] ==> st.snapIndex < es[0].index <= LastOf(st) + 1 && ContiguousFrom(es, es[0].index)
  }

  /** The log with a batch written over its tail. */
  function Overwritten(st: Recovered, es: seq<Entry>): Recovered
    requires es != [] ==> st.snapIndex < es[0].index <= LastOf(st) + 1
  {
    if es == [] then st else st.(entries := st.entries[..es[0].index - st.snapIndex - 1] + es)
  }

  /** Placing a contiguous batch entry by entry overwrites the tail with all of it. */
  lemma {:induction false} PlaceOverwrites(st: Recovered, es: seq<Entry>)
    requires es != [] && Continues(st, es)
    ensures PlaceAll(st, es) == Some(Overwritten(st, es))
    decreases |es|
  {
    var pos := es[0].index - st.snapIndex;
    var r := st.(entries := st.entries[..pos - 1] + [es[0]]);
    assert Place(st, es[0]) == Some(r) by {
      if pos == |st.entries| + 1 {
        assert st.entries[..pos - 1] == st.entries;
      }
    }
    if |es| == 1 {
      assert es[1..] == [] && es == [es[0]];
    } else {
      var t := es[1..];
      assert t[0] == es[1] && t[0].index == es[0].index + 1;
      assert ContiguousFrom(t, t[0].index);
      PlaceOverwrites(r, t);
      assert r.entries[..pos] == r.entries;
      assert st.entries[..pos - 1] + [es[0]] + t == st.entries[..pos - 1] + es;
    }
  }

  lemma OverwrittenWellFormed(st: Recovered, es: seq<Entry>)
    requires WellFormed(st) && Continues(st, es)
    ensures WellFormed(Overwritten(st, es))
    ensures es != [] ==> LastOf(Overwritten(st, es)) == es[|es| - 1].index
  {
  }

  /** Calls on the open file. */
  datatype Call =
    | SaveReady(entries: seq<Entry>, hard: Option<HardState>)
    | Rewrite(hs: HardState, snapIndex: nat, snapTerm: nat, ents: seq<Entry>)

  ghost predicate CallFits(c: Call) {
    match c
    case SaveReady(es, hard) => EntriesFit(es) && (hard.Some? ==> HardFits(hard.value))
    case Rewrite(hs, i, t, es) => HardFits(hs) && Word(i) && Word(t) && EntriesFit(es)
  }

  /** What the caller owes: batches continue the log, a rewritten log starts at its boundary. */
  ghost predicate Allowed(st: Recovered, c: Call) {
    CallFits(c) &&
    match c
    case SaveReady(es, _) => Continues(st, es)
    case Rewrite(_, i, _, es) => ContiguousFrom(es, i + 1)
  }

  /** The durable state the call is meant to leave. */
  function Meant(st: Recovered, c: Call): Recovered
    requires c.SaveReady? && c.entries != [] ==> st.snapIndex < c.entries[0].index <= LastOf(st) + 1
  {
    match c
    case SaveReady(es, hard) =>
      var r := Overwritten(st, es);
      if hard.Some? then r.(hard := hard.value) else r
    case Rewrite(hs, i, t, es) => Recovered(hs, i, t, es)
  }

  /** The records a call writes. */
  function Written(last: nat, c: Call): seq<StateRecord> {
    match c
    case SaveReady(es, hard) =>
      (if es == [] then [] else (if es[0].index <= last then [TruncateRecord(es[0].index)] else []) + [EntriesRecord(es)])
      + (if hard.Some? then [HardRecord(hard.value)] else [])
    case Rewrite(hs, i, t, es) =>
      [CompactRecord(i, t), HardRecord(hs)] + (if es == [] then [] else [EntriesRecord(es)])
  }

  function Payloads(rs: seq<StateRecord>): (ps: seq<Bytes>)
    ensures |ps| == |rs|
  {
    seq(|rs|, i requires 0 <= i < |rs| => Payload(rs[i]))
  }

  function ApplyAll(rec: Recovered, rs: seq<StateRecord>): Option<Recovered>
    decreases |rs|
  {
    if rs == [] then Some(rec)
    else
      match Apply(rec, rs[0])
      case None => None
      case Some(r) => ApplyAll(r, rs[1..])
  }

  /** Folding payloads is applying the records they encode. */
  lemma {:induction false} FoldIsApply(rec: Recovered, rs: seq<StateRecord>)
    requires forall i | 0 <= i < |rs| :: RecordFits(rs[i])
    ensures Fold(rec, Payloads(rs)) == ApplyAll(rec, rs)
    decreases |rs|
  {
    hide Payload, Parse, Apply, RecordFits;
    if rs != [] {
      RecordRoundTrip(rs[0]);
      assert Payloads(rs)[0] == Payload(rs[0]) && Payloads(rs)[1..] == Payloads(rs[1..]);
      match Apply(rec, rs[0])
      case None =>
      case Some(r) => FoldIsApply(r, rs[1..]);
    }
  }

  /** Where a save's records lead, one after another. */
  lemma {:induction false} SaveSteps(st: Recovered, c: Call, k: nat)
    requires c.SaveReady? && WellFormed(st) && Allowed(st, c) && k <= |Written(LastOf(st), c)|
    ensures var rs := Written(LastOf(st), c); var r := ApplyAll(st, rs[..k]);
            && r.Some? && r.value.snapIndex == st.snapIndex && r.value.snapTerm == st.snapTerm && WellFormed(r.value)
            && (k == |rs| ==> r.value == Meant(st, c))
            && (k < |rs| ==> r.value.hard == st.hard)
            && (r.value.entries == st.entries
                || (c.entries != [] && r.value.entries == st.entries[..c.entries[0].index - st.snapIndex - 1])
                || r.value.entries == Meant(st, c).entries)
  {
    hide EntriesFit, HardFits;
    var es, last := c.entries, LastOf(st);
    var rs := Written(last, c);
    var t := rs[..k];
    var cut := if es != [] && es[0].index <= last then st.(entries := st.entries[..es[0].index - st.snapIndex - 1]) else st;
    if es != [] {
      PlaceOverwrites(st, es);
      assert Continues(cut, es);
      PlaceOverwrites(cut, es);
      assert Overwritten(cut, es) == Overwritten(st, es);
      OverwrittenWellFormed(st, es);
    }
    Unrolled(st, t);
  }

  /** Applying up to three records, written out. */
  lemma {:induction false} Unrolled(rec: Recovered, rs: seq<StateRecord>)
    requires |rs| <= 3
    ensures |rs| == 0 ==> ApplyAll(rec, rs) == Some(rec)
    ensures |rs| == 1 ==> ApplyAll(rec, rs) == Apply(rec, rs[0])
    ensures |rs| == 2 && Apply(rec, rs[0]).Some? ==> ApplyAll(rec, rs) == Apply(Apply(rec, rs[0]).value, rs[1])
    ensures |rs| == 3 && Apply(rec, rs[0]).Some? && Apply(Apply(rec, rs[0]).value, rs[1]).Some? ==>
              ApplyAll(rec, rs) == Apply(Apply(Apply(rec, rs[0]).value, rs[1]).value, rs[2])
  {
    hide Apply, ApplyAll;
    ApplyCons(rec, rs);
    if |rs| > 0 && Apply(rec, rs[0]).Some? {
      var a := Apply(rec, rs[0]).value;
      ApplyCons(a, rs[1..]);
      if |rs| > 1 && Apply(a, rs[1]).Some? {
        var b := Apply(a, rs[1]).value;
        ApplyCons(b, rs[1..][1..]);
        if |rs| > 2 && Apply(b, rs[2]).Some? {
          ApplyCons(Apply(b, rs[2]).value, rs[1..][1..][1..]);
        }
      }
    }
  }

  lemma {:induction false} ApplyCons(rec: Recovered, rs: seq<StateRecord>)
    ensures rs == [] ==> ApplyAll(rec, rs) == Some(rec)
    ensures rs != [] ==> ApplyAll(rec, rs) == match Apply(rec, rs[0]) { case None => None case Some(r) => ApplyAll(r, rs[1..]) }
  {
    hide Apply;
  }

  lemma RewriteLeads(c: Call)
    requires c.Rewrite? && Allowed(NO_STATE, c)
    ensures ApplyAll(NO_STATE, Written(0, c)) == Some(Meant(NO_STATE, c))
    ensures WellFormed(Meant(NO_STATE, c))
  {
    hide EntriesFit, HardFits;
    var rs := Written(0, c);
    var r := Recovered(c.hs, c.snapIndex, c.snapTerm, []);
    Unrolled(NO_STATE, rs);
    if c.ents != [] {
      PlaceOverwrites(r, c.ents);
      assert r.entries[..0] + c.ents == c.ents;
    }
  }

  // ------------------------------------------------------------- whole runs

  /** The file is whole and reads back as `st`. */
  ghost predicate Holds(crc: Checksum, file: Bytes, st: Recovered) {
    CleanLen(crc, file) == |file| && Replay(crc, file) == Some(st) && WellFormed(st)
  }

  lemma WrittenFits(st: Recovered, last: nat, c: Call)
    requires CallFits(c)
    ensures forall i | 0 <= i < |Written(last, c)| :: RecordFits(Written(last, c)[i])
  {
    hide EntriesFit, HardFits;
    if c.SaveReady? && c.entries != [] {
      EntryWord(c.entries);
    }
  }

  lemma EntryWord(es: seq<Entry>)
    requires EntriesFit(es) && es != []
    ensures Word(es[0].index)
  {
    assert EntryFits(es[0]);
  }

  /** The file after a call. A rewrite replaces it whole; anything else is appended. */
  function FileAfter(crc: Checksum, file: Bytes, last: nat, c: Call): Bytes
    requires Fits(Payloads(Written(last, c)))
  {
    (if c.Rewrite? then [] else file) + Frames(crc, Payloads(Written(last, c)))
  }

  /** Replaying what a call left gives exactly the state it was meant to leave. */
  lemma CallHolds(crc: Checksum, file: Bytes, st: Recovered, c: Call)
    requires Holds(crc, file, st) && Allowed(st, c) && Fits(Payloads(Written(LastOf(st), c)))
    ensures Holds(crc, FileAfter(crc, file, LastOf(st), c), Meant(st, c))
  {
    hide Written, ApplyAll, Payload, Frames, Records, CleanLen, Fold, EntriesFit, HardFits;
    var rs := Written(LastOf(st), c);
    var ps := Payloads(rs);
    WrittenFits(st, LastOf(st), c);
    WholeScan(crc, ps);
    if c.Rewrite? {
      BlankFile(crc);
      assert [] + Frames(crc, ps) == Frames(crc, ps);
      SameRewrite(LastOf(st), c);
      RewriteLeads(c);
      FoldIsApply(NO_STATE, rs);
    } else {
      AppendToClean(crc, file, Frames(crc, ps));
      FoldOn(NO_STATE, Records(crc, file), ps);
      FoldIsApply(st, rs);
      SaveSteps(st, c, |rs|);
      assert rs[..|rs|] == rs;
    }
  }

  lemma SameRewrite(last: nat, c: Call)
    requires c.Rewrite?
    ensures Written(last, c) == Written(0, c)
  {
  }

  lemma BlankFile(crc: Checksum)
    ensures Holds(crc, [], NO_STATE)
  {
    NothingParses(crc);
  }

  /** The meaning of a whole sequence of calls. */
  function MeantAll(st: Recovered, cs: seq<Call>): Option<Recovered>
    decreases |cs|
  {
    if cs == [] then Some(st)
    else if cs[0].SaveReady? && cs[0].entries != [] && !(st.snapIndex < cs[0].entries[0].index <= LastOf(st) + 1) then None
    else MeantAll(Meant(st, cs[0]), cs[1..])
  }

  /** A run: each call meets what it owes in the state it finds. */
  ghost predicate AllowedAll(st: Recovered, cs: seq<Call>)
    decreases |cs|
  {
    cs != [] ==>
      && Allowed(st, cs[0]) && Fits(Payloads(Written(LastOf(st), cs[0])))
      && AllowedAll(Meant(st, cs[0]), cs[1..])
  }

  function FileAfterAll(crc: Checksum, file: Bytes, st: Recovered, cs: seq<Call>): Bytes
    requires AllowedAll(st, cs)
    decreases |cs|
  {
    if cs == [] then file
    else FileAfterAll(crc, FileAfter(crc, file, LastOf(st), cs[0]), Meant(st, cs[0]), cs[1..])
  }

  /** Whatever the calls, the file replays to what they add up to. */
  lemma {:induction false} RunHolds(crc: Checksum, file: Bytes, st: Recovered, cs: seq<Call>)
    requires Holds(crc, file, st) && AllowedAll(st, cs)
    ensures MeantAll(st, cs).Some? && Holds(crc, FileAfterAll(crc, file, st, cs), MeantAll(st, cs).value)
    decreases |cs|
  {
    hide Holds, Meant, FileAfter, Written;
    if cs != [] {
      CallHolds(crc, file, st, cs[0]);
      RunHolds(crc, FileAfter(crc, file, LastOf(st), cs[0]), Meant(st, cs[0]), cs[1..]);
    }
  }

  // ---------------------------------------------------------------- crashes

  /** A crash at any byte of a save leaves a state between the old one and the new
      one; the new hard state is never there without the entries saved before it. */
  lemma TornSave(crc: Checksum, file: Bytes, st: Recovered, c: Call, n: nat)
    requires Holds(crc, file, st) && c.SaveReady? && Allowed(st, c) && Fits(Payloads(Written(LastOf(st), c)))
    requires |file| <= n <= |FileAfter(crc, file, LastOf(st), c)|
    ensures var r := Replay(crc, FileAfter(crc, file, LastOf(st), c)[..n]);
            && r.Some? && r.value.snapIndex == st.snapIndex && r.value.snapTerm == st.snapTerm && WellFormed(r.value)
            && (r.value == Meant(st, c) || r.value.hard == st.hard)
            && (r.value.entries == st.entries
                || (c.entries != [] && r.value.entries == st.entries[..c.entries[0].index - st.snapIndex - 1])
                || r.value.entries == Meant(st, c).entries)
  {
    hide Written, ApplyAll, Payload, Frames, Records, CleanLen, Fold, Whole, Meant, EntriesFit, HardFits, WellFormed;
    var rs := Written(LastOf(st), c);
    var ps := Payloads(rs);
    var m := n - |file|;
    assert (file + Frames(crc, ps))[..n] == file + Frames(crc, ps)[..m];
    TruncatedScan(crc, ps, m);
    AppendToClean(crc, file, Frames(crc, ps)[..m]);
    var k := Whole(ps, m);
    FoldOn(NO_STATE, Records(crc, file), ps[..k]);
    assert ps[..k] == Payloads(rs[..k]);
    WrittenFits(st, LastOf(st), c);
    FoldIsApply(st, rs[..k]);
    SaveSteps(st, c, k);
  }

  /** A rewrite swaps files: a crash leaves the old one or the new one, and either replays. */
  lemma TornRewrite(crc: Checksum, file: Bytes, st: Recovered, c: Call, found: Bytes)
    requires Holds(crc, file, st) && c.Rewrite? && Allowed(st, c) && Fits(Payloads(Written(LastOf(st), c)))
    requires found == file || found == FileAfter(crc, file, LastOf(st), c)
    ensures Replay(crc, found) == Some(st) || Replay(crc, found) == Some(Meant(st, c))
  {
    CallHolds(crc, file, st, c);
  }

  /** Records written behind a torn tail that swallows what follows it are never
      read again: the reopened file is appended to as it is. */
  lemma {:induction false} LostBehindTear(crc: Checksum, file: Bytes, more: Bytes)
    requires NextRecord(crc, file[CleanLen(crc, file)..] + more) == None
    ensures Records(crc, file + more) == Records(crc, file)
  {
    hide NextRecord;
    match NextRecord(crc, file)
    case None =>
      assert file[CleanLen(crc, file)..] == file;
    case Some(r) =>
      var n := HEADER_LEN + |r.value|;
      assert file[CleanLen(crc, file)..] == r.rest[CleanLen(crc, r.rest)..];
      LostBehindTear(crc, r.rest, more);
      NextWithin(crc, file, more);
  }

  /** Whether what is appended after reopening survives the next restart: exactly
      when nothing was torn. */
  lemma {:induction false} ReopenedKeepsIff(crc: Checksum, file: Bytes, ps: seq<Bytes>)
    requires Fits(ps) && ps != []
    requires CleanLen(crc, file) < |file| ==> NextRecord(crc, file[CleanLen(crc, file)..] + Frames(crc, ps)) == None
    ensures Records(crc, file + Frames(crc, ps)) == Records(crc, file) + ps <==> CleanLen(crc, file) == |file|
  {
    hide NextRecord, Records, CleanLen, Frames;
    if CleanLen(crc, file) == |file| {
      AppendToClean(crc, file, Frames(crc, ps));
      WholeScan(crc, ps);
    } else {
      LostBehindTear(crc, file, Frames(crc, ps));
      assert |Records(crc, file) + ps| > |Records(crc, file)|;
    }
  }

  /** Under every checksum: one byte left of a torn record, and a vote saved and
      synced after reopening is gone at the next restart. */
  lemma VoteLost(crc: Checksum, torn: byte, hs: HardState)
    requires HardFits(hs)
    ensures Fits([Payload(HardRecord(hs))])
    ensures Replay(crc, [torn]) == Some(NO_STATE)
    ensures Replay(crc, [torn] + Frames(crc, [Payload(HardRecord(hs))])) == Some(NO_STATE)
  {
    hide PutLE, GetLE, Fold;
    var p := Payload(HardRecord(hs));
    assert |p| == 25;
    var f := Frames(crc, [p]);
    OneFrame(crc, p);
    FoldNothing(NO_STATE);
    assert NextRecord(crc, [torn]) == None;
    var buf := [torn] + f;
    var sum, length := PutLE(crc(PutLE(25, 4) + p) as nat, 4), PutLE(25, 4);
    assert f == sum + length + p;
    assert buf[4..8] == [sum[3]] + length[..3];
    TwentyFive(sum[3], length);
    assert NextRecord(crc, buf) == None;
  }

  lemma TwentyFive(b: byte, length: Bytes)
    requires length == PutLE(25, 4)
    ensures GetLE([b] + length[..3]) >= 6400
  {
    assert length == [25, 0, 0, 0] by {
      assert PutLE(0, 3) == [0] + PutLE(0, 2);
      assert PutLE(0, 2) == [0] + PutLE(0, 1);
      assert PutLE(0, 1) == [0] + PutLE(0, 0);
    }
    var s: Bytes := [b] + length[..3];
    assert s == [b, 25, 0, 0];
    assert s[1..] == [25, 0, 0];
    assert GetLE(s) == b as nat + 256 * GetLE(s[1..]);
    assert GetLE(s[1..]) == 25 + 256 * GetLE(s[1..][1..]);
  }

  // ------------------------------------------------------------- the object

  class Storage {
    const crc: Checksum
    var file: Bytes
    var lastIndex: nat
    var synced: nat
    ghost var state: Recovered

    ghost predicate Valid()
      reads this
    {
      Holds(crc, file, state) && lastIndex == LastOf(state) && synced <= |file|
    }

    /** Opens a state file; one with a torn tail is appended to as it is. */
    constructor (crc: Checksum, found: Bytes, rec: Recovered)
      requires Replay(crc, found) == Some(rec)
      ensures this.crc == crc && file == found && lastIndex == LastOf(rec) && state == rec
      ensures CleanLen(crc, found) == |found| && WellFormed(rec) ==> Valid()
    {
      this.crc, file, lastIndex, synced, state := crc, found, LastOf(rec), |found|, rec;
    }

    method AppendOne(ghost r: StateRecord, payload: Bytes) returns (out: Outcome)
      requires Holds(crc, file, state) && payload == Payload(r) && RecordFits(r) && Apply(state, r).Some? && WellFormed(Apply(state, r).value)
      modifies `file, `state
      ensures out.Panicked? <==> |payload| > MAX_U32
      ensures out.Panicked? ==> file == old(file) && state == old(state)
      ensures out.Done? ==> file == old(file) + Frame(crc, payload) && Holds(crc, file, state) && state == Apply(old(state), r).value
    {
      hide Apply, Payload, RecordFits, Fold, Records, CleanLen;
      var f := AppendRecord(crc, file, payload);
      if f.Panic? {
        return Panicked;
      }
      OneMore(crc, file, state, r);
      file := f.value;
      state := Apply(state, r).value;
      out := Done;
    }

    method SaveHardState(hs: HardState) returns (out: Outcome)
      requires Valid() && HardFits(hs)
      modifies `file, `state
      ensures out.Done? && Valid() && state == old(state).(hard := hs)
      ensures file == old(file) + Frame(crc, Payload(HardRecord(hs)))
    {
      hide Fold, Records, CleanLen, HardFits;
      var body := PutLE(hs.term, 8) + PutLE(hs.vote, 8) + PutLE(hs.commit, 8);
      out := AppendOne(HardRecord(hs), [REC_HARD_STATE] + body);
    }

    /** Persists entries, logging the truncation first when they overwrite a stored suffix. */
    method AppendEntries(es: seq<Entry>) returns (out: Outcome)
      requires Valid() && EntriesFit(es) && Continues(state, es)
      modifies `file, `state, `lastIndex
      ensures out.Done? ==> Valid() && state == Overwritten(old(state), es)
      ensures out.Panicked? <==> es != [] && |Payload(EntriesRecord(es))| > MAX_U32
      ensures out.Done? && es == [] ==> file == old(file)
      ensures out.Done? && es != [] && es[0].index > old(lastIndex) ==> file == old(file) + Frame(crc, Payload(EntriesRecord(es)))
      ensures out.Done? && es != [] && es[0].index <= old(lastIndex) ==>
                file == old(file) + Frame(crc, Payload(TruncateRecord(es[0].index))) + Frame(crc, Payload(EntriesRecord(es)))
    {
      hide Fold, Records, CleanLen, EntriesFit, EntriesBytes, PlaceAll, Frame;
      if |es| == 0 {
        return Done;
      }
      EntryWord(es);
      OverwrittenWellFormed(state, es);
      if es[0].index <= lastIndex {
        var t := AppendOne(TruncateRecord(es[0].index), [REC_TRUNCATE] + PutLE(es[0].index, 8));
        assert Overwritten(state, es) == Overwritten(old(state), es);
      }
      PlaceOverwrites(state, es);
      var body := EncodeEntries(es);
      out := AppendOne(EntriesRecord(es), [REC_ENTRIES] + body);
      if out.Panicked? {
        return;
      }
      lastIndex := es[|es| - 1].index;
    }

    /** Entries first, then the hard state, then the sync that messages wait for. */
    method SaveReady(es: seq<Entry>, hard: Option<HardState>) returns (out: Outcome)
      requires Valid() && Allowed(state, Call.SaveReady(es, hard))
      modifies this
      ensures out.Panicked? <==> es != [] && |Payload(EntriesRecord(es))| > MAX_U32
      ensures out.Done? ==> Valid() && state == Meant(old(state), Call.SaveReady(es, hard))
      ensures out.Done? && (es != [] || hard.Some?) ==> synced == |file|
    {
      hide Fold, Records, CleanLen, EntriesFit, HardFits, Payload, Frame;
      out := AppendEntries(es);
      if out.Panicked? {
        return;
      }
      if hard.Some? {
        out := SaveHardState(hard.value);
      }
      if |es| > 0 || hard.Some? {
        synced := |file|;
      }
    }

    /** Replaces the file by its compacted image. */
    method Rewrite(hs: HardState, snapIndex: nat, snapTerm: nat, ents: seq<Entry>) returns (out: Outcome)
      requires Valid() && Allowed(state, Call.Rewrite(hs, snapIndex, snapTerm, ents))
      modifies this
      ensures out.Panicked? <==> ents != [] && |Payload(EntriesRecord(ents))| > MAX_U32
      ensures out.Panicked? ==> Valid() && file == old(file) && state == old(state)
      ensures out.Done? ==> Valid() && state == Recovered(hs, snapIndex, snapTerm, ents) && synced == |file|
    {
      hide Fold, Records, CleanLen, EntriesFit, HardFits, Payload, Frame, FileAfter, Written, Holds;
      ghost var c := Call.Rewrite(hs, snapIndex, snapTerm, ents);
      var buf := CompactedImage(crc, hs, snapIndex, snapTerm, ents);
      if buf.None? {
        return Panicked;
      }
      Image(crc, file, state, c);
      CallHolds(crc, file, state, c);
      file, synced, lastIndex := buf.value, |buf.value|, snapIndex + |ents|;
      state := Recovered(hs, snapIndex, snapTerm, ents);
      out := Done;
    }
  }

  /** Boundary, hard state and surviving entries as the records of a fresh file. */
  method CompactedImage(crc: Checksum, hs: HardState, snapIndex: nat, snapTerm: nat, ents: seq<Entry>) returns (buf: Option<Bytes>)
    ensures buf.None? <==> ents != [] && |Payload(EntriesRecord(ents))| > MAX_U32
    ensures buf.Some? ==>
              buf.value == Frame(crc, Payload(CompactRecord(snapIndex, snapTerm))) + Frame(crc, Payload(HardRecord(hs)))
                           + (if ents == [] then [] else Frame(crc, Payload(EntriesRecord(ents))))
  {
    hide PutLE, EntriesBytes, HardBytes, Frame, EntriesFit, Payload;
    PayloadShapes(hs, snapIndex, snapTerm, ents);
    var a := AppendRecord(crc, [], [REC_COMPACT] + (PutLE(snapIndex, 8) + PutLE(snapTerm, 8)));
    var b := AppendRecord(crc, a.value, [REC_HARD_STATE] + HardBytes(hs));
    if |ents| == 0 {
      return Some(b.value);
    }
    var body := EncodeEntries(ents);
    var e := AppendRecord(crc, b.value, [REC_ENTRIES] + body);
    buf := if e.Panic? then None else Some(e.value);
  }

  lemma {:induction false} PayloadShapes(hs: HardState, index: nat, term: nat, es: seq<Entry>)
    ensures Payload(CompactRecord(index, term)) == [REC_COMPACT] + (PutLE(index, 8) + PutLE(term, 8)) && |Payload(CompactRecord(index, term))| == 17
    ensures Payload(HardRecord(hs)) == [REC_HARD_STATE] + HardBytes(hs) && |Payload(HardRecord(hs))| == 25
    ensures Payload(EntriesRecord(es)) == [REC_ENTRIES] + EntriesBytes(es)
  {
    hide PutLE, EntriesBytes;
  }

  lemma OneFrame(crc: Checksum, p: Bytes)
    requires |p| <= MAX_U32
    ensures Frames(crc, [p]) == Frame(crc, p)
  {
    hide Frame;
    assert [p][1..] == [];
    assert Frame(crc, p) + [] == Frame(crc, p);
  }

  lemma OneMore(crc: Checksum, file: Bytes, st: Recovered, r: StateRecord)
    requires Holds(crc, file, st) && RecordFits(r) && |Payload(r)| <= MAX_U32 && Apply(st, r).Some? && WellFormed(Apply(st, r).value)
    ensures Holds(crc, file + Frame(crc, Payload(r)), Apply(st, r).value)
  {
    hide Apply, Payload, RecordFits, Frame, Records, CleanLen, WellFormed;
    var p := Payload(r);
    OneFrame(crc, p);
    WholeScan(crc, [p]);
    AppendToClean(crc, file, Frame(crc, p));
    FoldOn(NO_STATE, Records(crc, file), [p]);
    RecordRoundTrip(r);
    assert ApplyPayload(st, p) == Apply(st, r);
    FoldNothing(Apply(st, r).value);
    assert Fold(st, [p]) == Fold(Apply(st, r).value, []);
  }

  /** The image a rewrite builds, record by record. */
  lemma Image(crc: Checksum, file: Bytes, st: Recovered, c: Call)
    requires c.Rewrite? && (c.ents != [] ==> |Payload(EntriesRecord(c.ents))| <= MAX_U32)
    ensures Fits(Payloads(Written(LastOf(st), c)))
    ensures FileAfter(crc, file, LastOf(st), c)
            == Frame(crc, Payload(CompactRecord(c.snapIndex, c.snapTerm))) + Frame(crc, Payload(HardRecord(c.hs)))
               + (if c.ents == [] then [] else Frame(crc, Payload(EntriesRecord(c.ents))))
  {
    hide Frame, Payload;
    PayloadShapes(c.hs, c.snapIndex, c.snapTerm, c.ents);
    var rs := Written(LastOf(st), c);
    var a, b := Payload(CompactRecord(c.snapIndex, c.snapTerm)), Payload(HardRecord(c.hs));
    var rest := if c.ents == [] then [] else [Payload(EntriesRecord(c.ents))];
    assert Payloads(rs) == [a, b] + rest;
    FramesTwo(crc, a, b, rest);
    if c.ents != [] {
      OneFrame(crc, rest[0]);
    }
  }

  lemma {:induction false} FramesTwo(crc: Checksum, a: Bytes, b: Bytes, rest: seq<Bytes>)
    requires |a| <= MAX_U32 && |b| <= MAX_U32 && Fits(rest)
    ensures Fits([a, b] + rest) && Frames(crc, [a, b] + rest) == Frame(crc, a) + Frame(crc, b) + Frames(crc, rest)
  {
    hide Frame;
    var ps := [a, b] + rest;
    assert ps[1..] == [b] + rest && ps[1..][1..] == rest;
  }
}

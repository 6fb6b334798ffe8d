/** The replicated state machine: committed entries folded into the engine, with
    client sessions for exactly-once application. */
module StateMachine {
  import opened Common
  import opened Codec
  import opened Keys
  import opened Layers
  import opened Engine
  import opened WalBatch
  import opened Scan

  /** `RESERVED_PREFIX` followed by "applied". */
  const APPLIED_KEY: Bytes := RESERVED_PREFIX + [97, 112, 112, 108, 105, 101, 100]

  /** `RESERVED_PREFIX` followed by "session/". */
  const SESSION_PREFIX: Bytes := RESERVED_PREFIX + [115, 101, 115, 115, 105, 111, 110, 47]

  /** The high bit of a client id: no deduplication, no session. */
  const NO_DEDUP: nat := 0x8000_0000_0000_0000

  type Db = map<Bytes, Bytes>

  datatype Command = Command(client: nat, seqno: nat, batch: Batch)

  /** A committed entry; a new leader's own entry carries no data. */
  datatype Entry = Entry(conf: bool, index: nat, term: nat, data: Option<Bytes>)

  // ---------------------------------------------------------------- commands

  ghost predicate CommandOk(c: Command) {
    c.client < TWO_64 && c.seqno < TWO_64 && BatchOk(c.batch)
  }

  function EncodeCommand(c: Command): Bytes {
    PutLE(c.client, 8) + PutLE(c.seqno, 8) + EncodeBatch(c.batch)
  }

  function DecodeCommand(data: Bytes): (r: Option<Command>)
    ensures r.Some? ==> r.value.client < TWO_64 && r.value.seqno < TWO_64
  {
    if |data| < 16 then None
    else
      Pow256Values();
      match DecodeBatch(data[16..])
      case None => None
      case Some(b) => Some(Command(GetLE(data[..8]), GetLE(data[8..16]), b))
  }

  lemma CommandRoundTrip(c: Command)
    requires CommandOk(c)
    ensures DecodeCommand(EncodeCommand(c)) == Some(c)
  {
    hide PutLE, GetLE, EncodeBatch, DecodeBatch;
    var d := EncodeCommand(c);
    Pow256Values();
    LERoundTrip(c.client, 8);
    LERoundTrip(c.seqno, 8);
    BatchRoundTrip(c.batch, []);
    assert d[..8] == PutLE(c.client, 8) && d[8..16] == PutLE(c.seqno, 8);
    assert d[16..] == EncodeBatch(c.batch) == EncodeBatch(c.batch) + [];
  }

  // ------------------------------------------------------------- session keys

  /** Big-endian, so that session records sort by client. */
  function PutBE(n: nat, k: nat): (b: Bytes)
    ensures |b| == k
  {
    if k == 0 then [] else PutBE(n / 256, k - 1) + [(n % 256) as byte]
  }

  function GetBE(b: Bytes): nat {
    if b == [] then 0 else 256 * GetBE(b[..|b| - 1]) + b[|b| - 1] as nat
  }

  lemma {:induction false} BERoundTrip(n: nat, k: nat)
    requires n < Pow256(k)
    ensures GetBE(PutBE(n, k)) == n
  {
    if k > 0 {
      BERoundTrip(n / 256, k - 1);
      assert PutBE(n, k)[..k - 1] == PutBE(n / 256, k - 1);
    }
  }

  /** The leading byte carries the high eight bits. */
  lemma {:induction false} BEHead(n: nat, k: nat)
    requires k > 0 && n < 128 * Pow256(k - 1)
    ensures PutBE(n, k)[0] < 128
  {
    if k > 1 {
      assert Pow256(k - 1) == 256 * Pow256(k - 2);
      BEHead(n / 256, k - 1);
    } else {
      assert PutBE(n / 256, 0) == [];
    }
  }

  function SessionKey(client: nat): Bytes {
    SESSION_PREFIX + PutBE(client, 8)
  }

  /** Where the recovery scan stops. */
  const SESSION_END: Bytes := SESSION_PREFIX + [0xff]

  predicate InSessionRange(k: Bytes) {
    !KeyLess(k, SESSION_PREFIX) && KeyLess(k, SESSION_END)
  }

  lemma {:induction false} PrefixOrder(p: Bytes, a: Bytes, b: Bytes)
    ensures KeyLess(p + a, p + b) <==> KeyLess(a, b)
  {
    if p == [] {
      assert p + a == a && p + b == b;
    } else {
      assert (p + a)[1..] == p[1..] + a && (p + b)[1..] == p[1..] + b;
      PrefixOrder(p[1..], a, b);
    }
  }

  /** Keys between a prefix and that prefix followed by 0xff extend the prefix. */
  lemma {:induction false} RangeExtends(p: Bytes, k: Bytes)
    requires !KeyLess(k, p) && KeyLess(k, p + [0xff])
    ensures p <= k
  {
    if p != [] {
      assert (p + [0xff])[1..] == p[1..] + [0xff];
      RangeExtends(p[1..], k[1..]);
    }
  }

  /** A session of a client that is deduplicated lies inside the scanned range. */
  lemma SessionInRange(client: nat)
    requires client < NO_DEDUP
    ensures InSessionRange(SessionKey(client))
  {
    hide KeyLess;
    var b := PutBE(client, 8);
    Pow256Values();
    BEHead(client, 8);
    PrefixOrder(SESSION_PREFIX, b, [0xff]);
    PrefixOrder(SESSION_PREFIX, b, []);
    assert SESSION_PREFIX + [] == SESSION_PREFIX;
    HeadSmall(b);
  }

  lemma {:induction false} HeadSmall(b: Bytes)
    requires b != [] && b[0] < 128
    ensures KeyLess(b, [0xff]) && !KeyLess(b, [])
  {
  }

  lemma SessionKeyInjective(a: nat, b: nat)
    requires a < TWO_64 && b < TWO_64 && SessionKey(a) == SessionKey(b)
    ensures a == b
  {
    hide PutBE, GetBE;
    Pow256Values();
    BERoundTrip(a, 8);
    BERoundTrip(b, 8);
    assert SessionKey(a)[|SESSION_PREFIX|..] == PutBE(a, 8);
    assert SessionKey(b)[|SESSION_PREFIX|..] == PutBE(b, 8);
  }

  // ---------------------------------------------------------------- applying

  /** The engine's contents, the applied position, and the highest applied sequence number per client. */
  datatype Sm = Sm(db: Db, applied: nat, term: nat, sessions: map<nat, nat>)

  const FRESH: Sm := Sm(map[], 0, 0, map[])

  function ApplyOps(db: Db, ops: seq<Op>): Db
    decreases |ops|
  {
    if ops == [] then db
    else ApplyOps(if ops[0].kind == Put then db[ops[0].key := ops[0].value] else db - {ops[0].key}, ops[1..])
  }

  function SessionOp(c: Command): Op {
    Op(Put, SessionKey(c.client), PutLE(c.seqno, 8))
  }

  function AppliedOp(e: Entry): Op {
    Op(Put, APPLIED_KEY, PutLE(e.index, 8) + PutLE(e.term, 8))
  }

  predicate Deduped(c: Command) {
    c.client < NO_DEDUP
  }

  /** A retry: the client's session has reached this sequence number. */
  predicate Stale(sm: Sm, c: Command) {
    Deduped(c) && c.seqno <= CountOf(sm.sessions, c.client)
  }

  /** The command an entry carries; None when it carries one that does not parse. */
  function CommandOf(e: Entry): Option<Option<Command>> {
    if e.data.None? || e.conf then Some(None)
    else
      match DecodeCommand(e.data.value)
      case None => None
      case Some(c) => Some(Some(c))
  }

  /** One entry becomes one atomic batch: the command's writes unless it is a retry,
      its session, and the applied position. None on a gap or a bad command. */
  function ApplyEntry(sm: Sm, e: Entry): Option<Sm> {
    if e.index != sm.applied + 1 then None
    else
      match CommandOf(e)
      case None => None
      case Some(None) => Some(Sm(ApplyOps(sm.db, [AppliedOp(e)]), e.index, e.term, sm.sessions))
      case Some(Some(c)) =>
        if !Deduped(c) then Some(Sm(ApplyOps(sm.db, c.batch.ops + [AppliedOp(e)]), e.index, e.term, sm.sessions))
        else if Stale(sm, c) then Some(Sm(ApplyOps(sm.db, [AppliedOp(e)]), e.index, e.term, sm.sessions))
        else Some(Sm(ApplyOps(sm.db, c.batch.ops + [SessionOp(c), AppliedOp(e)]), e.index, e.term, sm.sessions[c.client := c.seqno]))
  }

  function ApplyAll(sm: Sm, es: seq<Entry>): Option<Sm>
    decreases |es|
  {
    if es == [] then Some(sm)
    else
      match ApplyEntry(sm, es[0])
      case None => None
      case Some(t) => ApplyAll(t, es[1..])
  }

  /** Client commands do not write reserved keys. */
  ghost predicate Polite(e: Entry) {
    && e.index < TWO_64 && e.term < TWO_64
    && (CommandOf(e).Some? && CommandOf(e).value.Some? ==> PoliteOps(CommandOf(e).value.value.batch.ops))
  }

  ghost predicate PoliteOps(ops: seq<Op>) {
    forall i | 0 <= i < |ops| :: !Reserved(ops[i].key)
  }

  // -------------------------------------------------------------- recovering

  /** A record in the reserved range that no application writes. */
  ghost predicate Malformed(db: Db) {
    || (APPLIED_KEY in db && |db[APPLIED_KEY]| != 16)
    || exists k | k in db && InSessionRange(k) :: |k| != |SESSION_PREFIX| + 8 || |db[k]| != 8
  }

  ghost predicate AppliedMatches(db: Db, applied: nat, term: nat) {
    if APPLIED_KEY in db then
      |db[APPLIED_KEY]| == 16 && GetLE(db[APPLIED_KEY][..8]) == applied && GetLE(db[APPLIED_KEY][8..]) == term
    else applied == 0 && term == 0
  }

  /** The session table is exactly the session records. */
  ghost predicate SessionsMatch(db: Db, sessions: map<nat, nat>) {
    && (forall c | c in sessions ::
          c < TWO_64 && InSessionRange(SessionKey(c)) && SessionKey(c) in db && GetLE(db[SessionKey(c)]) == sessions[c])
    && forall k | k in db && InSessionRange(k) :: |k| == |SESSION_PREFIX| + 8 && GetBE(k[|SESSION_PREFIX|..]) in sessions
                                                  && SessionKey(GetBE(k[|SESSION_PREFIX|..])) == k
  }

  lemma SessionsUnique(db: Db, a: map<nat, nat>, b: map<nat, nat>)
    requires SessionsMatch(db, a) && SessionsMatch(db, b)
    ensures a == b
  {
    hide InSessionRange, GetLE, GetBE, SessionKey;
    forall c
      ensures c in a <==> c in b
    {
      if c in a {
        assert SessionKey(c) in db && InSessionRange(SessionKey(c));
        KeyClient(c);
      }
      if c in b {
        assert SessionKey(c) in db && InSessionRange(SessionKey(c));
        KeyClient(c);
      }
    }
  }

  lemma KeyClient(c: nat)
    requires c < TWO_64
    ensures |SessionKey(c)| == |SESSION_PREFIX| + 8 && GetBE(SessionKey(c)[|SESSION_PREFIX|..]) == c
  {
    hide GetBE, PutBE;
    Pow256Values();
    BERoundTrip(c, 8);
    assert SessionKey(c)[|SESSION_PREFIX|..] == PutBE(c, 8);
  }

  lemma {:induction false} BEBytes(b: Bytes)
    ensures PutBE(GetBE(b), |b|) == b && GetBE(b) < Pow256(|b|)
  {
    if b != [] {
      var n := |b| - 1;
      BEBytes(b[..n]);
      assert GetBE(b) / 256 == GetBE(b[..n]) && GetBE(b) % 256 == b[n] as nat;
      assert b == b[..n] + [b[n]];
    }
  }

  /** A well-sized key of the session range is its client's session key. */
  lemma RangeKey(k: Bytes)
    requires InSessionRange(k) && |k| == |SESSION_PREFIX| + 8
    ensures GetBE(k[|SESSION_PREFIX|..]) < TWO_64 && SessionKey(GetBE(k[|SESSION_PREFIX|..])) == k
  {
    hide GetBE, PutBE, KeyLess;
    RangeExtends(SESSION_PREFIX, k);
    Pow256Values();
    BEBytes(k[|SESSION_PREFIX|..]);
  }

  /** What a scan of the session range returns. */
  ghost predicate Scanned(db: Db, pairs: seq<Pair>) {
    && (forall i, j | 0 <= i < j < |pairs| :: pairs[i].key != pairs[j].key)
    && (forall i | 0 <= i < |pairs| :: InSessionRange(pairs[i].key) && pairs[i].key in db && db[pairs[i].key] == pairs[i].value)
    && (forall k | k in db && InSessionRange(k) :: Pair(k, db[k]) in pairs)
  }

  /** The sessions found in the first `n` records. */
  ghost predicate SessionsOf(pairs: seq<Pair>, n: nat, sessions: map<nat, nat>)
    requires n <= |pairs|
  {
    && (forall i | 0 <= i < n :: Sized(pairs[i]) && ClientOf(pairs[i]) in sessions && sessions[ClientOf(pairs[i])] == GetLE(pairs[i].value))
    && (forall c | c in sessions :: exists i | 0 <= i < n :: Sized(pairs[i]) && ClientOf(pairs[i]) == c)
  }

  predicate Sized(p: Pair) {
    |p.key| == |SESSION_PREFIX| + 8 && |p.value| == 8
  }

  function ClientOf(p: Pair): nat
    requires Sized(p)
  {
    GetBE(p.key[|SESSION_PREFIX|..])
  }

  /** Rebuilds the state machine from the engine's contents. */
  method Recover(db: Db, pairs: seq<Pair>) returns (r: Option<Sm>)
    requires Scanned(db, pairs)
    ensures r.None? <==> Malformed(db)
    ensures r.Some? ==> r.value.db == db && AppliedMatches(db, r.value.applied, r.value.term) && SessionsMatch(db, r.value.sessions)
  {
    hide InSessionRange, GetLE, GetBE, KeyLess, SessionsOf, SessionsMatch;
    var applied, term := 0, 0;
    if APPLIED_KEY in db {
      var v := db[APPLIED_KEY];
      if |v| != 16 {
        return None;
      }
      applied, term := GetLE(v[..8]), GetLE(v[8..]);
    }
    var sessions: map<nat, nat> := map[];
    var i := 0;
    NoSessions(pairs);
    while i < |pairs|
      invariant 0 <= i <= |pairs| && SessionsOf(pairs, i, sessions)
    {
      var p := pairs[i];
      if |p.key| != |SESSION_PREFIX| + 8 || |p.value| != 8 {
        return None;
      }
      SessionsStep(db, pairs, i, sessions);
      sessions := sessions[GetBE(p.key[|SESSION_PREFIX|..]) := GetLE(p.value)];
      i := i + 1;
    }
    FoundSessions(db, pairs, sessions);
    r := Some(Sm(db, applied, term, sessions));
  }

  lemma NoSessions(pairs: seq<Pair>)
    ensures SessionsOf(pairs, 0, map[])
  {
  }

  lemma SessionsStep(db: Db, pairs: seq<Pair>, i: nat, sessions: map<nat, nat>)
    requires Scanned(db, pairs) && i < |pairs| && SessionsOf(pairs, i, sessions) && Sized(pairs[i])
    ensures SessionsOf(pairs, i + 1, sessions[ClientOf(pairs[i]) := GetLE(pairs[i].value)])
  {
    hide InSessionRange, GetLE, ClientOf;
    var now := sessions[ClientOf(pairs[i]) := GetLE(pairs[i].value)];
    forall j | 0 <= j < i + 1
      ensures Sized(pairs[j]) && ClientOf(pairs[j]) in now && now[ClientOf(pairs[j])] == GetLE(pairs[j].value)
    {
      if j < i {
        ClientsApart(pairs[j], pairs[i]);
      }
    }
    forall c | c in now
      ensures exists j | 0 <= j < i + 1 :: Sized(pairs[j]) && ClientOf(pairs[j]) == c
    {
      if c != ClientOf(pairs[i]) {
        var j :| 0 <= j < i && Sized(pairs[j]) && ClientOf(pairs[j]) == c;
      }
    }
  }

  lemma ClientsApart(p: Pair, q: Pair)
    requires InSessionRange(p.key) && InSessionRange(q.key) && p.key != q.key && Sized(p) && Sized(q)
    ensures ClientOf(p) != ClientOf(q)
  {
    hide InSessionRange, GetBE;
    RangeKey(p.key);
    RangeKey(q.key);
  }

  lemma FoundClient(db: Db, pairs: seq<Pair>, sessions: map<nat, nat>, c: nat)
    requires Scanned(db, pairs) && SessionsOf(pairs, |pairs|, sessions) && c in sessions
    ensures c < TWO_64 && InSessionRange(SessionKey(c)) && SessionKey(c) in db && GetLE(db[SessionKey(c)]) == sessions[c]
  {
    hide InSessionRange, GetLE, GetBE, SessionKey;
    var i :| 0 <= i < |pairs| && Sized(pairs[i]) && ClientOf(pairs[i]) == c;
    RangeKey(pairs[i].key);
  }

  lemma FoundKey(db: Db, pairs: seq<Pair>, sessions: map<nat, nat>, k: Bytes)
    requires Scanned(db, pairs) && SessionsOf(pairs, |pairs|, sessions) && k in db && InSessionRange(k)
    ensures |k| == |SESSION_PREFIX| + 8 && |db[k]| == 8 && GetBE(k[|SESSION_PREFIX|..]) in sessions
    ensures SessionKey(GetBE(k[|SESSION_PREFIX|..])) == k
  {
    hide InSessionRange, GetLE, GetBE, SessionKey;
    assert Pair(k, db[k]) in pairs;
    var i :| 0 <= i < |pairs| && pairs[i] == Pair(k, db[k]);
    assert Sized(pairs[i]) && ClientOf(pairs[i]) in sessions;
    RangeKey(k);
  }

  lemma FoundSessions(db: Db, pairs: seq<Pair>, sessions: map<nat, nat>)
    requires Scanned(db, pairs) && SessionsOf(pairs, |pairs|, sessions)
    ensures SessionsMatch(db, sessions) && forall k | k in db && InSessionRange(k) :: |k| == |SESSION_PREFIX| + 8 && |db[k]| == 8
  {
    hide InSessionRange, GetLE, GetBE, SessionKey, Scanned, SessionsOf;
    forall c | c in sessions
      ensures c < TWO_64 && InSessionRange(SessionKey(c)) && SessionKey(c) in db && GetLE(db[SessionKey(c)]) == sessions[c]
    {
      FoundClient(db, pairs, sessions, c);
    }
    forall k | k in db && InSessionRange(k)
      ensures |k| == |SESSION_PREFIX| + 8 && |db[k]| == 8 && GetBE(k[|SESSION_PREFIX|..]) in sessions
      ensures SessionKey(GetBE(k[|SESSION_PREFIX|..])) == k
    {
      FoundKey(db, pairs, sessions, k);
    }
  }

  // -------------------------------------------------------------- invariant

  /** The fields are what recovery would read back. */
  ghost predicate SmOk(sm: Sm) {
    && AppliedMatches(sm.db, sm.applied, sm.term)
    && SessionsMatch(sm.db, sm.sessions) && !Malformed(sm.db)
  }

  lemma FreshOk()
    ensures SmOk(FRESH)
  {
    hide InSessionRange;
  }

  /** Recovery is exact: on the contents of a state machine it returns that state machine. */
  lemma RecoverExact(sm: Sm, r: Option<Sm>)
    requires SmOk(sm) && (r.None? <==> Malformed(sm.db))
    requires r.Some? ==> r.value.db == sm.db && AppliedMatches(sm.db, r.value.applied, r.value.term) && SessionsMatch(sm.db, r.value.sessions)
    ensures r == Some(sm)
  {
    hide InSessionRange, GetLE, GetBE, SessionsMatch, Malformed;
    SessionsUnique(sm.db, sm.sessions, r.value.sessions);
  }

  // ---------------------------------------------- what an entry leaves alone

  lemma {:induction false} PoliteStays(db: Db, ops: seq<Op>, k: Bytes)
    requires PoliteOps(ops) && Reserved(k)
    ensures (k in ApplyOps(db, ops) <==> k in db) && (k in db ==> ApplyOps(db, ops)[k] == db[k])
    decreases |ops|
  {
    if ops != [] {
      assert !Reserved(ops[0].key);
      PoliteStays(if ops[0].kind == Put then db[ops[0].key := ops[0].value] else db - {ops[0].key}, ops[1..], k);
    }
  }

  lemma {:induction false} ApplyOpsConcat(db: Db, a: seq<Op>, b: seq<Op>)
    ensures ApplyOps(db, a + b) == ApplyOps(ApplyOps(db, a), b)
    decreases |a|
  {
    if a == [] {
      assert a + b == b;
    } else {
      assert (a + b)[1..] == a[1..] + b;
      ApplyOpsConcat(if a[0].kind == Put then db[a[0].key := a[0].value] else db - {a[0].key}, a[1..], b);
    }
  }

  lemma {:induction false} PutOne(db: Db, k: Bytes, v: Bytes)
    ensures ApplyOps(db, [Op(Put, k, v)]) == db[k := v]
  {
    assert [Op(Put, k, v)][1..] == [];
  }

  lemma AppliedOutside()
    ensures Reserved(APPLIED_KEY) && !InSessionRange(APPLIED_KEY)
  {
    hide KeyLess;
    assert SESSION_PREFIX[7] != APPLIED_KEY[7];
    if InSessionRange(APPLIED_KEY) {
      RangeExtends(SESSION_PREFIX, APPLIED_KEY);
    }
    assert RESERVED_PREFIX <= APPLIED_KEY;
  }

  lemma RangeReserved(k: Bytes)
    requires InSessionRange(k)
    ensures Reserved(k)
  {
    hide KeyLess;
    RangeExtends(SESSION_PREFIX, k);
  }

  /** The same reserved records: what recovery reads. */
  ghost predicate SameReserved(a: Db, b: Db) {
    forall k | Reserved(k) :: (k in a <==> k in b) && (k in a ==> a[k] == b[k])
  }

  lemma {:induction false} UserOpsKeep(sm: Sm, ops: seq<Op>)
    requires SmOk(sm) && PoliteOps(ops)
    ensures SmOk(sm.(db := ApplyOps(sm.db, ops)))
  {
    hide KeyLess, GetLE, GetBE, InSessionRange, ApplyOps, SessionKey, Reserved;
    var db := ApplyOps(sm.db, ops);
    assert SameReserved(sm.db, db) by {
      forall k | Reserved(k)
        ensures (k in sm.db <==> k in db) && (k in sm.db ==> sm.db[k] == db[k])
      {
        PoliteStays(sm.db, ops, k);
      }
    }
    ReservedDecides(sm, db);
  }

  lemma ReservedDecides(sm: Sm, db: Db)
    requires SmOk(sm) && SameReserved(sm.db, db)
    ensures SmOk(sm.(db := db))
  {
    hide KeyLess, GetLE, GetBE, InSessionRange, SessionKey, Reserved;
    AppliedOutside();
    forall k | InSessionRange(k)
      ensures Reserved(k)
    {
      RangeReserved(k);
    }
  }

  /** Recording a session makes the table agree with it. */
  lemma SessionKeeps(sm: Sm, c: Command)
    requires SmOk(sm) && c.client < NO_DEDUP && c.seqno < TWO_64
    ensures SmOk(sm.(db := sm.db[SessionKey(c.client) := PutLE(c.seqno, 8)], sessions := sm.sessions[c.client := c.seqno]))
  {
    hide KeyLess, GetLE, PutLE, GetBE, PutBE, InSessionRange, SessionKey;
    var key := SessionKey(c.client);
    var db := sm.db[key := PutLE(c.seqno, 8)];
    var sessions := sm.sessions[c.client := c.seqno];
    SessionInRange(c.client);
    AppliedOutside();
    KeyClient(c.client);
    Pow256Values();
    LERoundTrip(c.seqno, 8);
    forall d | d in sessions
      ensures d < TWO_64 && InSessionRange(SessionKey(d)) && SessionKey(d) in db && GetLE(db[SessionKey(d)]) == sessions[d]
    {
      if d != c.client && SessionKey(d) == key {
        SessionKeyInjective(d, c.client);
      }
    }
  }

  lemma AppliedKeeps(sm: Sm, e: Entry)
    requires SessionsMatch(sm.db, sm.sessions) && !Malformed(sm.db) && e.index < TWO_64 && e.term < TWO_64
    ensures SmOk(Sm(sm.db[APPLIED_KEY := PutLE(e.index, 8) + PutLE(e.term, 8)], e.index, e.term, sm.sessions))
  {
    hide KeyLess, GetLE, PutLE, GetBE, PutBE, InSessionRange, SessionKey;
    AppliedOutside();
    var v := PutLE(e.index, 8) + PutLE(e.term, 8);
    Pow256Values();
    LERoundTrip(e.index, 8);
    LERoundTrip(e.term, 8);
    assert v[..8] == PutLE(e.index, 8) && v[8..] == PutLE(e.term, 8);
  }

  lemma ApplyKeeps(sm: Sm, e: Entry)
    requires SmOk(sm) && Polite(e) && ApplyEntry(sm, e).Some?
    ensures SmOk(ApplyEntry(sm, e).value)
  {
    hide SmOk, ApplyOps, DecodeCommand;
    var a := PutLE(e.index, 8) + PutLE(e.term, 8);
    match CommandOf(e)
    case Some(None) =>
      PutOne(sm.db, APPLIED_KEY, a);
      SmParts(sm);
      AppliedKeeps(sm, e);
    case Some(Some(c)) =>
      if Deduped(c) && Stale(sm, c) {
        PutOne(sm.db, APPLIED_KEY, a);
        SmParts(sm);
        AppliedKeeps(sm, e);
      } else {
        var ops := c.batch.ops;
        UserOpsKeep(sm, ops);
        var t := sm.(db := ApplyOps(sm.db, ops));
        if !Deduped(c) {
          ApplyOpsConcat(sm.db, ops, [AppliedOp(e)]);
          PutOne(t.db, APPLIED_KEY, a);
          SmParts(t);
          AppliedKeeps(t, e);
        } else {
          assert c.seqno < TWO_64;
          assert ops + [SessionOp(c), AppliedOp(e)] == (ops + [SessionOp(c)]) + [AppliedOp(e)];
          ApplyOpsConcat(sm.db, ops + [SessionOp(c)], [AppliedOp(e)]);
          ApplyOpsConcat(sm.db, ops, [SessionOp(c)]);
          PutOne(t.db, SessionKey(c.client), PutLE(c.seqno, 8));
          SessionKeeps(t, c);
          var u := t.(db := t.db[SessionKey(c.client) := PutLE(c.seqno, 8)], sessions := t.sessions[c.client := c.seqno]);
          PutOne(u.db, APPLIED_KEY, a);
          SmParts(u);
          AppliedKeeps(u, e);
        }
      }
  }

  lemma SmParts(sm: Sm)
    requires SmOk(sm)
    ensures SessionsMatch(sm.db, sm.sessions) && !Malformed(sm.db)
  {
  }

  // --------------------------------------------------------------- theorems

  lemma {:induction false} ApplyAllConcat(sm: Sm, a: seq<Entry>, b: seq<Entry>)
    ensures ApplyAll(sm, a + b) == if ApplyAll(sm, a).None? then None else ApplyAll(ApplyAll(sm, a).value, b)
    decreases |a|
  {
    hide ApplyEntry;
    if a == [] {
      assert a + b == b;
    } else {
      assert (a + b)[0] == a[0] && (a + b)[1..] == a[1..] + b;
      if ApplyEntry(sm, a[0]).Some? {
        ApplyAllConcat(ApplyEntry(sm, a[0]).value, a[1..], b);
      }
    }
  }

  lemma {:induction false} ApplyAllKeeps(sm: Sm, es: seq<Entry>)
    requires SmOk(sm) && (forall i | 0 <= i < |es| :: Polite(es[i])) && ApplyAll(sm, es).Some?
    ensures SmOk(ApplyAll(sm, es).value)
    decreases |es|
  {
    hide ApplyEntry, SmOk, Polite;
    if es != [] {
      ApplyKeeps(sm, es[0]);
      ApplyAllKeeps(ApplyEntry(sm, es[0]).value, es[1..]);
    }
  }

  /** Exact prefix replay: an engine recovered as of the first `k` entries, with its
      state machine rebuilt from its own contents and the rest of the log applied
      again, is in the state of one that never crashed. */
  lemma {:induction false} PrefixReplay(es: seq<Entry>, k: nat, r: Option<Sm>)
    requires k <= |es| && (forall i | 0 <= i < |es| :: Polite(es[i])) && ApplyAll(FRESH, es).Some?
    requires ApplyAll(FRESH, es[..k]).Some? ==>
               var db := ApplyAll(FRESH, es[..k]).value.db;
               && (r.None? <==> Malformed(db))
               && (r.Some? ==> r.value.db == db && AppliedMatches(db, r.value.applied, r.value.term) && SessionsMatch(db, r.value.sessions))
    ensures r.Some? && r.value.applied == k && ApplyAll(r.value, es[k..]) == ApplyAll(FRESH, es)
  {
    hide ApplyAll, SmOk, Polite, Malformed, AppliedMatches, SessionsMatch;
    assert es == es[..k] + es[k..];
    ApplyAllConcat(FRESH, es[..k], es[k..]);
    FreshOk();
    ApplyAllKeeps(FRESH, es[..k]);
    RecoverExact(ApplyAll(FRESH, es[..k]).value, r);
    AppliedCounts(FRESH, es[..k]);
  }

  lemma {:induction false} AppliedCounts(sm: Sm, es: seq<Entry>)
    requires ApplyAll(sm, es).Some?
    ensures ApplyAll(sm, es).value.applied == sm.applied + |es|
    decreases |es|
  {
    hide CommandOf, ApplyOps;
    if es != [] {
      AppliedCounts(ApplyEntry(sm, es[0]).value, es[1..]);
    }
  }

  /** The part of the engine clients see. */
  ghost predicate SameData(a: Db, b: Db) {
    forall k | !Reserved(k) :: (k in a <==> k in b) && (k in a ==> a[k] == b[k])
  }

  lemma RetryHarmless(sm: Sm, e: Entry, c: Command)
    requires CommandOf(e) == Some(Some(c)) && ApplyEntry(sm, e).Some? && Stale(sm, c)
    ensures SameData(sm.db, ApplyEntry(sm, e).value.db) && ApplyEntry(sm, e).value.sessions == sm.sessions
  {
    hide ApplyOps;
    PutOne(sm.db, APPLIED_KEY, PutLE(e.index, 8) + PutLE(e.term, 8));
    AppliedOutside();
  }

  lemma {:induction false} SessionsRise(sm: Sm, es: seq<Entry>, client: nat)
    requires ApplyAll(sm, es).Some?
    ensures CountOf(ApplyAll(sm, es).value.sessions, client) >= CountOf(sm.sessions, client)
    decreases |es|
  {
    hide CommandOf, ApplyOps;
    if es != [] {
      SessionsRise(ApplyEntry(sm, es[0]).value, es[1..], client);
    }
  }

  /** Exactly once: after a command was applied, the same client's same or an earlier
      command, wherever it shows up in the log again, changes no data. */
  lemma ExactlyOnce(es: seq<Entry>, i: nat, j: nat, c: Command, d: Command)
    requires i < j < |es| && ApplyAll(FRESH, es[..j + 1]).Some?
    requires CommandOf(es[i]) == Some(Some(c)) && CommandOf(es[j]) == Some(Some(d))
    requires Deduped(c) && c.client == d.client && d.seqno <= c.seqno
    ensures ApplyAll(FRESH, es[..j]).Some?
    ensures SameData(ApplyAll(FRESH, es[..j]).value.db, ApplyAll(FRESH, es[..j + 1]).value.db)
  {
    hide ApplyEntry, SameData, CommandOf;
    var before := ApplyAll(FRESH, es[..i]);
    Split(es, i, j);
    LastEntry(es, j);
    var sm := ApplyAll(FRESH, es[..j]).value;
    LastEntry(es, i);
    SessionReached(before.value, es[i], c);
    SessionsRise(ApplyAll(FRESH, es[..i + 1]).value, es[i + 1..j], c.client);
    RetryHarmless(sm, es[j], d);
  }

  lemma LastEntry(es: seq<Entry>, j: nat)
    requires j < |es| && ApplyAll(FRESH, es[..j + 1]).Some?
    ensures ApplyAll(FRESH, es[..j]).Some? && ApplyEntry(ApplyAll(FRESH, es[..j]).value, es[j]) == ApplyAll(FRESH, es[..j + 1])
  {
    hide ApplyEntry;
    assert es[..j + 1] == es[..j] + [es[j]];
    ApplyAllConcat(FRESH, es[..j], [es[j]]);
    assert [es[j]][1..] == [];
  }

  lemma Split(es: seq<Entry>, i: nat, j: nat)
    requires i < j < |es| && ApplyAll(FRESH, es[..j + 1]).Some?
    ensures ApplyAll(FRESH, es[..i + 1]).Some? && ApplyAll(FRESH, es[..j]).Some?
    ensures ApplyAll(FRESH, es[..j]) == ApplyAll(ApplyAll(FRESH, es[..i + 1]).value, es[i + 1..j])
  {
    hide ApplyEntry, ApplyAll;
    LastEntry(es, j);
    assert es[..j] == es[..i + 1] + es[i + 1..j];
    ApplyAllConcat(FRESH, es[..i + 1], es[i + 1..j]);
  }

  lemma SessionReached(sm: Sm, e: Entry, c: Command)
    requires CommandOf(e) == Some(Some(c)) && ApplyEntry(sm, e).Some? && Deduped(c)
    ensures CountOf(ApplyEntry(sm, e).value.sessions, c.client) >= c.seqno
  {
    hide ApplyOps;
  }

  /** A command past its client's session is applied: its writes are what the batch leaves. */
  lemma FreshApplied(sm: Sm, e: Entry, c: Command)
    requires CommandOf(e) == Some(Some(c)) && ApplyEntry(sm, e).Some? && !Stale(sm, c)
    ensures SameData(ApplyOps(sm.db, c.batch.ops), ApplyEntry(sm, e).value.db)
  {
    hide ApplyOps;
    var ops := c.batch.ops;
    var a := PutLE(e.index, 8) + PutLE(e.term, 8);
    var t := ApplyOps(sm.db, ops);
    AppliedOutside();
    if Deduped(c) {
      assert ops + [SessionOp(c), AppliedOp(e)] == (ops + [SessionOp(c)]) + [AppliedOp(e)];
      ApplyOpsConcat(sm.db, ops + [SessionOp(c)], [AppliedOp(e)]);
      ApplyOpsConcat(sm.db, ops, [SessionOp(c)]);
      PutOne(t, SessionKey(c.client), PutLE(c.seqno, 8));
      PutOne(t[SessionKey(c.client) := PutLE(c.seqno, 8)], APPLIED_KEY, a);
      SessionInRange(c.client);
      RangeReserved(SessionKey(c.client));
    } else {
      ApplyOpsConcat(sm.db, ops, [AppliedOp(e)]);
      PutOne(t, APPLIED_KEY, a);
    }
  }

  // ------------------------------------------------- the engine as this map

  /** The map a history of writes leaves. */
  function MapOf(ops: Ops): Db {
    if ops == [] then map[]
    else
      var last := ops[|ops| - 1];
      var m := MapOf(ops[..|ops| - 1]);
      if last.kind == Put then m[last.key := last.value] else m - {last.key}
  }

  function Lookup(db: Db, k: Bytes): Option<Bytes> {
    if k in db then Some(db[k]) else None
  }

  /** What the engine's reads return is a lookup in that map. */
  lemma {:induction false} VisibleIsMap(ops: Ops, k: Bytes)
    ensures Visible(ops, |ops|, k) == Lookup(MapOf(ops), k)
  {
    if ops != [] {
      var n := |ops| - 1;
      VisibleIsMap(ops[..n], k);
      VisiblePrefix(ops, n, k);
    }
  }

  lemma {:induction false} VisiblePrefix(ops: Ops, n: nat, k: Bytes)
    requires n <= |ops|
    ensures Visible(ops[..n], n, k) == Visible(ops, n, k)
    decreases n
  {
    if n > 0 {
      VisiblePrefix(ops, n - 1, k);
      VisiblePrefix(ops[..n], n - 1, k);
      assert ops[..n][..n - 1] == ops[..n - 1];
    }
  }

  /** Committing a batch to the engine applies it to the map. */
  lemma {:induction false} CommitIsApply(ops: Ops, batch: seq<Op>, first: nat)
    ensures MapOf(ops + Stamp(batch, first)) == ApplyOps(MapOf(ops), batch)
    decreases |batch|
  {
    if batch == [] {
      assert ops + Stamp(batch, first) == ops;
    } else {
      var r := Record(batch[0].key, first, batch[0].kind, batch[0].value);
      assert ops + Stamp(batch, first) == (ops + [r]) + Stamp(batch[1..], first + 1);
      CommitIsApply(ops + [r], batch[1..], first + 1);
      assert (ops + [r])[..|ops|] == ops;
    }
  }

  // --------------------------------------------------------------- the object

  datatype Applied = Applied(client: nat, seqno: nat, index: nat)

  /** The commands among the entries, in order. */
  function Acks(es: seq<Entry>): seq<Applied> {
    if es == [] then []
    else
      (match CommandOf(es[0])
       case Some(Some(c)) => [Applied(c.client, c.seqno, es[0].index)]
       case _ => [])
      + Acks(es[1..])
  }

  lemma {:induction false} AcksAppend(es: seq<Entry>, e: Entry)
    ensures Acks(es + [e]) == Acks(es) + Acks([e])
  {
    hide CommandOf;
    if es == [] {
      assert es + [e] == [e];
    } else {
      assert (es + [e])[0] == es[0] && (es + [e])[1..] == es[1..] + [e];
      AcksAppend(es[1..], e);
    }
  }

  /** The state machine as the apply loop owns it. */
  class Machine {
    var db: Db
    var applied: nat
    var term: nat
    var sessions: map<nat, nat>

    function State(): Sm
      reads this
    {
      Sm(db, applied, term, sessions)
    }

    constructor (sm: Sm)
      ensures State() == sm
    {
      db, applied, term, sessions := sm.db, sm.applied, sm.term, sm.sessions;
    }

    /** Folds committed entries in, in order; stops at a gap or a bad command with
        the entries before it applied. */
    method Apply(es: seq<Entry>) returns (out: Option<seq<Applied>>, ghost n: nat)
      modifies this
      ensures n <= |es| && ApplyAll(old(State()), es[..n]) == Some(State())
      ensures out.Some? ==> n == |es| && out.value == Acks(es)
      ensures out.None? ==> n < |es| && ApplyEntry(State(), es[n]).None?
    {
      hide ApplyEntry, CommandOf;
      n := 0;
      var acks: seq<Applied> := [];
      var i := 0;
      while i < |es|
        invariant 0 <= i <= |es| && n == i
        invariant ApplyAll(old(State()), es[..i]) == Some(State()) && acks == Acks(es[..i])
      {
        var e := es[i];
        var ok := ApplyOne(e);
        if !ok {
          return None, n;
        }
        assert es[..i + 1] == es[..i] + [e];
        ApplyAllConcat(old(State()), es[..i], [e]);
        assert [e][1..] == [];
        AcksAppend(es[..i], e);
        acks := acks + Acks([e]);
        i, n := i + 1, n + 1;
      }
      assert es[..|es|] == es;
      out := Some(acks);
    }

    /** One entry, one batch. */
    method ApplyOne(e: Entry) returns (ok: bool)
      modifies this
      ensures ok == ApplyEntry(old(State()), e).Some?
      ensures State() == if ok then ApplyEntry(old(State()), e).value else old(State())
    {
      hide ApplyOps, DecodeCommand;
      if e.index != applied + 1 {
        return false;
      }
      var ops: seq<Op> := [];
      var session: Option<Command> := None;
      if e.data.Some? && !e.conf {
        var cmd := DecodeCommand(e.data.value);
        if cmd.None? {
          return false;
        }
        var c := cmd.value;
        if c.client >= NO_DEDUP {
          ops := c.batch.ops;
        } else if c.seqno > CountOf(sessions, c.client) {
          ops := c.batch.ops + [SessionOp(c)];
          session := Some(c);
        }
      }
      assert session.Some? ==> ops + [AppliedOp(e)] == session.value.batch.ops + [SessionOp(session.value), AppliedOp(e)];
      assert ops == [] ==> ops + [AppliedOp(e)] == [AppliedOp(e)];
      db := ApplyOps(db, ops + [AppliedOp(e)]);
      if session.Some? {
        sessions := sessions[session.value.client := session.value.seqno];
      }
      applied, term := e.index, e.term;
      ok := true;
    }
  }
}

/** Moving one slot of keys from a source group to a destination group while clients
    keep writing: freeze, drain, copy, flip. Other slots' entries appear only as
    entries that leave this slot alone. */
module Handoff {
  import opened Common
  import opened Keys

  datatype Side = Src | Dst

  /** What a shard map says about the slot; maps are numbered by their epoch. */
  datatype View = View(owner: Side, migrating: bool)

  datatype Op = Store(key: Bytes, value: Bytes) | Erase(key: Bytes)

  datatype Entry = Write(op: Op) | Other

  type Contents = map<Bytes, Bytes>
  type Node = nat

  /** A client write past a node's front door, on its way to a group's event loop. */
  datatype Request = Request(node: Node, op: Op, to: Side)

  datatype Pair = Pair(key: Bytes, value: Bytes)

  datatype Phase =
    | Settled
    | Freezing
    | Draining(at: nat)
    | Copying(snap: seq<Pair>, sent: nat, need: nat)
    | Flipped(done: nat, quiet: bool)
    | Aborted

  /** `accepted` records the clients' writes in the order the groups appended them. */
  datatype State = State(
    nodes: map<Node, nat>,
    maps: seq<View>,
    src: seq<Entry>,
    srcApplied: nat,
    dst: seq<Entry>,
    dstApplied: nat,
    waiting: multiset<Request>,
    accepted: seq<Op>,
    phase: Phase)

  datatype Event =
    | FrontDoor(n: Node, op: Op)
    | Append(r: Request)
    | Drop(r: Request)
    | Elsewhere(side: Side)
    | Apply(side: Side)
    | Adopt(n: Node, epoch: nat)
    | Freeze
    | Barrier
    | StartCopy(listing: seq<Pair>)
    | CopyBatch(count: nat)
    | Flip
    | CleanBatch(keys: seq<Bytes>)
    | Abort

  const MIGRATE_BATCH: nat := 512

  // ---------------------------------------------------------- logs and contents

  function ApplyOp(m: Contents, op: Op): Contents {
    match op
    case Store(k, v) => m[k := v]
    case Erase(k) => m - {k}
  }

  function ApplyOps(m: Contents, ops: seq<Op>): Contents {
    if ops == [] then m else ApplyOp(ApplyOps(m, ops[..|ops| - 1]), ops[|ops| - 1])
  }

  /** What a sequence of writes leaves. */
  function Effect(ops: seq<Op>): Contents {
    ApplyOps(map[], ops)
  }

  /** The slot's writes in a log. */
  function Ops(log: seq<Entry>): seq<Op> {
    if log == [] then []
    else
      var e := log[|log| - 1];
      Ops(log[..|log| - 1]) + (if e.Write? then [e.op] else [])
  }

  lemma {:induction false} OpsOn(a: seq<Entry>, b: seq<Entry>)
    ensures Ops(a + b) == Ops(a) + Ops(b)
  {
    if b == [] {
      assert a + b == a && Ops(a) + [] == Ops(a);
    } else {
      var n := |b| - 1;
      assert (a + b)[..|a + b| - 1] == a + b[..n];
      OpsOn(a, b[..n]);
    }
  }

  lemma {:induction false} ApplyOn(m: Contents, a: seq<Op>, b: seq<Op>)
    ensures ApplyOps(m, a + b) == ApplyOps(ApplyOps(m, a), b)
  {
    hide ApplyOp;
    if b == [] {
      assert a + b == a;
    } else {
      var n := |b| - 1;
      assert (a + b)[..|a + b| - 1] == a + b[..n];
      ApplyOn(m, a, b[..n]);
    }
  }

  lemma {:induction false} OpsOne(log: seq<Entry>, e: Entry)
    ensures Ops(log + [e]) == Ops(log) + (if e.Write? then [e.op] else [])
  {
    assert (log + [e])[..|log|] == log;
  }

  function Stores(ps: seq<Pair>): seq<Op> {
    seq(|ps|, i requires 0 <= i < |ps| => Store(ps[i].key, ps[i].value))
  }

  function Writes(ops: seq<Op>): seq<Entry> {
    seq(|ops|, i requires 0 <= i < |ops| => Write(ops[i]))
  }

  lemma {:induction false} OpsOfWrites(ops: seq<Op>)
    ensures Ops(Writes(ops)) == ops
  {
    if ops != [] {
      var n := |ops| - 1;
      assert Writes(ops)[..n] == Writes(ops[..n]);
      OpsOfWrites(ops[..n]);
      assert ops[..n] + [ops[n]] == ops;
    }
  }

  /** A scan of `m`: every pair is in it, and every key is listed. */
  ghost predicate Listing(ps: seq<Pair>, m: Contents) {
    && (forall i | 0 <= i < |ps| :: ps[i].key in m && m[ps[i].key] == ps[i].value)
    && (forall k | k in m :: exists i | 0 <= i < |ps| :: ps[i].key == k)
  }

  /** Storing some pairs of `m` over `d`: those keys read as in `m`, the rest as in `d`. */
  lemma {:induction false} StoredOver(d: Contents, m: Contents, ps: seq<Pair>)
    requires forall i | 0 <= i < |ps| :: ps[i].key in m && m[ps[i].key] == ps[i].value
    ensures var r := ApplyOps(d, Stores(ps));
            && (forall k | k in r :: k in d || k in m)
            && (forall k | k in d && !(exists i | 0 <= i < |ps| :: ps[i].key == k) :: k in r && r[k] == d[k])
            && (forall i | 0 <= i < |ps| :: ps[i].key in r && r[ps[i].key] == m[ps[i].key])
            && (forall k | k in r && !(exists i | 0 <= i < |ps| :: ps[i].key == k) :: k in d)
  {
    if ps != [] {
      var n := |ps| - 1;
      assert Stores(ps)[..n] == Stores(ps[..n]);
      StoredOver(d, m, ps[..n]);
    }
  }

  /** A whole scan stored over `d` is `m` laid over `d`. */
  lemma {:induction false} ListingStored(d: Contents, m: Contents, ps: seq<Pair>)
    requires Listing(ps, m)
    ensures ApplyOps(d, Stores(ps)) == d + m
  {
    hide ApplyOps;
    StoredOver(d, m, ps);
    var r := ApplyOps(d, Stores(ps));
    forall k
      ensures k in r <==> k in d + m
    {
      if k in m {
        var i :| 0 <= i < |ps| && ps[i].key == k;
      }
    }
    forall k | k in r
      ensures r[k] == (d + m)[k]
    {
      if k in m {
        var i :| 0 <= i < |ps| && ps[i].key == k;
      }
    }
  }

  // -------------------------------------------------------------- the protocol

  function ViewOf(s: State, n: Node): View
    requires n in s.nodes && s.nodes[n] < |s.maps|
  {
    s.maps[s.nodes[n]]
  }

  predicate Everywhere(s: State) {
    forall n | n in s.nodes :: s.nodes[n] + 1 >= |s.maps|
  }

  /** Nobody past the front door is headed for the source. */
  predicate Quiet(s: State) {
    forall r | r in s.waiting :: r.to == Dst
  }

  predicate Known(s: State) {
    && (forall n | n in s.nodes :: s.nodes[n] < |s.maps|) && s.srcApplied <= |s.src| && s.dstApplied <= |s.dst|
    && (forall r | r in s.waiting :: r.node in s.nodes)
  }

  predicate MidRun(p: Phase) {
    p.Freezing? || p.Draining? || p.Copying?
  }

  ghost predicate Enabled(s: State, e: Event) {
    Known(s) &&
    match e
    case FrontDoor(n, _) => n in s.nodes && !ViewOf(s, n).migrating
    case Append(r) => r in s.waiting && r.node in s.nodes && !ViewOf(s, r.node).migrating
    case Drop(r) => r in s.waiting
    case Elsewhere(_) => true
    case Apply(side) => if side.Src? then s.srcApplied < |s.src| else s.dstApplied < |s.dst|
    case Adopt(n, epoch) => n in s.nodes && s.nodes[n] < epoch < |s.maps|
    case Freeze => s.phase.Settled?
    case Barrier => s.phase.Freezing? && Everywhere(s)
    case StartCopy(listing) =>
      s.phase.Draining? && s.srcApplied > s.phase.at && Listing(listing, Effect(Ops(s.src[..s.srcApplied])))
    case CopyBatch(count) =>
      s.phase.Copying? && 0 < count <= MIGRATE_BATCH && s.phase.sent + count <= |s.phase.snap| && s.dstApplied >= s.phase.need
    case Flip => s.phase.Copying? && s.phase.sent == |s.phase.snap| && s.dstApplied >= s.phase.need
    case CleanBatch(_) => s.phase.Flipped? && Everywhere(s)
    case Abort => MidRun(s.phase)
  }

  function After(s: State, e: Event): State
    requires Enabled(s, e)
  {
    match e
    case FrontDoor(n, op) => s.(waiting := s.waiting + multiset{Request(n, op, ViewOf(s, n).owner)})
    case Append(r) =>
      var t := s.(waiting := s.waiting - multiset{r}, accepted := s.accepted + [r.op]);
      if r.to.Src? then t.(src := s.src + [Write(r.op)]) else t.(dst := s.dst + [Write(r.op)])
    case Drop(r) => s.(waiting := s.waiting - multiset{r})
    case Elsewhere(side) => if side.Src? then s.(src := s.src + [Other]) else s.(dst := s.dst + [Other])
    case Apply(side) => if side.Src? then s.(srcApplied := s.srcApplied + 1) else s.(dstApplied := s.dstApplied + 1)
    case Adopt(n, epoch) => s.(nodes := s.nodes[n := epoch])
    case Freeze => s.(maps := s.maps + [View(Src, true)], phase := Freezing)
    case Barrier => s.(src := s.src + [Other], phase := Draining(|s.src|))
    case StartCopy(listing) => s.(phase := Copying(listing, 0, |s.dst|))
    case CopyBatch(count) =>
      var k := s.phase.sent + count;
      var dst := s.dst + Writes(Stores(s.phase.snap[s.phase.sent..k]));
      s.(dst := dst, phase := Copying(s.phase.snap, k, |dst|))
    case Flip => s.(maps := s.maps + [View(Dst, false)], phase := Flipped(|s.accepted|, Quiet(s)))
    case CleanBatch(keys) => s.(src := s.src + seq(|keys|, i requires 0 <= i < |keys| => Write(Erase(keys[i]))))
    case Abort => s.(maps := s.maps + [View(Src, false)], phase := Aborted)
  }

  /** Before a run: one map everywhere, the source owns the slot, writes may be under way. */
  ghost predicate Start(s: State) {
    && Known(s) && s.maps == [View(Src, false)] && s.phase.Settled? && s.accepted == []
    && (forall r | r in s.waiting :: r.to == Src)
  }

  // ---------------------------------------------------------------- invariant

  /** Up to the flip: every map names the source, and its log holds the clients' writes only. */
  ghost predicate Owned(s: State, base: seq<Op>) {
    && (forall i | 0 <= i < |s.maps| :: s.maps[i].owner == Src)
    && (forall r | r in s.waiting :: r.to == Src)
    && Ops(s.src) == base + s.accepted
  }

  ghost predicate Frozen(s: State) {
    |s.maps| == 2 && s.maps[1].migrating && forall n | n in s.nodes :: s.nodes[n] == 1
  }

  ghost predicate MapsOk(s: State) {
    match s.phase
    case Settled => s.maps == [View(Src, false)]
    case Flipped(_, _) => s.maps == [View(Src, false), View(Src, true), View(Dst, false)] && forall n | n in s.nodes :: s.nodes[n] >= 1
    case Aborted => s.maps == [View(Src, false), View(Src, true), View(Src, false)]
    case _ => s.maps == [View(Src, false), View(Src, true)]
  }

  ghost predicate CopyOk(s: State, d0: Contents)
    requires s.phase.Copying?
  {
    && s.phase.sent <= |s.phase.snap| && s.phase.need <= |s.dst|
    && Listing(s.phase.snap, Effect(Ops(s.src)))
    && Effect(Ops(s.dst)) == ApplyOps(d0, Stores(s.phase.snap[..s.phase.sent]))
    && Ops(s.dst[s.phase.need..]) == []
  }

  ghost predicate HandedOver(s: State, base: seq<Op>, d0: Contents)
    requires s.phase.Flipped?
  {
    && s.phase.done <= |s.accepted|
    && (s.phase.quiet ==>
          && Quiet(s)
          && Effect(Ops(s.dst)) == ApplyOps(d0 + Effect(base + s.accepted[..s.phase.done]), s.accepted[s.phase.done..]))
  }

  ghost predicate PhaseOk(s: State, base: seq<Op>, d0: Contents) {
    match s.phase
    case Settled => Owned(s, base) && Effect(Ops(s.dst)) == d0
    case Freezing => Owned(s, base) && Effect(Ops(s.dst)) == d0
    case Draining(at) => Owned(s, base) && Effect(Ops(s.dst)) == d0 && Frozen(s) && at < |s.src| && Ops(s.src[at..]) == []
    case Copying(_, _, _) => Owned(s, base) && Frozen(s) && CopyOk(s, d0)
    case Flipped(_, _) => HandedOver(s, base, d0)
    case Aborted => Owned(s, base)
  }

  ghost predicate Inv(s: State, base: seq<Op>, d0: Contents) {
    Known(s) && MapsOk(s) && PhaseOk(s, base, d0)
  }

  // -------------------------------------------------------------------- steps

  lemma StartInv(s: State)
    requires Start(s)
    ensures Inv(s, Ops(s.src), Effect(Ops(s.dst)))
  {
    assert Ops(s.src) + [] == Ops(s.src);
  }

  /** Clients' writes. */
  lemma AppendInv(s: State, r: Request, base: seq<Op>, d0: Contents)
    requires Inv(s, base, d0) && Enabled(s, Append(r))
    ensures Inv(After(s, Append(r)), base, d0)
  {
    hide ApplyOps, Ops;
    var t := After(s, Append(r));
    OpsOne(s.src, Write(r.op));
    OpsOne(s.dst, Write(r.op));
    if s.phase.Flipped? {
      if s.phase.quiet {
        var more := s.accepted[s.phase.done..];
        assert t.accepted[..s.phase.done] == s.accepted[..s.phase.done];
        assert t.accepted[s.phase.done..] == more + [r.op];
        ApplyOn(d0 + Effect(base + s.accepted[..s.phase.done]), more, [r.op]);
        ApplyOn(map[], Ops(s.dst), [r.op]);
      }
    } else {
      assert base + s.accepted + [r.op] == base + (s.accepted + [r.op]);
    }
  }

  lemma ElsewhereInv(s: State, side: Side, base: seq<Op>, d0: Contents)
    requires Inv(s, base, d0)
    ensures Inv(After(s, Elsewhere(side)), base, d0)
  {
    hide ApplyOps, Ops;
    var t := After(s, Elsewhere(side));
    OpsOne(s.src, Other);
    OpsOne(s.dst, Other);
    assert Ops(s.src) + [] == Ops(s.src) && Ops(s.dst) + [] == Ops(s.dst);
    if s.phase.Draining? && side.Src? {
      assert t.src[s.phase.at..] == s.src[s.phase.at..] + [Other];
      OpsOne(s.src[s.phase.at..], Other);
    }
    if s.phase.Copying? && side.Dst? {
      assert t.dst[s.phase.need..] == s.dst[s.phase.need..] + [Other];
      OpsOne(s.dst[s.phase.need..], Other);
    }
  }

  lemma BarrierInv(s: State, base: seq<Op>, d0: Contents)
    requires Inv(s, base, d0) && Enabled(s, Barrier)
    ensures Inv(After(s, Barrier), base, d0)
  {
    hide ApplyOps, Ops;
    var t := After(s, Barrier);
    OpsOne(s.src, Other);
    assert Ops(s.src) + [] == Ops(s.src);
    assert t.src[|s.src|..] == [] + [Other];
    OpsOne([], Other);
    assert Ops([]) == [] by { OpsNothing(); }
  }

  lemma OpsNothing()
    ensures Ops([]) == []
  {
  }

  /** Everything behind the barrier leaves the slot alone, so a snapshot past it has every write. */
  lemma {:induction false} SnapshotWhole(log: seq<Entry>, at: nat, applied: nat)
    requires at < applied <= |log| && Ops(log[at..]) == []
    ensures Ops(log[..applied]) == Ops(log)
  {
    hide Ops;
    assert log[..applied] == log[..at] + log[at..applied];
    assert log[at..] == log[at..applied] + log[applied..];
    assert log == log[..applied] + log[applied..];
    OpsOn(log[at..applied], log[applied..]);
    OpsOn(log[..applied], log[applied..]);
    assert Ops(log[..applied]) + [] == Ops(log[..applied]);
  }

  lemma StartCopyInv(s: State, listing: seq<Pair>, base: seq<Op>, d0: Contents)
    requires Inv(s, base, d0) && Enabled(s, StartCopy(listing))
    ensures Inv(After(s, StartCopy(listing)), base, d0)
  {
    hide ApplyOps, Ops, Listing;
    SnapshotWhole(s.src, s.phase.at, s.srcApplied);
    assert s.dst[|s.dst|..] == [];
    OpsNothing();
    assert listing[..0] == [] && Stores(listing[..0]) == [];
    NoOps(d0);
  }

  lemma {:induction false} NoOps(m: Contents)
    ensures ApplyOps(m, []) == m
  {
  }

  lemma CopyBatchInv(s: State, count: nat, base: seq<Op>, d0: Contents)
    requires Inv(s, base, d0) && Enabled(s, CopyBatch(count))
    ensures Inv(After(s, CopyBatch(count)), base, d0)
  {
    hide ApplyOps, Ops, Listing;
    var t := After(s, CopyBatch(count));
    var snap, a, b := s.phase.snap, s.phase.sent, s.phase.sent + count;
    var more := Stores(snap[a..b]);
    OpsOn(s.dst, Writes(more));
    OpsOfWrites(more);
    ApplyOn(map[], Ops(s.dst), more);
    assert Stores(snap[..b]) == Stores(snap[..a]) + more;
    ApplyOn(d0, Stores(snap[..a]), more);
    assert t.dst[|t.dst|..] == [];
    OpsNothing();
  }

  lemma FlipInv(s: State, base: seq<Op>, d0: Contents)
    requires Inv(s, base, d0) && Enabled(s, Flip)
    ensures Inv(After(s, Flip), base, d0)
    ensures Effect(Ops(s.dst)) == d0 + Effect(Ops(s.src)) && Ops(s.dst[..s.dstApplied]) == Ops(s.dst)
  {
    hide ApplyOps, Ops, Listing;
    var snap := s.phase.snap;
    assert snap[..|snap|] == snap;
    ListingStored(d0, Effect(Ops(s.src)), snap);
    assert s.accepted[..|s.accepted|] == s.accepted && s.accepted[|s.accepted|..] == [];
    NoOps(d0 + Effect(Ops(s.src)));
    AppliedWhole(s.dst, s.phase.need, s.dstApplied);
  }

  lemma {:induction false} AppliedWhole(log: seq<Entry>, need: nat, applied: nat)
    requires need <= applied <= |log| && Ops(log[need..]) == []
    ensures Ops(log[..applied]) == Ops(log)
  {
    hide Ops;
    assert log[need..] == log[need..applied] + log[applied..];
    assert log == log[..applied] + log[applied..];
    OpsOn(log[need..applied], log[applied..]);
    OpsOn(log[..applied], log[applied..]);
    assert Ops(log[..applied]) + [] == Ops(log[..applied]);
  }

  lemma AdoptInv(s: State, n: Node, epoch: nat, base: seq<Op>, d0: Contents)
    requires Inv(s, base, d0) && Enabled(s, Adopt(n, epoch))
    ensures Inv(After(s, Adopt(n, epoch)), base, d0)
  {
    hide ApplyOps, Ops, Listing;
  }

  lemma PublishInv(s: State, e: Event, base: seq<Op>, d0: Contents)
    requires Inv(s, base, d0) && (e.Freeze? || e.Abort?) && Enabled(s, e)
    ensures Inv(After(s, e), base, d0)
  {
    hide ApplyOps, Ops, Listing;
  }

  lemma QueueInv(s: State, e: Event, base: seq<Op>, d0: Contents)
    requires Inv(s, base, d0) && (e.FrontDoor? || e.Drop?) && Enabled(s, e)
    ensures Inv(After(s, e), base, d0)
  {
    hide ApplyOps, Ops, Listing, Frozen;
    var t := After(s, e);
    assert forall r | r in t.waiting :: r in s.waiting || (e.FrontDoor? && r.to == ViewOf(s, e.n).owner);
    if s.phase.Copying? || s.phase.Draining? {
      assert Frozen(t) by { SameFrozen(s, t); }
    }
  }

  lemma SameFrozen(s: State, t: State)
    requires Frozen(s) && t.maps == s.maps && t.nodes == s.nodes
    ensures Frozen(t)
  {
  }

  lemma ApplyInv(s: State, side: Side, base: seq<Op>, d0: Contents)
    requires Inv(s, base, d0) && Enabled(s, Apply(side))
    ensures Inv(After(s, Apply(side)), base, d0)
  {
    hide ApplyOps, Ops, Listing;
  }

  lemma CleanInv(s: State, keys: seq<Bytes>, base: seq<Op>, d0: Contents)
    requires Inv(s, base, d0) && Enabled(s, CleanBatch(keys))
    ensures Inv(After(s, CleanBatch(keys)), base, d0)
  {
    hide ApplyOps, Ops, Listing;
  }

  lemma StepInv(s: State, e: Event, base: seq<Op>, d0: Contents)
    requires Inv(s, base, d0) && Enabled(s, e)
    ensures Inv(After(s, e), base, d0)
  {
    hide Inv, Enabled, After;
    match e
    case Append(r) => AppendInv(s, r, base, d0);
    case Elsewhere(side) => ElsewhereInv(s, side, base, d0);
    case Barrier => BarrierInv(s, base, d0);
    case StartCopy(listing) => StartCopyInv(s, listing, base, d0);
    case CopyBatch(count) => CopyBatchInv(s, count, base, d0);
    case Flip => FlipInv(s, base, d0);
    case Adopt(n, epoch) => AdoptInv(s, n, epoch, base, d0);
    case Freeze => PublishInv(s, e, base, d0);
    case Abort => PublishInv(s, e, base, d0);
    case Apply(side) => ApplyInv(s, side, base, d0);
    case CleanBatch(keys) => CleanInv(s, keys, base, d0);
    case _ => QueueInv(s, e, base, d0);
  }

  // --------------------------------------------------------------------- runs

  ghost predicate IsRun(ss: seq<State>, es: seq<Event>) {
    && |ss| == |es| + 1 && Start(ss[0])
    && forall i | 0 <= i < |es| :: Enabled(ss[i], es[i]) && ss[i + 1] == After(ss[i], es[i])
  }

  lemma {:induction false} RunInv(ss: seq<State>, es: seq<Event>, i: nat)
    requires IsRun(ss, es) && i < |ss|
    ensures Inv(ss[i], Ops(ss[0].src), Effect(Ops(ss[0].dst)))
  {
    hide Inv, Enabled, After, Ops, ApplyOps, Start;
    if i == 0 {
      StartInv(ss[0]);
    } else {
      RunInv(ss, es, i - 1);
      assert ss[i - 1 + 1] == After(ss[i - 1], es[i - 1]);
      StepInv(ss[i - 1], es[i - 1], Ops(ss[0].src), Effect(Ops(ss[0].dst)));
    }
  }

  /** At the flip the destination has applied the effect of every slot write the source
      ever appended, laid over what it held before; so the two agree exactly when it
      held no key the source lacks. */
  lemma CompleteAtFlip(ss: seq<State>, es: seq<Event>, i: nat)
    requires IsRun(ss, es) && i < |es| && es[i].Flip?
    ensures var s := ss[i]; var d0 := Effect(Ops(ss[0].dst)); var all := Effect(Ops(s.src));
            && s.dstApplied <= |s.dst| && Ops(s.src) == Ops(ss[0].src) + s.accepted
            && Effect(Ops(s.dst[..s.dstApplied])) == d0 + all
            && (Effect(Ops(s.dst[..s.dstApplied])) == all <==> d0.Keys <= all.Keys)
  {
    hide Ops, ApplyOps, After;
    RunInv(ss, es, i);
    var d0, all := Effect(Ops(ss[0].dst)), Effect(Ops(ss[i].src));
    FlipInv(ss[i], Ops(ss[0].src), d0);
    Overlay(d0, all);
  }

  lemma Overlay(d: Contents, m: Contents)
    ensures d + m == m <==> d.Keys <= m.Keys
  {
    if d.Keys <= m.Keys {
      assert (d + m).Keys == m.Keys;
    } else {
      assert (d + m).Keys == d.Keys + m.Keys;
    }
  }

  /** An aborted run leaves the source the owner everywhere, with every write in its log. */
  lemma AbortKeepsSource(ss: seq<State>, es: seq<Event>, i: nat)
    requires IsRun(ss, es) && i < |ss| && ss[i].phase.Aborted?
    ensures forall n | n in ss[i].nodes :: ss[i].nodes[n] < |ss[i].maps| && ViewOf(ss[i], n).owner == Src
    ensures Ops(ss[i].src) == Ops(ss[0].src) + ss[i].accepted
  {
    hide Ops, ApplyOps;
    RunInv(ss, es, i);
  }

  /** No two maps in use that let writes in name different owners. */
  lemma OpenMapsAgree(ss: seq<State>, es: seq<Event>, i: nat, m: Node, n: Node)
    requires IsRun(ss, es) && i < |ss| && m in ss[i].nodes && n in ss[i].nodes
    ensures ss[i].nodes[m] < |ss[i].maps| && ss[i].nodes[n] < |ss[i].maps|
    ensures !ViewOf(ss[i], m).migrating && !ViewOf(ss[i], n).migrating ==> ViewOf(ss[i], m).owner == ViewOf(ss[i], n).owner
  {
    hide Ops, ApplyOps, IsRun;
    RunInv(ss, es, i);
  }

  predicate Touches(ops: seq<Op>, k: Bytes) {
    exists i | 0 <= i < |ops| :: ops[i].key == k
  }

  function At(m: Contents, k: Bytes): Option<Bytes> {
    if k in m then Some(m[k]) else None
  }

  /** A key that is written holds what the writes say; another holds what it held. */
  lemma {:induction false} WritesDecide(m: Contents, n: Contents, ops: seq<Op>, k: Bytes)
    ensures At(ApplyOps(m, ops), k) == if Touches(ops, k) then At(ApplyOps(n, ops), k) else At(m, k)
  {
    if ops != [] {
      var last := |ops| - 1;
      WritesDecide(m, n, ops[..last], k);
      assert Touches(ops, k) <==> Touches(ops[..last], k) || ops[last].key == k by {
        if ops[last].key != k && Touches(ops, k) {
          var i :| 0 <= i < |ops| && ops[i].key == k;
          assert ops[..last][i].key == k;
        }
      }
    }
  }

  lemma SameAt(m: Contents, n: Contents)
    ensures m == n <==> forall k :: At(m, k) == At(n, k)
  {
    if forall k :: At(m, k) == At(n, k) {
      forall k
        ensures k in m <==> k in n
        ensures k in m ==> m[k] == n[k]
      {
        assert At(m, k) == At(n, k);
      }
    }
  }

  /** The same writes bring old contents over new ones to the new ones' end state exactly
      when they name every key that only the old contents had. */
  lemma {:induction false} Washed(d0: Contents, all: Contents, ops: seq<Op>)
    ensures ApplyOps(d0 + all, ops) == ApplyOps(all, ops) <==> forall k | k in d0 && k !in all :: Touches(ops, k)
  {
    hide ApplyOps, Touches;
    var a, b := ApplyOps(d0 + all, ops), ApplyOps(all, ops);
    SameAt(a, b);
    forall k
      ensures At(a, k) == At(b, k) <==> Touches(ops, k) || k !in d0 || k in all
    {
      WritesDecide(d0 + all, all, ops, k);
      WritesDecide(all, all, ops, k);
    }
  }

  /** If nobody past a front door was headed for the source at the flip, the destination
      holds the effect of all the clients' writes: if and only if every key it had been left
      with, that the source lacked at the flip, has been written since. */
  lemma NothingLost(ss: seq<State>, es: seq<Event>, i: nat)
    requires IsRun(ss, es) && i < |ss| && ss[i].phase.Flipped? && ss[i].phase.quiet
    ensures ss[i].phase.done <= |ss[i].accepted|
    ensures var s := ss[i];
            var left, held := Effect(Ops(ss[0].dst)), Effect(Ops(ss[0].src) + s.accepted[..s.phase.done]);
            Effect(Ops(s.dst)) == Effect(Ops(ss[0].src) + s.accepted)
            <==> forall k | k in left && k !in held :: Touches(s.accepted[s.phase.done..], k)
  {
    hide Ops, ApplyOps, IsRun, Touches;
    RunInv(ss, es, i);
    var s, base, d0 := ss[i], Ops(ss[0].src), Effect(Ops(ss[0].dst));
    var a, b := s.accepted[..s.phase.done], s.accepted[s.phase.done..];
    ApplyOn(map[], base + a, b);
    assert base + a + b == base + s.accepted;
    Washed(d0, Effect(base + a), b);
  }

  /** A late write can still be accepted by the source, where nobody will
      look: the loop's guard asks whether the slot is frozen, not who owns it. */
  lemma LateWrite(s: State, r: Request)
    requires Known(s) && MapsOk(s) && s.phase.Flipped? && r in s.waiting && r.to == Src
    ensures s.nodes[r.node] < 2 ==> Enabled(s, Adopt(r.node, 2))
    ensures var t := if s.nodes[r.node] < 2 then After(s, Adopt(r.node, 2)) else s;
            && Enabled(t, Append(r))
            && var u := After(t, Append(r));
               u.accepted == s.accepted + [r.op] && u.dst == s.dst && u.src == s.src + [Write(r.op)] && ViewOf(u, r.node).owner == Dst
  {
    assert s.nodes[r.node] >= 1;
  }

  // ----------------------------------------------------------------- the copy

  /** The pairs of one slot past a cursor, in scan order. */
  function Selected(scan: seq<Pair>, slotOf: Bytes -> nat, slot: nat): (r: seq<Pair>)
    ensures |r| <= |scan|
  {
    if scan == [] then []
    else
      var p := scan[|scan| - 1];
      Selected(scan[..|scan| - 1], slotOf, slot) + (if slotOf(p.key) == slot then [p] else [])
  }

  lemma {:induction false} SelectedIn(scan: seq<Pair>, slotOf: Bytes -> nat, slot: nat)
    ensures forall p | p in Selected(scan, slotOf, slot) :: p in scan && slotOf(p.key) == slot
    ensures forall p | p in scan && slotOf(p.key) == slot :: p in Selected(scan, slotOf, slot)
  {
    if scan != [] {
      SelectedIn(scan[..|scan| - 1], slotOf, slot);
      assert scan == scan[..|scan| - 1] + [scan[|scan| - 1]];
    }
  }

  /** Where a resumed scan starts: the least key greater than the cursor. */
  lemma {:induction false} ResumeAfter(after: Bytes, k: Bytes)
    ensures KeyLeq(after + [0], k) <==> KeyLess(after, k)
  {
    if after == [] {
      var z: Bytes := [0];
      assert after + z == z && z[1..] == [];
      if k != [] && k[0] == 0 {
        if k[1..] == [] {
          assert k == z;
        } else {
          assert KeyLess(z[1..], k[1..]);
        }
      }
    } else if k != [] && after[0] == k[0] {
      assert (after + [0])[1..] == after[1..] + [0] && (after + [0])[0] == after[0];
      ResumeAfter(after[1..], k[1..]);
      if after[1..] + [0] == k[1..] {
        assert k == [k[0]] + k[1..] && after + [0] == [after[0]] + (after[1..] + [0]);
      }
    } else if k != [] {
      assert (after + [0])[0] == after[0];
    }
  }

  /** Streams the slot's pairs into the destination in batches; a refused batch stops it.
      What is reported as copied is exactly what the destination has committed. */
  method CopySlot(scan: seq<Pair>, slotOf: Bytes -> nat, slot: nat, refuses: nat -> bool)
    returns (lastKey: Option<Bytes>, copied: nat, ok: bool, sent: seq<Pair>)
    ensures sent <= Selected(scan, slotOf, slot) && copied == |sent|
    ensures ok ==> sent == Selected(scan, slotOf, slot)
    ensures if sent == [] then lastKey == None else lastKey == Some(sent[|sent| - 1].key)
    ensures !ok ==> exists k: nat :: refuses(k)
  {
    hide Selected;
    lastKey, copied, ok, sent := None, 0, true, [];
    SelectedNothing(scan, slotOf, slot);
    var batch: seq<Pair> := [];
    var round := 0;
    var i := 0;
    while i < |scan|
      invariant 0 <= i <= |scan| && |batch| < MIGRATE_BATCH
      invariant sent + batch == Selected(scan[..i], slotOf, slot) && copied == |sent|
      invariant if sent == [] then lastKey == None else lastKey == Some(sent[|sent| - 1].key)
    {
      SelectedStep(scan, slotOf, slot, i);
      SelectedPrefix(scan, slotOf, slot, i + 1);
      if slotOf(scan[i].key) == slot {
        batch := batch + [scan[i]];
        if |batch| == MIGRATE_BATCH {
          if refuses(round) {
            ok := false;
            return;
          }
          sent, copied, lastKey := sent + batch, copied + |batch|, Some(batch[|batch| - 1].key);
          batch, round := [], round + 1;
        }
      }
      i := i + 1;
    }
    assert scan[..|scan|] == scan;
    if |batch| > 0 {
      if refuses(round) {
        ok := false;
        return;
      }
      sent, copied, lastKey := sent + batch, copied + |batch|, Some(batch[|batch| - 1].key);
    }
  }

  lemma {:induction false} SelectedNothing(scan: seq<Pair>, slotOf: Bytes -> nat, slot: nat)
    ensures Selected(scan[..0], slotOf, slot) == []
  {
  }

  lemma {:induction false} SelectedStep(scan: seq<Pair>, slotOf: Bytes -> nat, slot: nat, i: nat)
    requires i < |scan|
    ensures Selected(scan[..i + 1], slotOf, slot) == Selected(scan[..i], slotOf, slot) + (if slotOf(scan[i].key) == slot then [scan[i]] else [])
  {
    assert scan[..i + 1][..i] == scan[..i];
  }

  lemma {:induction false} SelectedPrefix(scan: seq<Pair>, slotOf: Bytes -> nat, slot: nat, n: nat)
    requires n <= |scan|
    ensures Selected(scan[..n], slotOf, slot) <= Selected(scan, slotOf, slot)
    decreases |scan| - n
  {
    if n < |scan| {
      SelectedPrefix(scan, slotOf, slot, n + 1);
      assert scan[..n + 1][..n] == scan[..n];
    } else {
      assert scan[..n] == scan;
    }
  }
}

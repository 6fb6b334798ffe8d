/** The meaning of the engine: a history of writes, and what a stack of sorted
    runs must satisfy to answer reads as the history does. */
module Layers {
  import opened Common
  import opened Keys

  /** Every write ever published, in order: `ops[i]` carries sequence number `i + 1`. */
  type Ops = seq<Record>

  ghost predicate Numbered(ops: Ops) {
    forall i | 0 <= i < |ops| :: ops[i].seqno == i + 1
  }

  /** What the map after the first `s` writes holds for `k`. */
  function Visible(ops: Ops, s: nat, k: Bytes): Option<Bytes>
    requires s <= |ops|
  {
    if s == 0 then None
    else if ops[s - 1].key == k then
      if ops[s - 1].kind == Put then Some(ops[s - 1].value) else None
    else Visible(ops, s - 1, k)
  }

  /** How a read interprets the version it found. */
  function Interpret(r: Option<Record>): Option<Bytes> {
    if r.Some? && r.value.kind == Put then Some(r.value.value) else None
  }

  /** `ops[i]` is the last of the first `s` writes to touch its key. */
  ghost predicate Latest(ops: Ops, s: nat, i: nat) {
    i < s <= |ops| && forall j | i < j < s :: ops[j].key != ops[i].key
  }

  type Stack = seq<seq<Record>>

  ghost function All(layers: Stack): set<Record> {
    set l, x | 0 <= l < |layers| && x in layers[l] :: x
  }

  ghost predicate Authentic(all: set<Record>, ops: Ops) {
    forall x | x in all :: 0 < x.seqno <= |ops| && ops[x.seqno - 1] == x
  }

  /** A shallower layer holds strictly newer versions of a key than a deeper one. */
  ghost predicate Recent(layers: Stack) {
    forall i, j | 0 <= i < j < |layers| :: Over(layers[i], layers[j])
  }

  ghost predicate Over(a: seq<Record>, b: seq<Record>) {
    forall x, y | x in a && y in b && x.key == y.key :: x.seqno > y.seqno
  }

  ghost predicate Sorted(layers: Stack) {
    forall l | 0 <= l < |layers| :: Ascending(layers[l])
  }

  /** The latest write of every key up to `s` is there, or it was a deletion and
      nothing of the key up to `s` is left. */
  ghost predicate Reflects(all: set<Record>, ops: Ops, s: nat) {
    && s <= |ops|
    && forall i: nat | Latest(ops, s, i) :: ops[i] in all || Gone(all, ops[i], s)
  }

  ghost predicate Gone(all: set<Record>, d: Record, s: nat) {
    d.kind == Delete && forall x | x in all && x.key == d.key :: x.seqno > s
  }

  /** The first layer that knows the key answers. */
  function StackGet(layers: Stack, k: Bytes, s: nat): (r: Option<Record>)
    ensures r.Some? ==> r.value.key == k && r.value.seqno <= s && exists l :: 0 <= l < |layers| && r.value in layers[l]
    ensures r.None? ==> forall l, x | 0 <= l < |layers| && x in layers[l] :: !(x.key == k && x.seqno <= s)
  {
    if layers == [] then None
    else
      var r := RunGet(layers[0], k, s);
      if r.Some? then
        r
      else
        var t := StackGet(layers[1..], k, s);
        assert t.Some? ==> exists l :: 0 <= l < |layers| && t.value in layers[l] by {
          if t.Some? {
            var l :| 0 <= l < |layers[1..]| && t.value in layers[1..][l];
            assert t.value in layers[l + 1];
          }
        }
        t
  }

  /** Dropping the top layer keeps the rest in order, and below it. */
  lemma TailLayers(layers: Stack)
    requires Sorted(layers) && Recent(layers) && layers != []
    ensures Sorted(layers[1..]) && Recent(layers[1..]) && Ascending(layers[0])
    ensures forall l | 0 <= l < |layers[1..]| :: Over(layers[0], layers[1..][l])
  {
    hide Ascending, Over;
  }

  /** With recent layers, the first hit is the newest visible version of all. */
  lemma {:induction false} StackGetNewest(layers: Stack, k: Bytes, s: nat, l: nat, x: Record)
    requires Sorted(layers) && Recent(layers) && StackGet(layers, k, s).Some?
    requires l < |layers| && x in layers[l] && x.key == k && x.seqno <= s
    ensures x.seqno <= StackGet(layers, k, s).value.seqno
  {
    hide Ascending, RunGet, Sorted, Recent;
    TailLayers(layers);
    if RunGet(layers[0], k, s).Some? {
      RunGetNewest(layers[0], k, s);
      assert l > 0 ==> x in layers[1..][l - 1];
    } else {
      assert x in layers[1..][l - 1];
      StackGetNewest(layers[1..], k, s, l - 1, x);
    }
  }

  /** The last write to `k` among the first `s`, if any. */
  lemma {:induction false} FindLatest(ops: Ops, s: nat, k: Bytes) returns (i: nat, found: bool)
    requires s <= |ops|
    ensures found ==> Latest(ops, s, i) && ops[i].key == k
    ensures found ==> Visible(ops, s, k) == if ops[i].kind == Put then Some(ops[i].value) else None
    ensures !found ==> Visible(ops, s, k) == None && forall j | 0 <= j < s :: ops[j].key != k
  {
    if s == 0 {
      return 0, false;
    }
    if ops[s - 1].key == k {
      return s - 1, true;
    }
    i, found := FindLatest(ops, s - 1, k);
  }

  lemma InLayer(layers: Stack, x: Record) returns (l: nat)
    requires x in All(layers)
    ensures l < |layers| && x in layers[l]
  {
    l :| 0 <= l < |layers| && x in layers[l];
  }

  /** A stack that reflects the history up to `s` answers every read at `s` as the map does. */
  lemma {:induction false} GetRefines(layers: Stack, ops: Ops, s: nat, k: Bytes)
    requires Numbered(ops) && Sorted(layers) && Recent(layers)
    requires Authentic(All(layers), ops) && Reflects(All(layers), ops, s)
    ensures Interpret(StackGet(layers, k, s)) == Visible(ops, s, k)
  {
    hide Sorted, Recent, StackGet, Visible;
    var r := StackGet(layers, k, s);
    var i, found := FindLatest(ops, s, k);
    if r.Some? {
      var l :| 0 <= l < |layers| && r.value in layers[l];
      assert r.value in All(layers);
      assert found && r.value.seqno - 1 <= i;
      assert ops[i] in All(layers);
      var m := InLayer(layers, ops[i]);
      StackGetNewest(layers, k, s, m, ops[i]);
      assert r.value == ops[i];
    } else if found && ops[i] in All(layers) {
      var m := InLayer(layers, ops[i]);
      assert false;
    }
  }
}

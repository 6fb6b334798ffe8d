/** User keys, versions of them, and the orders every structure is sorted by. */
module Keys {
  import opened Common

  datatype Kind = Delete | Put

  /** One version of a user key: an internal key with its value. */
  datatype Record = Record(key: Bytes, seqno: nat, kind: Kind, value: Bytes)

  /** The byte-wise lexicographic order on user keys. */
  predicate KeyLess(a: Bytes, b: Bytes) {
    b != [] && (a == [] || a[0] < b[0] || (a[0] == b[0] && KeyLess(a[1..], b[1..])))
  }

  predicate KeyLeq(a: Bytes, b: Bytes) {
    a == b || KeyLess(a, b)
  }

  /** Newest first within a sequence number as well: a put sorts before a delete. */
  predicate Newer(aSeq: nat, aKind: Kind, bSeq: nat, bKind: Kind) {
    aSeq > bSeq || (aSeq == bSeq && aKind == Put && bKind == Delete)
  }

  /** The internal-key order: user key ascending, then newest first. */
  predicate RecLess(a: Record, b: Record) {
    KeyLess(a.key, b.key) || (a.key == b.key && Newer(a.seqno, a.kind, b.seqno, b.kind))
  }

  lemma {:induction false} KeyIrreflexive(a: Bytes)
    ensures !KeyLess(a, a)
  {
    if a != [] {
      KeyIrreflexive(a[1..]);
    }
  }

  lemma {:induction false} KeyTransitive(a: Bytes, b: Bytes, c: Bytes)
    requires KeyLess(a, b) && KeyLess(b, c)
    ensures KeyLess(a, c)
  {
    if a != [] && a[0] == b[0] == c[0] {
      KeyTransitive(a[1..], b[1..], c[1..]);
    }
  }

  lemma {:induction false} KeyTotal(a: Bytes, b: Bytes)
    ensures KeyLess(a, b) || a == b || KeyLess(b, a)
  {
    if a != [] && b != [] && a[0] == b[0] {
      KeyTotal(a[1..], b[1..]);
      if a[1..] == b[1..] {
        assert a == [a[0]] + a[1..] && b == [b[0]] + b[1..];
      }
    }
  }

  lemma {:induction false} KeyAsymmetric(a: Bytes, b: Bytes)
    requires KeyLess(a, b)
    ensures a != b && !KeyLess(b, a)
  {
    KeyIrreflexive(a);
    if KeyLess(b, a) {
      KeyTransitive(a, b, a);
    }
  }

  lemma RecTransitive(a: Record, b: Record, c: Record)
    requires RecLess(a, b) && RecLess(b, c)
    ensures RecLess(a, c)
  {
    hide KeyLess;
    if KeyLess(a.key, b.key) && KeyLess(b.key, c.key) {
      KeyTransitive(a.key, b.key, c.key);
    }
  }

  lemma RecIrreflexive(a: Record)
    ensures !RecLess(a, a)
  {
    KeyIrreflexive(a.key);
  }

  lemma RecTotal(a: Record, b: Record)
    ensures RecLess(a, b) || RecLess(b, a) || (a.key == b.key && a.seqno == b.seqno && a.kind == b.kind)
  {
    KeyTotal(a.key, b.key);
  }

  lemma RecAsymmetric(a: Record, b: Record)
    requires RecLess(a, b)
    ensures !RecLess(b, a)
  {
    if RecLess(b, a) {
      RecTransitive(a, b, a);
      RecIrreflexive(a);
    }
  }

  // ------------------------------------------------------------ sorted runs

  /** A run: records in strictly ascending internal-key order. */
  ghost predicate Ascending(run: seq<Record>) {
    forall i, j | 0 <= i < j < |run| :: RecLess(run[i], run[j])
  }

  /** At most one version per user key, keys ascending. */
  ghost predicate KeyAscending(run: seq<Record>) {
    forall i, j | 0 <= i < j < |run| :: KeyLess(run[i].key, run[j].key)
  }

  /** The newest version of `k` visible at `s` in a run. */
  function RunGet(run: seq<Record>, k: Bytes, s: nat): (r: Option<Record>)
    ensures r.Some? ==> r.value in run && r.value.key == k && r.value.seqno <= s
    ensures r.None? ==> forall x | x in run :: !(x.key == k && x.seqno <= s)
  {
    if run == [] then None
    else if run[0].key == k && run[0].seqno <= s then Some(run[0])
    else RunGet(run[1..], k, s)
  }

  /** In a run, the first visible version is the newest. */
  lemma {:induction false} RunGetNewest(run: seq<Record>, k: Bytes, s: nat)
    requires Ascending(run) && RunGet(run, k, s).Some?
    ensures forall x | x in run && x.key == k && x.seqno <= s :: x.seqno <= RunGet(run, k, s).value.seqno
  {
    hide KeyLess;
    if run[0].key == k && run[0].seqno <= s {
      forall x | x in run && x.key == k && x.seqno <= s
        ensures x.seqno <= run[0].seqno
      {
        var j :| 0 <= j < |run| && run[j] == x;
        if j > 0 {
          assert RecLess(run[0], run[j]);
          KeyIrreflexive(k);
        }
      }
    } else {
      RunGetNewest(run[1..], k, s);
    }
  }

  ghost function Elems(run: seq<Record>): set<Record> {
    set x | x in run
  }

  lemma HeadOnce(a: seq<Record>)
    requires Ascending(a) && a != []
    ensures a[0] !in a[1..]
  {
    if a[0] in a[1..] {
      var i :| 0 <= i < |a[1..]| && a[1..][i] == a[0];
      assert RecLess(a[0], a[i + 1]);
      RecIrreflexive(a[0]);
    }
  }

  // -------------------------------------------------------------- insertion

  /** Where `r` belongs in a run: after every record that sorts before it. */
  function Rank(run: seq<Record>, r: Record): (i: nat)
    ensures i <= |run|
    ensures forall j | 0 <= j < i :: RecLess(run[j], r)
    ensures i < |run| ==> !RecLess(run[i], r)
  {
    if run == [] || !RecLess(run[0], r) then 0 else 1 + Rank(run[1..], r)
  }

  function Insert(run: seq<Record>, r: Record): seq<Record> {
    run[..Rank(run, r)] + [r] + run[Rank(run, r)..]
  }

  /** No record of the run has the internal key of `r`. */
  ghost predicate NewKey(run: seq<Record>, r: Record) {
    forall x | x in run :: !(x.key == r.key && x.seqno == r.seqno)
  }

  lemma {:induction false} RankSplits(run: seq<Record>, r: Record, j: nat)
    requires Ascending(run) && NewKey(run, r) && Rank(run, r) <= j < |run|
    ensures RecLess(r, run[j])
  {
    hide RecLess;
    var i := Rank(run, r);
    RecTotal(run[i], r);
    if j > i {
      RecTransitive(r, run[i], run[j]);
    }
  }

  lemma InsertAscending(run: seq<Record>, r: Record)
    requires Ascending(run) && NewKey(run, r)
    ensures Ascending(Insert(run, r))
  {
    hide RecLess, NewKey;
    var i := Rank(run, r);
    var t := Insert(run, r);
    forall a, b | 0 <= a < b < |t|
      ensures RecLess(t[a], t[b])
    {
      assert t[a] == if a < i then run[a] else if a == i then r else run[a - 1];
      assert t[b] == if b < i then run[b] else if b == i then r else run[b - 1];
      if a == i {
        RankSplits(run, r, b - 1);
      }
    }
  }

  lemma InsertElems(run: seq<Record>, r: Record)
    ensures Elems(Insert(run, r)) == Elems(run) + {r}
  {
    hide Rank;
    var i := Rank(run, r);
    assert run == run[..i] + run[i..];
  }

  function InsertAll(run: seq<Record>, rs: seq<Record>): seq<Record>
    decreases |rs|
  {
    if rs == [] then run else InsertAll(Insert(run, rs[0]), rs[1..])
  }

  /** Records with fresh sequence numbers go into a run. */
  lemma {:induction false} InsertAllKeeps(run: seq<Record>, rs: seq<Record>)
    requires Ascending(run)
    requires forall x, i | x in run && 0 <= i < |rs| :: x.seqno != rs[i].seqno
    requires forall i, j | 0 <= i < j < |rs| :: rs[i].seqno != rs[j].seqno
    ensures Ascending(InsertAll(run, rs)) && Elems(InsertAll(run, rs)) == Elems(run) + Elems(rs)
    decreases |rs|
  {
    hide Ascending, Insert;
    if rs == [] {
    } else {
      InsertAscending(run, rs[0]);
      InsertElems(run, rs[0]);
      var next := Insert(run, rs[0]);
      forall x, i | x in next && 0 <= i < |rs[1..]|
        ensures x.seqno != rs[1..][i].seqno
      {
        assert x in Elems(next);
      }
      InsertAllKeeps(next, rs[1..]);
      assert Elems(rs) == {rs[0]} + Elems(rs[1..]) by {
        assert rs == [rs[0]] + rs[1..];
      }
    }
  }
}

/** Compaction: which records survive a merge, and why dropping the others
    changes no read. */
module Compaction {
  import opened Common
  import opened Keys
  import opened Layers
  import opened Engine

  function SmallestKey(t: Table): Bytes
    requires t.recs != []
  {
    t.recs[0].key
  }

  function LargestKey(t: Table): Bytes
    requires t.recs != []
  {
    t.recs[|t.recs| - 1].key
  }

  ghost predicate NonEmpty(ts: seq<Table>) {
    forall i | 0 <= i < |ts| :: ts[i].recs != []
  }

  /** Some table of the level spans `k`. */
  predicate Spans(ts: seq<Table>, k: Bytes) {
    exists i | 0 <= i < |ts| :: ts[i].recs != [] && KeyLeq(SmallestKey(ts[i]), k) && KeyLeq(k, LargestKey(ts[i]))
  }

  /** Some level deeper than the output could hold `k`. */
  predicate MayExistBelow(below: seq<seq<Table>>, k: Bytes) {
    exists l | 0 <= l < |below| :: Spans(below[l], k)
  }

  // ------------------------------------------------------ what survives

  /** The merge loop: the first version of each key survives, unless it is a
      tombstone nothing below can contradict. */
  function Kept(merged: seq<Record>, below: seq<seq<Table>>, last: Option<Bytes>): seq<Record> {
    if merged == [] then []
    else
      var r := merged[0];
      if last == Some(r.key) then Kept(merged[1..], below, last)
      else if r.kind == Delete && !MayExistBelow(below, r.key) then Kept(merged[1..], below, Some(r.key))
      else [r] + Kept(merged[1..], below, Some(r.key))
  }

  /** `r` is the newest version of its key among `merged`. */
  ghost predicate Top(merged: seq<Record>, r: Record) {
    r in merged && forall q | q in merged && q.key == r.key :: q == r || RecLess(r, q)
  }

  ghost predicate Collectable(below: seq<seq<Table>>, r: Record) {
    r.kind == Delete && !MayExistBelow(below, r.key)
  }

  ghost predicate PastLast(merged: seq<Record>, last: Option<Bytes>) {
    last.Some? ==> forall r | r in merged :: !KeyLess(r.key, last.value)
  }

  lemma HeadFirst(merged: seq<Record>, r: Record)
    requires Ascending(merged) && merged != [] && r in merged[1..]
    ensures RecLess(merged[0], r) && !KeyLess(r.key, merged[0].key)
    ensures r.key != merged[0].key ==> KeyLess(merged[0].key, r.key)
  {
    hide KeyLess;
    var i :| 0 <= i < |merged[1..]| && merged[1..][i] == r;
    assert RecLess(merged[0], merged[i + 1]);
    if KeyLess(r.key, merged[0].key) {
      KeyAsymmetric(r.key, merged[0].key);
    }
  }

  lemma TailPast(merged: seq<Record>)
    requires Ascending(merged) && merged != []
    ensures PastLast(merged[1..], Some(merged[0].key)) && Ascending(merged[1..])
  {
    forall r | r in merged[1..]
      ensures !KeyLess(r.key, merged[0].key)
    {
      HeadFirst(merged, r);
    }
  }

  /** A record other than the head is the newest of its key in the whole run iff it is in the tail, unless the head is of that key. */
  lemma TopTail(merged: seq<Record>, r: Record)
    requires Ascending(merged) && merged != [] && r in merged[1..]
    ensures Top(merged, r) <==> r.key != merged[0].key && Top(merged[1..], r)
  {
    hide RecLess;
    HeadFirst(merged, r);
    assert merged == [merged[0]] + merged[1..];
    if r.key == merged[0].key {
      HeadOnce(merged);
      RecAsymmetric(merged[0], r);
    }
  }

  /** Exactly the newest version of every key survives, except collectable tombstones. */
  lemma {:induction false} KeptExactly(merged: seq<Record>, below: seq<seq<Table>>, last: Option<Bytes>, r: Record)
    requires Ascending(merged) && PastLast(merged, last)
    ensures r in Kept(merged, below, last) <==> Top(merged, r) && last != Some(r.key) && !Collectable(below, r)
  {
    hide KeyLess, RecLess, Ascending, MayExistBelow;
    if merged != [] {
      var h := merged[0];
      var next := if last == Some(h.key) then last else Some(h.key);
      TailPast(merged);
      KeptExactly(merged[1..], below, next, r);
      assert merged == [h] + merged[1..];
      if r in merged[1..] {
        TopTail(merged, r);
        HeadFirst(merged, r);
        HeadOnce(merged);
        KeyIrreflexive(h.key);
        if last == Some(r.key) && r.key != h.key {
          assert KeyLess(h.key, last.value);
          assert false;
        }
      } else {
        assert r == h ==> Top(merged, h) by { HeadTop(merged); }
      }
    }
  }

  lemma HeadTop(merged: seq<Record>)
    requires Ascending(merged) && merged != []
    ensures Top(merged, merged[0])
  {
    hide RecLess;
    forall q | q in merged && q.key == merged[0].key
      ensures q == merged[0] || RecLess(merged[0], q)
    {
      if q != merged[0] {
        assert merged == [merged[0]] + merged[1..];
        HeadFirst(merged, q);
      }
    }
  }

  /** Survivors are in strictly ascending user-key order: one version per key. */
  lemma {:induction false} KeptAscends(merged: seq<Record>, below: seq<seq<Table>>, last: Option<Bytes>)
    requires Ascending(merged) && PastLast(merged, last)
    ensures KeyAscending(Kept(merged, below, last))
    ensures last.Some? ==> forall r | r in Kept(merged, below, last) :: KeyLess(last.value, r.key)
  {
    hide KeyLess, RecLess, Ascending, MayExistBelow;
    if merged != [] {
      var h := merged[0];
      var next := if last == Some(h.key) then last else Some(h.key);
      var tail := Kept(merged[1..], below, next);
      TailPast(merged);
      KeptAscends(merged[1..], below, next);
      if last.Some? && last.value != h.key {
        KeyTotal(last.value, h.key);
        forall r | r in tail
          ensures KeyLess(last.value, r.key)
        {
          KeyTransitive(last.value, h.key, r.key);
        }
      }
      ConsAscends(h, tail);
    }
  }

  lemma ConsAscends(h: Record, tail: seq<Record>)
    requires KeyAscending(tail)
    ensures (forall r | r in tail :: KeyLess(h.key, r.key)) ==> KeyAscending([h] + tail)
  {
    hide KeyLess;
  }

  lemma KeyAscendingAscends(run: seq<Record>)
    requires KeyAscending(run)
    ensures Ascending(run)
  {
  }

  /** In a level with one version per key, a key names one record. */
  lemma OneVersion(run: seq<Record>, x: Record, y: Record)
    requires KeyAscending(run) && x in run && y in run && x.key == y.key
    ensures x == y
  {
    hide KeyLess;
    var i :| 0 <= i < |run| && run[i] == x;
    var j :| 0 <= j < |run| && run[j] == y;
    KeyIrreflexive(x.key);
  }

  // ---------------------------------------------------------- levels as runs

  lemma {:induction false} LevelConcat(a: seq<Table>, b: seq<Table>)
    ensures LevelRun(a + b) == LevelRun(a) + LevelRun(b)
  {
    if a == [] {
      assert a + b == b;
    } else {
      assert (a + b)[1..] == a[1..] + b;
      LevelConcat(a[1..], b);
    }
  }

  lemma {:induction false} RunsConcat(a: seq<Table>, b: seq<Table>)
    ensures TableRuns(a + b) == TableRuns(a) + TableRuns(b)
  {
    if a == [] {
      assert a + b == b;
    } else {
      assert (a + b)[1..] == a[1..] + b;
      RunsConcat(a[1..], b);
    }
  }

  /** The records of a list of tables, as layers or as one run. */
  lemma {:induction false} SameRecords(ts: seq<Table>)
    ensures All(TableRuns(ts)) == Elems(LevelRun(ts))
  {
    if ts != [] {
      SameRecords(ts[1..]);
      AllConcat([ts[0].recs], TableRuns(ts[1..]));
      AllSingle(ts[0].recs);
    }
  }

  lemma AllConcat(a: Stack, b: Stack)
    ensures All(a + b) == All(a) + All(b)
  {
    var c: Stack := a + b;
    forall x
      ensures x in All(c) <==> x in All(a) || x in All(b)
    {
      if x in All(a) {
        var l := InLayer(a, x);
        assert c[l] == a[l];
      }
      if x in All(b) {
        var l := InLayer(b, x);
        assert c[|a| + l] == b[l];
      }
      if x in All(c) {
        var l := InLayer(c, x);
        if l < |a| {
          assert c[l] == a[l];
        } else {
          assert c[l] == b[l - |a|];
        }
      }
    }
  }

  lemma AllSingle(run: seq<Record>)
    ensures All([run]) == Elems(run)
  {
    forall x
      ensures x in All([run]) <==> x in run
    {
      if x in run {
        assert x in [run][0];
      }
    }
  }

  ghost predicate OverAll(a: set<Record>, b: set<Record>) {
    forall x, y | x in a && y in b && x.key == y.key :: x.seqno > y.seqno
  }

  /** Recency of a stack in two parts. */
  lemma RecentConcat(a: Stack, b: Stack)
    ensures Recent(a + b) <==> Recent(a) && Recent(b) && OverAll(All(a), All(b))
  {
    var c: Stack := a + b;
    assert forall i | 0 <= i < |a| :: c[i] == a[i];
    assert forall i | 0 <= i < |b| :: c[|a| + i] == b[i];
    if Recent(c) {
      forall x, y | x in All(a) && y in All(b) && x.key == y.key
        ensures x.seqno > y.seqno
      {
        var i := InLayer(a, x);
        var j := InLayer(b, y);
        assert Over(c[i], c[|a| + j]);
      }
      assert Recent(a) by {
        forall i, j | 0 <= i < j < |a| ensures Over(a[i], a[j]) { assert Over(c[i], c[j]); }
      }
      assert Recent(b) by {
        forall i, j | 0 <= i < j < |b| ensures Over(b[i], b[j]) { assert Over(c[|a| + i], c[|a| + j]); }
      }
    }
    if Recent(a) && Recent(b) && OverAll(All(a), All(b)) {
      forall i, j | 0 <= i < j < |c|
        ensures Over(c[i], c[j])
      {
        if j < |a| {
          assert Over(a[i], a[j]);
        } else if i >= |a| {
          assert Over(b[i - |a|], b[j - |a|]);
        } else {
          forall x, y | x in c[i] && y in c[j] && x.key == y.key
            ensures x.seqno > y.seqno
          {
            assert x in a[i] && y in b[j - |a|];
          }
        }
      }
    }
  }

  lemma SortedConcat(a: Stack, b: Stack)
    ensures Sorted(a + b) <==> Sorted(a) && Sorted(b)
  {
    hide Ascending;
    var c: Stack := a + b;
    assert forall i | 0 <= i < |a| :: c[i] == a[i];
    assert forall i | 0 <= i < |b| :: c[|a| + i] == b[i];
  }
}

/** The k-way merge over sorted sources, one of which may grow meanwhile. */
module Merge {
  import opened Common
  import opened Keys
  import opened Layers

  // ------------------------------------------------------- one child iterator

  /** The first record of a run not before `t`. */
  function FirstFrom(run: seq<Record>, t: Record): (r: Option<Record>)
    ensures r.Some? ==> r.value in run && !RecLess(r.value, t)
  {
    if run == [] then None
    else if !RecLess(run[0], t) then Some(run[0])
    else FirstFrom(run[1..], t)
  }

  /** The first record of a run after `t`. */
  function FirstAfter(run: seq<Record>, t: Record): (r: Option<Record>)
    ensures r.Some? ==> r.value in run && RecLess(t, r.value)
  {
    if run == [] then None
    else if RecLess(t, run[0]) then Some(run[0])
    else FirstAfter(run[1..], t)
  }

  /** What a child at `cur` has still to yield. */
  ghost function AheadOf(run: seq<Record>, cur: Option<Record>): set<Record> {
    if cur.None? then {} else set x | x in run && !RecLess(x, cur.value)
  }

  lemma {:induction false} FromAhead(run: seq<Record>, t: Record)
    requires Ascending(run)
    ensures AheadOf(run, FirstFrom(run, t)) == set x | x in run && !RecLess(x, t)
  {
    hide RecLess;
    if run != [] {
      FromAhead(run[1..], t);
      assert run == [run[0]] + run[1..];
      if RecLess(run[0], t) {
        var r := FirstFrom(run[1..], t);
        assert r.Some? ==> RecLess(run[0], r.value) by { HeadLeast(run); }
        assert AheadOf(run, r) == AheadOf(run[1..], r);
      } else {
        HeadLeast(run);
        forall x | x in run
          ensures !RecLess(x, t) && !RecLess(x, run[0])
        {
          if x == run[0] {
            RecIrreflexive(x);
          } else {
            RecAsymmetric(run[0], x);
            if RecLess(x, t) {
              RecTransitive(run[0], x, t);
            }
          }
        }
      }
    }
  }

  lemma {:induction false} AfterAhead(run: seq<Record>, t: Record)
    requires Ascending(run)
    ensures AheadOf(run, FirstAfter(run, t)) == set x | x in run && RecLess(t, x)
  {
    hide RecLess;
    if run != [] {
      AfterAhead(run[1..], t);
      assert run == [run[0]] + run[1..];
      if !RecLess(t, run[0]) {
        var r := FirstAfter(run[1..], t);
        assert r.Some? ==> RecLess(run[0], r.value) by { HeadLeast(run); }
        assert AheadOf(run, r) == AheadOf(run[1..], r);
      } else {
        HeadLeast(run);
        forall x | x in run
          ensures RecLess(t, x) && !RecLess(x, run[0])
        {
          if x == run[0] {
            RecIrreflexive(x);
          } else {
            RecAsymmetric(run[0], x);
            RecTransitive(t, run[0], x);
          }
        }
      }
    }
  }

  lemma HeadLeast(run: seq<Record>)
    requires Ascending(run) && run != []
    ensures forall x | x in run[1..] :: RecLess(run[0], x)
    ensures forall x | x in run :: x == run[0] || RecLess(run[0], x)
  {
    assert forall i | 0 <= i < |run[1..]| :: run[1..][i] == run[i + 1];
  }

  /** Moving past a child's current record removes just it. */
  lemma {:induction false} NextAhead(run: seq<Record>, r: Record)
    requires Ascending(run) && r in run
    ensures AheadOf(run, FirstAfter(run, r)) == AheadOf(run, Some(r)) - {r}
  {
    hide RecLess, Ascending, FirstAfter;
    AfterAhead(run, r);
    forall x | x in run
      ensures RecLess(r, x) <==> !RecLess(x, r) && x != r
    {
      RunTotal(run, x, r);
      if RecLess(r, x) {
        RecAsymmetric(r, x);
      }
      RecIrreflexive(r);
    }
  }

  lemma RunTotal(run: seq<Record>, x: Record, y: Record)
    requires Ascending(run) && x in run && y in run
    ensures x == y || RecLess(x, y) || RecLess(y, x)
  {
    hide RecLess;
    var i :| 0 <= i < |run| && run[i] == x;
    var j :| 0 <= j < |run| && run[j] == y;
  }

  // ------------------------------------------------------------ all children

  type Runs = seq<seq<Record>>

  type Cursors = seq<Option<Record>>

  ghost predicate Apart(a: seq<Record>, b: seq<Record>) {
    forall x, y | x in a && y in b :: x.seqno != y.seqno
  }

  /** Sorted sources with no internal key twice, and records yet to be written to the first. */
  ghost predicate SourcesOk(runs: Runs, incoming: seq<Record>) {
    && (forall i | 0 <= i < |runs| :: Ascending(runs[i]))
    && (forall i, j | 0 <= i < j < |runs| :: Apart(runs[i], runs[j]))
    && (forall i | 0 <= i < |runs| :: Apart(runs[i], incoming))
    && (forall i, j | 0 <= i < j < |incoming| :: incoming[i].seqno != incoming[j].seqno)
    && (incoming != [] ==> runs != [])
  }

  ghost predicate CursorsOk(runs: Runs, cur: Cursors) {
    |cur| == |runs| && forall c | 0 <= c < |cur| && cur[c].Some? :: cur[c].value in runs[c]
  }

  /** The heap holds each positioned child once, the least in front. */
  ghost predicate HeapOk(cur: Cursors, h: seq<nat>) {
    && (forall i | 0 <= i < |h| :: h[i] < |cur| && cur[h[i]].Some?)
    && (forall i, j | 0 <= i < j < |h| :: h[i] != h[j])
    && (forall c: nat | c < |cur| && cur[c].Some? :: c in h)
  }

  ghost predicate LeastFront(cur: Cursors, h: seq<nat>)
    requires HeapOk(cur, h)
  {
    forall i | 0 < i < |h| :: RecLess(cur[h[0]].value, cur[h[i]].value)
  }

  ghost function AheadAll(runs: Runs, cur: Cursors): set<Record>
    requires |cur| == |runs|
  {
    set c, x | 0 <= c < |runs| && x in AheadOf(runs[c], cur[c]) :: x
  }

  /** Finds the least child: what the heap's sift leaves in front. */
  method Least(runs: Runs, cur: Cursors, h: seq<nat>) returns (m: nat)
    requires SourcesOk(runs, []) && CursorsOk(runs, cur) && HeapOk(cur, h) && h != []
    ensures m < |h| && forall i | 0 <= i < |h| && i != m :: RecLess(cur[h[m]].value, cur[h[i]].value)
  {
    hide RecLess, Ascending;
    m := 0;
    var i := 1;
    while i < |h|
      invariant 1 <= i <= |h| && m < i
      invariant forall j | 0 <= j < i && j != m :: RecLess(cur[h[m]].value, cur[h[j]].value)
    {
      if RecLess(cur[h[i]].value, cur[h[m]].value) {
        forall j | 0 <= j < i && j != m
          ensures RecLess(cur[h[i]].value, cur[h[j]].value)
        {
          RecTransitive(cur[h[i]].value, cur[h[m]].value, cur[h[j]].value);
        }
        m := i;
      } else {
        SourcesTotal(runs, cur, h[m], h[i]);
      }
      i := i + 1;
    }
  }

  lemma SourcesTotal(runs: Runs, cur: Cursors, a: nat, b: nat)
    requires SourcesOk(runs, []) && CursorsOk(runs, cur) && a != b && a < |cur| && b < |cur| && cur[a].Some? && cur[b].Some?
    ensures RecLess(cur[a].value, cur[b].value) || RecLess(cur[b].value, cur[a].value)
  {
    hide Ascending;
    RecTotal(cur[a].value, cur[b].value);
    if a < b {
      assert Apart(runs[a], runs[b]);
    } else {
      assert Apart(runs[b], runs[a]);
    }
  }

  /** The front child's record is the least of everything ahead. */
  lemma FrontLeast(runs: Runs, cur: Cursors, h: seq<nat>, x: Record)
    requires SourcesOk(runs, []) && CursorsOk(runs, cur) && HeapOk(cur, h) && h != [] && LeastFront(cur, h)
    requires x in AheadAll(runs, cur)
    ensures x == cur[h[0]].value || RecLess(cur[h[0]].value, x)
  {
    hide RecLess, Ascending;
    var c :| 0 <= c < |runs| && x in AheadOf(runs[c], cur[c]);
    var r := cur[h[0]].value;
    RunTotal(runs[c], x, cur[c].value);
    if c != h[0] {
      var i :| 0 <= i < |h| && h[i] == c;
      assert RecLess(r, cur[c].value);
      if x != cur[c].value {
        RecTransitive(r, cur[c].value, x);
      }
    }
  }

  /** Advancing the front child removes just its record from what is ahead. */
  lemma AdvanceAhead(runs: Runs, cur: Cursors, c: nat)
    requires SourcesOk(runs, []) && CursorsOk(runs, cur) && c < |cur| && cur[c].Some?
    ensures var next := cur[c := FirstAfter(runs[c], cur[c].value)];
            CursorsOk(runs, next) && AheadAll(runs, next) == AheadAll(runs, cur) - {cur[c].value}
  {
    hide RecLess, Ascending, FirstAfter;
    var r := cur[c].value;
    var next := cur[c := FirstAfter(runs[c], r)];
    NextAhead(runs[c], r);
    forall x
      ensures x in AheadAll(runs, next) <==> x in AheadAll(runs, cur) && x != r
    {
      if x in AheadAll(runs, next) {
        var d :| 0 <= d < |runs| && x in AheadOf(runs[d], next[d]);
        assert x in AheadOf(runs[d], cur[d]);
        if d != c {
          assert Apart(runs[Min(c, d)], runs[Max(c, d)]);
        }
      }
      if x in AheadAll(runs, cur) && x != r {
        var d :| 0 <= d < |runs| && x in AheadOf(runs[d], cur[d]);
        assert x in AheadOf(runs[d], next[d]);
      }
    }
  }

  /** A write landing in the first source adds nothing but itself. */
  lemma AbsorbAhead(runs: Runs, cur: Cursors, incoming: seq<Record>)
    requires SourcesOk(runs, incoming) && CursorsOk(runs, cur) && incoming != []
    ensures var next := runs[0 := Insert(runs[0], incoming[0])];
            && SourcesOk(next, incoming[1..]) && CursorsOk(next, cur)
            && AheadAll(runs, cur) <= AheadAll(next, cur) <= AheadAll(runs, cur) + {incoming[0]}
  {
    hide RecLess, Ascending, Insert;
    var y := incoming[0];
    var next := runs[0 := Insert(runs[0], y)];
    InsertElems(runs[0], y);
    assert forall x :: x in next[0] <==> x in Elems(next[0]);
    assert forall x :: x in runs[0] <==> x in Elems(runs[0]);
    InsertAscending(runs[0], y);
    forall i, j | 0 <= i < j < |next|
      ensures Apart(next[i], next[j])
    {
      assert Apart(runs[i], runs[j]) && Apart(runs[j], incoming);
    }
    forall i | 0 <= i < |next|
      ensures Apart(next[i], incoming[1..])
    {
      assert Apart(runs[i], incoming);
    }
    forall x | x in AheadAll(runs, cur)
      ensures x in AheadAll(next, cur)
    {
      var d :| 0 <= d < |runs| && x in AheadOf(runs[d], cur[d]);
      assert x in AheadOf(next[d], cur[d]);
    }
    forall x | x in AheadAll(next, cur)
      ensures x in AheadAll(runs, cur) || x == y
    {
      var d :| 0 <= d < |next| && x in AheadOf(next[d], cur[d]);
      assert x == y || x in AheadOf(runs[d], cur[d]);
    }
  }

  /** With every child repositioned at `t`, what is ahead is what is not before `t`. */
  lemma {:induction false} SeekAhead(runs: Runs, cur: Cursors, t: Record)
    requires SourcesOk(runs, []) && |cur| == |runs| && forall c | 0 <= c < |runs| :: cur[c] == FirstFrom(runs[c], t)
    ensures AheadAll(runs, cur) == set x | x in All(runs) && !RecLess(x, t)
  {
    hide RecLess, Ascending, FirstFrom;
    forall x
      ensures x in AheadAll(runs, cur) <==> x in All(runs) && !RecLess(x, t)
    {
      if x in AheadAll(runs, cur) {
        var d :| 0 <= d < |runs| && x in AheadOf(runs[d], cur[d]);
        FromAhead(runs[d], t);
      }
      if x in All(runs) && !RecLess(x, t) {
        var d :| 0 <= d < |runs| && x in runs[d];
        FromAhead(runs[d], t);
        assert x in AheadOf(runs[d], cur[d]);
      }
    }
  }

  function HeadOf(run: seq<Record>): Option<Record> {
    if run == [] then None else Some(run[0])
  }

  lemma FirstAhead(runs: Runs, cur: Cursors)
    requires SourcesOk(runs, []) && |cur| == |runs| && forall c | 0 <= c < |runs| :: cur[c] == HeadOf(runs[c])
    ensures AheadAll(runs, cur) == All(runs)
  {
    hide RecLess, Ascending;
    forall x
      ensures x in AheadAll(runs, cur) <==> x in All(runs)
    {
      if x in AheadAll(runs, cur) {
        var d :| 0 <= d < |runs| && x in AheadOf(runs[d], cur[d]);
        assert x in runs[d];
      }
      if x in All(runs) {
        var d :| 0 <= d < |runs| && x in runs[d];
        HeadLeast(runs[d]);
        if x != runs[d][0] {
          RecAsymmetric(runs[d][0], x);
        }
        RecIrreflexive(x);
        assert x in AheadOf(runs[d], cur[d]);
      }
    }
  }
}

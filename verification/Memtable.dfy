/** The memtable's skiplist: one writer splicing nodes in by single pointer
    stores, readers walking it meanwhile. */
module Memtable {
  import opened Common
  import opened Keys
  import opened Merge

  const MAX_HEIGHT: nat := 12

  /** A place a pointer can be read from: the head, or the node of a record. */
  type Place = Option<Record>

  /** The pointers of one level. */
  type Pointers = map<Place, Option<Record>>

  /** The shared memory: every level's pointers, and the height readers start at. */
  datatype Memory = Memory(next: seq<Pointers>, height: nat)

  /** What each level links, in order. */
  type Lists = seq<seq<Record>>

  function After(list: seq<Record>, i: int): Option<Record>
    requires -1 <= i < |list|
  {
    if i + 1 < |list| then Some(list[i + 1]) else None
  }

  /** Following the pointers from the head visits exactly `list`. */
  ghost predicate Chain(p: Pointers, list: seq<Record>) {
    && None in p && p[None] == After(list, -1)
    && forall i | 0 <= i < |list| :: Some(list[i]) in p && p[Some(list[i])] == After(list, i)
  }

  ghost predicate Within(a: seq<Record>, b: seq<Record>) {
    forall x | x in a :: x in b
  }

  /** Each level is sorted and a sublist of the one below; none reaches past the height. */
  ghost predicate MemoryOk(m: Memory, v: Lists) {
    && |m.next| == MAX_HEIGHT && |v| == MAX_HEIGHT && 1 <= m.height <= MAX_HEIGHT
    && (forall l | 0 <= l < MAX_HEIGHT :: Chain(m.next[l], v[l]) && Ascending(v[l]))
    && (forall l | 0 < l < MAX_HEIGHT :: Within(v[l], v[l - 1]))
    && (forall l | m.height <= l < MAX_HEIGHT :: v[l] == [])
  }

  /** Nothing is unlinked. */
  ghost predicate Grows(v: Lists, w: Lists) {
    |v| == |w| == MAX_HEIGHT && forall l | 0 <= l < MAX_HEIGHT :: Within(v[l], w[l])
  }

  /** Memory over time, one pointer store after another. */
  ghost predicate History(ms: seq<Memory>, vs: seq<Lists>) {
    && |ms| == |vs| > 0
    && (forall i | 0 <= i < |ms| :: MemoryOk(ms[i], vs[i]))
    && (forall i, j | 0 <= i < j < |ms| :: Grows(vs[i], vs[j]))
    && (forall i, j | 0 <= i < j < |ms| :: ms[i].height <= ms[j].height)
  }

  // --------------------------------------------------------------- one level

  predicate Before(x: Place, r: Record) {
    x.None? || RecLess(x.value, r)
  }

  ghost predicate Linked(list: seq<Record>, x: Place) {
    x.None? || x.value in list
  }

  /** The node at position `i` precedes `r`, so `r` is the next node or comes after it. */
  lemma SuccessorAt(list: seq<Record>, i: int, r: Record)
    requires Ascending(list) && -1 <= i < |list| && r in list && (i >= 0 ==> RecLess(list[i], r))
    ensures i + 1 < |list| && (list[i + 1] == r || RecLess(list[i + 1], r))
  {
    hide RecLess;
    var j :| 0 <= j < |list| && list[j] == r;
    if 0 <= j <= i {
      RecIrreflexive(r);
      if j < i {
        RecAsymmetric(r, list[i]);
      }
    }
  }

  /** What a node's pointer leads to is the least record after it. */
  lemma Successor(p: Pointers, list: seq<Record>, x: Place)
    requires Chain(p, list) && Ascending(list) && Linked(list, x)
    ensures x in p
    ensures p[x].Some? ==> p[x].value in list && Before(x, p[x].value)
    ensures forall r | r in list && Before(x, r) :: p[x].Some? && (p[x].value == r || RecLess(p[x].value, r))
  {
    hide RecLess;
    var i := -1;
    if x.Some? {
      i :| 0 <= i < |list| && list[i] == x.value;
    }
    assert x in p && p[x] == After(list, i);
    forall r | r in list && Before(x, r)
      ensures p[x].Some? && (p[x].value == r || RecLess(p[x].value, r))
    {
      SuccessorAt(list, i, r);
    }
  }

  // ------------------------------------------------------------- the reader

  /** The records of the last memory past a place: what is left to walk. */
  ghost function Ahead(v: Lists, x: Place): set<Record>
    requires |v| == MAX_HEIGHT
  {
    set r | r in v[0] && Before(x, r)
  }

  lemma {:induction false} LowerHolds(v: Lists, l: nat, m: nat, r: Record)
    requires |v| == MAX_HEIGHT && m <= l < MAX_HEIGHT && r in v[l] && forall l | 0 < l < MAX_HEIGHT :: Within(v[l], v[l - 1])
    ensures r in v[m]
    decreases l
  {
    if m < l {
      assert Within(v[l], v[l - 1]);
      LowerHolds(v, l - 1, m, r);
    }
  }

  /** A reader's search for the first record not before `key`, loading one pointer
      at a time from memory as it is at that moment. */
  method FindGE(ms: seq<Memory>, ghost vs: seq<Lists>, start: nat, key: Record) returns (res: Option<Record>, end: nat)
    requires History(ms, vs) && start < |ms|
    ensures start <= end < |ms|
    ensures res.Some? ==> res.value in vs[end][0] && !RecLess(res.value, key)
    ensures forall r | r in vs[start][0] && !RecLess(r, key) :: res.Some? && (res.value == r || RecLess(res.value, r))
  {
    hide RecLess, Ascending, Chain;
    var x: Place := None;
    end := Later(start, |ms|);
    var level := ms[end].height - 1;
    ghost var last := vs[|vs| - 1];
    while true
      invariant start <= end < |ms| && 0 <= level < MAX_HEIGHT
      invariant Linked(vs[end][level], x) && Before(x, key)
      decreases |Ahead(last, x)|, level
    {
      var was := end;
      end := Later(end, |ms|);
      GrownLink(ms, vs, was, end, level, x);
      Successor(ms[end].next[level], vs[end][level], x);
      var next := ms[end].next[level][x];
      if next.Some? && RecLess(next.value, key) {
        StillAhead(ms, vs, end, level, x, next.value);
        x := next;
      } else if level == 0 {
        assert forall r | r in vs[start][0] && !RecLess(r, key) :: next.Some? && (next.value == r || RecLess(next.value, r)) by {
          Overtakes(ms, vs, start, end, x, next, key);
        }
        return next, end;
      } else {
        DownLink(ms, vs, end, level, x);
        level := level - 1;
      }
    }
  }

  /** Some moment from `t` on. */
  method Later(t: nat, n: nat) returns (u: nat)
    requires t < n
    ensures t <= u < n
  {
    var d: int := *;
    u := if t <= d < n then d else t;
  }

  lemma GrownLink(ms: seq<Memory>, vs: seq<Lists>, a: nat, b: nat, level: nat, x: Place)
    requires History(ms, vs) && a <= b < |ms| && level < MAX_HEIGHT && Linked(vs[a][level], x)
    ensures Linked(vs[b][level], x) && Chain(ms[b].next[level], vs[b][level]) && Ascending(vs[b][level])
  {
    hide Ascending, Chain;
    assert MemoryOk(ms[b], vs[b]);
    if a < b {
      assert Grows(vs[a], vs[b]);
      assert Within(vs[a][level], vs[b][level]);
    }
  }

  lemma DownLink(ms: seq<Memory>, vs: seq<Lists>, t: nat, level: nat, x: Place)
    requires History(ms, vs) && t < |ms| && 0 < level < MAX_HEIGHT && Linked(vs[t][level], x)
    ensures Linked(vs[t][level - 1], x)
  {
    hide Ascending, Chain;
    assert MemoryOk(ms[t], vs[t]);
    assert Within(vs[t][level], vs[t][level - 1]);
  }

  /** Moving right leaves less of the last memory ahead. */
  lemma StillAhead(ms: seq<Memory>, vs: seq<Lists>, t: nat, level: nat, x: Place, r: Record)
    requires History(ms, vs) && t < |ms| && level < MAX_HEIGHT && r in vs[t][level] && Before(x, r)
    ensures var last := vs[|vs| - 1]; |last| == MAX_HEIGHT && |Ahead(last, Some(r))| < |Ahead(last, x)|
  {
    hide Ascending, Chain, RecLess;
    var n := |vs| - 1;
    var last := vs[n];
    assert MemoryOk(ms[t], vs[t]) && MemoryOk(ms[n], last);
    LowerHolds(vs[t], level, 0, r);
    if t < n {
      assert Grows(vs[t], last);
      assert Within(vs[t][0], last[0]);
    }
    assert r in Ahead(last, x);
    RecIrreflexive(r);
    assert Ahead(last, Some(r)) <= Ahead(last, x) - {r} by {
      forall q | q in Ahead(last, Some(r))
        ensures q in Ahead(last, x) && q != r
      {
        if x.Some? {
          RecTransitive(x.value, r, q);
        }
      }
    }
    SubsetSize(Ahead(last, Some(r)), Ahead(last, x) - {r});
  }

  /** The last hop passes nothing that was there when the search began. */
  lemma Overtakes(ms: seq<Memory>, vs: seq<Lists>, start: nat, end: nat, x: Place, next: Option<Record>, key: Record)
    requires History(ms, vs) && start <= end < |ms| && Before(x, key)
    requires forall r | r in vs[end][0] && Before(x, r) :: next.Some? && (next.value == r || RecLess(next.value, r))
    ensures forall r | r in vs[start][0] && !RecLess(r, key) :: next.Some? && (next.value == r || RecLess(next.value, r))
  {
    hide Ascending, Chain;
    assert MemoryOk(ms[start], vs[start]) && MemoryOk(ms[end], vs[end]);
    forall r | r in vs[start][0] && !RecLess(r, key)
      ensures r in vs[end][0] && Before(x, r)
    {
      if start < end {
        assert Grows(vs[start], vs[end]);
        assert Within(vs[start][0], vs[end][0]);
      }
      if x.Some? {
        NotBefore(x.value, key, r);
      }
    }
  }

  lemma NotBefore(x: Record, key: Record, r: Record)
    requires RecLess(x, key) && !RecLess(r, key)
    ensures RecLess(x, r)
  {
    hide KeyLess;
    RecTotal(x, r);
    if RecLess(r, x) {
      RecTransitive(r, x, key);
    }
  }

  /** Nothing at or below `s` lands after `start`: the writes a reader at `s` may see
      were published before it began. */
  ghost predicate Complete(vs: seq<Lists>, start: nat, s: nat)
    requires start < |vs| && forall t | 0 <= t < |vs| :: |vs[t]| == MAX_HEIGHT
  {
    forall t, x | start <= t < |vs| && x in vs[t][0] && x.seqno <= s :: x in vs[start][0]
  }

  /** The first visible version in a run sorts before every other visible one. */
  lemma {:induction false} FirstVisible(run: seq<Record>, key: Bytes, s: nat, x: Record)
    requires Ascending(run) && x in run && x.key == key && x.seqno <= s
    ensures RunGet(run, key, s).Some? && (RunGet(run, key, s).value == x || RecLess(RunGet(run, key, s).value, x))
  {
    hide RecLess;
    if !(run[0].key == key && run[0].seqno <= s) {
      FirstVisible(run[1..], key, s, x);
    }
  }

  /** A point read concurrent with writes: a version at least as new as any that was
      there when the read began and is visible at `s`; and when the writes up to `s` were
      published before, exactly what the sorted run of records holds for the key. */
  method Get(ms: seq<Memory>, ghost vs: seq<Lists>, start: nat, key: Bytes, s: nat) returns (res: Option<Record>, end: nat)
    requires History(ms, vs) && start < |ms|
    ensures start <= end < |ms|
    ensures res.Some? ==> res.value in vs[end][0] && res.value.key == key && res.value.seqno <= s
    ensures forall r | r in vs[start][0] && r.key == key && r.seqno <= s :: res.Some? && res.value.seqno >= r.seqno
    ensures (forall t | 0 <= t < |vs| :: |vs[t]| == MAX_HEIGHT) && (Complete(vs, start, s) ==> res == RunGet(vs[start][0], key, s))
  {
    hide KeyLess;
    assert forall t | 0 <= t < |vs| :: |vs[t]| == MAX_HEIGHT by { Levels(ms, vs); }
    var seek := Record(key, s, Put, []);
    KeyIrreflexive(key);
    var n;
    n, end := FindGE(ms, vs, start, seek);
    res := None;
    if n.Some? && n.value.key == key {
      res := n;
    }
    forall r | r in vs[start][0] && r.key == key && r.seqno <= s
      ensures res.Some? && res.value.seqno >= r.seqno
    {
      assert !RecLess(r, seek);
      assert n.value == r || RecLess(n.value, r);
      NewestFirst(n.value, r, seek);
    }
    if Complete(vs, start, s) {
      SameAnswer(ms, vs, start, key, s, res);
    }
  }

  lemma Levels(ms: seq<Memory>, vs: seq<Lists>)
    requires History(ms, vs)
    ensures forall t | 0 <= t < |vs| :: |vs[t]| == MAX_HEIGHT && Ascending(vs[t][0])
  {
    hide Ascending, Chain;
    forall t | 0 <= t < |vs|
      ensures |vs[t]| == MAX_HEIGHT && Ascending(vs[t][0])
    {
      assert MemoryOk(ms[t], vs[t]);
    }
  }

  lemma {:induction false} SameAnswer(ms: seq<Memory>, vs: seq<Lists>, start: nat, key: Bytes, s: nat, res: Option<Record>)
    requires History(ms, vs) && start < |ms| && (forall t | 0 <= t < |vs| :: |vs[t]| == MAX_HEIGHT) && Complete(vs, start, s)
    requires res.Some? ==> res.value.key == key && res.value.seqno <= s && exists t :: start <= t < |vs| && res.value in vs[t][0]
    requires forall r | r in vs[start][0] && r.key == key && r.seqno <= s :: res.Some? && (res.value == r || RecLess(res.value, r))
    ensures res == RunGet(vs[start][0], key, s)
  {
    hide RecLess, RunGet, Ascending;
    Levels(ms, vs);
    var g := RunGet(vs[start][0], key, s);
    if res.Some? {
      FirstVisible(vs[start][0], key, s, res.value);
      if g.value != res.value {
        RecAsymmetric(g.value, res.value);
      }
    }
  }

  lemma NewestFirst(n: Record, r: Record, seek: Record)
    requires !RecLess(n, seek) && r.key == seek.key && (n == r || RecLess(n, r))
    ensures n.key == r.key && n.seqno >= r.seqno
  {
    hide KeyLess;
    KeyTotal(n.key, seek.key);
    if KeyLess(seek.key, n.key) {
      KeyAsymmetric(seek.key, n.key);
    }
  }

  // -------------------------------------------------------------- the writer

  /** Filling in an unlinked node's own pointer changes no list. */
  lemma InitKeeps(p: Pointers, list: seq<Record>, r: Record, to: Option<Record>)
    requires Chain(p, list) && r !in list
    ensures Chain(p[Some(r) := to], list)
  {
  }

  /** Where a record goes: right after the last node before it. */
  lemma {:induction false} RankAfter(list: seq<Record>, i: int, r: Record)
    requires Ascending(list) && -1 <= i < |list| && (i >= 0 ==> RecLess(list[i], r))
    requires i + 1 < |list| ==> RecLess(r, list[i + 1])
    ensures Rank(list, r) == i + 1
  {
    hide RecLess, Rank;
    var k := Rank(list, r);
    if k < i + 1 {
      if k < i {
        RecTransitive(list[k], list[i], r);
      }
    }
    if k > i + 1 {
      RecAsymmetric(r, list[i + 1]);
    }
  }

  /** The list with a record put in behind position `i`. */
  function Spliced(list: seq<Record>, i: int, r: Record): (t: seq<Record>)
    requires -1 <= i < |list|
    ensures |t| == |list| + 1
  {
    list[..i + 1] + [r] + list[i + 1..]
  }

  lemma SplicedAt(list: seq<Record>, i: int, r: Record, a: nat)
    requires -1 <= i < |list| && a <= |list|
    ensures Spliced(list, i, r)[a] == if a <= i then list[a] else if a == i + 1 then r else list[a - 1]
  {
  }

  lemma SplicedAscends(list: seq<Record>, i: int, r: Record)
    requires Ascending(list) && -1 <= i < |list| && (i >= 0 ==> RecLess(list[i], r)) && (i + 1 < |list| ==> RecLess(r, list[i + 1]))
    ensures Ascending(Spliced(list, i, r))
  {
    hide RecLess, Spliced;
    var t := Spliced(list, i, r);
    forall a, b | 0 <= a < b < |t|
      ensures RecLess(t[a], t[b])
    {
      InOrder(list, i, r, a, b);
    }
  }

  /** Following the pointers once the predecessor leads to the new node. */
  lemma SplicedChain(p: Pointers, list: seq<Record>, i: int, x: Place, r: Record)
    requires Chain(p, list) && Ascending(list) && -1 <= i < |list| && r !in list
    requires x == (if i < 0 then None else Some(list[i])) && Some(r) in p && p[Some(r)] == After(list, i)
    ensures Chain(p[x := Some(r)], Spliced(list, i, r))
  {
    hide Ascending, Spliced;
    NoTwin(list, i);
    var q, t := p[x := Some(r)], Spliced(list, i, r);
    SplicedAt(list, i, r, 0);
    assert q[None] == After(t, -1);
    forall a | 0 <= a < |t|
      ensures Some(t[a]) in q && q[Some(t[a])] == After(t, a)
    {
      SplicedAt(list, i, r, a);
      if a < |list| {
        SplicedAt(list, i, r, a + 1);
      }
      if a <= i {
        assert p[Some(list[a])] == After(list, a);
      } else if a > i + 1 {
        assert p[Some(list[a - 1])] == After(list, a - 1);
        assert Some(list[a - 1]) != x;
      }
    }
  }

  /** One pointer store links a prepared node into a level, in order. */
  lemma SpliceKeeps(p: Pointers, list: seq<Record>, x: Place, r: Record)
    requires Chain(p, list) && Ascending(list) && Linked(list, x) && Before(x, r) && r !in list
    requires x in p && Some(r) in p && p[Some(r)] == p[x] && (p[x].Some? ==> RecLess(r, p[x].value))
    ensures Chain(p[x := Some(r)], Insert(list, r)) && Ascending(Insert(list, r)) && Elems(Insert(list, r)) == Elems(list) + {r}
  {
    hide RecLess, Insert, Rank, Ascending, Spliced;
    var i := -1;
    if x.Some? {
      i :| 0 <= i < |list| && list[i] == x.value;
    }
    assert p[x] == After(list, i);
    RankAfter(list, i, r);
    InsertElems(list, r);
    InsertedAt(list, r, i);
    SplicedAscends(list, i, r);
    SplicedChain(p, list, i, x, r);
  }

  lemma {:induction false} InsertedAt(list: seq<Record>, r: Record, i: int)
    requires -1 <= i < |list| && Rank(list, r) == i + 1
    ensures Insert(list, r) == Spliced(list, i, r)
  {
    hide Rank;
  }

  /** A sorted list holds a record once. */
  lemma NoTwin(list: seq<Record>, i: int)
    requires Ascending(list) && -1 <= i < |list|
    ensures i >= 0 ==> forall j | 0 <= j < |list| && j != i :: list[j] != list[i]
  {
    hide RecLess;
    if i >= 0 {
      RecIrreflexive(list[i]);
    }
  }

  lemma InOrder(list: seq<Record>, i: int, r: Record, a: nat, b: nat)
    requires Ascending(list) && -1 <= i < |list| && (i >= 0 ==> RecLess(list[i], r)) && (i + 1 < |list| ==> RecLess(r, list[i + 1]))
    requires a < b <= |list|
    ensures RecLess(Spliced(list, i, r)[a], Spliced(list, i, r)[b])
  {
    hide RecLess, Spliced;
    SplicedAt(list, i, r, a);
    SplicedAt(list, i, r, b);
    if b == i + 1 && a < i {
      RecTransitive(list[a], list[i], r);
    }
    if a == i + 1 && b > i + 2 {
      RecTransitive(r, list[i + 1], list[b - 1]);
    }
  }

  lemma HistoryGrows(ms: seq<Memory>, vs: seq<Lists>, m: Memory, v: Lists)
    requires History(ms, vs) && MemoryOk(m, v) && Grows(vs[|vs| - 1], v) && ms[|ms| - 1].height <= m.height
    ensures History(ms + [m], vs + [v])
  {
    hide MemoryOk;
    var n := |ms| - 1;
    forall i | 0 <= i < n
      ensures Grows(vs[i], v)
    {
      assert Grows(vs[i], vs[n]);
      GrowsOn(vs[i], vs[n], v);
    }
  }

  lemma GrowsOn(u: Lists, v: Lists, w: Lists)
    requires Grows(u, v) && Grows(v, w)
    ensures Grows(u, w)
  {
    forall l | 0 <= l < MAX_HEIGHT
      ensures Within(u[l], w[l])
    {
      assert Within(u[l], v[l]) && Within(v[l], w[l]);
    }
  }

  lemma SameGrows(v: Lists)
    requires |v| == MAX_HEIGHT
    ensures Grows(v, v)
  {
  }

  lemma InsertGrows(v: Lists, l: nat, r: Record)
    requires |v| == MAX_HEIGHT && l < MAX_HEIGHT
    ensures Grows(v, v[l := Insert(v[l], r)])
  {
    hide Insert;
    InsertElems(v[l], r);
    var w := v[l := Insert(v[l], r)];
    forall k | 0 <= k < MAX_HEIGHT
      ensures Within(v[k], w[k])
    {
      forall x | x in v[k]
        ensures x in w[k]
      {
        assert x in Elems(v[k]);
        assert k == l ==> x in Elems(w[k]);
      }
    }
  }

  /** The levels `r` is linked into once it has been published up to `k`. */
  function Published(v: Lists, r: Record, k: nat): (w: Lists)
    ensures |w| == |v|
  {
    seq(|v|, l requires 0 <= l < |v| => if l < k then Insert(v[l], r) else v[l])
  }

  /** One more store, recorded: the history of every reader's view goes on. */
  lemma PublishNext(ms: seq<Memory>, vs: seq<Lists>, m: Memory, was: Lists, preds: seq<Place>, r: Record, i: nat)
    requires |was| == MAX_HEIGHT && i < m.height && |preds| == MAX_HEIGHT && MemoryOk(m, Published(was, r, i))
    requires Ready(m.next[i], was[i], preds[i], r)
    requires forall l, y | 0 <= l < MAX_HEIGHT && y in was[l] :: !SameKey(y, r)
    requires History(ms, vs) && ms[|ms| - 1] == m && vs[|vs| - 1] == Published(was, r, i)
    ensures var n, v := m.(next := m.next[i := m.next[i][preds[i] := Some(r)]]), Published(was, r, i + 1);
            MemoryOk(n, v) && History(ms + [n], vs + [v])
  {
    hide RecLess, Ascending, Chain, History, Insert, Ready;
    var v := Published(was, r, i);
    PublishStep(m, was, preds, r, i);
    InsertGrows(v, i, r);
    assert v[i := Insert(v[i], r)] == Published(was, r, i + 1);
    HistoryGrows(ms, vs, m.(next := m.next[i := m.next[i][preds[i] := Some(r)]]), Published(was, r, i + 1));
  }

  class MemTable {
    var next: seq<Pointers>
    var height: nat
    ghost var lists: Lists
    ghost var ms: seq<Memory>
    ghost var vs: seq<Lists>

    ghost function Now(): Memory
      reads this
    {
      Memory(next, height)
    }

    /** Memory is in order now and was after every store so far. */
    ghost predicate Valid()
      reads this
    {
      MemoryOk(Now(), lists) && History(ms, vs) && ms[|ms| - 1] == Now() && vs[|vs| - 1] == lists
    }

    constructor ()
      ensures Valid() && forall l | 0 <= l < MAX_HEIGHT :: lists[l] == []
    {
      next := seq(MAX_HEIGHT, _ => map[None := None]);
      height := 1;
      lists := seq(MAX_HEIGHT, _ => []);
      new;
      ms, vs := [Now()], [lists];
    }

    /** Per level, the last node before `key`, and the first node not before it. */
    method FindPreds(key: Record) returns (preds: seq<Place>, node: Option<Record>)
      requires Valid()
      ensures |preds| == MAX_HEIGHT && forall l | 0 <= l < height :: PredOf(next[l], lists[l], preds[l], key)
      ensures None in next[0] && preds[0] in next[0] && node == next[0][preds[0]]
      ensures forall l | height <= l < MAX_HEIGHT :: preds[l] == None
    {
      hide RecLess, Ascending, Chain, History;
      preds := seq(MAX_HEIGHT, _ => None);
      var x: Place := None;
      var level := height - 1;
      while true
        invariant 0 <= level < height && |preds| == MAX_HEIGHT
        invariant Linked(lists[level], x) && Before(x, key)
        invariant forall l | level < l < height :: PredOf(next[l], lists[l], preds[l], key)
        invariant forall l | height <= l < MAX_HEIGHT :: preds[l] == None
        decreases level, |Ahead(lists, x)|
      {
        Successor(next[level], lists[level], x);
        var n := next[level][x];
        if n.Some? && RecLess(n.value, key) {
          StillAhead([Now()], [lists], 0, level, x, n.value) by { OneMoment(Now(), lists); }
          x := n;
        } else {
          preds := preds[level := x];
          if level == 0 {
            Successor(next[0], lists[0], None);
            return preds, n;
          }
          assert Within(lists[level], lists[level - 1]);
          level := level - 1;
        }
      }
    }

    /** Inserts a record at a height of the caller's choice; a record already there is a logic error. */
    method Add(r: Record, h: nat) returns (out: Outcome)
      requires Valid() && 1 <= h <= MAX_HEIGHT
      modifies this
      ensures out.Panicked? <==> exists x | x in old(lists[0]) :: SameKey(x, r)
      ensures Valid() && old(ms) <= ms && old(vs) <= vs
      ensures out.Done? ==> lists == Published(old(lists), r, h)
      ensures out.Panicked? ==> lists == old(lists)
    {
      hide RecLess, Ascending, Chain, History, Insert;
      var preds, n := FindPreds(r);
      if n.Some? && SameKey(n.value, r) {
        Successor(next[0], lists[0], preds[0]);
        return Panicked;
      }
      NotThere(next[0], lists[0], preds[0], r);
      ghost var was := lists;
      Nowhere(Now(), lists, r);
      forall l | 0 <= l < MAX_HEIGHT
        ensures PredOf(next[l], lists[l], preds[l], r)
      {
        if l >= height {
          EmptyPred(Now(), lists, l, r);
        }
      }
      if h > height {
        Raise(h);
      }
      Prepare(r, preds, h);
      PublishAll(r, preds, h, was);
      out := Done;
    }

    /** A taller node raises the height readers start at; the new levels are empty. */
    method Raise(h: nat)
      requires Valid() && height <= h <= MAX_HEIGHT
      modifies this
      ensures Valid() && lists == old(lists) && next == old(next) && height == h && old(ms) <= ms && old(vs) <= vs
    {
      hide MemoryOk, History;
      SameGrows(lists) by { ListsLong(Now(), lists); }
      RaiseOk(Now(), lists, h);
      HistoryGrows(ms, vs, Memory(next, h), lists);
      height := h;
      ms, vs := ms + [Now()], vs + [lists];
    }

    /** Fills in the new node's own pointers before any other node leads to it. */
    method Prepare(r: Record, preds: seq<Place>, h: nat)
      requires Valid() && h <= height && |preds| == MAX_HEIGHT && (forall l | 0 <= l < MAX_HEIGHT :: r !in lists[l])
      requires forall l | 0 <= l < h :: PredOf(next[l], lists[l], preds[l], r)
      modifies this
      ensures Valid() && lists == old(lists) && height == old(height) && old(ms) <= ms && old(vs) <= vs
      ensures forall l | 0 <= l < h :: Ready(next[l], lists[l], preds[l], r)
    {
      hide RecLess, Ascending, Chain, History, PredOf;
      var i := 0;
      while i < h
        invariant 0 <= i <= h && Valid() && lists == old(lists) && height == old(height) && old(ms) <= ms && old(vs) <= vs
        invariant forall l | 0 <= l < h :: PredOf(next[l], lists[l], preds[l], r)
        invariant forall l | 0 <= l < i :: Ready(next[l], lists[l], preds[l], r)
      {
        SameGrows(lists);
        InitStep(Now(), lists, preds, r, i, h);
        PredThere(next[i], lists[i], preds[i], r);
        next := next[i := next[i][Some(r) := next[i][preds[i]]]];
        HistoryGrows(ms, vs, Now(), lists);
        ms, vs := ms + [Now()], vs + [lists];
        i := i + 1;
      }
    }

    /** Links the node level by level from the bottom, one store each. */
    method PublishAll(r: Record, preds: seq<Place>, h: nat, ghost was: Lists)
      requires Valid() && h <= height && |preds| == MAX_HEIGHT && lists == was
      requires forall l, y | 0 <= l < MAX_HEIGHT && y in was[l] :: !SameKey(y, r)
      requires forall l | 0 <= l < h :: Ready(next[l], was[l], preds[l], r)
      modifies this
      ensures Valid() && lists == Published(was, r, h) && height == old(height) && old(ms) <= ms && old(vs) <= vs
    {
      hide RecLess, Ascending, Chain, History, Insert, Ready;
      var i := 0;
      assert lists == Published(was, r, 0);
      while i < h
        invariant 0 <= i <= h && Valid() && lists == Published(was, r, i) && height == old(height) && old(ms) <= ms && old(vs) <= vs
        invariant forall l | i <= l < h :: Ready(next[l], was[l], preds[l], r)
      {
        PublishNext(ms, vs, Now(), was, preds, r, i);
        next := next[i := next[i][preds[i] := Some(r)]];
        lists := Published(was, r, i + 1);
        ms, vs := ms + [Now()], vs + [lists];
        i := i + 1;
      }
    }
  }

  /** `x` is where `r` goes on a level, and the node of `r` already leads on from there. */
  ghost predicate Ready(p: Pointers, list: seq<Record>, x: Place, r: Record) {
    PredOf(p, list, x, r) && Some(r) in p && p[Some(r)] == p[x]
  }

  lemma PredThere(p: Pointers, list: seq<Record>, x: Place, r: Record)
    requires PredOf(p, list, x, r)
    ensures x in p
  {
  }

  lemma ListsLong(m: Memory, v: Lists)
    requires MemoryOk(m, v)
    ensures |v| == MAX_HEIGHT
  {
  }

  /** `x` is the last node of the level before `key`. */
  ghost predicate PredOf(p: Pointers, list: seq<Record>, x: Place, key: Record) {
    Linked(list, x) && Before(x, key) && x in p && (p[x].Some? ==> !RecLess(p[x].value, key))
  }

  lemma OneMoment(m: Memory, v: Lists)
    requires MemoryOk(m, v)
    ensures History([m], [v])
  {
    hide MemoryOk;
  }

  lemma RaiseOk(m: Memory, v: Lists, h: nat)
    requires MemoryOk(m, v) && m.height <= h <= MAX_HEIGHT
    ensures MemoryOk(Memory(m.next, h), v)
  {
    hide Ascending, Chain;
  }

  predicate SameKey(a: Record, b: Record) {
    a.key == b.key && a.seqno == b.seqno && a.kind == b.kind
  }

  lemma SameKeyOrder(a: Record, b: Record, x: Record)
    requires SameKey(a, b)
    ensures (RecLess(x, a) <==> RecLess(x, b)) && (RecLess(a, x) <==> RecLess(b, x))
  {
    hide KeyLess;
  }

  /** A record the search did not meet is not in the level. */
  lemma NotThere(p: Pointers, list: seq<Record>, x: Place, r: Record)
    requires Chain(p, list) && Ascending(list) && PredOf(p, list, x, r)
    requires p[x].Some? ==> !SameKey(p[x].value, r)
    ensures forall y | y in list :: !SameKey(y, r)
  {
    hide RecLess;
    Successor(p, list, x);
    forall y | y in list
      ensures !SameKey(y, r)
    {
      if SameKey(y, r) {
        if x.Some? {
          SameKeyOrder(r, y, x.value);
        }
        SameKeyOrder(y, r, p[x].value);
      }
    }
  }

  /** Nor in any level above. */
  lemma Nowhere(m: Memory, v: Lists, r: Record)
    requires MemoryOk(m, v) && forall y | y in v[0] :: !SameKey(y, r)
    ensures forall l, y | 0 <= l < MAX_HEIGHT && y in v[l] :: !SameKey(y, r)
    ensures forall l | 0 <= l < MAX_HEIGHT :: r !in v[l]
  {
    hide Ascending, Chain;
    forall l, y | 0 <= l < MAX_HEIGHT && y in v[l]
      ensures !SameKey(y, r)
    {
      LowerHolds(v, l, 0, y);
    }
    assert SameKey(r, r);
  }

  /** On levels above the height the head precedes everything. */
  lemma EmptyPred(m: Memory, v: Lists, l: nat, r: Record)
    requires MemoryOk(m, v) && m.height <= l < MAX_HEIGHT
    ensures PredOf(m.next[l], v[l], None, r)
  {
    hide Ascending;
  }

  lemma InitStep(m: Memory, v: Lists, preds: seq<Place>, r: Record, i: nat, h: nat)
    requires MemoryOk(m, v) && i < h <= MAX_HEIGHT && |preds| == MAX_HEIGHT && (forall l | 0 <= l < MAX_HEIGHT :: r !in v[l])
    requires forall l | 0 <= l < h :: PredOf(m.next[l], v[l], preds[l], r)
    ensures preds[i] in m.next[i]
    ensures var n := m.next[i := m.next[i][Some(r) := m.next[i][preds[i]]]];
            && MemoryOk(m.(next := n), v)
            && (forall l | 0 <= l < h :: PredOf(n[l], v[l], preds[l], r))
            && Ready(n[i], v[i], preds[i], r)
  {
    hide Ascending, RecLess;
    assert PredOf(m.next[i], v[i], preds[i], r);
    InitKeeps(m.next[i], v[i], r, m.next[i][preds[i]]);
  }

  /** The store that publishes `r` on one level. */
  lemma PublishStep(m: Memory, was: Lists, preds: seq<Place>, r: Record, i: nat)
    requires |was| == MAX_HEIGHT && i < m.height && |preds| == MAX_HEIGHT && MemoryOk(m, Published(was, r, i))
    requires Ready(m.next[i], was[i], preds[i], r)
    requires forall l, y | 0 <= l < MAX_HEIGHT && y in was[l] :: !SameKey(y, r)
    ensures var v := Published(was, r, i);
            MemoryOk(m.(next := m.next[i := m.next[i][preds[i] := Some(r)]]), v[i := Insert(v[i], r)])
  {
    hide Ascending, RecLess, Chain, Insert;
    var v := Published(was, r, i);
    assert v[i] == was[i];
    Successor(m.next[i], v[i], preds[i]);
    var q := m.next[i][preds[i]];
    if q.Some? {
      assert !SameKey(q.value, r);
      RecTotal(r, q.value);
    }
    assert r !in was[i] by { assert SameKey(r, r); }
    SpliceKeeps(m.next[i], v[i], preds[i], r);
    var w := v[i := Insert(v[i], r)];
    forall l | 0 < l < MAX_HEIGHT
      ensures Within(w[l], w[l - 1])
    {
      assert Within(v[l], v[l - 1]);
      forall x | x in w[l]
        ensures x in w[l - 1]
      {
        if l == i {
          assert x in Elems(w[i]);
          if x == r {
            InsertElems(was[i - 1], r);
            assert r in Elems(Insert(was[i - 1], r));
          } else {
            assert x in Elems(v[i]);
          }
        } else if l == i + 1 {
          assert x in Elems(v[i]);
          assert x in Elems(w[i]);
        }
      }
    }
  }
}

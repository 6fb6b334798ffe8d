/** When a slot's new owner misses a write: the exact condition, and a run where it does. */
module HandoffLoss {
  import opened Common
  import opened Handoff

  ghost predicate Extends(ss: seq<State>, es: seq<Event>, rs: seq<State>, fs: seq<Event>) {
    IsRun(rs, fs) && ss <= rs && es <= fs
  }

  /** Since `s`, the destination appended exactly the clients' writes accepted since, in order. */
  ghost predicate Follows(s: State, t: State) {
    s.accepted <= t.accepted && Ops(t.dst) == Ops(s.dst) + t.accepted[|s.accepted|..]
  }

  ghost predicate Settling(s: State) {
    Known(s) && MapsOk(s) && s.phase.Flipped? && Quiet(s)
  }

  /** After the flip an open front door leads to the destination. */
  lemma DoorRoutes(s: State, n: Node)
    requires Settling(s) && n in s.nodes && !ViewOf(s, n).migrating
    ensures ViewOf(s, n).owner == Dst
  {
    assert s.nodes[n] >= 1;
  }

  lemma FlippedStays(s: State, e: Event)
    requires s.phase.Flipped? && Enabled(s, e)
    ensures After(s, e).phase == s.phase
  {
    hide Ops, ApplyOps, Listing, Known;
  }

  /** With nobody headed for the source, nobody new is. */
  lemma QuietStays(s: State, e: Event)
    requires Settling(s) && Enabled(s, e)
    ensures After(s, e).phase == s.phase && Quiet(After(s, e))
  {
    hide Ops, ApplyOps, Listing, MapsOk;
    FlippedStays(s, e);
    if e.FrontDoor? {
      DoorRoutes(s, e.n);
    }
    var t := After(s, e);
    forall r | r in t.waiting
      ensures r.to == Dst
    {
      assert r in s.waiting || e.FrontDoor?;
    }
  }

  /** And every accepted write goes to the destination. */
  lemma QuietFollows(s: State, e: Event)
    requires Settling(s) && Enabled(s, e)
    ensures Follows(s, After(s, e))
  {
    hide Ops, ApplyOps, Listing, Known, MapsOk;
    FollowsItself(s);
    OpsOne(s.dst, Other);
    if e.Append? {
      assert e.r in s.waiting;
      OpsOne(s.dst, Write(e.r.op));
      assert After(s, e).accepted[|s.accepted|..] == [e.r.op];
    }
  }

  lemma FollowsOn(a: State, b: State, c: State)
    requires Follows(a, b) && Follows(b, c)
    ensures Follows(a, c)
  {
    hide Ops;
    assert c.accepted[|a.accepted|..] == b.accepted[|a.accepted|..] + c.accepted[|b.accepted|..];
  }

  lemma {:induction false} QuietRun(rs: seq<State>, fs: seq<Event>, n: nat, k: nat)
    requires IsRun(rs, fs) && n <= k < |rs| && Settling(rs[n])
    ensures Settling(rs[k]) && Follows(rs[n], rs[k])
    decreases k
  {
    hide Settling, Enabled, After, Follows, Known, MapsOk, PhaseOk;
    if n == k {
      FollowsItself(rs[n]);
    } else {
      QuietRun(rs, fs, n, k - 1);
      assert rs[k - 1 + 1] == After(rs[k - 1], fs[k - 1]);
      QuietStays(rs[k - 1], fs[k - 1]);
      QuietFollows(rs[k - 1], fs[k - 1]);
      FollowsOn(rs[n], rs[k - 1], rs[k]);
      RunInv(rs, fs, k);
      assert rs[k - 1].phase.Flipped? by { SettlingFlipped(rs[k - 1]); }
      StillQuiet(rs[k]);
    }
  }

  lemma FollowsItself(s: State)
    ensures Follows(s, s)
  {
    hide Ops;
    assert s.accepted[|s.accepted|..] == [] && Ops(s.dst) + [] == Ops(s.dst);
  }

  lemma MoreRun(ss: seq<State>, es: seq<Event>, e: Event)
    requires IsRun(ss, es) && Enabled(ss[|es|], e)
    ensures Extends(ss, es, ss + [After(ss[|es|], e)], es + [e])
  {
    hide Enabled, After, Start;
  }

  lemma ExtendsOn(a: seq<State>, d: seq<Event>, b: seq<State>, e: seq<Event>, c: seq<State>, f: seq<Event>)
    requires Extends(a, d, b, e) && Extends(b, e, c, f)
    ensures Extends(a, d, c, f)
  {
  }

  /** A request still headed for the source can end up in its log alone. */
  lemma LossyRun(ss: seq<State>, es: seq<Event>, r: Request) returns (rs: seq<State>, fs: seq<Event>)
    requires IsRun(ss, es) && ss[|es|].phase.Flipped? && Known(ss[|es|]) && MapsOk(ss[|es|]) && r in ss[|es|].waiting && r.to == Src
    ensures Extends(ss, es, rs, fs) && |rs| >= |ss| && !Follows(ss[|es|], rs[|rs| - 1])
  {
    hide Enabled, Ops;
    var s := ss[|es|];
    LateWrite(s, r);
    rs, fs := ss, es;
    if s.nodes[r.node] < 2 {
      MoreRun(ss, es, Adopt(r.node, 2));
      rs, fs := ss + [After(s, Adopt(r.node, 2))], es + [Adopt(r.node, 2)];
    }
    var t := rs[|fs|];
    MoreRun(rs, fs, Append(r));
    ExtendsOn(ss, es, rs, fs, rs + [After(t, Append(r))], fs + [Append(r)]);
    rs, fs := rs + [After(t, Append(r))], fs + [Append(r)];
    assert rs[|rs| - 1].accepted[|s.accepted|..] == [r.op];
    assert |Ops(s.dst) + [r.op]| > |Ops(s.dst)|;
  }

  /** However a run goes on after the flip, the destination appends exactly the writes
      accepted from then on: if and only if at the flip no write past a front door was
      headed for the source. */
  lemma NothingMissedIff(ss: seq<State>, es: seq<Event>)
    requires IsRun(ss, es) && es != [] && es[|es| - 1].Flip?
    ensures Quiet(ss[|es| - 1])
            <==> forall rs, fs, k | Extends(ss, es, rs, fs) && |es| <= k < |rs| :: Follows(ss[|es|], rs[k])
  {
    hide Enabled, Follows, Settling;
    var n := |es|;
    RunInv(ss, es, n);
    assert ss[n - 1 + 1] == After(ss[n - 1], es[n - 1]);
    var s := ss[n];
    if Quiet(ss[n - 1]) {
      assert Settling(s) by { StillQuiet(s); }
      forall rs, fs, k | Extends(ss, es, rs, fs) && n <= k < |rs|
        ensures Follows(s, rs[k])
      {
        assert rs[n] == s;
        QuietRun(rs, fs, n, k);
      }
    } else {
      var r :| r in s.waiting && r.to != Dst;
      var rs, fs := LossyRun(ss, es, r);
      assert Extends(ss, es, rs, fs) && !Follows(s, rs[|rs| - 1]);
    }
  }

  lemma SettlingFlipped(s: State)
    requires Settling(s)
    ensures s.phase.Flipped?
  {
  }

  lemma StillQuiet(s: State)
    requires Known(s) && MapsOk(s) && s.phase.Flipped? && Quiet(s)
    ensures Settling(s)
  {
  }

  // ------------------------------------------------------------- one such run

  const OP: Op := Store([1], [2])

  const LATE: Request := Request(0, OP, Src)

  /** One node; a write has passed its front door and waits for the event loop. */
  const FIRST: State := State(map[0 := 0], [View(Src, false)], [], 0, [], 0, multiset{LATE}, [], Settled)

  const EVENTS: seq<Event> := [Freeze, Adopt(0, 1), Barrier, Apply(Src), StartCopy([]), Flip, Adopt(0, 2), Append(LATE)]

  const FROZEN: seq<View> := [View(Src, false), View(Src, true)]

  const FLIPPED: seq<View> := FROZEN + [View(Dst, false)]

  const STATES: seq<State> :=
    [FIRST,
     State(map[0 := 0], FROZEN, [], 0, [], 0, multiset{LATE}, [], Freezing),
     State(map[0 := 1], FROZEN, [], 0, [], 0, multiset{LATE}, [], Freezing),
     State(map[0 := 1], FROZEN, [Other], 0, [], 0, multiset{LATE}, [], Draining(0)),
     State(map[0 := 1], FROZEN, [Other], 1, [], 0, multiset{LATE}, [], Draining(0)),
     State(map[0 := 1], FROZEN, [Other], 1, [], 0, multiset{LATE}, [], Copying([], 0, 0)),
     State(map[0 := 1], FLIPPED, [Other], 1, [], 0, multiset{LATE}, [], Flipped(0, false)),
     State(map[0 := 2], FLIPPED, [Other], 1, [], 0, multiset{LATE}, [], Flipped(0, false)),
     State(map[0 := 2], FLIPPED, [Other, Write(OP)], 1, [], 0, multiset{}, [OP], Flipped(0, false))]

  ghost predicate Leads(i: nat)
    requires i < 8
  {
    Enabled(STATES[i], EVENTS[i]) && STATES[i + 1] == After(STATES[i], EVENTS[i])
  }

  lemma Leads0()
    ensures Leads(0) && Leads(1) && Leads(2)
  {
    hide ApplyOps, Ops;
    assert map[0 := 0][0 := 1] == map[0 := 1];
  }

  lemma Leads1()
    ensures Leads(3) && Leads(4) && Leads(5)
  {
    assert [Other][..1] == [Other] && Ops([Other]) == [];
    assert !Quiet(STATES[5]) by { assert LATE in STATES[5].waiting; }
  }

  lemma Leads2()
    ensures Leads(6) && Leads(7)
  {
    hide ApplyOps, Ops;
    assert map[0 := 1][0 := 2] == map[0 := 2];
  }

  /** Both groups start empty; the write is accepted after the flip, every node routes the
      slot to the destination, and the destination does not have it. */
  lemma WriteLost()
    ensures IsRun(STATES, EVENTS)
    ensures STATES[8].accepted == [OP] && ViewOf(STATES[8], 0).owner == Dst
    ensures Effect(Ops(STATES[8].dst)) == map[] && Effect(Ops(FIRST.src) + STATES[8].accepted) == map[[1] := [2]]
  {
    hide Enabled, After;
    Leads0();
    Leads1();
    Leads2();
    forall i | 0 <= i < |EVENTS|
      ensures Enabled(STATES[i], EVENTS[i]) && STATES[i + 1] == After(STATES[i], EVENTS[i])
    {
      assert Leads(i);
    }
    assert [OP][..0] == [] && Ops([]) + [OP] == [OP];
    assert ApplyOps(map[], [OP]) == ApplyOp(ApplyOps(map[], []), OP);
  }
}

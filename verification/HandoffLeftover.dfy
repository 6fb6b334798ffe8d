/** Two runs of the handoff: the first is aborted part way and a copied key is then erased,
    the second goes through and the erased key is back. */
module HandoffLeftover {
  import opened Common
  import opened Handoff

  const OP: Op := Store([1], [2])
  const ERASE: Op := Erase([1])
  const LATER: Request := Request(0, ERASE, Src)

  const OPEN: seq<View> := [View(Src, false)]
  const FROZEN: seq<View> := OPEN + [View(Src, true)]

  ghost predicate Leads(ss: seq<State>, es: seq<Event>, i: nat)
    requires i < |es| && |ss| == |es| + 1
  {
    Enabled(ss[i], es[i]) && ss[i + 1] == After(ss[i], es[i])
  }

  ghost predicate Chained(ss: seq<State>, es: seq<Event>) {
    |ss| == |es| + 1 && forall i | 0 <= i < |es| :: Leads(ss, es, i)
  }

  // -------------------------------------------------------------- the aborted run

  const ABORTED: seq<View> := FROZEN + [View(Src, false)]

  const COPY: seq<Event> :=
    [Freeze, Adopt(0, 1), Barrier, Apply(Src), StartCopy([Pair([1], [2])]), CopyBatch(1)]

  const COPY_STATES: seq<State> :=
    [State(map[0 := 0], OPEN, [Write(OP)], 1, [], 0, multiset{}, [], Settled),
     State(map[0 := 0], FROZEN, [Write(OP)], 1, [], 0, multiset{}, [], Freezing),
     State(map[0 := 1], FROZEN, [Write(OP)], 1, [], 0, multiset{}, [], Freezing),
     State(map[0 := 1], FROZEN, [Write(OP), Other], 1, [], 0, multiset{}, [], Draining(1)),
     State(map[0 := 1], FROZEN, [Write(OP), Other], 2, [], 0, multiset{}, [], Draining(1)),
     State(map[0 := 1], FROZEN, [Write(OP), Other], 2, [], 0, multiset{}, [], Copying([Pair([1], [2])], 0, 0)),
     State(map[0 := 1], FROZEN, [Write(OP), Other], 2, [Write(OP)], 0, multiset{}, [], Copying([Pair([1], [2])], 1, 1))]

  const ABORT: seq<Event> := COPY + [Abort, Adopt(0, 2), FrontDoor(0, ERASE), Append(LATER), Apply(Src), Apply(Dst)]

  const ERASED: seq<Entry> := [Write(OP), Other, Write(ERASE)]

  const ABORT_STATES: seq<State> :=
    COPY_STATES +
    [State(map[0 := 1], ABORTED, [Write(OP), Other], 2, [Write(OP)], 0, multiset{}, [], Aborted),
     State(map[0 := 2], ABORTED, [Write(OP), Other], 2, [Write(OP)], 0, multiset{}, [], Aborted),
     State(map[0 := 2], ABORTED, [Write(OP), Other], 2, [Write(OP)], 0, multiset{LATER}, [], Aborted),
     State(map[0 := 2], ABORTED, ERASED, 2, [Write(OP)], 0, multiset{}, [ERASE], Aborted),
     State(map[0 := 2], ABORTED, ERASED, 3, [Write(OP)], 0, multiset{}, [ERASE], Aborted),
     State(map[0 := 2], ABORTED, ERASED, 3, [Write(OP)], 1, multiset{}, [ERASE], Aborted)]

  lemma OneStored()
    ensures Ops([Write(OP)]) == [OP] && Ops([Write(OP), Other]) == [OP] && Effect([OP]) == map[[1] := [2]]
  {
    assert [Write(OP)][..0] == [] && [Write(OP), Other][..1] == [Write(OP)];
    assert [OP][..0] == [] && ApplyOps(map[], [OP]) == ApplyOp(ApplyOps(map[], []), OP);
  }

  lemma ThenErased()
    ensures Ops(ERASED) == [OP, ERASE] && Ops(ERASED + [Other]) == [OP, ERASE] && Effect([OP, ERASE]) == map[]
  {
    hide Ops, ApplyOps;
    OneStored();
    OpsOne([Write(OP), Other], Write(ERASE));
    OpsOne(ERASED, Other);
    assert [Write(OP), Other] + [Write(ERASE)] == ERASED && [OP] + [ERASE] == [OP, ERASE];
    ApplyOne([OP], ERASE);
  }

  lemma {:induction false} ApplyOne(ops: seq<Op>, op: Op)
    ensures Effect(ops + [op]) == ApplyOp(Effect(ops), op)
  {
    assert (ops + [op])[..|ops|] == ops;
  }

  lemma Copy0()
    ensures Leads(COPY_STATES, COPY, 0) && Leads(COPY_STATES, COPY, 1) && Leads(COPY_STATES, COPY, 2) && Leads(COPY_STATES, COPY, 3)
  {
    hide Ops, ApplyOps;
    assert map[0 := 0][0 := 1] == map[0 := 1];
  }

  lemma Copy1()
    ensures Leads(COPY_STATES, COPY, 4) && Leads(COPY_STATES, COPY, 5)
  {
    hide Ops, ApplyOps;
    OneStored();
    var ps := [Pair([1], [2])];
    assert [Write(OP), Other][..2] == [Write(OP), Other];
    assert Listing(ps, map[[1] := [2]]) by { assert ps[0].key == [1]; }
    assert ps[0..1] == ps && Writes(Stores(ps)) == [Write(OP)] && [] + [Write(OP)] == [Write(OP)];
  }

  lemma Abort0()
    ensures Leads(ABORT_STATES, ABORT, 6) && Leads(ABORT_STATES, ABORT, 7) && Leads(ABORT_STATES, ABORT, 8)
  {
    hide Ops, ApplyOps;
    assert map[0 := 1][0 := 2] == map[0 := 2];
  }

  lemma Abort1()
    ensures Leads(ABORT_STATES, ABORT, 9) && Leads(ABORT_STATES, ABORT, 10) && Leads(ABORT_STATES, ABORT, 11)
  {
    hide Ops, ApplyOps;
    assert [Write(OP), Other] + [Write(ERASE)] == ERASED;
  }

  lemma AbortChained()
    ensures Chained(ABORT_STATES, ABORT)
  {
    hide Enabled, After;
    Copy0();
    Copy1();
    Abort0();
    Abort1();
    forall i | 0 <= i < |ABORT|
      ensures Leads(ABORT_STATES, ABORT, i)
    {
      if i < 6 {
        assert Leads(COPY_STATES, COPY, i);
      }
    }
  }

  // ------------------------------------------------------------- and the one after

  const FLIPPED: seq<View> := FROZEN + [View(Dst, false)]

  const AGAIN: seq<Event> := [Freeze, Adopt(0, 1), Barrier, Apply(Src), StartCopy([]), Flip, Adopt(0, 2)]

  const AGAIN_STATES: seq<State> :=
    [State(map[0 := 0], OPEN, ERASED, 3, [Write(OP)], 1, multiset{}, [], Settled),
     State(map[0 := 0], FROZEN, ERASED, 3, [Write(OP)], 1, multiset{}, [], Freezing),
     State(map[0 := 1], FROZEN, ERASED, 3, [Write(OP)], 1, multiset{}, [], Freezing),
     State(map[0 := 1], FROZEN, ERASED + [Other], 3, [Write(OP)], 1, multiset{}, [], Draining(3)),
     State(map[0 := 1], FROZEN, ERASED + [Other], 4, [Write(OP)], 1, multiset{}, [], Draining(3)),
     State(map[0 := 1], FROZEN, ERASED + [Other], 4, [Write(OP)], 1, multiset{}, [], Copying([], 0, 1)),
     State(map[0 := 1], FLIPPED, ERASED + [Other], 4, [Write(OP)], 1, multiset{}, [], Flipped(0, true)),
     State(map[0 := 2], FLIPPED, ERASED + [Other], 4, [Write(OP)], 1, multiset{}, [], Flipped(0, true))]

  lemma Again0()
    ensures Leads(AGAIN_STATES, AGAIN, 0) && Leads(AGAIN_STATES, AGAIN, 1) && Leads(AGAIN_STATES, AGAIN, 2) && Leads(AGAIN_STATES, AGAIN, 3)
  {
    hide Ops, ApplyOps;
    assert map[0 := 0][0 := 1] == map[0 := 1];
  }

  lemma Again1()
    ensures Leads(AGAIN_STATES, AGAIN, 4) && Leads(AGAIN_STATES, AGAIN, 5) && Leads(AGAIN_STATES, AGAIN, 6)
  {
    hide Ops, ApplyOps;
    ThenErased();
    assert (ERASED + [Other])[..4] == ERASED + [Other];
    assert map[0 := 1][0 := 2] == map[0 := 2];
  }

  lemma AgainChained()
    ensures Chained(AGAIN_STATES, AGAIN)
  {
    hide Enabled, After;
    Again0();
    Again1();
  }

  /** The first run is aborted with one key copied, and that key is then erased at the
      source. The second starts from the two logs the first left, applied: it completes with
      nobody headed for the source, every node routes the slot to the destination, and the
      destination holds the erased key. */
  lemma ErasedKeyBack()
    ensures IsRun(ABORT_STATES, ABORT) && IsRun(AGAIN_STATES, AGAIN)
    ensures var a, b := ABORT_STATES[12], AGAIN_STATES[0];
            a.phase.Aborted? && (b.src, b.srcApplied, b.dst, b.dstApplied) == (a.src, a.srcApplied, a.dst, a.dstApplied)
    ensures AGAIN[5].Flip? && Quiet(AGAIN_STATES[5]) && ViewOf(AGAIN_STATES[7], 0).owner == Dst
    ensures Effect(Ops(AGAIN_STATES[0].src) + AGAIN_STATES[7].accepted) == map[]
    ensures Effect(Ops(AGAIN_STATES[7].dst)) == map[[1] := [2]]
  {
    hide Enabled, After, Ops, ApplyOps;
    AbortChained();
    AgainChained();
    OneStored();
    ThenErased();
    assert [OP, ERASE] + [] == [OP, ERASE];
    forall i | 0 <= i < |ABORT|
      ensures Enabled(ABORT_STATES[i], ABORT[i]) && ABORT_STATES[i + 1] == After(ABORT_STATES[i], ABORT[i])
    {
      assert Leads(ABORT_STATES, ABORT, i);
    }
    forall i | 0 <= i < |AGAIN|
      ensures Enabled(AGAIN_STATES[i], AGAIN[i]) && AGAIN_STATES[i + 1] == After(AGAIN_STATES[i], AGAIN[i])
    {
      assert Leads(AGAIN_STATES, AGAIN, i);
    }
  }
}

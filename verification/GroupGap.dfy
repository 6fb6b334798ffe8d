/** Two runs of the event loop from a fresh replica: after the first its state file does not
    replay, after the second it replays and the node does not restart. GapHistory shows
    that a group sends the messages delivered. */
module GroupGap {
  import opened Common
  import opened RaftTypes
  import opened RaftLog
  import opened RaftState
  import opened GroupLoop
  import St = RaftStorage

  function Item(index: nat, term: nat): Entry {
    Entry(ENTRY_NORMAL, index, term, [])
  }

  function FromLeader(term: nat, prevIndex: nat, prevTerm: nat, ents: seq<Entry>, commit: nat): Message {
    Message(MsgApp, LeaderOf(term), 1, term, prevIndex, prevTerm, ents, commit, false)
  }

  const MEMBERS: seq<Id> := [1, 2, 3, 4, 5]

  /** Node 2 leads term 1 and node 3 leads term 2. */
  function LeaderOf(term: nat): Id {
    term + 1
  }

  /** Node 1 of a group of five, following each term's leader. */
  function Replica(term: nat, log: Log, msgs: seq<Message>, stabled: nat, prevHard: HardState): NodeState {
    NodeState(1, {1, 2, 3, 4, 5}, MEMBERS, Follower, term, 0, if term == 0 then 0 else LeaderOf(term), 0, log, {}, {}, map[], map[], msgs, stabled, prevHard)
  }

  function Reply(term: nat, index: nat): Message {
    Message(MsgAppResp, 1, LeaderOf(term), term, index, 0, [], 0, false)
  }

  const BATCH1: seq<Entry> := [Item(1, 1), Item(2, 1), Item(3, 1)]
  const BATCH2: seq<Entry> := [Item(1, 2)]
  const BATCH3: seq<Entry> := [Item(2, 2), Item(3, 2), Item(4, 2)]
  const BATCH4: seq<Entry> := [Item(2, 2), Item(3, 2)]

  const LOG1: Log := Log(BATCH1, 0, 0, 0, 0)
  const LOG2: Log := Log(BATCH2, 0, 0, 1, 0)
  const CUT: Log := Log([], 1, 2, 1, 1)
  const LOG3: Log := Log(BATCH3, 1, 2, 1, 1)
  const LOG4: Log := Log(BATCH4, 1, 2, 3, 1)

  const HARD1: HardState := HardState(1, 0, 0)
  const HARD2: HardState := HardState(2, 0, 1)
  const HARD4: HardState := HardState(2, 0, 3)

  const READY1: Ready := Ready.Ready(Some(HARD1), BATCH1, [], [Reply(1, 3)])
  const READY2: Ready := Ready.Ready(Some(HARD2), [], BATCH2, [Reply(2, 1)])
  const READY3: Ready := Ready.Ready(None, [Item(4, 2)], [], [Reply(2, 4)])
  const READY4: Ready := Ready.Ready(Some(HARD4), [], BATCH4, [Reply(2, 3)])

  const DISK1: Recovered := Recovered(HARD1, 0, 0, BATCH1)
  const DISK2: Recovered := Recovered(HARD2, 0, 0, BATCH1)
  const DISK3: Recovered := Recovered(HARD2, 1, 2, [])
  const DISK4: Recovered := Recovered(HARD4, 1, 2, [])

  /** An append of the leader's term or a later one, accepted. */
  lemma Adopts(term: nat, log: Log, stabled: nat, prevHard: HardState, m: Message, l: Log)
    requires m == FromLeader(m.term, m.logIndex, m.logTerm, m.entries, m.commit) && m.term >= term && m.term > 0
    requires log.MaybeAppend(m.logIndex, m.logTerm, m.commit, m.entries) == Ok((l, Some(m.logIndex + |m.entries|)))
    ensures Replica(term, log, [], stabled, prevHard).Step(m)
            == Ok(Replica(m.term, l, [Reply(m.term, m.logIndex + |m.entries|)], stabled, prevHard))
  {
    hide Log.MaybeAppend;
    var s := Replica(term, log, [], stabled, prevHard);
    var n := s.(term := m.term, lead := if m.term > term then m.from else s.lead);
    assert m.term > term ==> s.BecomeFollower(m.term, m.from) == Ok(n);
    var i := m.logIndex + |m.entries|;
    var a := n.(role := Follower, lead := m.from, log := l);
    assert a.Send(Plain(MsgAppResp, m.from).(logIndex := i)) == a.(msgs := [Reply(m.term, i)]) by {
      assert [] + [Reply(m.term, i)] == [Reply(m.term, i)];
    }
    assert n.HandleApp(m) == Ok(a.(msgs := [Reply(m.term, i)]));
  }

  // ------------------------------------- three entries of term 1 are saved

  lemma Fresh()
    ensures Start(1, MEMBERS) == STATES[0]
  {
    var voters := set p | p in MEMBERS;
    assert voters == {1, 2, 3, 4, 5};
    assert EMPTY_LOG.Append([]) == Ok(EMPTY_LOG) && EMPTY_LOG.CommitTo(0) == Ok(EMPTY_LOG);
  }

  lemma Adopt1()
    ensures EMPTY_LOG.MaybeAppend(0, 0, 0, BATCH1) == Ok((LOG1, Some(3)))
  {
    assert EMPTY_LOG.Term(1) == None;
    assert [] + BATCH1 == BATCH1;
    assert EMPTY_LOG.Merge(BATCH1) == EMPTY_LOG.Append(BATCH1) == Ok(LOG1);
  }

  lemma Drained(s: NodeState, ents: seq<Entry>, done: seq<Entry>)
    requires (if s.log.LastIndex() > s.stabled then s.log.Slice(s.stabled + 1, s.log.LastIndex() + 1) else Ok([])) == Ok(ents)
    requires var applyTo := Min(s.log.committed, s.stabled);
             (if applyTo > s.log.applied then s.log.Slice(s.log.applied + 1, applyTo + 1) else Ok([])) == Ok(done)
    ensures s.TakeReady() == Ok((s.(msgs := []), Ready(if s.Hard() != s.prevHard then Some(s.Hard()) else None, ents, done, s.msgs)))
  {
    hide Log.Slice;
  }

  lemma Take1()
    ensures Replica(1, LOG1, [Reply(1, 3)], 0, HardState(0, 0, 0)).TakeReady() == Ok((Replica(1, LOG1, [], 0, HardState(0, 0, 0)), READY1))
  {
    assert LOG1.Slice(1, 4) == Ok(BATCH1) by { assert BATCH1[0..3] == BATCH1; }
    hide Log.Slice, NodeState.TakeReady;
    Drained(Replica(1, LOG1, [Reply(1, 3)], 0, HardState(0, 0, 0)), BATCH1, []);
  }

  lemma Save1()
    ensures DiskAfter(Some(NO_STATE), READY1, AllRecords(Some(NO_STATE), READY1)) == Some(DISK1)
  {
    var rs := St.Written(0, BatchOf(READY1));
    assert rs == [St.EntriesRecord(BATCH1), St.HardRecord(HARD1)];
    assert rs[..2] == rs;
    assert St.Continues(NO_STATE, BATCH1);
    St.PlaceOverwrites(NO_STATE, BATCH1);
    assert St.Overwritten(NO_STATE, BATCH1).entries == BATCH1;
    St.Unrolled(NO_STATE, rs);
  }

  lemma Advance1()
    ensures Replica(1, LOG1, [], 0, HardState(0, 0, 0)).Advance(READY1) == Ok(Replica(1, LOG1, [], 3, HARD1))
  {
    var n := Replica(1, LOG1, [], 3, HARD1);
    assert n.MaybeCommit() == Ok((n, false));
  }

  // --------------- a leader of term 2 replaces them by one, which is applied

  lemma Adopt2()
    ensures LOG1.MaybeAppend(0, 0, 1, BATCH2) == Ok((LOG2, Some(1)))
  {
    assert LOG1.Term(1) == Some(1);
    assert BATCH1[..0] == [] && [] + BATCH2 == BATCH2;
    assert LOG1.TruncateFrom(1) == Ok(EMPTY_LOG);
    assert EMPTY_LOG.Append(BATCH2) == Ok(LOG2.(committed := 0));
    assert LOG1.Merge(BATCH2) == Ok(LOG2.(committed := 0));
  }

  lemma Take2()
    ensures Replica(2, LOG2, [Reply(2, 1)], 3, HARD1).TakeReady() == Ok((Replica(2, LOG2, [], 3, HARD1), READY2))
  {
    assert LOG2.Slice(1, 2) == Ok(BATCH2) by { assert BATCH2[0..1] == BATCH2; }
    hide Log.Slice, NodeState.TakeReady;
    Drained(Replica(2, LOG2, [Reply(2, 1)], 3, HARD1), [], BATCH2);
  }

  lemma Save2()
    ensures DiskAfter(Some(DISK1), READY2, AllRecords(Some(DISK1), READY2)) == Some(DISK2)
  {
    var rs := St.Written(3, BatchOf(READY2));
    assert rs == [St.HardRecord(HARD2)];
    assert rs[..1] == rs;
    St.Unrolled(DISK1, rs);
  }

  lemma Advance2()
    ensures Replica(2, LOG2, [], 3, HARD1).Advance(READY2) == Ok(Replica(2, LOG2.(applied := 1), [], 3, HARD2))
  {
    assert LOG2.AppliedTo(1) == Ok(LOG2.(applied := 1));
  }

  lemma Compact2()
    ensures Replica(2, LOG2.(applied := 1), [], 3, HARD2).CompactTo(1) == Ok(Replica(2, CUT, [], 3, HARD2))
  {
    assert BATCH2[1..] == [];
    assert LOG2.(applied := 1).CompactTo(1) == Ok(CUT);
  }

  // -------------------- of the next three only the one past the stable point

  lemma Adopt3()
    ensures CUT.MaybeAppend(1, 2, 1, BATCH3) == Ok((LOG3, Some(4)))
  {
    assert CUT.Term(2) == None;
    assert [] + BATCH3 == BATCH3;
    assert CUT.Merge(BATCH3) == CUT.Append(BATCH3) == Ok(LOG3);
  }

  lemma Take3()
    ensures Replica(2, LOG3, [Reply(2, 4)], 3, HARD2).TakeReady() == Ok((Replica(2, LOG3, [], 3, HARD2), READY3))
  {
    assert LOG3.Slice(4, 5) == Ok([Item(4, 2)]) by { assert BATCH3[2..3] == [Item(4, 2)]; }
    hide Log.Slice, NodeState.TakeReady;
    Drained(Replica(2, LOG3, [Reply(2, 4)], 3, HARD2), [Item(4, 2)], []);
  }

  lemma Save3()
    ensures DiskAfter(Some(DISK3), READY3, AllRecords(Some(DISK3), READY3)) == None
  {
    var rs := St.Written(1, BatchOf(READY3));
    assert rs == [St.EntriesRecord([Item(4, 2)])];
    assert rs[..1] == rs;
    assert St.Place(DISK3, Item(4, 2)) == None;
    St.Unrolled(DISK3, rs);
  }

  // ------------- of two committed ones nothing, though the commit index is saved

  lemma Adopt4()
    ensures CUT.MaybeAppend(1, 2, 3, BATCH4) == Ok((LOG4, Some(3)))
  {
    assert CUT.Term(2) == None;
    assert [] + BATCH4 == BATCH4;
    assert CUT.Merge(BATCH4) == CUT.Append(BATCH4) == Ok(LOG4.(committed := 1));
  }

  lemma Take4()
    ensures Replica(2, LOG4, [Reply(2, 3)], 3, HARD2).TakeReady() == Ok((Replica(2, LOG4, [], 3, HARD2), READY4))
  {
    assert LOG4.Slice(2, 4) == Ok(BATCH4) by { assert BATCH4[0..2] == BATCH4; }
    hide Log.Slice, NodeState.TakeReady;
    Drained(Replica(2, LOG4, [Reply(2, 3)], 3, HARD2), [], BATCH4);
  }

  lemma Save4()
    ensures DiskAfter(Some(DISK3), READY4, AllRecords(Some(DISK3), READY4)) == Some(DISK4)
  {
    var rs := St.Written(1, BatchOf(READY4));
    assert rs == [St.HardRecord(HARD4)];
    assert rs[..1] == rs;
    St.Unrolled(DISK3, rs);
  }

  // ----------------------------------------------------------------- the runs

  const EVENTS: seq<Event> :=
    [Handle(Deliver(FromLeader(1, 0, 0, BATCH1, 0))), Take, Save, Apply, Advance, Skip,
     Handle(Deliver(FromLeader(2, 0, 0, BATCH2, 1))), Take, Save, Apply, Advance, Snapshot, Rewrite]

  const STATES: seq<Group> :=
    [Group(Replica(0, EMPTY_LOG, [], 0, HardState(0, 0, 0)), Some(NO_STATE), 0, 0, Idle),
     Group(Replica(1, LOG1, [Reply(1, 3)], 0, HardState(0, 0, 0)), Some(NO_STATE), 0, 0, Idle),
     Group(Replica(1, LOG1, [], 0, HardState(0, 0, 0)), Some(NO_STATE), 0, 0, Took(READY1)),
     Group(Replica(1, LOG1, [], 0, HardState(0, 0, 0)), Some(DISK1), 0, 0, Saved(READY1)),
     Group(Replica(1, LOG1, [], 0, HardState(0, 0, 0)), Some(DISK1), 0, 0, Applied(READY1)),
     Group(Replica(1, LOG1, [], 3, HARD1), Some(DISK1), 0, 0, Advanced),
     Group(Replica(1, LOG1, [], 3, HARD1), Some(DISK1), 0, 0, Idle),
     Group(Replica(2, LOG2, [Reply(2, 1)], 3, HARD1), Some(DISK1), 0, 0, Idle),
     Group(Replica(2, LOG2, [], 3, HARD1), Some(DISK1), 0, 0, Took(READY2)),
     Group(Replica(2, LOG2, [], 3, HARD1), Some(DISK2), 0, 0, Saved(READY2)),
     Group(Replica(2, LOG2, [], 3, HARD1), Some(DISK2), 1, 0, Applied(READY2)),
     Group(Replica(2, LOG2.(applied := 1), [], 3, HARD2), Some(DISK2), 1, 0, Advanced),
     Group(Replica(2, CUT, [], 3, HARD2), Some(DISK2), 1, 1, Compacted),
     Group(Replica(2, CUT, [], 3, HARD2), Some(DISK3), 1, 1, Idle)]

  const GAP_EVENTS: seq<Event> := EVENTS + [Handle(Deliver(FromLeader(2, 1, 2, BATCH3, 1))), Take, Save]

  const GAP_STATES: seq<Group> :=
    STATES +
    [Group(Replica(2, LOG3, [Reply(2, 4)], 3, HARD2), Some(DISK3), 1, 1, Idle),
     Group(Replica(2, LOG3, [], 3, HARD2), Some(DISK3), 1, 1, Took(READY3)),
     Group(Replica(2, LOG3, [], 3, HARD2), None, 1, 1, Saved(READY3))]

  const AHEAD_EVENTS: seq<Event> := EVENTS + [Handle(Deliver(FromLeader(2, 1, 2, BATCH4, 3))), Take, Save]

  const AHEAD_STATES: seq<Group> :=
    STATES +
    [Group(Replica(2, LOG4, [Reply(2, 3)], 3, HARD2), Some(DISK3), 1, 1, Idle),
     Group(Replica(2, LOG4, [], 3, HARD2), Some(DISK3), 1, 1, Took(READY4)),
     Group(Replica(2, LOG4, [], 3, HARD2), Some(DISK4), 1, 1, Saved(READY4))]

  ghost predicate Leads(gs: seq<Group>, es: seq<Event>, i: nat)
    requires i < |es| && |gs| == |es| + 1
  {
    After(gs[i], es[i]) == Some(gs[i + 1])
  }

  lemma Steps0()
    ensures Leads(STATES, EVENTS, 0) && Leads(STATES, EVENTS, 1) && Leads(STATES, EVENTS, 2) && Leads(STATES, EVENTS, 3)
  {
    hide NodeState.Step, NodeState.TakeReady, DiskAfter, Log.MaybeAppend;
    Adopt1();
    Adopts(0, EMPTY_LOG, 0, HardState(0, 0, 0), FromLeader(1, 0, 0, BATCH1, 0), LOG1);
    Take1();
    Save1();
  }

  lemma Steps1()
    ensures Leads(STATES, EVENTS, 4) && Leads(STATES, EVENTS, 5) && Leads(STATES, EVENTS, 6) && Leads(STATES, EVENTS, 7)
  {
    hide NodeState.Step, NodeState.TakeReady, NodeState.Advance, DiskAfter, Log.MaybeAppend;
    Advance1();
    Adopt2();
    Adopts(1, LOG1, 3, HARD1, FromLeader(2, 0, 0, BATCH2, 1), LOG2);
    Take2();
  }

  lemma Steps2()
    ensures Leads(STATES, EVENTS, 8) && Leads(STATES, EVENTS, 9) && Leads(STATES, EVENTS, 10)
    ensures Leads(STATES, EVENTS, 11) && Leads(STATES, EVENTS, 12)
  {
    hide DiskAfter, NodeState.Advance, NodeState.CompactTo;
    Save2();
    Advance2();
    Compact2();
  }

  lemma Steps3()
    ensures Leads(GAP_STATES, GAP_EVENTS, 13) && Leads(GAP_STATES, GAP_EVENTS, 14) && Leads(GAP_STATES, GAP_EVENTS, 15)
  {
    hide NodeState.Step, NodeState.TakeReady, DiskAfter, Log.MaybeAppend;
    Adopt3();
    Adopts(2, CUT, 3, HARD2, FromLeader(2, 1, 2, BATCH3, 1), LOG3);
    Take3();
    Save3();
  }

  lemma Steps4()
    ensures Leads(AHEAD_STATES, AHEAD_EVENTS, 13) && Leads(AHEAD_STATES, AHEAD_EVENTS, 14) && Leads(AHEAD_STATES, AHEAD_EVENTS, 15)
  {
    hide NodeState.Step, NodeState.TakeReady, DiskAfter, Log.MaybeAppend;
    Adopt4();
    Adopts(2, CUT, 3, HARD2, FromLeader(2, 1, 2, BATCH4, 3), LOG4);
    Take4();
    Save4();
  }

  /** The first thirteen steps, with any tail that follows them. */
  lemma Continued(gs: seq<Group>, es: seq<Event>)
    requires STATES <= gs && EVENTS <= es && |es| == 16 && |gs| == 17
    requires Leads(gs, es, 13) && Leads(gs, es, 14) && Leads(gs, es, 15)
    requires forall i | 0 <= i < 16 && es[i].Handle? :: CallOk(es[i].c)
    ensures IsRun(1, MEMBERS, gs, es)
  {
    hide After, Start, CallOk;
    Fresh();
    Steps0();
    Steps1();
    Steps2();
    forall i | 0 <= i < 16
      ensures After(gs[i], es[i]) == Some(gs[i + 1])
    {
      if i < 13 {
        assert Leads(STATES, EVENTS, i);
      } else {
        assert Leads(gs, es, i);
      }
    }
  }

  /** The rewrite finds a log of one entry under a stable point of three; the next drain
      leaves a gap in the file. */
  lemma GapReachable()
    ensures IsRun(1, MEMBERS, GAP_STATES, GAP_EVENTS) && !Spared(GAP_STATES[12], GAP_EVENTS[12]) && GAP_STATES[16].disk == None
  {
    hide After, Start, IsRun;
    Steps3();
    Continued(GAP_STATES, GAP_EVENTS);
  }

  /** After the same rewrite the next drain saves a commit index of three over a file that
      ends at one: what a crash leaves is readable, and the node panics on it. */
  lemma RestartPanics()
    ensures IsRun(1, MEMBERS, AHEAD_STATES, AHEAD_EVENTS) && Leaves(AHEAD_STATES[16], DISK4)
    ensures Restore(1, MEMBERS, DISK4, AHEAD_STATES[16].durable) == Panic
  {
    hide After, Start, IsRun;
    Steps4();
    Continued(AHEAD_STATES, AHEAD_EVENTS);
    assert Log([], 1, 2, 1, 1).Append([]).Ok?;
  }
}

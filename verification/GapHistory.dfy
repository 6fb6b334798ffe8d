/** How a group of five comes to send the messages of GroupGap's runs: node 2 leads term 1
    and reaches node 1 only, then node 3 leads term 2 with nodes 4 and 5. */
module GapHistory {
  import opened Common
  import opened RaftTypes
  import opened RaftLog
  import opened RaftState
  import opened RaftHistory
  import opened RaftInvariant
  import opened GroupGap
  import Act = RaftActions
  import C = RaftCluster
  import G = GroupLoop

  const VOTERS: set<Id> := {1, 2, 3, 4, 5}

  /** Node 1 neither stood nor voted. */
  ghost predicate Silent(h: History) {
    forall t: nat :: (1, t) !in h.camp && (1, t) !in h.ballots
  }

  ghost predicate Sound(h: History) {
    Inv(h) && Shape(h) && Silent(h) && h.voters == VOTERS
  }

  // ------------------------------------------------------ one step of the group

  lemma Bumped(h: History, n: Id, t: nat) returns (k: History)
    requires Sound(h) && n in h.voters && h.term[n] <= t
    ensures k == h.(term := h.term[n := t])
    ensures Sound(k) && Grows(h, k)
  {
    hide Inv, Grows;
    k := Act.Bump(h, n, t);
    Act.BumpKeeps(h, n, t);
  }

  /** A voter hears of the term and votes for `c`. */
  lemma Voted(h: History, n: Id, c: Id, t: nat) returns (k: History)
    requires Sound(h) && n in h.voters && n != 1 && h.term[n] < t && (c, t) in h.camp && h.log[n] == []
    ensures k == h.(term := h.term[n := t], ballots := h.ballots[(n, t) := Ballot(c, [])])
    ensures Sound(k) && Grows(h, k)
  {
    Act.NoRecordAhead(h, n, t);
    hide Inv, Grows;
    var b := Bumped(h, n, t);
    k := Act.Vote(b, n, c);
    Act.VoteKeeps(b, n, c);
    GrowsTransitive(h, b, k);
  }

  lemma ThreeFor(h: History, c: Id, t: nat)
    requires (c, t) in h.ballots && (4, t) in h.ballots && (5, t) in h.ballots
    requires h.ballots[(c, t)].cand == h.ballots[(4, t)].cand == h.ballots[(5, t)].cand == c
    ensures VotedFor(h, {c, 4, 5}, t, c)
  {
  }

  /** Node `c` stands with an empty log; 4 and 5 vote for it. */
  lemma Polled(h: History, c: Id) returns (k: History)
    requires Sound(h) && (c == 2 || c == 3)
    requires h.log[c] == h.log[4] == h.log[5] == [] && h.term[4] <= h.term[c] && h.term[5] <= h.term[c]
    ensures var t := h.term[c] + 1;
            && Sound(k) && k.term == h.term[c := t][4 := t][5 := t] && k == h.(term := k.term, camp := k.camp, ballots := k.ballots)
            && (c, t) in k.camp && k.camp[(c, t)] == [] && VotedFor(k, {c, 4, 5}, t, c)
    ensures Grows(h, k)
  {
    hide Inv, Grows, VotedFor;
    var t := h.term[c] + 1;
    var a := Act.Stand(h, c);
    Act.StandKeeps(h, c);
    var b := Voted(a, 4, c, t);
    k := Voted(b, 5, c, t);
    ThreeFor(k, c, t);
    GrowsTransitive(h, a, b);
    GrowsTransitive(h, b, k);
  }

  lemma Quorum(c: Id)
    requires c == 2 || c == 3
    ensures IsQuorum(VOTERS, {c, 4, 5})
  {
    assert |VOTERS| == 5 && |{c, 4, 5}| == 3;
  }

  lemma Won(h: History, c: Id) returns (k: History)
    requires Sound(h) && (c == 2 || c == 3)
    requires h.log[c] == h.log[4] == h.log[5] == [] && h.term[4] <= h.term[c] && h.term[5] <= h.term[c] && h.term[c] + 1 !in h.tlog
    ensures var t := h.term[c] + 1;
            && Sound(k) && k.term == h.term[c := t][4 := t][5 := t] && k.log == h.log
            && k.led == h.led[t := c] && k.tlog == h.tlog[t := []] && k.ack == h.ack[(c, t) := 0]
    ensures Grows(h, k)
  {
    hide Inv, Grows, IsQuorum, VotedFor;
    var a := Polled(h, c);
    Quorum(c);
    k := Act.Elect(a, c);
    Act.ElectKeeps(a, c, {c, 4, 5});
    GrowsTransitive(h, a, k);
  }

  lemma Extended(h: History, c: Id, ents: EntryLog) returns (k: History)
    requires Sound(h) && Act.CanExtend(h, c, ents)
    ensures var t, l := h.term[c], h.log[c] + ents;
            k == h.(log := h.log[c := l], tlog := h.tlog[t := l], ack := h.ack[(c, t) := |l|])
    ensures Sound(k) && Grows(h, k)
  {
    hide Inv, Grows;
    k := Act.Extend(h, c, ents);
    Act.ExtendKeeps(h, c, ents);
  }

  /** A follower takes the first `i` entries of its leader, having had a different log or a shorter one. */
  lemma Accepted(h: History, n: Id, i: nat) returns (k: History)
    requires Sound(h) && Act.CanAccept(h, n, i) && CountOf(h.ack, (n, h.term[n])) <= i
    requires !Agree(h.tlog[h.term[n]], h.log[n], i)
    ensures var t := h.term[n]; k == h.(log := h.log[n := h.tlog[t][..i]], ack := h.ack[(n, t) := i])
    ensures Sound(k) && Grows(h, k)
  {
    hide Inv, Grows;
    k := Act.Accept(h, n, i);
    Act.AcceptKeeps(h, n, i);
  }

  // --------------------------------------------------------- the three moments

  /** Node 2 leads term 1 and holds three entries nobody else has. */
  ghost predicate Moment1(h: History) {
    && Sound(h) && h.term[1] == h.term[3] == 0 && h.term[4] == h.term[5] == 1
    && h.log[1] == h.log[3] == h.log[4] == h.log[5] == []
    && h.tlog.Keys == {1} && h.led[1] == 2 && h.tlog[1] == BATCH1 && (1, 1) !in h.ack
  }

  lemma First() returns (h: History)
    ensures Moment1(h)
  {
    hide Inv, Grows;
    var a := C.NewHistory(VOTERS);
    C.EmptyInv(VOTERS);
    var b := Won(a, 2);
    h := Extended(b, 2, BATCH1);
    assert [] + BATCH1 == BATCH1;
  }

  /** Node 1 took them; node 3 leads term 2, and its entry is with 4 and 5 as well. */
  ghost predicate Moment2(h: History) {
    && Sound(h) && h.term[1] == 1 && h.term[3] == h.term[4] == h.term[5] == 2
    && h.log[1] == BATCH1 && h.log[3] == h.log[4] == h.log[5] == BATCH2
    && h.tlog.Keys == {1, 2} && h.led[1] == 2 && h.led[2] == 3 && h.tlog[2] == BATCH2
    && CountOf(h.ack, (3, 2)) == CountOf(h.ack, (4, 2)) == CountOf(h.ack, (5, 2)) == 1 && (1, 2) !in h.ack
  }

  /** Node 1 takes them, and node 3 hears of term 1. */
  lemma Taken(g: History) returns (h: History)
    requires Moment1(g)
    ensures Sound(h) && h.term == g.term[1 := 1][3 := 1] && h.log == g.log[1 := BATCH1]
    ensures h == g.(term := h.term, log := h.log, ack := g.ack[(1, 1) := 3])
    ensures Grows(g, h)
  {
    hide Inv, Grows, Silent;
    var a := Bumped(g, 1, 1);
    var b := Accepted(a, 1, 3);
    assert BATCH1[..3] == BATCH1;
    h := Bumped(b, 3, 1);
    GrowsTransitive(g, a, b);
    GrowsTransitive(g, b, h);
  }

  lemma Between(g: History) returns (h: History)
    requires Moment1(g)
    ensures Sound(h) && h.term[1] == 1 && h.term[3] == h.term[4] == h.term[5] == 2
    ensures h.log[1] == BATCH1 && h.log[3] == h.log[4] == h.log[5] == []
    ensures h.tlog.Keys == {1, 2} && h.led[1] == 2 && h.led[2] == 3 && h.tlog[2] == []
    ensures (4, 2) !in h.ack && (5, 2) !in h.ack && (1, 2) !in h.ack
    ensures Grows(g, h)
  {
    hide Inv, Grows, Silent;
    Unacked(g, 1, 2);
    Unacked(g, 4, 2);
    Unacked(g, 5, 2);
    var a := Taken(g);
    h := Won(a, 3);
    GrowsTransitive(g, a, h);
  }

  /** Nobody acknowledged a term without a leader. */
  lemma Unacked(h: History, n: Id, t: nat)
    requires Inv(h) && t !in h.tlog
    ensures (n, t) !in h.ack
  {
    hide LogsSourced, LeadersCarry, NodesKeep, BallotsKeep, CampOk, BallotOk, LeaderOk;
  }

  /** Node 3 appends its entry. */
  lemma Opened(g: History) returns (h: History)
    requires Moment1(g)
    ensures Sound(h) && h.term[1] == 1 && h.term[3] == h.term[4] == h.term[5] == 2
    ensures h.log[1] == BATCH1 && h.log[3] == BATCH2 && h.log[4] == h.log[5] == []
    ensures h.tlog.Keys == {1, 2} && h.led[1] == 2 && h.led[2] == 3 && h.tlog[2] == BATCH2
    ensures CountOf(h.ack, (3, 2)) == 1 && (4, 2) !in h.ack && (5, 2) !in h.ack && (1, 2) !in h.ack
    ensures Grows(g, h)
  {
    hide Inv, Grows, Silent, BATCH1, BATCH3, Moment1;
    var a := Between(g);
    assert [] + BATCH2 == BATCH2;
    h := Extended(a, 3, BATCH2);
    GrowsTransitive(g, a, h);
  }

  lemma Second(g: History) returns (h: History)
    requires Moment1(g)
    ensures Moment2(h) && Grows(g, h)
  {
    hide Inv, Grows, Silent, BATCH1, BATCH3, Moment1;
    var a := Opened(g);
    assert BATCH2[..1] == BATCH2;
    var b := Accepted(a, 4, 1);
    h := Accepted(b, 5, 1);
    GrowsTransitive(g, a, b);
    GrowsTransitive(g, b, h);
  }

  /** Node 1 follows in term 2 with its first entry; of the next three, two are with 4 and 5. */
  ghost predicate Moment3(h: History) {
    && Sound(h) && h.term[1] == 2 && h.log[1] == BATCH2
    && h.tlog.Keys == {1, 2} && h.led[1] == 2 && h.led[2] == 3 && h.tlog[2] == BATCH2 + BATCH3
    && CountOf(h.ack, (3, 2)) >= 3 && CountOf(h.ack, (4, 2)) >= 3 && CountOf(h.ack, (5, 2)) >= 3
  }

  /** Node 1 moves to term 2, where node 3's entry replaces its three. */
  lemma Replaced(g: History) returns (h: History)
    requires Moment2(g)
    ensures Sound(h) && h.term == g.term[1 := 2] && h.log == g.log[1 := BATCH2] && h.ack == g.ack[(1, 2) := 1]
    ensures h.led == g.led && h.tlog == g.tlog
    ensures Grows(g, h)
  {
    hide Inv, Grows, Silent, BATCH3;
    var a := Bumped(g, 1, 2);
    assert BATCH2[0] != BATCH1[0] && BATCH2[..1] == BATCH2;
    h := Accepted(a, 1, 1);
    GrowsTransitive(g, a, h);
  }

  lemma Third(g: History) returns (h: History)
    requires Moment2(g)
    ensures Moment3(h) && Grows(g, h)
  {
    hide Inv, Grows, Silent, BATCH1;
    var a := Replaced(g);
    var b := Extended(a, 3, BATCH3);
    var c := Accepted(b, 4, 3);
    h := Accepted(c, 5, 3);
    GrowsTransitive(g, a, b);
    GrowsTransitive(g, b, c);
    GrowsTransitive(g, c, h);
  }

  // -------------------------------------------------------------- the messages

  lemma SettledBy(h: History, l: EntryLog, k: nat, i: nat)
    requires h.voters == VOTERS && Own(h, 2, i) && k <= i && Agree(l, h.tlog[2], k)
    requires CountOf(h.ack, (3, 2)) >= i && CountOf(h.ack, (4, 2)) >= i && CountOf(h.ack, (5, 2)) >= i
    ensures Settled(h, l, k, 2)
  {
    Quorum(3);
    assert Acked(h, {3, 4, 5}, 2, i);
    assert Chosen(h, 2, i);
  }

  lemma Sends1(h: History)
    requires Moment1(h)
    ensures MsgOk(h, FromLeader(1, 0, 0, BATCH1, 0))
  {
    hide Inv, Silent;
    assert BATCH1[0..3] == BATCH1;
  }

  lemma Sends2(h: History)
    requires Moment2(h)
    ensures MsgOk(h, FromLeader(2, 0, 0, BATCH2, 1))
  {
    hide Inv, Silent, Settled;
    assert BATCH2[0..1] == BATCH2;
    SettledBy(h, h.tlog[2], 1, 1);
  }

  lemma Sends3(h: History)
    requires Moment3(h)
    ensures MsgOk(h, FromLeader(2, 1, 2, BATCH3, 1)) && MsgOk(h, FromLeader(2, 1, 2, BATCH4, 3))
  {
    hide Inv, Silent, Settled;
    var l := BATCH2 + BATCH3;
    assert l[1..4] == BATCH3 && l[1..3] == BATCH4;
    SettledBy(h, l, 1, 1);
    SettledBy(h, l, 3, 3);
  }

  /** A follower that has voted for nobody fits a history that says the same. */
  lemma FollowerOk(h: History, t: nat, log: Log, stabled: nat, prevHard: HardState)
    requires Sound(h) && h.term[1] == t && (t in h.led ==> h.led[t] != 1)
    requires Whole(log, h.log[1]) && Settled(h, h.log[1], log.committed, t)
    requires log.snapIndex <= log.applied <= log.committed <= log.LastIndex() && log.applied <= stabled
    ensures NodeOk(Replica(t, log, [], stabled, prevHard), h)
  {
    hide Inv, Settled, Whole;
  }

  lemma Follows1(h: History)
    requires Moment1(h)
    ensures NodeOk(Replica(0, EMPTY_LOG, [], 0, HardState(0, 0, 0)), h)
  {
    hide Inv, Silent, NodeOk;
    FollowerOk(h, 0, EMPTY_LOG, 0, HardState(0, 0, 0));
  }

  lemma Follows2(h: History)
    requires Moment2(h)
    ensures NodeOk(Replica(1, LOG1, [], 3, HARD1), h)
  {
    hide Inv, Silent, NodeOk;
    assert BATCH1[0..] == BATCH1;
    FollowerOk(h, 1, LOG1, 3, HARD1);
  }

  lemma Follows3(h: History)
    requires Moment3(h)
    ensures NodeOk(Replica(2, CUT, [], 3, HARD2), h)
  {
    hide Inv, Silent, NodeOk;
    assert BATCH2[1..] == [];
    SettledBy(h, BATCH2, 1, 1);
    FollowerOk(h, 2, CUT, 3, HARD2);
  }

  /** Step `i` delivers a message, and a sound history explains it and the node. */
  ghost predicate Explained(gs: seq<G.Group>, es: seq<G.Event>, i: nat, h: History) {
    && i < |gs| && i < |es| && es[i].Handle? && es[i].c.Deliver?
    && Inv(h) && NodeOk(gs[i].node, h) && MsgOk(h, es[i].c.m)
  }

  /** At each delivery of both runs a history of a group explains node 1 and the message
      it is given, and each of these histories grows into the next. */
  lemma Receivable() returns (h1: History, h2: History, h3: History)
    ensures Explained(GAP_STATES, GAP_EVENTS, 0, h1) && Explained(AHEAD_STATES, AHEAD_EVENTS, 0, h1)
    ensures Explained(GAP_STATES, GAP_EVENTS, 6, h2) && Explained(AHEAD_STATES, AHEAD_EVENTS, 6, h2)
    ensures Explained(GAP_STATES, GAP_EVENTS, 13, h3) && Explained(AHEAD_STATES, AHEAD_EVENTS, 13, h3)
    ensures Grows(h1, h2) && Grows(h2, h3)
  {
    hide Inv, Grows, NodeOk, MsgOk, Silent;
    h1 := First();
    Follows1(h1);
    Sends1(h1);
    h2 := Second(h1);
    Follows2(h2);
    Sends2(h2);
    h3 := Third(h2);
    Follows3(h3);
    Sends3(h3);
  }
}

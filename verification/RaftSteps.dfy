/** Every handler of the node keeps its relation to the group's history and
    never reaches a panic. */
module RaftSteps {
  import opened Common
  import opened RaftTypes
  import opened RaftLog
  import opened RaftState
  import opened RaftHistory
  import opened RaftInvariant
  import Act = RaftActions

  // ---------------------------------------------------- reading a whole log

  lemma WholeTerm(g: Log, l: EntryLog, i: nat)
    requires Whole(g, l)
    ensures g.LastIndex() == |l|
    ensures g.LastTerm() == LastTerm(l)
    ensures g.Term(i) == if g.snapIndex <= i <= |l| then Some(TermAt(l, i)) else None
  {
  }

  lemma WholeSlice(g: Log, l: EntryLog, lo: nat, hi: nat)
    requires Whole(g, l) && g.snapIndex < lo <= hi <= |l| + 1
    ensures g.Slice(lo, hi) == Ok(l[lo - 1..hi - 1])
  {
    assert g.entries[lo - g.Offset()..hi - g.Offset()] == l[lo - 1..hi - 1];
  }

  // ------------------------------------------------------------- sending

  lemma SendOk(h: History, s: NodeState, m: Message)
    requires NodeOk(s, h)
    requires MsgOk(h, m.(from := s.id, term := if m.term == 0 then s.term else m.term))
    ensures NodeOk(s.Send(m), h) && Moved(h, h, s, s.Send(m))
  {
    hide MsgOk, Settled, Whole, VotedFor;
    Stutter(h, s, s.Send(m));
  }

  /** A new position for follower `p`, inside the log. */
  lemma RetargetOk(h: History, s: NodeState, p: Id, i: nat)
    requires NodeOk(s, h) && 1 <= i <= s.log.LastIndex() + 1
    ensures NodeOk(s.(next := s.next[p := i]), h)
  {
    hide MsgOk, Settled, Whole, VotedFor;
    var s' := s.(next := s.next[p := i]);
    assert s.role.Leader? ==> Progress(s', h);
  }

  /** The AppendEntries a leader sends to continue at `nx`. */
  lemma AppendMsgOk(h: History, s: NodeState, to: Id, nx: nat)
    requires NodeOk(s, h) && s.role.Leader? && to in s.voters && to != s.id
    requires s.log.snapIndex < nx <= s.log.LastIndex() + 1
    ensures var l := h.log[s.id];
            && s.log.LastIndex() == |l|
            && MsgOk(h, Message(MsgApp, s.id, to, s.term, nx - 1, TermAt(l, nx - 1), l[nx - 1..],
                                Min(s.log.committed, |l|), false))
  {
    hide VotedFor, Progress, MsgPart;
    var l := h.log[s.id];
    WholeTerm(s.log, l, nx);
    SettledShrinks(h, l, s.log.committed, Min(s.log.committed, |l|), s.term);
  }

  /** What a leader may rely on when it reads its log for follower `to`. */
  lemma LeaderReads(h: History, s: NodeState, to: Id)
    requires NodeOk(s, h) && s.role.Leader? && to in s.voters
    ensures Whole(s.log, h.log[s.id])
    ensures s.log.committed <= s.log.LastIndex() == |h.log[s.id]|
    ensures 1 <= CountOf(s.next, to) <= |h.log[s.id]| + 1
  {
    hide VotePart, MsgPart, Settled;
    assert Progress(s, h);
    WholeTerm(s.log, h.log[s.id], 0);
  }

  lemma SendAppendOk(h: History, s: NodeState, to: Id)
    requires NodeOk(s, h) && s.role.Leader? && to in s.voters && to != s.id
    ensures s.SendAppend(to).Ok? && NodeOk(s.SendAppend(to).value, h)
    ensures Moved(h, h, s, s.SendAppend(to).value)
    ensures var n := s.SendAppend(to).value; n == s.(msgs := n.msgs, next := n.next)
  {
    hide MsgOk, LogPart, VotePart, LeadPart, MsgPart, Moved;
    var l := h.log[s.id];
    var nx := CountOf(s.next, to);
    LeaderReads(h, s, to);
    WholeTerm(s.log, l, nx - 1);
    if nx > s.log.snapIndex {
      AppendMsgOk(h, s, to, nx);
      WholeSlice(s.log, l, nx, |l| + 1);
      assert l[nx - 1..|l|] == l[nx - 1..];
      var m := Plain(MsgApp, to).(logIndex := nx - 1, logTerm := TermAt(l, nx - 1), entries := l[nx - 1..],
                                  commit := Min(s.log.committed, |l|));
      assert s.SendAppend(to).value == s.Send(m);
      SendOk(h, s, m);
    } else {
      var m := Plain(MsgSnap, to).(logIndex := s.log.snapIndex, logTerm := s.log.snapTerm);
      SnapMsgOk(h, m.(from := s.id, term := s.term));
      SendOk(h, s, m);
      RetargetOk(h, s.Send(m), to, s.log.snapIndex + 1);
      Stutter(h, s, s.SendAppend(to).value);
    }
  }

  lemma SnapMsgOk(h: History, m: Message)
    requires m.from in h.voters && m.to in h.voters && m.from != m.to
    requires m.mtype.MsgSnap? || m.mtype.MsgPreVote? || m.mtype.MsgPreVoteResp? || (m.mtype.MsgAppResp? && m.reject) || (m.mtype.MsgVoteResp? && m.reject)
    ensures MsgOk(h, m)
  {
  }

  lemma {:induction false} BcastAppendOk(h: History, s: NodeState, ps: seq<Id>)
    requires NodeOk(s, h) && s.role.Leader?
    requires forall p | p in ps :: p in s.voters
    ensures s.BcastAppendTo(ps).Ok? && NodeOk(s.BcastAppendTo(ps).value, h)
    ensures Moved(h, h, s, s.BcastAppendTo(ps).value)
    ensures var n := s.BcastAppendTo(ps).value; n == s.(msgs := n.msgs, next := n.next)
    decreases |ps|
  {
    hide Moved, LogPart, VotePart, LeadPart, MsgPart;
    if ps == [] {
      Stutter(h, s, s);
    } else if ps[0] == s.id {
      BcastAppendOk(h, s, ps[1..]);
    } else {
      SendAppendOk(h, s, ps[0]);
      var n := s.SendAppend(ps[0]).value;
      BcastAppendOk(h, n, ps[1..]);
      MovedTransitive(h, h, h, s, n, n.BcastAppendTo(ps[1..]).value);
    }
  }

  lemma {:induction false} BcastVoteOk(h: History, s: NodeState, mtype: MessageType, t: nat, ps: seq<Id>)
    requires NodeOk(s, h) && t > 0
    requires forall p | p in ps :: p in s.voters
    requires mtype.MsgPreVote? || (mtype.MsgVote? && (s.id, t) in h.camp && h.camp[(s.id, t)] == h.log[s.id])
    ensures NodeOk(s.BcastVoteTo(mtype, t, ps), h) && Moved(h, h, s, s.BcastVoteTo(mtype, t, ps))
    decreases |ps|
  {
    if ps == [] {
      Stutter(h, s, s);
    } else if ps[0] == s.id {
      BcastVoteOk(h, s, mtype, t, ps[1..]);
    } else {
      WholeTerm(s.log, h.log[s.id], 0);
      var m := Plain(mtype, ps[0]).(term := t, logIndex := s.log.LastIndex(), logTerm := s.log.LastTerm());
      SendOk(h, s, m);
      BcastVoteOk(h, s.Send(m), mtype, t, ps[1..]);
      MovedTransitive(h, h, h, s, s.Send(m), s.Send(m).BcastVoteTo(mtype, t, ps[1..]));
    }
  }

  // ------------------------------------------------------------ committing

  /** What a quorum matched in the leader's own term is chosen. */
  lemma QuorumChooses(h: History, s: NodeState, c: nat)
    requires NodeOk(s, h) && s.role.Leader? && 0 < c
    requires IsQuorumIndex(s.matched, s.voters, s.Quorum(), c)
    requires s.log.Term(c) == Some(s.term) && c > s.log.snapIndex
    ensures Chosen(h, s.term, c) && Settled(h, h.log[s.id], c, s.term)
  {
    hide Settled, MsgOk;
    WholeTerm(s.log, h.log[s.id], c);
    var q := Supporters(s.matched, s.voters, c);
    assert IsQuorum(h.voters, q) && Acked(h, q, s.term, c);
    assert Own(h, s.term, c);
    assert Agree(h.log[s.id], h.tlog[s.term], c);
    ChosenSettles(h, h.log[s.id], c, s.term);
  }

  lemma ChosenSettles(h: History, l: EntryLog, c: nat, t: nat)
    requires Chosen(h, t, c) && Agree(l, h.tlog[t], c)
    ensures Settled(h, l, c, t)
  {
  }

  lemma RematchOk(h: History, s: NodeState, p: Id, i: nat)
    requires NodeOk(s, h) && s.role.Leader? && i <= CountOf(h.ack, (p, s.term))
    ensures NodeOk(s.(matched := s.matched[p := i]), h)
  {
    hide MsgOk, Settled, Whole, VotedFor;
    assert Progress(s.(matched := s.matched[p := i]), h);
  }

  lemma RecommitOk(h: History, s: NodeState, c: nat)
    requires NodeOk(s, h) && s.log.committed <= c <= s.log.LastIndex() && Settled(h, h.log[s.id], c, s.term)
    ensures NodeOk(s.(log := s.log.(committed := c)), h)
  {
    hide MsgOk, Settled, VotedFor;
  }

  /** What a leader may rely on when it counts matches. */
  lemma LeaderCounts(h: History, s: NodeState)
    requires NodeOk(s, h)
    ensures s.log.snapIndex <= s.log.committed && |s.voters| > 0
    ensures s.role.Leader? ==> s.log.LastIndex() == CountOf(h.ack, (s.id, s.term))
    ensures forall c: nat | s.log.snapIndex < c && s.log.Term(c).Some? :: c <= s.log.LastIndex()
  {
    hide VotePart, MsgPart, Settled;
    WholeTerm(s.log, h.log[s.id], 0);
  }

  lemma MaybeCommitOk(h: History, s: NodeState)
    requires NodeOk(s, h)
    ensures s.MaybeCommit().Ok? && NodeOk(s.MaybeCommit().value.0, h)
    ensures Moved(h, h, s, s.MaybeCommit().value.0)
    ensures var n := s.MaybeCommit().value.0; n == s.(matched := n.matched, log := s.log.(committed := n.log.committed))
  {
    hide NodeOk, Moved, Settled;
    LeaderCounts(h, s);
    if s.role.Leader? {
      var i := Min(s.stabled, s.log.LastIndex());
      RematchOk(h, s, s.id, i);
      var n := s.(matched := s.matched[s.id := i]);
      var c := QuorumIndex(n.matched, s.voters, s.Quorum());
      if !(c <= s.log.committed || s.log.Term(c) != Some(s.term)) {
        QuorumChooses(h, n, c);
        RecommitOk(h, n, c);
      }
    }
    Stutter(h, s, s.MaybeCommit().value.0);
  }

  // ------------------------------------------------------- changing terms

  /** A node that moves to a later term without voting in it. */
  lemma NewTermOk(h: History, k: History, s: NodeState, s': NodeState)
    requires Inv(h) && NodeOk(s, h) && s'.term > s.term && k == Act.Bump(h, s.id, s'.term)
    requires s' == s.(role := s'.role, term := s'.term, vote := 0, lead := s'.lead, votes := {}, preVotes := s'.preVotes)
    requires !s'.role.Leader? && Grows(h, k)
    ensures NodeOk(s', k) && Moved(h, k, s, s')
  {
    hide MsgOk, Settled, LogsSourced, LeadersCarry, NodesKeep, BallotsKeep, Grows;
    Act.NoRecordAhead(h, s.id, s'.term);
    LeadsNoLater(h, s.id, s'.term);
    hide Records;
    MsgsStay(h, k, s.msgs);
    SettledStays(h, k, h.log[s.id], s.log.committed, s.term, s'.term);
    assert LogPart(s', k) && VotePart(s', k) && LeadPart(s', k);
  }

  lemma BecomeFollowerOk(h: History, s: NodeState, t: nat, lead: Id) returns (k: History)
    requires Inv(h) && NodeOk(s, h) && t > s.term
    ensures s.BecomeFollower(t, lead).Ok? && Inv(k)
    ensures NodeOk(s.BecomeFollower(t, lead).value, k) && Moved(h, k, s, s.BecomeFollower(t, lead).value)
    ensures k == Act.Bump(h, s.id, t)
  {
    hide Inv, LogPart, VotePart, LeadPart, MsgPart, Moved;
    k := Act.Bump(h, s.id, t);
    Act.BumpKeeps(h, s.id, t);
    NewTermOk(h, k, s, s.BecomeFollower(t, lead).value);
  }

  /** Nobody leads a term it has not reached. */
  lemma LeadsNoLater(h: History, n: Id, t: nat)
    requires Inv(h) && n in h.voters && h.term[n] < t
    ensures t in h.led ==> h.led[t] != n
  {
    if t in h.led {
      assert LeaderOk(h, t);
    }
  }

  // ------------------------------------------------------------- elections

  /** The tally of a candidate with a quorum of votes lets it take office. */
  lemma TallyWins(h: History, s: NodeState)
    requires Inv(h) && NodeOk(s, h) && s.role.Candidate? && |s.votes| >= s.Quorum()
    ensures Act.CanLead(h, s.id, s.votes)
  {
    hide LogsSourced, LeadersCarry, NodesKeep, BallotsKeep, LogPart, MsgPart, LeaderOk, AckOk, CampOk;
    assert IsQuorum(h.voters, s.votes);
    var p :| p in s.votes;
    assert BallotOk(h, p, s.term);
    if s.term in h.tlog {
      OneLeaderPerTerm(h, s.term, s.id, s.votes);
      assert false;
    }
  }

  /** The state in which a new leader starts, before its first commit check. */
  ghost function Installed(s: NodeState): NodeState {
    s.(role := Leader, lead := s.id, transferee := 0,
       next := Uniform(s.peers, s.log.LastIndex() + 1),
       matched := Uniform(s.peers, 0),
       log := s.log.(entries := s.log.entries + [NoOp(s)]))
  }

  function NoOp(s: NodeState): Entry {
    Entry(ENTRY_NORMAL, s.log.LastIndex() + 1, s.term, [])
  }

  lemma ElectActed(h: History, s: NodeState)
    requires Shape(h) && s.id in h.voters && Grows(h, Act.Elect(h, s.id)) && h.term[s.id] !in h.tlog
    requires Shape(Act.Elect(h, s.id))
    ensures ActedBy(h, Act.Elect(h, s.id), s.id)
  {
    hide Grows;
  }

  lemma ExtendActed(h: History, c: Id, ents: EntryLog)
    requires Shape(h) && c in h.voters && Grows(h, Act.Extend(h, c, ents)) && h.term[c] in h.led && h.led[h.term[c]] == c
    requires Shape(Act.Extend(h, c, ents))
    ensures ActedBy(h, Act.Extend(h, c, ents), c)
  {
    hide Grows;
  }

  /** A leader's log after `ents` were appended, with the history that records them. */
  lemma AppendedOk(h: History, s: NodeState, ents: EntryLog)
    requires Inv(h) && NodeOk(s, h) && s.role.Leader? && Act.Fresh(ents, s.log.LastIndex(), s.term)
    ensures var k := Act.Extend(h, s.id, ents); var s' := s.(log := s.log.(entries := s.log.entries + ents));
            Inv(k) && NodeOk(s', k) && Moved(h, k, s, s')
  {
    var k := Act.Extend(h, s.id, ents);
    var s' := s.(log := s.log.(entries := s.log.entries + ents));
    AppendedHistory(h, s, ents);
    AppendedNode(h, k, s, s', ents);
  }

  lemma AppendedHistory(h: History, s: NodeState, ents: EntryLog)
    requires Inv(h) && NodeOk(s, h) && s.role.Leader? && Act.Fresh(ents, s.log.LastIndex(), s.term)
    ensures var k := Act.Extend(h, s.id, ents);
            Inv(k) && Grows(h, k) && Shape(k) && ActedBy(h, k, s.id)
  {
    hide LogsSourced, Records, LeadersCarry, NodesKeep, BallotsKeep, VotePart, MsgPart, Settled, Grows;
    WholeTerm(s.log, h.log[s.id], 0);
    Act.ExtendKeeps(h, s.id, ents);
    ExtendActed(h, s.id, ents);
  }

  lemma AppendedLog(h: History, k: History, s: NodeState, s': NodeState, ents: EntryLog)
    requires NodeOk(s, h) && k == Act.Extend(h, s.id, ents)
    requires s' == s.(log := s.log.(entries := s.log.entries + ents))
    requires Shape(k) && Grows(h, k)
    ensures LogPart(s', k) && Agree(h.log[s.id], k.log[s.id], s.log.committed)
  {
    hide Settled, Grows, VotePart, LeadPart, MsgPart;
    SettledStays(h, k, h.log[s.id], s.log.committed, s.term, s.term);
    SettledExtends(k, h.log[s.id], k.log[s.id], s.log.committed, s.term);
    assert k.log[s.id][s.log.snapIndex..] == h.log[s.id][s.log.snapIndex..] + ents;
  }

  lemma AppendedLead(h: History, k: History, s: NodeState, s': NodeState, ents: EntryLog)
    requires NodeOk(s, h) && s.role.Leader? && k == Act.Extend(h, s.id, ents)
    requires s' == s.(log := s.log.(entries := s.log.entries + ents))
    requires Shape(k) && Grows(h, k)
    ensures LeadPart(s', k)
  {
    hide Grows, VotePart, LogPart, MsgPart;
    AcksGrow(h, k);
    assert Progress(s', k);
  }

  lemma AppendedNode(h: History, k: History, s: NodeState, s': NodeState, ents: EntryLog)
    requires NodeOk(s, h) && s.role.Leader? && k == Act.Extend(h, s.id, ents)
    requires s' == s.(log := s.log.(entries := s.log.entries + ents))
    requires Shape(k) && Grows(h, k) && ActedBy(h, k, s.id)
    ensures NodeOk(s', k) && Moved(h, k, s, s')
  {
    hide MsgOk, Grows, ActedBy, LogPart, LeadPart, Act.Extend;
    MsgsStay(h, k, s.msgs);
    AppendedLog(h, k, s, s', ents);
    AppendedLead(h, k, s, s', ents);
    ExtendTouches(h, s.id, ents);
    VotesStay(h, k, s);
  }

  lemma ExtendTouches(h: History, c: Id, ents: EntryLog)
    requires c in h.log && c in h.term
    ensures var k := Act.Extend(h, c, ents);
            k.voters == h.voters && k.ballots == h.ballots && k.term == h.term && h.term[c] in k.tlog
  {
  }

  lemma VotesStay(h: History, k: History, s: NodeState)
    requires NodeOk(s, h) && Shape(k) && k.voters == h.voters && k.ballots == h.ballots && s.term in k.tlog
    ensures VotePart(s, k)
  {
  }

  lemma AcksGrow(h: History, k: History)
    requires Grows(h, k)
    ensures forall x | x in h.ack :: CountOf(h.ack, x) <= CountOf(k.ack, x)
  {
  }

  lemma TallyElects(h: History, s: NodeState)
    requires Inv(h) && NodeOk(s, h) && s.role.Candidate? && |s.votes| >= s.Quorum()
    ensures Inv(Act.Elect(h, s.id)) && Grows(h, Act.Elect(h, s.id)) && s.term !in h.tlog && Shape(h)
  {
    hide LogsSourced, Records, LeadersCarry, NodesKeep, BallotsKeep, LogPart, VotePart, LeadPart, MsgPart, Grows;
    TallyWins(h, s);
    Act.ElectKeeps(h, s.id, s.votes);
  }

  lemma InstalledOk(h: History, s: NodeState) returns (k: History)
    requires Inv(h) && NodeOk(s, h) && s.role.Candidate? && |s.votes| >= s.Quorum()
    ensures Inv(k) && NodeOk(Installed(s), k) && Moved(h, k, s, Installed(s))
  {
    hide Inv, LogPart, VotePart, LeadPart, MsgPart, Grows, Moved, Act.Elect, Act.Extend;
    TallyElects(h, s);
    var g := Act.Elect(h, s.id);
    var s' := s.(role := Leader, lead := s.id, transferee := 0,
                 next := Uniform(s.peers, s.log.LastIndex() + 1),
                 matched := Uniform(s.peers, 0));
    ElectedOk(h, g, s, s');
    AppendedOk(g, s', [NoOp(s)]);
    k := Act.Extend(g, s.id, [NoOp(s)]);
    MovedTransitive(h, g, k, s, s', Installed(s));
  }

  lemma ElectedOk(h: History, g: History, s: NodeState, s': NodeState)
    requires Shape(h) && NodeOk(s, h) && g == Act.Elect(h, s.id) && Grows(h, g) && s.term !in h.tlog
    requires s' == s.(role := Leader, lead := s.id, transferee := 0,
                      next := Uniform(s.peers, s.log.LastIndex() + 1),
                      matched := Uniform(s.peers, 0))
    ensures NodeOk(s', g) && Moved(h, g, s, s')
  {
    hide MsgOk, Settled, Grows;
    assert Shape(g);
    ElectActed(h, s);
    hide ActedBy;
    MsgsStay(h, g, s.msgs);
    SettledStays(h, g, h.log[s.id], s.log.committed, s.term, s.term);
    VotesStay(h, g, s);
    assert Progress(s', g);
  }

  lemma BecomeLeaderOk(h: History, s: NodeState) returns (k: History)
    requires Inv(h) && NodeOk(s, h) && s.role.Candidate? && |s.votes| >= s.Quorum()
    ensures s.BecomeLeader().Ok? && Inv(k)
    ensures NodeOk(s.BecomeLeader().value, k) && Moved(h, k, s, s.BecomeLeader().value)
  {
    hide Inv, LogPart, VotePart, LeadPart, MsgPart, Moved, Uniform, NodeState.MaybeCommit, NodeState.BcastAppendTo;
    k := InstalledOk(h, s);
    var n := Installed(s);
    MaybeCommitOk(k, n);
    var n' := n.MaybeCommit().value.0;
    BcastAppendOk(k, n', n'.peers);
    MovedTransitive(h, k, k, s, n, n');
    MovedTransitive(h, k, k, s, n', n'.BcastAppend().value);
  }

  ghost function Stood(s: NodeState): NodeState {
    s.(role := Candidate, term := s.term + 1, vote := s.id, lead := 0, votes := {s.id}, preVotes := {})
  }

  lemma StandActed(h: History, n: Id)
    requires Shape(h) && n in h.voters && Grows(h, Act.Stand(h, n)) && Shape(Act.Stand(h, n))
    ensures ActedBy(h, Act.Stand(h, n), n)
  {
    hide Grows;
  }

  lemma StoodOk(h: History, s: NodeState)
    requires Inv(h) && NodeOk(s, h) && !s.role.Leader?
    ensures var k := Act.Stand(h, s.id); Inv(k) && NodeOk(Stood(s), k) && Moved(h, k, s, Stood(s))
  {
    hide LogsSourced, Records, LeadersCarry, NodesKeep, BallotsKeep, Grows, MsgOk, Settled;
    var k := Act.Stand(h, s.id);
    Act.StandKeeps(h, s.id);
    StandActed(h, s.id);
    hide ActedBy;
    LeadsNoLater(h, s.id, s.term + 1);
    MsgsStay(h, k, s.msgs);
    SettledStays(h, k, h.log[s.id], s.log.committed, s.term, s.term + 1);
    assert VotePart(Stood(s), k) && LeadPart(Stood(s), k) && LogPart(Stood(s), k);
  }

  lemma StartElectionOk(h: History, s: NodeState) returns (k: History)
    requires Inv(h) && NodeOk(s, h) && !s.role.Leader?
    ensures s.StartElection().Ok? && Inv(k)
    ensures NodeOk(s.StartElection().value, k) && Moved(h, k, s, s.StartElection().value)
  {
    hide Inv, LogPart, VotePart, LeadPart, MsgPart, Moved;
    StoodOk(h, s);
    var g := Act.Stand(h, s.id);
    var n := Stood(s);
    assert s.BecomeCandidate() == Ok(n);
    if |n.votes| >= n.Quorum() {
      k := BecomeLeaderOk(g, n);
      MovedTransitive(h, g, k, s, n, n.BecomeLeader().value);
    } else {
      k := g;
      BcastVoteOk(g, n, MsgVote, n.term, n.peers);
      MovedTransitive(h, g, g, s, n, n.BcastVoteTo(MsgVote, n.term, n.peers));
    }
  }

  /** Opening or counting a PreVote round touches nothing the history records. */
  lemma PreRoundOk(h: History, s: NodeState, s': NodeState)
    requires NodeOk(s, h) && !s.role.Leader? && !s'.role.Leader?
    requires s' == s.(role := s'.role, lead := s'.lead, preVotes := s'.preVotes)
    ensures NodeOk(s', h) && Moved(h, h, s, s')
  {
    hide MsgOk, Settled, Whole, VotedFor;
    Stutter(h, s, s');
  }

  lemma CampaignOk(h: History, s: NodeState) returns (k: History)
    requires Inv(h) && NodeOk(s, h) && !s.role.Leader?
    ensures s.Campaign().Ok? && Inv(k)
    ensures NodeOk(s.Campaign().value, k) && Moved(h, k, s, s.Campaign().value)
  {
    hide Inv, LogPart, VotePart, LeadPart, MsgPart, Moved;
    var n := s.(role := Candidate, lead := 0, preVotes := {s.id});
    PreRoundOk(h, s, n);
    if |n.preVotes| >= n.Quorum() {
      k := StartElectionOk(h, n);
      MovedTransitive(h, h, k, s, n, n.StartElection().value);
    } else {
      k := h;
      BcastVoteOk(h, n, MsgPreVote, n.term + 1, n.peers);
      MovedTransitive(h, h, h, s, n, n.BcastVoteTo(MsgPreVote, n.term + 1, n.peers));
    }
  }

  lemma HandlePreVoteOk(h: History, s: NodeState, m: Message)
    requires NodeOk(s, h) && MsgOk(h, m) && m.to == s.id
    ensures NodeOk(s.HandlePreVote(m), h) && Moved(h, h, s, s.HandlePreVote(m))
  {
    hide LogPart, VotePart, LeadPart, MsgPart, Moved;
    var grant := m.term > s.term && s.log.IsUpToDate(m.logIndex, m.logTerm);
    var r := Plain(MsgPreVoteResp, m.from).(term := m.term, reject := !grant);
    SnapMsgOk(h, r.(from := s.id, term := if m.term == 0 then s.term else m.term));
    SendOk(h, s, r);
  }

  lemma HandlePreVoteRespOk(h: History, s: NodeState, m: Message) returns (k: History)
    requires Inv(h) && NodeOk(s, h)
    ensures s.HandlePreVoteResp(m).Ok? && Inv(k)
    ensures NodeOk(s.HandlePreVoteResp(m).value, k) && Moved(h, k, s, s.HandlePreVoteResp(m).value)
  {
    hide Inv, LogPart, VotePart, LeadPart, MsgPart, Moved;
    k := h;
    if !s.role.Candidate? || |s.votes| > 0 {
      Stutter(h, s, s);
    } else {
      var n := if !m.reject && m.from in s.voters then s.(preVotes := s.preVotes + {m.from}) else s;
      PreRoundOk(h, s, n);
      if |n.preVotes| >= s.Quorum() {
        k := StartElectionOk(h, n);
        MovedTransitive(h, h, k, s, n, n.StartElection().value);
      }
    }
  }

  // ---------------------------------------------------------------- voting

  lemma UpToDateReads(h: History, s: NodeState, m: Message)
    requires NodeOk(s, h) && MsgOk(h, m) && m.mtype.MsgVote?
    ensures s.log.IsUpToDate(m.logIndex, m.logTerm) <==> UpToDate(h.camp[(m.from, m.term)], h.log[s.id])
  {
    hide VotePart, LeadPart, MsgPart, Settled;
    WholeTerm(s.log, h.log[s.id], 0);
  }

  lemma VoteActed(h: History, n: Id, c: Id)
    requires Shape(h) && n in h.voters && Grows(h, Act.Vote(h, n, c)) && Shape(Act.Vote(h, n, c))
    ensures ActedBy(h, Act.Vote(h, n, c), n)
  {
    hide Grows;
  }

  /** The first vote of a term, recorded with the log it was cast from. */
  lemma CastOk(h: History, s: NodeState, c: Id)
    requires Inv(h) && NodeOk(s, h) && s.vote == 0 && c in h.voters
    requires (c, s.term) in h.camp && UpToDate(h.camp[(c, s.term)], h.log[s.id])
    ensures var k := Act.Vote(h, s.id, c); Inv(k) && NodeOk(s.(vote := c), k) && Moved(h, k, s, s.(vote := c))
  {
    hide LogsSourced, Records, LeadersCarry, NodesKeep, BallotsKeep, Grows, MsgOk, Settled;
    var k := Act.Vote(h, s.id, c);
    Act.VoteKeeps(h, s.id, c);
    VoteActed(h, s.id, c);
    hide ActedBy;
    MsgsStay(h, k, s.msgs);
    SettledStays(h, k, h.log[s.id], s.log.committed, s.term, s.term);
    assert VotePart(s.(vote := c), k) && LeadPart(s.(vote := c), k) && LogPart(s.(vote := c), k);
  }

  lemma VoteReplyOk(h: History, s: NodeState, to: Id, reject: bool)
    requires NodeOk(s, h) && to in h.voters && to != s.id && (reject || s.vote == to)
    ensures MsgOk(h, Plain(MsgVoteResp, to).(from := s.id, term := s.term, reject := reject))
  {
    hide LogPart, LeadPart, MsgPart;
  }

  lemma HandleVoteOk(h: History, s: NodeState, m: Message) returns (k: History)
    requires Inv(h) && NodeOk(s, h) && MsgOk(h, m) && m.mtype.MsgVote? && m.term == s.term && m.to == s.id
    ensures Inv(k) && NodeOk(s.HandleVote(m), k) && Moved(h, k, s, s.HandleVote(m))
  {
    hide Inv, LogPart, VotePart, LeadPart, MsgPart, Moved, Act.Vote;
    UpToDateReads(h, s, m);
    var grant := (s.vote == 0 || s.vote == m.from) && s.log.IsUpToDate(m.logIndex, m.logTerm);
    var n := if grant then s.(vote := m.from) else s;
    k := h;
    if grant && s.vote == 0 {
      CastOk(h, s, m.from);
      k := Act.Vote(h, s.id, m.from);
    } else {
      assert n == s;
      Stutter(h, s, s);
    }
    VoteReplyOk(k, n, m.from, !grant);
    SendOk(k, n, Plain(MsgVoteResp, m.from).(reject := !grant));
    MovedTransitive(h, k, k, s, n, s.HandleVote(m));
  }

  lemma HandleVoteRespOk(h: History, s: NodeState, m: Message) returns (k: History)
    requires Inv(h) && NodeOk(s, h) && MsgOk(h, m) && m.mtype.MsgVoteResp? && m.term == s.term && m.to == s.id
    ensures s.HandleVoteResp(m).Ok? && Inv(k)
    ensures NodeOk(s.HandleVoteResp(m).value, k) && Moved(h, k, s, s.HandleVoteResp(m).value)
  {
    hide Inv, LogPart, VotePart, LeadPart, MsgPart, Moved;
    k := h;
    if !s.role.Candidate? {
      Stutter(h, s, s);
    } else {
      var n := if !m.reject && m.from in s.voters then s.(votes := s.votes + {m.from}) else s;
      TalliedOk(h, s, m);
      if |n.votes| >= s.Quorum() {
        k := BecomeLeaderOk(h, n);
        MovedTransitive(h, h, k, s, n, n.BecomeLeader().value);
      }
    }
  }

  /** A vote from a voter, backed by its ballot. */
  lemma GrantedOk(h: History, s: NodeState, m: Message)
    requires NodeOk(s, h) && MsgOk(h, m) && m.mtype.MsgVoteResp? && m.term == s.term && m.to == s.id
    requires !m.reject && m.from in s.voters
    ensures VotePart(s.(votes := s.votes + {m.from}), h)
  {
    hide LogPart, LeadPart, MsgPart;
  }

  lemma TalliedOk(h: History, s: NodeState, m: Message)
    requires NodeOk(s, h) && MsgOk(h, m) && m.mtype.MsgVoteResp? && m.term == s.term && m.to == s.id
    ensures var n := if !m.reject && m.from in s.voters then s.(votes := s.votes + {m.from}) else s;
            NodeOk(n, h) && Moved(h, h, s, n)
  {
    hide MsgOk, Settled, Whole, VotedFor, Moved;
    if !m.reject && m.from in s.voters {
      GrantedOk(h, s, m);
      var n := s.(votes := s.votes + {m.from});
      Stutter(h, s, n);
      assert s.role.Leader? ==> Progress(n, h);
      hide VotePart;
    } else {
      Stutter(h, s, s);
    }
  }

  // ----------------------------------------------------------- replication

  /** The leader's entries continue a log that ends where they start. */
  lemma {:induction false} MergeAppends(g: Log, l: EntryLog, tl: EntryLog, k: nat)
    requires Whole(g, l) && |l| < k <= |tl| && Agree(l, tl, |l|) && tl[|l|].index == |l| + 1
    ensures var g' := g.(entries := g.entries + tl[|l|..k]);
            g.Merge(tl[|l|..k]) == Ok(g') && Whole(g', tl[..k])
  {
    var ents := tl[|l|..k];
    assert ents[0] == tl[|l|];
    WholeTerm(g, l, |l| + 1);
    assert g.entries + ents == tl[..k][g.snapIndex..];
  }

  /** The first conflicting entry replaces the rest of the log. */
  lemma {:induction false} MergeReplaces(g: Log, l: EntryLog, tl: EntryLog, p: nat, k: nat)
    requires Whole(g, l) && g.snapIndex <= p < |l| && p < k <= |tl| && Agree(l, tl, p)
    requires tl[p].index == p + 1 && l[p].term != tl[p].term && g.committed <= p
    ensures var g' := g.(entries := g.entries[..p - g.snapIndex] + tl[p..k]);
            g.Merge(tl[p..k]) == Ok(g') && Whole(g', tl[..k])
  {
    var ents := tl[p..k];
    assert ents[0] == tl[p];
    WholeTerm(g, l, p + 1);
    assert g.entries[..p - g.snapIndex] + ents == tl[..k][g.snapIndex..];
  }

  /** An entry already in the log is skipped. */
  lemma {:induction false} MergeSkips(g: Log, l: EntryLog, tl: EntryLog, p: nat, k: nat)
    requires Whole(g, l) && g.snapIndex <= p < |l| && p < k <= |tl|
    requires tl[p].index == p + 1 && l[p].term == tl[p].term
    ensures g.Merge(tl[p..k]) == g.Merge(tl[p + 1..k])
  {
    assert tl[p..k][0] == tl[p] && tl[p..k][1..] == tl[p + 1..k];
    WholeTerm(g, l, p + 1);
  }

  lemma {:induction false} MergeNothing(g: Log, tl: EntryLog, k: nat)
    requires k <= |tl|
    ensures g.Merge(tl[k..k]) == Ok(g)
  {
    assert tl[k..k] == [];
  }

  /** Merging the leader's entries leaves either the old log, if they were all
      there, or exactly the leader's prefix; nothing committed is touched. */
  lemma {:induction false} MergeAdopts(h: History, g: Log, l: EntryLog, tl: EntryLog, p: nat, k: nat)
    requires Whole(g, l) && Sourced(h, l) && Sourced(h, tl)
    requires g.snapIndex <= p <= k <= |tl| && Agree(l, tl, p)
    requires g.snapIndex <= g.committed && Agree(l, tl, g.committed)
    ensures g.Merge(tl[p..k]).Ok?
    ensures var g' := g.Merge(tl[p..k]).value; g' == g.(entries := g'.entries) && Whole(g', Act.Adopted(l, tl, k))
    decreases k - p
  {
    hide Whole, Log.Merge;
    if p == k {
      MergeNothing(g, tl, k);
    } else if p == |l| {
      MergeAppends(g, l, tl, k);
    } else if l[p].term != tl[p].term {
      MergeReplaces(g, l, tl, p, k);
    } else {
      LogMatching(h, l, tl, p + 1);
      MergeSkips(g, l, tl, p, k);
      MergeAdopts(h, g, l, tl, p + 1, k);
    }
  }

  /** What an AppendEntries of the node's own term says about the node. */
  lemma AppReads(h: History, s: NodeState, m: Message)
    requires Inv(h) && NodeOk(s, h) && MsgOk(h, m) && m.mtype.MsgApp? && m.term == s.term && m.to == s.id
    ensures !s.role.Leader? && s.term in h.tlog && s.term in h.led
    ensures Sourced(h, h.log[s.id]) && Sourced(h, h.tlog[s.term])
    ensures Whole(s.log, h.log[s.id]) && Agree(h.log[s.id], h.tlog[s.term], s.log.committed)
    ensures s.log.snapIndex <= s.log.committed <= |h.log[s.id]|
  {
    hide Settled, Sourced, Carried, NodesKeep, BallotsKeep, CampOk, BallotOk, AckOk, VotePart, MsgPart;
    assert LeaderOk(h, s.term);
    SettledInLeader(h, h.log[s.id], s.log.committed, s.term, s.term);
  }

  /** A passed consistency check means the logs agree up to the previous entry. */
  lemma CheckAgrees(h: History, s: NodeState, m: Message)
    requires Inv(h) && NodeOk(s, h) && MsgOk(h, m) && m.mtype.MsgApp? && m.term == s.term && m.to == s.id
    requires s.log.Term(m.logIndex) == Some(m.logTerm)
    ensures s.log.snapIndex <= m.logIndex && s.term in h.tlog && Agree(h.log[s.id], h.tlog[s.term], m.logIndex)
  {
    hide Inv, Settled, Sourced, VotePart, LeadPart, LogPart, MsgPart;
    AppReads(h, s, m);
    var l := h.log[s.id];
    var tl := h.tlog[s.term];
    WholeTerm(s.log, l, m.logIndex);
    if m.logIndex > 0 {
      LogMatching(h, l, tl, m.logIndex);
    }
  }

  /** The log after an accepted AppendEntries: the leader's entries adopted, the commit index advanced. */
  lemma MaybeAppendAdopts(h: History, s: NodeState, m: Message)
    requires Inv(h) && NodeOk(s, h) && MsgOk(h, m) && m.mtype.MsgApp? && m.term == s.term && m.to == s.id
    requires s.log.Term(m.logIndex) == Some(m.logTerm)
    ensures var k := m.logIndex + |m.entries|;
            var r := s.log.MaybeAppend(m.logIndex, m.logTerm, m.commit, m.entries);
            && s.term in h.tlog && k <= |h.tlog[s.term]|
            && r.Ok? && r.value.1 == Some(k)
            && Whole(r.value.0, Act.Adopted(h.log[s.id], h.tlog[s.term], k))
            && r.value.0.committed == Max(s.log.committed, Min(m.commit, k))
            && r.value.0.applied == s.log.applied && r.value.0.snapIndex == s.log.snapIndex
  {
    hide Inv, LogPart, VotePart, LeadPart, MsgPart, Settled, Sourced, Log.Merge, Log.MaybeAppend, Whole, Act.Adopted;
    AppReads(h, s, m);
    CheckAgrees(h, s, m);
    var l := h.log[s.id];
    var tl := h.tlog[s.term];
    var k := m.logIndex + |m.entries|;
    MergeAdopts(h, s.log, l, tl, m.logIndex, k);
    AdoptedLength(l, tl, k);
    MergeCommits(s.log, m, Act.Adopted(l, tl, k));
  }

  lemma AdoptedLength(l: EntryLog, tl: EntryLog, k: nat)
    requires k <= |tl|
    ensures |Act.Adopted(l, tl, k)| >= k
  {
  }

  /** Once the merge went through, so does the commit that follows it. */
  lemma {:induction false} MergeCommits(g: Log, m: Message, now: EntryLog)
    requires g.Term(m.logIndex) == Some(m.logTerm) && g.Merge(m.entries).Ok?
    requires var g' := g.Merge(m.entries).value; g' == g.(entries := g'.entries) && Whole(g', now)
    requires m.logIndex + |m.entries| <= |now|
    ensures var k := m.logIndex + |m.entries|;
            var r := g.MaybeAppend(m.logIndex, m.logTerm, m.commit, m.entries);
            && r.Ok? && r.value.1 == Some(k) && Whole(r.value.0, now)
            && r.value.0.committed == Max(g.committed, Min(m.commit, k))
            && r.value.0.applied == g.applied && r.value.0.snapIndex == g.snapIndex
  {
    hide Log.Merge;
    WholeTerm(g.Merge(m.entries).value, now, 0);
  }

  lemma AcceptActed(h: History, n: Id, k: nat)
    requires Shape(h) && Act.CanAccept(h, n, k) && Grows(h, Act.Accept(h, n, k)) && Shape(Act.Accept(h, n, k))
    ensures ActedBy(h, Act.Accept(h, n, k), n)
  {
    hide Grows, Act.Adopted;
  }

  /** The new commit index is settled: the old one was, and the leader's is. */
  lemma AdoptedSettled(h: History, s: NodeState, m: Message, g: Log)
    requires Inv(h) && NodeOk(s, h) && MsgOk(h, m) && m.mtype.MsgApp? && m.term == s.term && m.to == s.id
    requires s.term in h.tlog && m.logIndex + |m.entries| <= |h.tlog[s.term]|
    requires var k := m.logIndex + |m.entries|;
             Whole(g, Act.Adopted(h.log[s.id], h.tlog[s.term], k)) && g.committed == Max(s.log.committed, Min(m.commit, k))
    ensures Settled(h, Act.Adopted(h.log[s.id], h.tlog[s.term], m.logIndex + |m.entries|), g.committed, s.term)
    ensures Agree(h.log[s.id], Act.Adopted(h.log[s.id], h.tlog[s.term], m.logIndex + |m.entries|), s.log.committed)
  {
    hide Inv, Settled, Sourced, VotePart, LeadPart, MsgPart, Whole;
    AppReads(h, s, m);
    var k := m.logIndex + |m.entries|;
    var a := Act.Adopted(h.log[s.id], h.tlog[s.term], k);
    Act.AdoptedKeeps(h.log[s.id], h.tlog[s.term], k, h.log[s.id], s.log.committed);
    if g.committed == s.log.committed {
      SettledExtends(h, h.log[s.id], a, g.committed, s.term);
    } else {
      SettledExtends(h, h.tlog[s.term], a, m.commit, s.term);
    }
  }

  lemma AcceptedOk(h: History, s: NodeState, m: Message, g: Log)
    requires Inv(h) && NodeOk(s, h) && MsgOk(h, m) && m.mtype.MsgApp? && m.term == s.term && m.to == s.id
    requires s.term in h.tlog && m.logIndex + |m.entries| <= |h.tlog[s.term]|
    requires var k := m.logIndex + |m.entries|;
             Whole(g, Act.Adopted(h.log[s.id], h.tlog[s.term], k)) && g.committed == Max(s.log.committed, Min(m.commit, k))
    requires g.applied == s.log.applied && g.snapIndex == s.log.snapIndex
    ensures var k := Act.Accept(h, s.id, m.logIndex + |m.entries|);
            var s' := s.(role := Follower, lead := m.from, log := g);
            Inv(k) && NodeOk(s', k) && Moved(h, k, s, s')
  {
    hide LogsSourced, Records, LeadersCarry, NodesKeep, BallotsKeep, Grows, MsgOk, Settled, Act.Adopted;
    var i := m.logIndex + |m.entries|;
    var k := Act.Accept(h, s.id, i);
    var s' := s.(role := Follower, lead := m.from, log := g);
    AppReads(h, s, m);
    AdoptedSettled(h, s, m, g);
    Act.AcceptKeeps(h, s.id, i);
    AcceptActed(h, s.id, i);
    hide ActedBy;
    MsgsStay(h, k, s.msgs);
    SettledStays(h, k, k.log[s.id], g.committed, s.term, s.term);
    WholeTerm(g, k.log[s.id], 0);
    assert g.committed <= |k.log[s.id]| by { SettledBound(k, k.log[s.id], g.committed, s.term); }
    assert VotePart(s', k) by { VotesStay(h, k, s); }
    assert LeadPart(s', k) && LogPart(s', k);
  }

  lemma SettledBound(h: History, l: EntryLog, k: nat, t: nat)
    requires Settled(h, l, k, t)
    ensures k <= |l|
  {
  }

  lemma AcceptAcks(h: History, n: Id, k: nat)
    requires n in h.term && n in h.log && h.term[n] in h.tlog && k <= |h.tlog[h.term[n]]|
    ensures CountOf(Act.Accept(h, n, k).ack, (n, h.term[n])) >= k && Act.Accept(h, n, k).voters == h.voters
  {
  }

  lemma HandleAppOk(h: History, s: NodeState, m: Message) returns (k: History)
    requires Inv(h) && NodeOk(s, h) && MsgOk(h, m) && m.mtype.MsgApp? && m.term == s.term && m.to == s.id
    ensures s.HandleApp(m).Ok? && Inv(k)
    ensures NodeOk(s.HandleApp(m).value, k) && Moved(h, k, s, s.HandleApp(m).value)
  {
    hide Inv, LogPart, VotePart, LeadPart, MsgPart, Moved, Whole, Settled, Sourced, Act.Accept;
    AppReads(h, s, m);
    k := h;
    var i := m.logIndex + |m.entries|;
    if s.log.Term(m.logIndex) == Some(m.logTerm) {
      MaybeAppendAdopts(h, s, m);
      var g := s.log.MaybeAppend(m.logIndex, m.logTerm, m.commit, m.entries).value.0;
      AcceptedOk(h, s, m, g);
      k := Act.Accept(h, s.id, i);
      AcceptAcks(h, s.id, i);
      var n := s.(role := Follower, lead := m.from, log := g);
      SendOk(k, n, Plain(MsgAppResp, m.from).(logIndex := i));
      MovedTransitive(h, k, k, s, n, s.HandleApp(m).value);
    } else {
      var n := s.(role := Follower, lead := m.from);
      PreRoundOk(h, s, n);
      var r := Plain(MsgAppResp, m.from).(reject := true, logIndex := Min(m.logIndex, s.log.LastIndex() + 1));
      SnapMsgOk(h, r.(from := s.id, term := s.term));
      SendOk(h, n, r);
      MovedTransitive(h, h, h, s, n, s.HandleApp(m).value);
    }
  }

  lemma TimeoutMsgOk(h: History, s: NodeState, to: Id)
    requires NodeOk(s, h) && s.role.Leader? && to in s.voters && to != s.id
    ensures MsgOk(h, Plain(MsgTimeoutNow, to).(from := s.id, term := s.term))
  {
    hide LogPart, VotePart, MsgPart;
  }

  lemma AckedBound(h: History, s: NodeState, p: Id)
    requires Inv(h) && NodeOk(s, h) && s.role.Leader?
    ensures CountOf(h.ack, (p, s.term)) <= s.log.LastIndex()
  {
    hide LogsSourced, LeadersCarry, NodesKeep, BallotsKeep, CampOk, BallotOk, LeaderOk, VotePart, MsgPart, Settled;
    Act.AckBound(h, p, s.term);
    WholeTerm(s.log, h.log[s.id], 0);
  }

  lemma AcknowledgedOk(h: History, s: NodeState, p: Id, i: nat)
    requires Inv(h) && NodeOk(s, h) && s.role.Leader? && i <= CountOf(h.ack, (p, s.term))
    ensures s.Acknowledged(p, i).Ok? && NodeOk(s.Acknowledged(p, i).value, h)
    ensures Moved(h, h, s, s.Acknowledged(p, i).value)
    ensures s.Acknowledged(p, i).value.role.Leader? && s.Acknowledged(p, i).value.id == s.id
  {
    hide Inv, LogPart, VotePart, LeadPart, MsgPart, Moved;
    AckedBound(h, s, p);
    RematchOk(h, s, p, i);
    var a := s.(matched := s.matched[p := i]);
    RetargetOk(h, a, p, i + 1);
    var b := a.(next := s.next[p := i + 1]);
    Stutter(h, s, b);
    MaybeCommitOk(h, b);
    var n := b.MaybeCommit().value.0;
    MovedTransitive(h, h, h, s, b, n);
    if b.MaybeCommit().value.1 {
      BcastAppendOk(h, n, n.peers);
      MovedTransitive(h, h, h, s, n, n.BcastAppend().value);
    }
  }

  lemma BackedUpOk(h: History, s: NodeState, m: Message)
    requires NodeOk(s, h) && MsgOk(h, m) && s.role.Leader? && m.to == s.id
    ensures var n := if m.logIndex < CountOf(s.next, m.from) then s.(next := s.next[m.from := Max(m.logIndex, 1)]) else s;
            && n.SendAppend(m.from).Ok? && NodeOk(n.SendAppend(m.from).value, h)
            && Moved(h, h, s, n.SendAppend(m.from).value)
  {
    hide LogPart, VotePart, LeadPart, MsgPart, Moved;
    LeaderReads(h, s, m.from);
    var n := if m.logIndex < CountOf(s.next, m.from) then s.(next := s.next[m.from := Max(m.logIndex, 1)]) else s;
    if m.logIndex < CountOf(s.next, m.from) {
      RetargetOk(h, s, m.from, Max(m.logIndex, 1));
    }
    Stutter(h, s, n);
    SendAppendOk(h, n, m.from);
    MovedTransitive(h, h, h, s, n, n.SendAppend(m.from).value);
  }

  lemma CaughtUpOk(h: History, s: NodeState, to: Id)
    requires NodeOk(s, h) && s.role.Leader? && to in s.voters && to != s.id
    ensures NodeOk(s.Send(Plain(MsgTimeoutNow, to)), h) && Moved(h, h, s, s.Send(Plain(MsgTimeoutNow, to)))
  {
    hide LogPart, VotePart, LeadPart, MsgPart, Moved;
    TimeoutMsgOk(h, s, to);
    SendOk(h, s, Plain(MsgTimeoutNow, to));
  }

  lemma HandleAppRespOk(h: History, s: NodeState, m: Message)
    requires Inv(h) && NodeOk(s, h) && MsgOk(h, m) && m.mtype.MsgAppResp? && m.term == s.term && m.to == s.id
    ensures s.HandleAppResp(m).Ok? && NodeOk(s.HandleAppResp(m).value, h)
    ensures Moved(h, h, s, s.HandleAppResp(m).value)
  {
    hide Inv, LogPart, VotePart, LeadPart, MsgPart, Moved;
    Stutter(h, s, s);
    if s.role.Leader? && m.reject {
      BackedUpOk(h, s, m);
    } else if s.role.Leader? && m.logIndex >= CountOf(s.matched, m.from) {
      var n := s;
      if m.logIndex > CountOf(s.matched, m.from) {
        AcknowledgedOk(h, s, m.from, m.logIndex);
        n := s.Acknowledged(m.from, m.logIndex).value;
      }
      hide NodeState.Acknowledged;
      if n.transferee == m.from && CountOf(n.matched, m.from) >= n.log.LastIndex() {
        CaughtUpOk(h, n, m.from);
        MovedTransitive(h, h, h, s, n, n.Send(Plain(MsgTimeoutNow, m.from)));
      }
    }
  }

  lemma HandleProposeOk(h: History, s: NodeState, m: Message) returns (k: History)
    requires Inv(h) && NodeOk(s, h)
    ensures s.HandlePropose(m).Ok? && Inv(k)
    ensures NodeOk(s.HandlePropose(m).value, k) && Moved(h, k, s, s.HandlePropose(m).value)
  {
    hide Inv, LogPart, VotePart, LeadPart, MsgPart, Moved, Act.Extend, NodeState.MaybeCommit, NodeState.BcastAppendTo;
    k := h;
    if !s.role.Leader? || s.transferee != 0 {
      Stutter(h, s, s);
    } else {
      var ents := Stamped(m.entries, s.log.LastIndex() + 1, s.term);
      AppendedOk(h, s, ents);
      k := Act.Extend(h, s.id, ents);
      var n := s.(log := s.log.(entries := s.log.entries + ents));
      assert ents == [] ==> s.log.entries + ents == s.log.entries;
      assert s.log.Append(ents) == Ok(n.log);
      MaybeCommitOk(k, n);
      var n' := n.MaybeCommit().value.0;
      BcastAppendOk(k, n', n'.peers);
      MovedTransitive(h, k, k, s, n, n');
      MovedTransitive(h, k, k, s, n', n'.BcastAppend().value);
    }
  }

  lemma TransferLeaderOk(h: History, s: NodeState, target: Id)
    requires NodeOk(s, h)
    ensures s.TransferLeader(target).Ok? && NodeOk(s.TransferLeader(target).value.0, h)
    ensures Moved(h, h, s, s.TransferLeader(target).value.0)
  {
    hide LogPart, VotePart, LeadPart, MsgPart, Moved;
    if !s.role.Leader? || target == s.id || target !in s.voters {
      Stutter(h, s, s);
    } else {
      var n := s.(transferee := target);
      RelabelOk(h, s, n);
      if CountOf(s.matched, target) >= s.log.LastIndex() {
        TimeoutMsgOk(h, n, target);
        SendOk(h, n, Plain(MsgTimeoutNow, target));
      } else {
        SendAppendOk(h, n, target);
      }
      MovedTransitive(h, h, h, s, n, s.TransferLeader(target).value.0);
    }
  }

  /** Fields the history says nothing about. */
  lemma RelabelOk(h: History, s: NodeState, n: NodeState)
    requires NodeOk(s, h) && n == s.(lead := n.lead, transferee := n.transferee, preVotes := n.preVotes, prevHard := n.prevHard)
    ensures NodeOk(n, h) && Moved(h, h, s, n)
  {
    hide MsgOk, Settled, Whole, VotedFor;
    Stutter(h, s, n);
  }

  // ------------------------------------------------------------- the step

  lemma StepInTermOk(h: History, s: NodeState, m: Message) returns (k: History)
    requires Inv(h) && NodeOk(s, h) && MsgOk(h, m) && m.term == s.term && m.to == s.id
    ensures s.StepInTerm(m).Ok? && Inv(k)
    ensures NodeOk(s.StepInTerm(m).value, k) && Moved(h, k, s, s.StepInTerm(m).value)
  {
    hide Inv, LogPart, VotePart, MsgPart, Moved;
    k := h;
    match m.mtype
    case MsgVote => k := HandleVoteOk(h, s, m);
    case MsgVoteResp => k := HandleVoteRespOk(h, s, m);
    case MsgApp => k := HandleAppOk(h, s, m);
    case MsgAppResp => HandleAppRespOk(h, s, m);
    case MsgTimeoutNow => k := StartElectionOk(h, s);
    case _ => Stutter(h, s, s);
  }

  /** Delivering any message of the group keeps the relation and fires no guard. */
  lemma StepOk(h: History, s: NodeState, m: Message) returns (k: History)
    requires Inv(h) && NodeOk(s, h) && MsgOk(h, m) && m.to == s.id
    ensures s.Step(m).Ok? && Inv(k)
    ensures NodeOk(s.Step(m).value, k) && Moved(h, k, s, s.Step(m).value)
  {
    hide Inv, LogPart, VotePart, LeadPart, MsgPart, Moved, NodeState.StepInTerm, NodeState.HandlePreVote, NodeState.HandlePreVoteResp;
    k := h;
    if m.mtype.MsgPreVote? {
      HandlePreVoteOk(h, s, m);
    } else if m.mtype.MsgPreVoteResp? {
      k := HandlePreVoteRespOk(h, s, m);
    } else if m.term < s.term {
      if m.mtype.MsgVote? {
        VoteReplyOk(h, s, m.from, true);
        SendOk(h, s, Plain(MsgVoteResp, m.from).(reject := true));
      } else {
        Stutter(h, s, s);
      }
    } else if m.term > s.term {
      var lead := if m.mtype.MsgApp? then m.from else 0;
      var g := BecomeFollowerOk(h, s, m.term, lead);
      var n := s.BecomeFollower(m.term, lead).value;
      assert MsgOk(g, m) by { BumpGrows(h, s.id, m.term); MsgStays(h, g, m); }
      k := StepInTermOk(g, n, m);
      MovedTransitive(h, g, k, s, n, n.StepInTerm(m).value);
    } else {
      k := StepInTermOk(h, s, m);
    }
  }

  lemma BumpGrows(h: History, n: Id, t: nat)
    requires Inv(h) && n in h.voters && n in h.term && h.term[n] <= t
    ensures Grows(h, Act.Bump(h, n, t))
  {
    Act.BumpKeeps(h, n, t);
  }

  // ------------------------------------------------------- draining effects

  lemma Bounds(h: History, s: NodeState)
    requires NodeOk(s, h)
    ensures Whole(s.log, h.log[s.id])
    ensures s.log.snapIndex <= s.log.applied <= s.log.committed <= s.log.LastIndex() == |h.log[s.id]|
    ensures s.log.applied <= s.stabled
  {
    hide VotePart, LeadPart, MsgPart, Settled;
    WholeTerm(s.log, h.log[s.id], 0);
  }

  lemma DrainedOk(h: History, s: NodeState)
    requires NodeOk(s, h)
    ensures NodeOk(s.(msgs := []), h)
  {
    hide MsgOk, Settled, Whole, VotedFor;
    assert s.role.Leader? ==> Progress(s.(msgs := []), h);
  }

  /** What a drained node hands out, and that the guards on the way hold. */
  lemma TakeReadyOk(h: History, s: NodeState)
    requires NodeOk(s, h)
    ensures s.TakeReady().Ok?
    ensures var (n, rd) := s.TakeReady().value; var l := h.log[s.id]; var applyTo := Min(s.log.committed, s.stabled);
            && n == s.(msgs := []) && rd.messages == s.msgs
            && NodeOk(n, h)
            && s.log.applied <= applyTo <= |l|
            && rd.committedEntries == l[s.log.applied..applyTo]
            && (if |l| > s.stabled then rd.entries == l[s.stabled..|l|] else rd.entries == [])
            && rd.hardState == if s.Hard() != s.prevHard then Some(s.Hard()) else None
  {
    hide LogPart, VotePart, LeadPart, MsgPart, Whole;
    var l := h.log[s.id];
    var applyTo := Min(s.log.committed, s.stabled);
    Bounds(h, s);
    DrainedOk(h, s);
    if |l| > s.stabled {
      WholeSlice(s.log, l, s.stabled + 1, |l| + 1);
    }
    if applyTo > s.log.applied {
      WholeSlice(s.log, l, s.log.applied + 1, applyTo + 1);
    }
  }

  lemma StableOk(h: History, s: NodeState, i: nat, hard: HardState)
    requires NodeOk(s, h) && i >= s.stabled
    ensures NodeOk(s.(stabled := i, prevHard := hard), h)
  {
    hide MsgOk, Settled, Whole, VotedFor;
    assert s.role.Leader? ==> Progress(s.(stabled := i, prevHard := hard), h);
  }

  lemma AppliedOk(h: History, s: NodeState, i: nat)
    requires NodeOk(s, h) && s.log.applied <= i <= Min(s.log.committed, s.stabled)
    ensures NodeOk(s.(log := s.log.(applied := i)), h)
  {
    hide MsgOk, Settled, VotedFor;
    assert s.role.Leader? ==> Progress(s.(log := s.log.(applied := i)), h);
  }

  /** The last entry of a slice of the log carries the slice's end as its index. */
  lemma SliceIndex(h: History, n: Id, a: nat, b: nat)
    requires Inv(h) && n in h.voters && a < b <= |h.log[n]|
    ensures h.log[n][a..b][b - a - 1].index == b
  {
    hide Records, LeadersCarry, NodesKeep, BallotsKeep;
    assert h.log[n][a..b][b - a - 1] == h.log[n][b - 1];
  }

  /** The first half of Advance: the drained entries are durable and may complete a quorum. */
  lemma PersistedOk(h: History, n: NodeState, rd: Ready)
    requires Inv(h) && NodeOk(n, h)
    requires var l := h.log[n.id]; if |l| > n.stabled then rd.entries == l[n.stabled..|l|] else rd.entries == []
    ensures n.Persisted(rd).Ok? && NodeOk(n.Persisted(rd).value, h)
    ensures var a := n.Persisted(rd).value;
            && a.id == n.id && a.stabled >= n.stabled
            && a.log == n.log.(committed := a.log.committed) && a.log.committed >= n.log.committed
  {
    hide Inv, LogPart, VotePart, LeadPart, MsgPart;
    var l := h.log[n.id];
    var hard := if rd.hardState.Some? then rd.hardState.value else n.prevHard;
    StableOk(h, n, n.stabled, hard);
    if rd.entries != [] {
      SliceIndex(h, n.id, n.stabled, |l|);
      StableOk(h, n, |l|, hard);
      MaybeCommitOk(h, n.(prevHard := hard, stabled := |l|));
    }
  }

  /** Acknowledging a drained Ready applies exactly what it handed out. */
  lemma AdvanceOk(h: History, s: NodeState)
    requires Inv(h) && NodeOk(s, h) && s.TakeReady().Ok?
    ensures var (n, rd) := s.TakeReady().value; var r := n.Advance(rd);
            && r.Ok? && NodeOk(r.value, h) && r.value.id == s.id
            && s.log.committed <= r.value.log.committed
            && r.value.log.applied == s.log.applied + |rd.committedEntries| <= |h.log[s.id]|
  {
    hide Inv, LogPart, VotePart, LeadPart, MsgPart;
    TakeReadyOk(h, s);
    hide NodeState.TakeReady;
    var (n, rd) := s.TakeReady().value;
    var applyTo := Min(s.log.committed, s.stabled);
    PersistedOk(h, n, rd);
    hide NodeState.Persisted;
    var a := n.Persisted(rd).value;
    if rd.committedEntries != [] {
      SliceIndex(h, s.id, s.log.applied, applyTo);
      AppliedOk(h, a, applyTo);
    }
  }

  lemma CompactWhole(g: Log, l: EntryLog, i: nat)
    requires Whole(g, l) && g.snapIndex <= g.applied <= |l| && i <= g.applied
    ensures g.CompactTo(i).Ok?
    ensures var g' := g.CompactTo(i).value;
            && Whole(g', l) && g'.committed == g.committed && g'.applied == g.applied && g'.snapIndex <= g.applied
            && g'.LastIndex() == g.LastIndex()
  {
    WholeTerm(g, l, i);
    if i > g.snapIndex {
      assert g.entries[i - g.snapIndex..] == l[i..];
    }
  }

  lemma RelogOk(h: History, s: NodeState, g: Log)
    requires NodeOk(s, h) && Whole(g, h.log[s.id]) && g.committed == s.log.committed && g.applied == s.log.applied
    requires g.snapIndex <= g.applied && g.LastIndex() == s.log.LastIndex()
    ensures NodeOk(s.(log := g), h)
  {
    hide MsgOk, Settled, Whole, VotedFor;
    assert s.role.Leader? ==> Progress(s.(log := g), h);
  }

  lemma CompactOk(h: History, s: NodeState, i: nat)
    requires NodeOk(s, h) && i <= s.log.applied
    ensures s.CompactTo(i).Ok? && NodeOk(s.CompactTo(i).value, h) && Moved(h, h, s, s.CompactTo(i).value)
  {
    hide LogPart, VotePart, LeadPart, MsgPart, Moved, Whole;
    Bounds(h, s);
    CompactWhole(s.log, h.log[s.id], i);
    RelogOk(h, s, s.log.CompactTo(i).value);
    Stutter(h, s, s.CompactTo(i).value);
  }
}

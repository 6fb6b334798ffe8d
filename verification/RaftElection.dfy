/** Election safety across crashes: at most one node id ever leads a term, even
    though restarted nodes come back with whatever log they recovered and late
    vote responses reach nodes in any role. */
module RaftElection {
  import opened Common
  import opened RaftTypes
  import opened RaftLog
  import opened RaftState
  import opened RaftCluster
  import opened RaftHistory

  /** Votes cast so far, durable or not, and who was seen to lead each term. */
  datatype Poll = Poll(voters: set<Id>, cast: map<(Id, nat), Id>, led: map<nat, Id>)

  type Disk = map<Id, HardState>

  /** `p` voted for `c` in `t`. */
  ghost predicate Cast(g: Poll, p: Id, t: nat, c: Id) {
    (p, t) in g.cast && g.cast[(p, t)] == c
  }

  /** No restart of `p` lets it vote in `t` again. */
  ghost predicate Durable(d: Disk, p: Id, t: nat) {
    p in d && (d[p].term > t || (d[p].term == t && d[p].vote != 0))
  }

  /** A vote for `c` that no restart can undo. */
  ghost predicate Firm(g: Poll, d: Disk, p: Id, t: nat, c: Id) {
    Cast(g, p, t, c) && Durable(d, p, t)
  }

  predicate Granted(m: Message) {
    m.mtype.MsgVoteResp? && !m.reject
  }

  /** What a queued message says about its sender and, for a granted vote, about the candidate it answers. */
  ghost predicate QueuedOk(g: Poll, d: Disk, m: Message) {
    && m.from in g.voters
    && (m.mtype.MsgVote? ==> Cast(g, m.from, m.term, m.from))
    && (Granted(m) ==> Cast(g, m.from, m.term, m.to) && Firm(g, d, m.to, m.term, m.to))
  }

  /** A released message moreover rests on what its sender has saved. */
  ghost predicate SentOk(g: Poll, d: Disk, m: Message) {
    QueuedOk(g, d, m) && (m.mtype.MsgVote? || Granted(m) ==> Durable(d, m.from, m.term))
  }

  ghost predicate TallyOk(g: Poll, d: Disk, s: NodeState) {
    forall p | p in s.votes ::
      && p in g.voters
      && Cast(g, p, s.term, s.id)
      && (p != s.id ==> Durable(d, p, s.term) && Firm(g, d, s.id, s.term, s.id))
  }

  ghost predicate SelfOk(g: Poll, d: Disk, s: NodeState) {
    && s.id in g.voters && s.id in d
    && s.voters == g.voters
    && (forall p :: p in s.peers <==> p in s.voters)
    && s.prevHard.term == d[s.id].term && s.prevHard.vote == d[s.id].vote
    && d[s.id].term <= s.term
    && (d[s.id].vote != 0 ==> Cast(g, s.id, d[s.id].term, d[s.id].vote))
    && (forall t | (s.id, t) in g.cast :: t <= s.term)
    && (if s.vote == 0 then (s.id, s.term) !in g.cast else Cast(g, s.id, s.term, s.vote))
    && (s.role.Leader? ==> s.term in g.led && g.led[s.term] == s.id)
  }

  ghost predicate QueueOk(g: Poll, d: Disk, s: NodeState) {
    forall m | m in s.msgs :: m.from == s.id && QueuedOk(g, d, m)
  }

  ghost predicate VoterOk(g: Poll, d: Disk, s: NodeState) {
    SelfOk(g, d, s) && TallyOk(g, d, s) && QueueOk(g, d, s)
  }

  ghost predicate Backed(g: Poll, d: Disk, q: set<Id>, t: nat, c: Id) {
    forall p | p in q :: Firm(g, d, p, t, c)
  }

  /** Every leader is backed by a quorum of votes no restart can undo, or is alone. */
  ghost predicate LedOk(g: Poll, d: Disk) {
    && 0 !in g.voters
    && forall t | t in g.led ::
         && g.led[t] in g.voters
         && (g.voters == {g.led[t]} || exists q :: IsQuorum(g.voters, q) && Backed(g, d, q, t, g.led[t]))
  }

  ghost predicate PollOk(c: Cluster, g: Poll) {
    && LedOk(g, c.disk)
    && c.nodes.Keys == g.voters && c.disk.Keys == g.voters && c.emitted.Keys == g.voters
    && (forall n | n in c.nodes :: c.nodes[n].id == n && VoterOk(g, c.disk, c.nodes[n]))
    && (forall m | m in c.net :: SentOk(g, c.disk, m))
  }

  /** `k` records at least what `g` does; new votes are votes of `n`. */
  ghost predicate Extends(g: Poll, k: Poll, n: Id) {
    && k.voters == g.voters
    && (forall x | x in g.cast :: x in k.cast && k.cast[x] == g.cast[x])
    && (forall x | x in k.cast && x !in g.cast :: x.0 == n)
    && (forall t | t in g.led :: t in k.led && k.led[t] == g.led[t])
  }

  // ---------------------------------------------- steps that do not vote

  /** `s'` differs from `s` in nothing elections look at, but may have queued messages that grant nothing. */
  ghost predicate SameFace(s: NodeState, s': NodeState) {
    && s'.id == s.id && s'.voters == s.voters && s'.peers == s.peers && s'.role == s.role
    && s'.term == s.term && s'.vote == s.vote && s'.votes == s.votes && s'.prevHard == s.prevHard
    && Harmless(s, s')
  }

  ghost predicate Harmless(s: NodeState, s': NodeState) {
    forall m | m in s'.msgs :: m in s.msgs || (m.from == s.id && !m.mtype.MsgVote? && !Granted(m))
  }

  lemma SameFaceOk(g: Poll, d: Disk, s: NodeState, s': NodeState)
    requires VoterOk(g, d, s) && SameFace(s, s')
    ensures VoterOk(g, d, s')
  {
  }

  lemma SendAppendFace(s: NodeState, to: Id)
    requires s.SendAppend(to).Ok?
    ensures SameFace(s, s.SendAppend(to).value)
  {
  }

  lemma {:induction false} BcastAppendFace(s: NodeState, ps: seq<Id>)
    requires s.BcastAppendTo(ps).Ok?
    ensures SameFace(s, s.BcastAppendTo(ps).value)
    decreases |ps|
  {
    if ps != [] {
      if ps[0] == s.id {
        BcastAppendFace(s, ps[1..]);
      } else {
        SendAppendFace(s, ps[0]);
        BcastAppendFace(s.SendAppend(ps[0]).value, ps[1..]);
      }
    }
  }

  lemma MaybeCommitFace(s: NodeState)
    requires s.MaybeCommit().Ok?
    ensures SameFace(s, s.MaybeCommit().value.0)
  {
  }

  lemma {:induction false} PreVoteFace(s: NodeState, t: nat, ps: seq<Id>)
    ensures SameFace(s, s.BcastVoteTo(MsgPreVote, t, ps))
    decreases |ps|
  {
    if ps != [] {
      if ps[0] == s.id {
        PreVoteFace(s, t, ps[1..]);
      } else {
        var m := Plain(MsgPreVote, ps[0]).(term := t, logIndex := s.log.LastIndex(), logTerm := s.log.LastTerm());
        PreVoteFace(s.Send(m), t, ps[1..]);
      }
    }
  }

  // ------------------------------------------------- carrying facts along

  lemma LedStays(g: Poll, k: Poll, d: Disk, n: Id)
    requires LedOk(g, d) && Extends(g, k, n) && k.led == g.led
    ensures LedOk(k, d)
  {
    forall t | t in k.led && k.voters != {k.led[t]}
      ensures exists q :: IsQuorum(k.voters, q) && Backed(k, d, q, t, k.led[t])
    {
      var q :| IsQuorum(g.voters, q) && Backed(g, d, q, t, g.led[t]);
      assert Backed(k, d, q, t, k.led[t]);
    }
  }

  /** A node is not disturbed by votes of another. */
  lemma VoterStays(g: Poll, k: Poll, d: Disk, n: Id, s: NodeState)
    requires VoterOk(g, d, s) && Extends(g, k, n) && s.id != n
    ensures VoterOk(k, d, s)
  {
  }

  lemma ExtendsTransitive(a: Poll, b: Poll, c: Poll, n: Id)
    requires Extends(a, b, n) && Extends(b, c, n)
    ensures Extends(a, c, n)
  {
  }

  // ---------------------------------------------------- changing role or term

  /** Stepping down, opening a PreVote round, or moving to a later term without voting. */
  lemma RetreatOk(g: Poll, d: Disk, s: NodeState, s': NodeState)
    requires VoterOk(g, d, s) && !s'.role.Leader?
    requires s' == s.(role := s'.role, term := s'.term, vote := s'.vote, lead := s'.lead, votes := s'.votes, preVotes := s'.preVotes)
    requires if s'.term == s.term then s'.vote == s.vote && s'.votes == s.votes else s'.term > s.term && s'.vote == 0 && s'.votes == {}
    ensures VoterOk(g, d, s')
  {
  }

  ghost function VoteFor(g: Poll, n: Id, t: nat, c: Id): Poll {
    g.(cast := g.cast[(n, t) := c])
  }

  /** Starting an election: a vote for oneself in a new term. */
  lemma StoodOk(g: Poll, d: Disk, s: NodeState, s': NodeState)
    requires LedOk(g, d) && VoterOk(g, d, s)
    requires s' == s.(role := Candidate, term := s.term + 1, vote := s.id, lead := 0, votes := {s.id}, preVotes := {})
    ensures var k := VoteFor(g, s.id, s'.term, s.id); VoterOk(k, d, s') && Extends(g, k, s.id) && LedOk(k, d)
  {
    var k := VoteFor(g, s.id, s'.term, s.id);
    assert Extends(g, k, s.id);
    LedStays(g, k, d, s.id);
    assert SelfOk(k, d, s');
    assert QueueOk(k, d, s');
  }

  lemma {:induction false} BcastVoteOk(g: Poll, d: Disk, s: NodeState, t: nat, ps: seq<Id>)
    requires VoterOk(g, d, s) && t > 0 && Cast(g, s.id, t, s.id)
    ensures VoterOk(g, d, s.BcastVoteTo(MsgVote, t, ps)) && s.BcastVoteTo(MsgVote, t, ps).id == s.id
    decreases |ps|
  {
    if ps != [] {
      if ps[0] == s.id {
        BcastVoteOk(g, d, s, t, ps[1..]);
      } else {
        var m := Plain(MsgVote, ps[0]).(term := t, logIndex := s.log.LastIndex(), logTerm := s.log.LastTerm());
        assert VoterOk(g, d, s.Send(m));
        BcastVoteOk(g, d, s.Send(m), t, ps[1..]);
      }
    }
  }

  // ------------------------------------------------------- taking office

  ghost function Crown(g: Poll, t: nat, c: Id): Poll {
    g.(led := g.led[t := c])
  }

  /** A tally of a quorum is a quorum of firm votes, unless the candidate is the only voter. */
  lemma TallyFirm(g: Poll, d: Disk, s: NodeState)
    requires LedOk(g, d) && VoterOk(g, d, s) && |s.votes| >= s.Quorum() && g.voters != {s.id}
    ensures IsQuorum(g.voters, s.votes) && Backed(g, d, s.votes, s.term, s.id)
  {
    hide QueueOk;
    assert s.votes <= g.voters;
    if s.votes <= {s.id} {
      SubsetSize(s.votes, {s.id});
      assert |g.voters| == 1;
      Singleton(g.voters, s.id);
      assert false;
    }
    var p :| p in s.votes && p != s.id;
    assert Firm(g, d, s.id, s.term, s.id);
  }

  lemma Singleton(v: set<Id>, x: Id)
    requires |v| == 1 && x in v
    ensures v == {x}
  {
    SubsetSize({x}, v);
    if y :| y in v && y != x {
      assert {x, y} <= v && |{x, y}| == 2;
      SubsetSize({x, y}, v);
      assert false;
    }
  }

  /** Two quorums share a voter, and that voter cast one vote. */
  lemma CrownOk(g: Poll, d: Disk, s: NodeState)
    requires LedOk(g, d) && VoterOk(g, d, s) && |s.votes| >= s.Quorum()
    ensures s.term in g.led ==> g.led[s.term] == s.id
    ensures var k := Crown(g, s.term, s.id); LedOk(k, d) && Extends(g, k, s.id)
  {
    hide QueueOk, TallyOk;
    var k := Crown(g, s.term, s.id);
    if g.voters != {s.id} {
      TallyFirm(g, d, s);
      if s.term in g.led && g.led[s.term] != s.id {
        if g.voters == {g.led[s.term]} {
          assert false;
        }
        var q :| IsQuorum(g.voters, q) && Backed(g, d, q, s.term, g.led[s.term]);
        var p := QuorumsMeet(g.voters, q, s.votes);
        assert false;
      }
      assert Backed(k, d, s.votes, s.term, s.id);
    }
    assert Extends(g, k, s.id);
    forall t | t in k.led && k.voters != {k.led[t]}
      ensures exists q :: IsQuorum(k.voters, q) && Backed(k, d, q, t, k.led[t])
    {
      if t != s.term {
        var q :| IsQuorum(g.voters, q) && Backed(g, d, q, t, g.led[t]);
        assert Backed(k, d, q, t, k.led[t]);
      }
    }
  }

  lemma CrownedVoter(g: Poll, d: Disk, s: NodeState, n: NodeState)
    requires VoterOk(g, d, s) && (s.term in g.led ==> g.led[s.term] == s.id)
    requires n == s.(role := Leader, lead := n.lead, transferee := n.transferee, next := n.next, matched := n.matched, log := n.log)
    ensures VoterOk(Crown(g, s.term, s.id), d, n)
  {
  }

  /** The rest of taking office only counts matches and queues AppendEntries. */
  lemma OpeningFace(n: NodeState)
    requires n.MaybeCommit().Ok? && n.MaybeCommit().value.0.BcastAppend().Ok?
    ensures SameFace(n, n.MaybeCommit().value.0.BcastAppend().value)
  {
    hide NodeState.MaybeCommit, NodeState.BcastAppendTo;
    MaybeCommitFace(n);
    var n' := n.MaybeCommit().value.0;
    BcastAppendFace(n', n'.peers);
  }

  lemma BecomeLeaderOk(g: Poll, d: Disk, s: NodeState) returns (k: Poll)
    requires LedOk(g, d) && VoterOk(g, d, s) && |s.votes| >= s.Quorum() && s.BecomeLeader().Ok?
    ensures Extends(g, k, s.id) && LedOk(k, d) && VoterOk(k, d, s.BecomeLeader().value) && s.BecomeLeader().value.id == s.id
  {
    hide LedOk, VoterOk, Extends, NodeState.MaybeCommit, NodeState.BcastAppend, Uniform;
    CrownOk(g, d, s);
    k := Crown(g, s.term, s.id);
    var n := s.(role := Leader, lead := s.id, transferee := 0,
                next := Uniform(s.peers, s.log.LastIndex() + 1), matched := Uniform(s.peers, 0),
                log := s.log.(entries := s.log.entries + [Entry(ENTRY_NORMAL, s.log.LastIndex() + 1, s.term, [])]));
    CrownedVoter(g, d, s, n);
    OpeningFace(n);
    SameFaceOk(k, d, n, n.MaybeCommit().value.0.BcastAppend().value);
  }

  lemma StartElectionOk(g: Poll, d: Disk, s: NodeState) returns (k: Poll)
    requires LedOk(g, d) && VoterOk(g, d, s) && s.StartElection().Ok?
    ensures Extends(g, k, s.id) && LedOk(k, d) && VoterOk(k, d, s.StartElection().value) && s.StartElection().value.id == s.id
  {
    hide LedOk, TallyOk, QueueOk;
    var n := s.BecomeCandidate().value;
    StoodOk(g, d, s, n);
    k := VoteFor(g, s.id, n.term, s.id);
    if |n.votes| >= n.Quorum() {
      var k' := BecomeLeaderOk(k, d, n);
      ExtendsTransitive(g, k, k', s.id);
      k := k';
    } else {
      BcastVoteOk(k, d, n, n.term, n.peers);
    }
  }

  lemma CampaignOk(g: Poll, d: Disk, s: NodeState) returns (k: Poll)
    requires LedOk(g, d) && VoterOk(g, d, s) && s.Campaign().Ok?
    ensures Extends(g, k, s.id) && LedOk(k, d) && VoterOk(k, d, s.Campaign().value) && s.Campaign().value.id == s.id
  {
    hide LedOk, VoterOk;
    k := g;
    if s.id in s.voters {
      var n := s.BecomePreCandidate().value;
      RetreatOk(g, d, s, n);
      if |n.preVotes| >= n.Quorum() {
        k := StartElectionOk(g, d, n);
      } else {
        PreVoteFace(n, n.term + 1, n.peers);
        SameFaceOk(g, d, n, n.BcastVoteTo(MsgPreVote, n.term + 1, n.peers));
      }
    }
  }

  // ---------------------------------------------------------------- voting

  /** A first vote of the term for a candidate whose request was released. */
  lemma CastOk(g: Poll, d: Disk, s: NodeState, c: Id)
    requires LedOk(g, d) && VoterOk(g, d, s) && s.vote == 0 && c != 0
    ensures var k := VoteFor(g, s.id, s.term, c);
            VoterOk(k, d, s.(vote := c)) && Extends(g, k, s.id) && LedOk(k, d)
  {
    var k := VoteFor(g, s.id, s.term, c);
    assert Extends(g, k, s.id);
    LedStays(g, k, d, s.id);
    assert SelfOk(k, d, s.(vote := c));
    assert QueueOk(k, d, s.(vote := c));
  }

  lemma GrantOk(g: Poll, d: Disk, s: NodeState, c: Id)
    requires VoterOk(g, d, s) && s.vote == c != 0 && Firm(g, d, c, s.term, c)
    ensures VoterOk(g, d, s.Send(Plain(MsgVoteResp, c)))
  {
    var n := s.Send(Plain(MsgVoteResp, c));
    assert QueueOk(g, d, n);
    assert TallyOk(g, d, n);
  }

  lemma HandleVoteOk(g: Poll, d: Disk, s: NodeState, m: Message) returns (k: Poll)
    requires LedOk(g, d) && VoterOk(g, d, s) && SentOk(g, d, m) && m.mtype.MsgVote? && m.term == s.term
    ensures Extends(g, k, s.id) && LedOk(k, d) && VoterOk(k, d, s.HandleVote(m)) && s.HandleVote(m).id == s.id
  {
    hide VoterOk;
    k := g;
    var grant := (s.vote == 0 || s.vote == m.from) && s.log.IsUpToDate(m.logIndex, m.logTerm);
    if grant {
      if s.vote == 0 {
        CastOk(g, d, s, m.from);
        k := VoteFor(g, s.id, s.term, m.from);
        assert Firm(k, d, m.from, s.term, m.from);
        GrantOk(k, d, s.(vote := m.from), m.from);
      } else {
        GrantOk(g, d, s, m.from);
        assert s.(vote := m.from) == s;
      }
    } else {
      SameFaceOk(g, d, s, s.HandleVote(m));
    }
  }

  lemma TalliedOk(g: Poll, d: Disk, s: NodeState, m: Message)
    requires VoterOk(g, d, s) && SentOk(g, d, m) && m.mtype.MsgVoteResp? && m.term == s.term && m.to == s.id
    ensures var n := if !m.reject && m.from in s.voters then s.(votes := s.votes + {m.from}) else s; VoterOk(g, d, n)
  {
  }

  lemma HandleVoteRespOk(g: Poll, d: Disk, s: NodeState, m: Message) returns (k: Poll)
    requires LedOk(g, d) && VoterOk(g, d, s) && SentOk(g, d, m)
    requires m.mtype.MsgVoteResp? && m.term == s.term && m.to == s.id && s.HandleVoteResp(m).Ok?
    ensures Extends(g, k, s.id) && LedOk(k, d) && VoterOk(k, d, s.HandleVoteResp(m).value) && s.HandleVoteResp(m).value.id == s.id
  {
    hide LedOk, VoterOk;
    k := g;
    if s.role.Candidate? {
      TalliedOk(g, d, s, m);
      var n := if !m.reject && m.from in s.voters then s.(votes := s.votes + {m.from}) else s;
      if |n.votes| >= s.Quorum() {
        k := BecomeLeaderOk(g, d, n);
      }
    }
  }

  lemma HandlePreVoteRespOk(g: Poll, d: Disk, s: NodeState, m: Message) returns (k: Poll)
    requires LedOk(g, d) && VoterOk(g, d, s) && s.HandlePreVoteResp(m).Ok?
    ensures Extends(g, k, s.id) && LedOk(k, d) && VoterOk(k, d, s.HandlePreVoteResp(m).value) && s.HandlePreVoteResp(m).value.id == s.id
  {
    hide LedOk, VoterOk;
    k := g;
    if s.role.Candidate? && |s.votes| == 0 {
      var n := if !m.reject && m.from in s.voters then s.(preVotes := s.preVotes + {m.from}) else s;
      RetreatOk(g, d, s, n);
      if |n.preVotes| >= s.Quorum() {
        k := StartElectionOk(g, d, n);
      }
    }
  }

  // ------------------------------------------------------- everything else

  lemma HandleAppOk(g: Poll, d: Disk, s: NodeState, m: Message)
    requires VoterOk(g, d, s) && s.HandleApp(m).Ok?
    ensures VoterOk(g, d, s.HandleApp(m).value)
  {
    hide VoterOk;
    var n := s.(role := Follower, lead := m.from);
    RetreatOk(g, d, s, n);
    SameFaceOk(g, d, n, s.HandleApp(m).value);
  }

  lemma AcknowledgedFace(s: NodeState, p: Id, i: nat)
    requires s.Acknowledged(p, i).Ok?
    ensures SameFace(s, s.Acknowledged(p, i).value)
  {
    var b := s.(matched := s.matched[p := i], next := s.next[p := i + 1]);
    MaybeCommitFace(b);
    if b.MaybeCommit().value.1 {
      var n := b.MaybeCommit().value.0;
      BcastAppendFace(n, n.peers);
    }
  }

  lemma HandleAppRespFace(s: NodeState, m: Message)
    requires s.HandleAppResp(m).Ok?
    ensures SameFace(s, s.HandleAppResp(m).value)
  {
    if s.role.Leader? {
      if m.reject {
        var n := if m.logIndex < CountOf(s.next, m.from) then s.(next := s.next[m.from := Max(m.logIndex, 1)]) else s;
        SendAppendFace(n, m.from);
      } else if m.logIndex > CountOf(s.matched, m.from) {
        AcknowledgedFace(s, m.from, m.logIndex);
      }
    }
  }

  lemma HandleProposeFace(s: NodeState, m: Message)
    requires s.HandlePropose(m).Ok?
    ensures SameFace(s, s.HandlePropose(m).value)
  {
    if s.role.Leader? && s.transferee == 0 {
      var n := s.(log := s.log.Append(Stamped(m.entries, s.log.LastIndex() + 1, s.term)).value);
      MaybeCommitFace(n);
      var n' := n.MaybeCommit().value.0;
      BcastAppendFace(n', n'.peers);
    }
  }

  lemma TransferFace(s: NodeState, target: Id)
    requires s.TransferLeader(target).Ok?
    ensures SameFace(s, s.TransferLeader(target).value.0)
  {
    if s.role.Leader? && target != s.id && target in s.voters {
      if CountOf(s.matched, target) < s.log.LastIndex() {
        SendAppendFace(s.(transferee := target), target);
      }
    }
  }

  lemma StepInTermOk(g: Poll, d: Disk, s: NodeState, m: Message) returns (k: Poll)
    requires LedOk(g, d) && VoterOk(g, d, s) && SentOk(g, d, m) && m.term == s.term && m.to == s.id
    requires s.StepInTerm(m).Ok?
    ensures Extends(g, k, s.id) && LedOk(k, d) && VoterOk(k, d, s.StepInTerm(m).value) && s.StepInTerm(m).value.id == s.id
  {
    hide LedOk, VoterOk, SentOk;
    k := g;
    match m.mtype
    case MsgVote => k := HandleVoteOk(g, d, s, m);
    case MsgVoteResp => k := HandleVoteRespOk(g, d, s, m);
    case MsgApp => HandleAppOk(g, d, s, m);
    case MsgAppResp =>
      HandleAppRespFace(s, m);
      SameFaceOk(g, d, s, s.HandleAppResp(m).value);
    case MsgTimeoutNow => if s.id in s.voters { k := StartElectionOk(g, d, s); }
    case _ =>
  }

  lemma StepOk(g: Poll, d: Disk, s: NodeState, m: Message) returns (k: Poll)
    requires LedOk(g, d) && VoterOk(g, d, s) && SentOk(g, d, m) && m.to == s.id && s.Step(m).Ok?
    ensures Extends(g, k, s.id) && LedOk(k, d) && VoterOk(k, d, s.Step(m).value) && s.Step(m).value.id == s.id
  {
    hide LedOk, VoterOk, SentOk;
    k := g;
    if m.mtype.MsgProp? {
      HandleProposeFace(s, m);
      SameFaceOk(g, d, s, s.HandlePropose(m).value);
    } else if m.mtype.MsgPreVote? {
      SameFaceOk(g, d, s, s.HandlePreVote(m));
    } else if m.mtype.MsgPreVoteResp? {
      k := HandlePreVoteRespOk(g, d, s, m);
    } else if m.term < s.term {
      SameFaceOk(g, d, s, s.Step(m).value);
    } else if m.term > s.term {
      var n := s.BecomeFollower(m.term, if m.mtype.MsgApp? then m.from else 0).value;
      RetreatOk(g, d, s, n);
      k := StepInTermOk(g, d, n, m);
    } else {
      k := StepInTermOk(g, d, s, m);
    }
  }

  // ------------------------------------------------------------ the cluster

  lemma FreshVoter(p: Id, peers: seq<Id>, d: Disk)
    requires p in peers && p in d && d[p] == HardState(0, 0, 0)
    ensures VoterOk(Poll(set q | q in peers, map[], map[]), d, Fresh(p, peers)) && Fresh(p, peers).id == p
  {
    var s := Fresh(p, peers);
    assert s.voters == (set q | q in peers) && s.msgs == [] && s.votes == {};
    assert s.term == 0 && s.vote == 0 && s.prevHard == HardState(0, 0, 0) && s.role == Follower;
  }

  lemma InitialOk(peers: seq<Id>)
    requires 0 !in peers && peers != []
    ensures PollOk(Initial(peers), Poll(set p | p in peers, map[], map[]))
  {
    hide VoterOk, Fresh;
    var c := Initial(peers);
    forall p | p in peers
      ensures c.nodes[p].id == p && VoterOk(Poll(set q | q in peers, map[], map[]), c.disk, c.nodes[p])
    {
      FreshVoter(p, peers, c.disk);
    }
  }

  /** One node moved, voting at most for itself; the disks did not change. */
  lemma MovedOk(c: Cluster, g: Poll, k: Poll, s': NodeState)
    requires PollOk(c, g) && s'.id in c.nodes
    requires Extends(g, k, s'.id) && LedOk(k, c.disk) && VoterOk(k, c.disk, s')
    ensures PollOk(c.(nodes := c.nodes[s'.id := s']), k)
  {
    hide LedOk, VoterOk;
    var c' := c.(nodes := c.nodes[s'.id := s']);
    forall n | n in c'.nodes
      ensures c'.nodes[n].id == n && VoterOk(k, c'.disk, c'.nodes[n])
    {
      if n != s'.id {
        VoterStays(g, k, c.disk, s'.id, c.nodes[n]);
      }
    }
    forall m | m in c'.net
      ensures SentOk(k, c'.disk, m)
    {
    }
  }

  /** `e` at node `n` replaced one disk record by a later one that keeps its firm votes. */
  ghost predicate Saves(d: Disk, e: Disk, n: Id) {
    && d.Keys == e.Keys && n in d
    && (forall p | p in d && p != n :: e[p] == d[p])
    && (e[n].term > d[n].term || (e[n].term == d[n].term && (d[n].vote != 0 ==> e[n].vote != 0)))
  }

  lemma LedSaved(g: Poll, d: Disk, e: Disk, n: Id)
    requires LedOk(g, d) && Saves(d, e, n)
    ensures LedOk(g, e)
  {
    forall t | t in g.led && g.voters != {g.led[t]}
      ensures exists q :: IsQuorum(g.voters, q) && Backed(g, e, q, t, g.led[t])
    {
      var q :| IsQuorum(g.voters, q) && Backed(g, d, q, t, g.led[t]);
      assert Backed(g, e, q, t, g.led[t]);
    }
  }

  lemma VoterSaved(g: Poll, d: Disk, e: Disk, n: Id, s: NodeState)
    requires VoterOk(g, d, s) && Saves(d, e, n) && s.id != n
    ensures VoterOk(g, e, s)
  {
  }

  lemma ReadyOf(s: NodeState)
    requires s.TakeReady().Ok?
    ensures var (n, rd) := s.TakeReady().value;
            && n == s.(msgs := []) && rd.messages == s.msgs
            && rd.hardState == if s.Hard() != s.prevHard then Some(s.Hard()) else None
  {
  }

  /** The hard state a drain leaves on disk is the node's current one. */
  lemma DrainSaves(c: Cluster, g: Poll, n: Id)
    requires Enabled(c, Drain(n)) && After(c, Drain(n)).Ok?
    requires c.nodes[n].id == n && SelfOk(g, c.disk, c.nodes[n])
    ensures var d := After(c, Drain(n)).value; var s := c.nodes[n];
            && d.disk.Keys == c.disk.Keys && d.disk[n].term == s.term && d.disk[n].vote == s.vote
            && Saves(c.disk, d.disk, n)
            && d.net == c.net + (set m | m in s.msgs)
            && d.emitted.Keys == c.emitted.Keys
            && c.nodes[n].TakeReady().Ok? && NodeAfter(c, Drain(n)).Ok?
            && d.nodes == c.nodes[n := NodeAfter(c, Drain(n)).value]
  {
    DrainShape(c, n);
    hide NodeState.TakeReady, NodeAfter, After;
    ReadyOf(c.nodes[n]);
  }

  lemma PersistedFace(s: NodeState, rd: Ready)
    requires s.Persisted(rd).Ok?
    ensures var a := s.Persisted(rd).value;
            && SameFace(s.(prevHard := if rd.hardState.Some? then rd.hardState.value else s.prevHard), a)
            && a.msgs == s.msgs
  {
    var n := s.(prevHard := if rd.hardState.Some? then rd.hardState.value else s.prevHard);
    if rd.entries != [] {
      MaybeCommitFace(n.(stabled := rd.entries[|rd.entries| - 1].index));
    }
  }

  lemma DrainedFace(s: NodeState)
    requires s.TakeReady().Ok?
    requires var (n, rd) := s.TakeReady().value; n.Advance(rd).Ok?
    ensures var (n, rd) := s.TakeReady().value; var s' := n.Advance(rd).value;
            && s'.id == s.id && s'.voters == s.voters && s'.peers == s.peers && s'.role == s.role
            && s'.term == s.term && s'.vote == s.vote && s'.votes == s.votes && s'.msgs == []
            && s'.prevHard.term == s.term && s'.prevHard.vote == s.vote
  {
    ReadyOf(s);
    hide NodeState.TakeReady, NodeState.Persisted;
    var (n, rd) := s.TakeReady().value;
    PersistedFace(n, rd);
  }

  lemma DrainedVoter(g: Poll, d: Disk, e: Disk, s: NodeState, s': NodeState)
    requires VoterOk(g, d, s) && Saves(d, e, s.id) && e[s.id].term == s.term && e[s.id].vote == s.vote
    requires && s'.id == s.id && s'.voters == s.voters && s'.peers == s.peers && s'.role == s.role
             && s'.term == s.term && s'.vote == s.vote && s'.votes == s.votes && s'.msgs == []
             && s'.prevHard.term == s.term && s'.prevHard.vote == s.vote
    ensures VoterOk(g, e, s')
  {
    assert SelfOk(g, e, s') && TallyOk(g, e, s') && QueueOk(g, e, s');
  }

  lemma ReleasedOk(g: Poll, d: Disk, e: Disk, s: NodeState, m: Message)
    requires VoterOk(g, d, s) && Saves(d, e, s.id) && e[s.id].term == s.term && e[s.id].vote == s.vote && m in s.msgs
    ensures SentOk(g, e, m)
  {
    hide TallyOk;
    assert QueuedOk(g, d, m) && m.from == s.id;
  }

  lemma DrainVoter(c: Cluster, g: Poll, n: Id, p: Id)
    requires PollOk(c, g) && n in c.nodes && p in c.nodes && Enabled(c, Drain(n)) && After(c, Drain(n)).Ok?
    ensures var d := After(c, Drain(n)).value;
            Saves(c.disk, d.disk, n) && p in d.nodes && d.nodes[p].id == p && VoterOk(g, d.disk, d.nodes[p])
  {
    hide LedOk, SentOk, SelfOk, TallyOk, QueueOk, NodeState.TakeReady, NodeState.Advance, After, Saves;
    assert VoterOk(g, c.disk, c.nodes[n]) && VoterOk(g, c.disk, c.nodes[p]);
    DrainSaves(c, g, n);
    var d := After(c, Drain(n)).value;
    if p == n {
      DrainedFace(c.nodes[n]);
      DrainedVoter(g, c.disk, d.disk, c.nodes[n], d.nodes[n]);
    } else {
      VoterSaved(g, c.disk, d.disk, n, c.nodes[p]);
    }
  }

  lemma SentSaved(g: Poll, d: Disk, e: Disk, n: Id, m: Message)
    requires SentOk(g, d, m) && Saves(d, e, n)
    ensures SentOk(g, e, m)
  {
  }

  lemma DrainNet(c: Cluster, g: Poll, n: Id, m: Message)
    requires PollOk(c, g) && n in c.nodes && Enabled(c, Drain(n)) && After(c, Drain(n)).Ok?
    requires m in After(c, Drain(n)).value.net
    ensures SentOk(g, After(c, Drain(n)).value.disk, m)
  {
    hide LedOk, SentOk, TallyOk, QueueOk, NodeAfter, After;
    DrainSaves(c, g, n);
    var d := After(c, Drain(n)).value;
    if m in c.net {
      SentSaved(g, c.disk, d.disk, n, m);
    } else {
      ReleasedOk(g, c.disk, d.disk, c.nodes[n], m);
    }
  }

  lemma DrainOk(c: Cluster, g: Poll, n: Id)
    requires PollOk(c, g) && n in c.nodes && Enabled(c, Drain(n)) && After(c, Drain(n)).Ok?
    ensures PollOk(After(c, Drain(n)).value, g)
  {
    hide LedOk, SelfOk, TallyOk, QueueOk, SentOk, NodeAfter, After, Saves;
    assert VoterOk(g, c.disk, c.nodes[n]);
    DrainSaves(c, g, n);
    var d := After(c, Drain(n)).value;
    LedSaved(g, c.disk, d.disk, n);
    hide VoterOk;
    forall p | p in d.nodes
      ensures d.nodes[p].id == p && VoterOk(g, d.disk, d.nodes[p])
    {
      DrainVoter(c, g, n, p);
    }
    forall m | m in d.net
      ensures SentOk(g, d.disk, m)
    {
      DrainNet(c, g, n, m);
    }
  }

  /** A crash forgets the votes of `n` that were not saved. */
  function Forget(g: Poll, d: Disk, n: Id): Poll
    requires n in d
  {
    g.(cast := map x | x in g.cast && (x.0 == n ==> x.1 < d[n].term || (x.1 == d[n].term && d[n].vote != 0)) :: g.cast[x])
  }

  lemma ForgetLed(g: Poll, d: Disk, n: Id)
    requires LedOk(g, d) && n in d
    ensures LedOk(Forget(g, d, n), d)
  {
    var k := Forget(g, d, n);
    forall t | t in k.led && k.voters != {k.led[t]}
      ensures exists q :: IsQuorum(k.voters, q) && Backed(k, d, q, t, k.led[t])
    {
      var q :| IsQuorum(g.voters, q) && Backed(g, d, q, t, g.led[t]);
      assert Backed(k, d, q, t, k.led[t]);
    }
  }

  lemma ForgetVoter(g: Poll, d: Disk, n: Id, s: NodeState)
    requires VoterOk(g, d, s) && n in d && s.id != n
    ensures VoterOk(Forget(g, d, n), d, s)
  {
    var k := Forget(g, d, n);
    assert SelfOk(k, d, s) && TallyOk(k, d, s) && QueueOk(k, d, s);
  }

  /** A restarted node votes no more in a term whose vote it saved. */
  lemma RestoredVoter(g: Poll, d: Disk, s: NodeState, rec: Recovered, applied: nat)
    requires VoterOk(g, d, s) && s.id in d && rec.hard.term == d[s.id].term && rec.hard.vote == d[s.id].vote
    requires Restore(s.id, s.peers, rec, applied).Ok?
    ensures VoterOk(Forget(g, d, s.id), d, Restore(s.id, s.peers, rec, applied).value)
    ensures Restore(s.id, s.peers, rec, applied).value.id == s.id
  {
    var n := Restore(s.id, s.peers, rec, applied).value;
    assert n.votes == {} && n.msgs == [] && n.role == Follower;
    assert n.term == d[s.id].term && n.vote == d[s.id].vote;
    assert n.voters == s.voters;
    hide Restore;
    assert SelfOk(Forget(g, d, s.id), d, n);
  }

  lemma RestartOk(c: Cluster, g: Poll, n: Id, rec: Recovered, applied: nat)
    requires PollOk(c, g) && Enabled(c, Restart(n, rec, applied)) && After(c, Restart(n, rec, applied)).Ok?
    ensures PollOk(After(c, Restart(n, rec, applied)).value, Forget(g, c.disk, n))
  {
    hide LedOk, VoterOk, Restore;
    var k := Forget(g, c.disk, n);
    var d := After(c, Restart(n, rec, applied)).value;
    ForgetLed(g, c.disk, n);
    DiskIn(g, c.disk, c.nodes[n]);
    RestoredVoter(g, c.disk, c.nodes[n], rec, applied);
    forall p | p in d.nodes
      ensures d.nodes[p].id == p && VoterOk(k, d.disk, d.nodes[p])
    {
      if p != n {
        ForgetVoter(g, c.disk, n, c.nodes[p]);
      }
    }
    forall m | m in d.net
      ensures SentOk(k, d.disk, m)
    {
      assert SentOk(g, c.disk, m);
      ForgetSent(g, c.disk, n, m);
    }
  }

  lemma DiskIn(g: Poll, d: Disk, s: NodeState)
    requires VoterOk(g, d, s)
    ensures s.id in d
  {
  }

  lemma ForgetSent(g: Poll, d: Disk, n: Id, m: Message)
    requires SentOk(g, d, m) && n in d
    ensures SentOk(Forget(g, d, n), d, m)
  {
  }

  /** Every step, restarts included, keeps the poll sound and forgets no leader. */
  lemma StepKeeps(c: Cluster, g: Poll, e: Event) returns (k: Poll)
    requires PollOk(c, g) && Enabled(c, e) && After(c, e).Ok?
    ensures PollOk(After(c, e).value, k)
    ensures forall t | t in g.led :: t in k.led && k.led[t] == g.led[t]
  {
    hide LedOk, VoterOk, SentOk;
    k := g;
    var s := c.nodes[e.n];
    if e.Drain? {
      DrainOk(c, g, e.n);
    } else if e.Restart? {
      RestartOk(c, g, e.n, e.rec, e.appliedIndex);
      k := Forget(g, c.disk, e.n);
    } else {
      match e {
        case Deliver(n, m) => k := StepOk(g, c.disk, s, m);
        case Timeout(n) => k := CampaignOk(g, c.disk, s);
        case Propose(n, payloads) => HandleProposeFace(s, Plain(MsgProp, s.id).(entries := payloads));
        case Heartbeat(n) => BcastAppendFace(s, s.peers);
        case Transfer(n, target) => TransferFace(s, target);
        case Compact(n, index) =>
      }
      var s' := NodeAfter(c, e).value;
      if e.Propose? || e.Heartbeat? || e.Transfer? || e.Compact? {
        SameFaceOk(g, c.disk, s, s');
      }
      MovedOk(c, g, k, s');
    }
  }

  // ------------------------------------------------------------ whole runs

  ghost predicate LeadersRecorded(c: Cluster, led: map<nat, Id>) {
    forall n | n in c.nodes && c.nodes[n].role.Leader? ::
      c.nodes[n].term in led && led[c.nodes[n].term] == n
  }

  lemma RecordedNow(c: Cluster, g: Poll)
    requires PollOk(c, g)
    ensures LeadersRecorded(c, g.led)
  {
    hide LedOk, TallyOk, QueueOk, SentOk;
    forall n | n in c.nodes && c.nodes[n].role.Leader?
      ensures c.nodes[n].term in g.led && g.led[c.nodes[n].term] == n
    {
      assert VoterOk(g, c.disk, c.nodes[n]);
    }
  }

  /** One poll names every leader of every state of a run, restarts included. */
  lemma {:induction false} OnePoll(peers: seq<Id>, states: seq<Cluster>, events: seq<Event>, n: nat) returns (g: Poll)
    requires IsRun(peers, states, events) && n <= |events|
    ensures PollOk(states[n], g)
    ensures forall i | 0 <= i <= n :: LeadersRecorded(states[i], g.led)
  {
    hide PollOk, After, Enabled;
    if n == 0 {
      InitialOk(peers);
      g := Poll(set p | p in peers, map[], map[]);
    } else {
      var f := OnePoll(peers, states, events, n - 1);
      assert Enabled(states[n - 1], events[n - 1]) && After(states[n - 1], events[n - 1]) == Ok(states[n - 1 + 1]);
      g := StepKeeps(states[n - 1], f, events[n - 1]);
    }
    RecordedNow(states[n], g);
  }

  /** Election safety: over a whole run with crashes and restarts, no two node
      ids lead the same term, at the same or at different moments. */
  lemma ElectionSafety(peers: seq<Id>, states: seq<Cluster>, events: seq<Event>, i: nat, j: nat, a: Id, b: Id)
    requires IsRun(peers, states, events) && i <= |events| && j <= |events|
    requires a in states[i].nodes && b in states[j].nodes
    requires states[i].nodes[a].role.Leader? && states[j].nodes[b].role.Leader?
    requires states[i].nodes[a].term == states[j].nodes[b].term
    ensures a == b
  {
    hide PollOk, After, Enabled;
    var g := OnePoll(peers, states, events, |events|);
    assert LeadersRecorded(states[i], g.led) && LeadersRecorded(states[j], g.led);
  }
}

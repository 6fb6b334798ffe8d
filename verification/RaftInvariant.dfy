/** How the state of one node and the messages in flight relate to the group's
    history. */
module RaftInvariant {
  import opened Common
  import opened RaftTypes
  import opened RaftLog
  import opened RaftState
  import opened RaftHistory
  import Act = RaftActions

  /** `g` is the whole log `l` with a prefix folded into the snapshot boundary. */
  ghost predicate Whole(g: Log, l: EntryLog) {
    g.snapIndex <= |l| && g.entries == l[g.snapIndex..] && g.snapTerm == TermAt(l, g.snapIndex)
  }

  ghost predicate MsgOk(h: History, m: Message) {
    && m.from in h.voters
    && m.to in h.voters
    && m.from != m.to
    && match m.mtype
       case MsgVote =>
         && (m.from, m.term) in h.camp
         && m.logIndex == |h.camp[(m.from, m.term)]|
         && m.logTerm == LastTerm(h.camp[(m.from, m.term)])
       case MsgVoteResp =>
         m.reject || ((m.from, m.term) in h.ballots && h.ballots[(m.from, m.term)].cand == m.to)
       case MsgApp =>
         && m.term in h.led && m.term in h.tlog
         && h.led[m.term] == m.from
         && m.logIndex + |m.entries| <= |h.tlog[m.term]|
         && m.entries == h.tlog[m.term][m.logIndex..m.logIndex + |m.entries|]
         && m.logTerm == TermAt(h.tlog[m.term], m.logIndex)
         && m.commit <= m.logIndex + |m.entries|
         && Settled(h, h.tlog[m.term], m.commit, m.term)
       case MsgAppResp =>
         m.reject || m.logIndex <= CountOf(h.ack, (m.from, m.term))
       case MsgTimeoutNow =>
         m.term in h.led && h.led[m.term] == m.from
       case MsgProp => false
       case _ => true
  }

  ghost predicate LogPart(s: NodeState, h: History)
    requires Shape(h) && s.id in h.voters
  {
    && Whole(s.log, h.log[s.id])
    && s.log.snapIndex <= s.log.applied <= s.log.committed <= s.log.LastIndex()
    && s.log.applied <= s.stabled
    && Settled(h, h.log[s.id], s.log.committed, s.term)
  }

  ghost predicate VotePart(s: NodeState, h: History)
    requires Shape(h) && s.id in h.voters
  {
    var me := (s.id, s.term);
    && (if s.vote == 0 then me !in h.ballots else me in h.ballots && h.ballots[me].cand == s.vote)
    && s.votes <= s.voters
    && VotedFor(h, s.votes, s.term, s.id)
    && (me in h.camp && s.term !in h.tlog ==> h.log[s.id] == h.camp[me])
  }

  /** `s` leads exactly when the history says so, and then its bookkeeping about followers is sound. */
  ghost predicate LeadPart(s: NodeState, h: History)
    requires Shape(h) && s.id in h.voters
  {
    && (s.role.Leader? <==> s.term in h.led && h.led[s.term] == s.id)
    && (s.role.Leader? ==>
          && h.log[s.id] == h.tlog[s.term]
          && CountOf(h.ack, (s.id, s.term)) == |h.log[s.id]|
          && Progress(s, h))
  }

  ghost predicate Progress(s: NodeState, h: History) {
    forall p | p in s.voters ::
      && 1 <= CountOf(s.next, p) <= s.log.LastIndex() + 1
      && CountOf(s.matched, p) <= CountOf(h.ack, (p, s.term))
  }

  ghost predicate MsgPart(s: NodeState, h: History) {
    forall m | m in s.msgs :: MsgOk(h, m)
  }

  ghost predicate Member(s: NodeState, h: History) {
    && Shape(h)
    && 0 !in h.voters
    && s.id in h.voters
    && s.voters == h.voters
    && (forall p :: p in s.peers <==> p in s.voters)
    && h.term[s.id] == s.term
  }

  ghost predicate NodeOk(s: NodeState, h: History) {
    Member(s, h) && LogPart(s, h) && VotePart(s, h) && LeadPart(s, h) && MsgPart(s, h)
  }

  /** `k` is `h` after something node `c` did. */
  ghost predicate ActedBy(h: History, k: History, c: Id) {
    && Grows(h, k)
    && Shape(h) && Shape(k)
    && (forall n | n in h.voters && n != c :: h.term[n] == k.term[n] && h.log[n] == k.log[n])
    && (forall n, t | (n, t) in k.camp && (n, t) !in h.camp :: n == c)
    && (forall n, t | (n, t) in k.ballots && (n, t) !in h.ballots :: n == c)
    && (forall t | t in k.led && t !in h.led :: k.led[t] == c)
    && (forall t | t in h.led && h.led[t] != c :: k.tlog[t] == h.tlog[t])
    && (forall n, t | n != c :: CountOf(k.ack, (n, t)) == CountOf(h.ack, (n, t)))
  }

  /** One node's step: what it committed stays in place. */
  ghost predicate Moved(h: History, k: History, s: NodeState, s': NodeState) {
    && ActedBy(h, k, s.id)
    && s'.id == s.id
    && s.id in h.voters
    && s.log.committed <= s'.log.committed
    && s'.log.applied == s.log.applied
    && Agree(h.log[s.id], k.log[s.id], s.log.committed)
  }

  lemma ActedTransitive(a: History, b: History, c: History, n: Id)
    requires ActedBy(a, b, n) && ActedBy(b, c, n)
    ensures ActedBy(a, c, n)
  {
    GrowsTransitive(a, b, c);
    hide Grows;
    assert forall t | t in a.led && a.led[t] != n :: t in b.led && b.led[t] == a.led[t] by { GrowsLeds(a, b); }
  }

  lemma GrowsLeds(a: History, b: History)
    requires Grows(a, b)
    ensures forall t | t in a.led :: t in b.led && b.led[t] == a.led[t]
  {
  }

  lemma MovedTransitive(a: History, b: History, c: History, r: NodeState, s: NodeState, t: NodeState)
    requires Moved(a, b, r, s) && Moved(b, c, s, t)
    ensures Moved(a, c, r, t)
  {
    ActedTransitive(a, b, c, r.id);
  }

  lemma Stutter(h: History, s: NodeState, s': NodeState)
    requires NodeOk(s, h) && s'.id == s.id && s.log.committed <= s'.log.committed && s'.log.applied == s.log.applied
    ensures Moved(h, h, s, s')
  {
  }

  lemma MsgStays(h: History, k: History, m: Message)
    requires Grows(h, k) && MsgOk(h, m)
    ensures MsgOk(k, m)
  {
    if m.mtype.MsgApp? {
      SettledStays(h, k, h.tlog[m.term], m.commit, m.term, m.term);
      SettledExtends(k, h.tlog[m.term], k.tlog[m.term], m.commit, m.term);
    }
  }

  lemma SettledExtends(h: History, l: EntryLog, m: EntryLog, k: nat, t: nat)
    requires Settled(h, l, k, t) && Agree(l, m, k)
    ensures Settled(h, m, k, t)
  {
    if k > 0 {
      var u: nat, i: nat :| u <= t && Chosen(h, u, i) && k <= i && Agree(l, h.tlog[u], k);
      assert Agree(m, h.tlog[u], k);
    }
  }

  lemma SettledShrinks(h: History, l: EntryLog, k: nat, j: nat, t: nat)
    requires Settled(h, l, k, t) && j <= k
    ensures Settled(h, l, j, t)
  {
    if j > 0 {
      var u: nat, i: nat :| u <= t && Chosen(h, u, i) && k <= i && Agree(l, h.tlog[u], k);
      assert Agree(l, h.tlog[u], j);
    }
  }

  lemma MsgsStay(h: History, k: History, ms: seq<Message>)
    requires Grows(h, k) && forall m | m in ms :: MsgOk(h, m)
    ensures forall m | m in ms :: MsgOk(k, m)
  {
    hide MsgOk, Grows;
    forall m | m in ms
      ensures MsgOk(k, m)
    {
      MsgStays(h, k, m);
    }
  }

  /** What one node does leaves every other node's relation to the history intact. */
  lemma OthersStay(h: History, k: History, c: Id, s: NodeState)
    requires ActedBy(h, k, c) && NodeOk(s, h) && s.id != c
    ensures NodeOk(s, k)
  {
    hide MsgOk, Settled;
    MsgsStay(h, k, s.msgs);
    SettledStays(h, k, h.log[s.id], s.log.committed, s.term, s.term);
    assert LogPart(s, k);
    assert VotePart(s, k);
    assert LeadPart(s, k);
  }
}

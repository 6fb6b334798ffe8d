/** The history of a consensus group: who campaigned, voted, led and
    acknowledged what. The safety argument of section 5.4.3 of the Raft paper
    is carried out here, on histories; the cluster's states are related to
    histories in RaftCluster. */
module RaftHistory {
  import opened Common
  import opened RaftTypes

  type EntryLog = seq<Entry>

  datatype Ballot = Ballot(cand: Id, log: EntryLog)

  /** `log[n]` is the whole log of `n` (index 1 first), `camp[(n, t)]` the log `n`
      campaigned with in term `t`, `ballots[(n, t)]` the vote `n` cast in `t` with
      the log it then had, `tlog[t]` the log of the leader of `t` as far as it
      grew, and `ack[(n, t)]` how much of `tlog[t]` node `n` has acknowledged. */
  datatype History = History(
    voters: set<Id>,
    term: map<Id, nat>,
    log: map<Id, EntryLog>,
    camp: map<(Id, nat), EntryLog>,
    ballots: map<(Id, nat), Ballot>,
    led: map<nat, Id>,
    tlog: map<nat, EntryLog>,
    ack: map<(Id, nat), nat>)

  // ------------------------------------------------------------- vocabulary

  /** The two logs hold the same first `k` entries. */
  ghost predicate Agree(a: EntryLog, b: EntryLog, k: nat) {
    k <= |a| && k <= |b| && forall j | 0 <= j < k :: a[j] == b[j]
  }

  ghost predicate TermsUpTo(l: EntryLog, t: nat) {
    forall j | 0 <= j < |l| :: l[j].term <= t
  }

  function TermAt(l: EntryLog, i: nat): nat
    requires i <= |l|
  {
    if i == 0 then 0 else l[i - 1].term
  }

  function LastTerm(l: EntryLog): nat {
    TermAt(l, |l|)
  }

  /** The vote-granting comparison of section 5.4.1. */
  predicate UpToDate(cand: EntryLog, voter: EntryLog) {
    LastTerm(cand) > LastTerm(voter) || (LastTerm(cand) == LastTerm(voter) && |cand| >= |voter|)
  }

  ghost predicate IsQuorum(voters: set<Id>, q: set<Id>) {
    q <= voters && |q| >= |voters| / 2 + 1
  }

  /** Every prefix of `l` ending in an entry of term `t` is a prefix of the log of the leader of `t`. */
  ghost predicate Sourced(h: History, l: EntryLog) {
    forall i | 0 <= i < |l| ::
      l[i].term in h.tlog && Agree(l, h.tlog[l[i].term], i + 1) && l[i].index == i + 1
  }

  /** Index `i` of the log of the leader of `t` is an entry that leader created. */
  ghost predicate Own(h: History, t: nat, i: nat) {
    t in h.tlog && 0 < i <= |h.tlog[t]| && h.tlog[t][i - 1].term == t
  }

  ghost predicate Behind(h: History, q: set<Id>, t: nat, i: nat) {
    forall n | n in q :: n in h.term && h.term[n] > t && CountOf(h.ack, (n, t)) < i
  }

  /** A quorum has moved past term `t` without acknowledging index `i` of it. */
  ghost predicate Dead(h: History, t: nat, i: nat) {
    exists q :: IsQuorum(h.voters, q) && Behind(h, q, t, i)
  }

  ghost predicate Acked(h: History, q: set<Id>, t: nat, i: nat) {
    forall n | n in q :: CountOf(h.ack, (n, t)) >= i
  }

  /** A quorum has acknowledged an entry the leader of `t` created at index `i`. */
  ghost predicate Chosen(h: History, t: nat, i: nat) {
    Own(h, t, i) && exists q :: IsQuorum(h.voters, q) && Acked(h, q, t, i)
  }

  /** What `n` acknowledged in `t` and could still be chosen is in `l`. */
  ghost predicate Kept(h: History, n: Id, l: EntryLog, t: nat) {
    forall i: nat | Own(h, t, i) && i <= CountOf(h.ack, (n, t)) :: Dead(h, t, i) || Agree(h.tlog[t], l, i)
  }

  /** What the leader of `t` created and could still be chosen is in the log of the leader of `u`. */
  ghost predicate Carried(h: History, t: nat, u: nat)
    requires u in h.tlog
  {
    forall i: nat | Own(h, t, i) :: Dead(h, t, i) || Agree(h.tlog[t], h.tlog[u], i)
  }

  ghost predicate VotedFor(h: History, q: set<Id>, t: nat, c: Id) {
    forall n | n in q :: (n, t) in h.ballots && h.ballots[(n, t)].cand == c
  }

  /** The first `k` entries of `l` are covered by a choice made no later than term `t`. */
  ghost predicate Settled(h: History, l: EntryLog, k: nat, t: nat) {
    k <= |l| && (k == 0 || exists u: nat, i: nat :: u <= t && Chosen(h, u, i) && k <= i && Agree(l, h.tlog[u], k))
  }

  // ------------------------------------------------------------- invariant

  ghost predicate Shape(h: History) {
    && h.term.Keys == h.voters
    && h.log.Keys == h.voters
    && h.led.Keys == h.tlog.Keys
  }

  ghost predicate LogsSourced(h: History)
    requires Shape(h)
  {
    forall n | n in h.voters :: Sourced(h, h.log[n]) && TermsUpTo(h.log[n], h.term[n])
  }

  ghost predicate CampOk(h: History, n: Id, t: nat)
    requires Shape(h) && (n, t) in h.camp
  {
    && n in h.voters
    && 0 < t <= h.term[n]
    && Sourced(h, h.camp[(n, t)])
    && TermsUpTo(h.camp[(n, t)], t - 1)
  }

  ghost predicate BallotOk(h: History, n: Id, t: nat)
    requires Shape(h) && (n, t) in h.ballots
  {
    var b := h.ballots[(n, t)];
    && n in h.voters
    && t <= h.term[n]
    && (b.cand, t) in h.camp
    && Sourced(h, b.log)
    && UpToDate(h.camp[(b.cand, t)], b.log)
  }

  ghost predicate LeaderOk(h: History, t: nat)
    requires Shape(h) && t in h.tlog
  {
    var c := h.led[t];
    && c in h.voters
    && t <= h.term[c]
    && Sourced(h, h.tlog[t])
    && TermsUpTo(h.tlog[t], t)
    && (c, t) in h.camp
    && Agree(h.camp[(c, t)], h.tlog[t], |h.camp[(c, t)]|)
    && (forall j | |h.camp[(c, t)]| <= j < |h.tlog[t]| :: h.tlog[t][j].term == t)
    && exists q :: IsQuorum(h.voters, q) && VotedFor(h, q, t, c)
  }

  ghost predicate AckOk(h: History, n: Id, t: nat)
    requires Shape(h) && (n, t) in h.ack
  {
    && n in h.voters
    && t <= h.term[n]
    && t in h.tlog
    && h.ack[(n, t)] <= |h.tlog[t]|
  }

  ghost predicate Records(h: History)
    requires Shape(h)
  {
    && (forall n, t | (n, t) in h.camp :: CampOk(h, n, t))
    && (forall n, t | (n, t) in h.ballots :: BallotOk(h, n, t))
    && (forall t | t in h.tlog :: LeaderOk(h, t))
    && (forall n, t | (n, t) in h.ack :: AckOk(h, n, t))
  }

  ghost predicate LeadersCarry(h: History) {
    forall t, u | t in h.tlog && u in h.tlog && t < u :: Carried(h, t, u)
  }

  ghost predicate NodesKeep(h: History)
    requires Shape(h)
  {
    forall n, t | n in h.voters && t in h.tlog :: Kept(h, n, h.log[n], t)
  }

  ghost predicate BallotsKeep(h: History) {
    forall n, u, t | (n, u) in h.ballots && t in h.tlog && t < u :: Kept(h, n, h.ballots[(n, u)].log, t)
  }

  ghost predicate Inv(h: History) {
    && Shape(h)
    && LogsSourced(h)
    && Records(h)
    && LeadersCarry(h)
    && NodesKeep(h)
    && BallotsKeep(h)
  }

  /** A later history: records only grow, and what a node acknowledged in a term it left is fixed. */
  ghost predicate Grows(h: History, k: History) {
    && h.voters == k.voters
    && h.term.Keys <= k.term.Keys
    && (forall n | n in h.term :: h.term[n] <= k.term[n])
    && (forall x | x in h.camp :: x in k.camp && k.camp[x] == h.camp[x])
    && (forall x | x in h.ballots :: x in k.ballots && k.ballots[x] == h.ballots[x])
    && (forall t | t in h.led :: t in k.led && k.led[t] == h.led[t])
    && (forall t | t in h.tlog :: t in k.tlog && Agree(h.tlog[t], k.tlog[t], |h.tlog[t]|))
    && (forall x | x in h.ack :: x in k.ack && h.ack[x] <= k.ack[x])
    && (forall n, t | n in h.term && h.term[n] > t :: CountOf(k.ack, (n, t)) == CountOf(h.ack, (n, t)))
  }

  lemma GrowsTransitive(a: History, b: History, c: History)
    requires Grows(a, b) && Grows(b, c)
    ensures Grows(a, c)
  {
  }

  // ------------------------------------------------- facts that never expire

  lemma QuorumsMeet(voters: set<Id>, p: set<Id>, q: set<Id>) returns (n: Id)
    requires IsQuorum(voters, p) && IsQuorum(voters, q)
    ensures n in p && n in q
  {
    if p * q == {} {
      assert |p + q| == |p| + |q|;
      SubsetSize(p + q, voters);
      assert false;
    }
    n :| n in p * q;
  }

  lemma DeadStays(h: History, k: History, t: nat, i: nat)
    requires Grows(h, k) && Dead(h, t, i)
    ensures Dead(k, t, i)
  {
    var q :| IsQuorum(h.voters, q) && Behind(h, q, t, i);
    assert Behind(k, q, t, i);
  }

  lemma SourcedStays(h: History, k: History, l: EntryLog)
    requires Grows(h, k) && Sourced(h, l)
    ensures Sourced(k, l)
  {
  }

  lemma ChosenStays(h: History, k: History, t: nat, i: nat)
    requires Grows(h, k) && Chosen(h, t, i)
    ensures Chosen(k, t, i)
  {
    var q :| IsQuorum(h.voters, q) && Acked(h, q, t, i);
    assert Acked(k, q, t, i);
  }

  lemma SettledStays(h: History, k: History, l: EntryLog, c: nat, t: nat, u: nat)
    requires Grows(h, k) && Settled(h, l, c, t) && t <= u
    ensures Settled(k, l, c, u)
  {
    if c > 0 {
      var v: nat, i: nat :| v <= t && Chosen(h, v, i) && c <= i && Agree(l, h.tlog[v], c);
      ChosenStays(h, k, v, i);
      assert Agree(l, k.tlog[v], c);
    }
  }

  /** An entry a quorum acknowledged cannot have been passed over by a quorum. */
  lemma ChosenNotDead(h: History, t: nat, i: nat)
    requires Chosen(h, t, i)
    ensures !Dead(h, t, i)
  {
    if Dead(h, t, i) {
      var q :| IsQuorum(h.voters, q) && Behind(h, q, t, i);
      var p :| IsQuorum(h.voters, p) && Acked(h, p, t, i);
      var n := QuorumsMeet(h.voters, p, q);
      assert false;
    }
  }

  // ----------------------------------------------------------- main results

  /** Election safety: one leader per term, because two quorums share a voter. */
  lemma OneLeaderPerTerm(h: History, t: nat, c: Id, q: set<Id>)
    requires Inv(h) && t in h.led
    requires IsQuorum(h.voters, q) && VotedFor(h, q, t, c)
    ensures h.led[t] == c
  {
    assert LeaderOk(h, t);
    var p :| IsQuorum(h.voters, p) && VotedFor(h, p, t, h.led[t]);
    var n := QuorumsMeet(h.voters, p, q);
  }

  /** Leader completeness: a chosen entry is in the log of every later leader. */
  lemma LeaderCompleteness(h: History, t: nat, i: nat, u: nat)
    requires LeadersCarry(h) && Chosen(h, t, i) && t <= u && u in h.tlog
    ensures Agree(h.tlog[t], h.tlog[u], i)
  {
    if t < u {
      ChosenNotDead(h, t, i);
      assert Carried(h, t, u);
    }
  }

  /** Log matching: equal terms at an index mean equal logs up to that index. */
  lemma LogMatching(h: History, a: EntryLog, b: EntryLog, i: nat)
    requires Sourced(h, a) && Sourced(h, b)
    requires 0 < i <= |a| && i <= |b| && a[i - 1].term == b[i - 1].term
    ensures Agree(a, b, i)
  {
    var t := a[i - 1].term;
    assert Agree(a, h.tlog[t], i - 1 + 1) && Agree(b, h.tlog[t], i - 1 + 1);
  }

  /** What is settled by term `u` is in the log of the leader of `u`. */
  lemma SettledInLeader(h: History, l: EntryLog, k: nat, t: nat, u: nat)
    requires LeadersCarry(h) && Settled(h, l, k, t) && t <= u && u in h.tlog
    ensures Agree(l, h.tlog[u], k)
  {
    if k > 0 {
      var v: nat, i: nat :| v <= t && Chosen(h, v, i) && k <= i && Agree(l, h.tlog[v], k);
      LeaderCompleteness(h, v, i, u);
    }
  }

  /** Two settled prefixes agree wherever both are defined. */
  lemma SettledAgree(h: History, l: EntryLog, k: nat, t: nat, m: EntryLog, j: nat, u: nat)
    requires LeadersCarry(h) && Settled(h, l, k, t) && Settled(h, m, j, u)
    ensures Agree(l, m, Min(k, j))
  {
    if k > 0 && j > 0 {
      var v: nat, a: nat :| v <= t && Chosen(h, v, a) && k <= a && Agree(l, h.tlog[v], k);
      var w: nat, b: nat :| w <= u && Chosen(h, w, b) && j <= b && Agree(m, h.tlog[w], j);
      if v <= w {
        LeaderCompleteness(h, v, a, w);
      } else {
        LeaderCompleteness(h, w, b, v);
      }
    }
  }
}

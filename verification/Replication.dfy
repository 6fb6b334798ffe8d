/** Replicated application: the groups' logs fed to their state machines. */
module Replication {
  import opened Common
  import opened RaftTypes
  import opened RaftHistory
  import opened RaftInvariant
  import opened RaftCluster
  import opened RaftValidity
  import SM = StateMachine

  /** A committed entry as the state machine receives it; an empty payload is no command. */
  function Delivered(e: Entry): SM.Entry {
    SM.Entry(e.etype == ENTRY_CONF_CHANGE, e.index, e.term, if e.data == [] then None else Some(e.data))
  }

  function DeliveredAll(es: seq<Entry>): (r: seq<SM.Entry>)
    ensures |r| == |es|
  {
    seq(|es|, i requires 0 <= i < |es| => Delivered(es[i]))
  }

  /** Clients propose encoded commands. */
  ghost predicate Commands(events: seq<Event>) {
    forall i, p | 0 <= i < |events| && events[i].Propose? && p in events[i].payloads :: SM.DecodeCommand(p.data).Some?
  }

  lemma {:induction false} ProposedDecode(events: seq<Event>, k: nat, d: Bytes)
    requires k <= |events| && Commands(events) && d in Proposed(events, k)
    ensures d == [] || SM.DecodeCommand(d).Some?
  {
    hide SM.DecodeCommand;
    if k > 0 && d in Proposed(events, k - 1) {
      ProposedDecode(events, k - 1, d);
    }
  }

  /** Entries reach the state machine numbered from one without a gap. */
  lemma AppliedInOrder(peers: seq<Id>, states: seq<Cluster>, events: seq<Event>, i: nat, n: Id)
    requires IsRun(peers, states, events) && CrashFree(events) && i <= |events| && n in states[i].nodes
    ensures n in states[i].emitted && forall k | 0 <= k < |states[i].emitted[n]| :: states[i].emitted[n][k].index == k + 1
  {
    hide ClusterOk, Grows, Settled, CrashFree, Whole, After, Enabled, Initial;
    var hs := Histories(peers, states, events, i);
    CommittedReads(states[i], hs[i], n);
    SourcedOf(states[i], hs[i], n);
  }

  lemma {:induction false} OrderedApply(sm: SM.Sm, es: seq<SM.Entry>)
    requires forall k | 0 <= k < |es| :: es[k].index == sm.applied + 1 + k && SM.CommandOf(es[k]).Some?
    ensures SM.ApplyAll(sm, es).Some?
    decreases |es|
  {
    hide SM.CommandOf, SM.ApplyOps;
    if es != [] {
      var t := SM.ApplyEntry(sm, es[0]).value;
      forall k | 0 <= k < |es| - 1
        ensures es[1..][k].index == t.applied + 1 + k && SM.CommandOf(es[1..][k]).Some?
      {
        assert es[1..][k] == es[k + 1];
      }
      OrderedApply(t, es[1..]);
    }
  }

  /** No state machine ever refuses what its group hands it. */
  lemma NeverRefused(peers: seq<Id>, states: seq<Cluster>, events: seq<Event>, i: nat, n: Id)
    requires IsRun(peers, states, events) && CrashFree(events) && Commands(events) && i <= |events| && n in states[i].nodes
    ensures n in states[i].emitted && SM.ApplyAll(SM.FRESH, DeliveredAll(states[i].emitted[n])).Some?
  {
    hide CrashFree, Proposed, Commands, SM.DecodeCommand, SM.ApplyAll, After, Enabled, Initial;
    AppliedInOrder(peers, states, events, i, n);
    var es := states[i].emitted[n];
    forall k | 0 <= k < |es|
      ensures SM.CommandOf(DeliveredAll(es)[k]).Some?
    {
      OnlyProposedApplied(peers, states, events, i, n, k);
      ProposedDecode(events, i, es[k].data);
    }
    OrderedApply(SM.FRESH, DeliveredAll(es));
  }

  lemma PrefixCarries(x: seq<Entry>, y: seq<Entry>)
    requires x <= y && SM.ApplyAll(SM.FRESH, DeliveredAll(x)).Some?
    ensures SM.ApplyAll(SM.FRESH, DeliveredAll(y))
            == SM.ApplyAll(SM.ApplyAll(SM.FRESH, DeliveredAll(x)).value, DeliveredAll(y[|x|..]))
  {
    hide SM.ApplyAll;
    assert y == x + y[|x|..];
    assert DeliveredAll(y) == DeliveredAll(x) + DeliveredAll(y[|x|..]);
    SM.ApplyAllConcat(SM.FRESH, DeliveredAll(x), DeliveredAll(y[|x|..]));
  }

  /** Replicas agree: of any two replicas at any two moments, one holds exactly what the
      other will hold, or held, after as many entries; data, sessions and position alike. */
  lemma ReplicasAgree(peers: seq<Id>, states: seq<Cluster>, events: seq<Event>, i: nat, j: nat, a: Id, b: Id)
    requires IsRun(peers, states, events) && CrashFree(events) && Commands(events) && i <= j <= |events|
    requires a in states[i].nodes && b in states[j].nodes
    ensures a in states[i].emitted && b in states[j].emitted
    ensures var x, y := states[i].emitted[a], states[j].emitted[b];
            var p, q := SM.ApplyAll(SM.FRESH, DeliveredAll(x)), SM.ApplyAll(SM.FRESH, DeliveredAll(y));
            && p.Some? && q.Some? && p.value.applied == |x| && q.value.applied == |y|
            && (|x| == |y| ==> p == q)
            && (|x| <= |y| ==> q == SM.ApplyAll(p.value, DeliveredAll(y[|x|..])))
            && (|y| <= |x| ==> p == SM.ApplyAll(q.value, DeliveredAll(x[|y|..])))
  {
    hide CrashFree, Commands, SM.ApplyAll, After, Enabled, Initial;
    StateMachineSafety(peers, states, events, i, j, a, b);
    NeverRefused(peers, states, events, i, a);
    NeverRefused(peers, states, events, j, b);
    var x, y := states[i].emitted[a], states[j].emitted[b];
    SM.AppliedCounts(SM.FRESH, DeliveredAll(x));
    SM.AppliedCounts(SM.FRESH, DeliveredAll(y));
    if |x| <= |y| {
      assert x <= y;
      PrefixCarries(x, y);
    }
    if |y| <= |x| {
      assert y <= x;
      PrefixCarries(y, x);
    }
    if |x| == |y| {
      assert x == y;
    }
  }
}

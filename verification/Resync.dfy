/** Catching up from a whole proposal queue, as it arrives in one message. */
module Resync {
  import opened Consensus
  import opened LedgerRun

  // ------------------------------------------------------------------
  // Sorting payloads
  // ------------------------------------------------------------------

  /** Payloads are ordered by channel id, then by turn number. */
  predicate SortsBefore(a: SignedProposal, b: SignedProposal) {
    a.proposal.ledgerId < b.proposal.ledgerId
    || (a.proposal.ledgerId == b.proposal.ledgerId && a.turnNum < b.turnNum)
  }

  /** What sorting leaves: no entry belongs before an earlier one. */
  ghost predicate Sorted(p: seq<SignedProposal>) {
    forall i, j :: 0 <= i < j < |p| ==> !SortsBefore(p[j], p[i])
  }

  ghost predicate StrictlySorted(p: seq<SignedProposal>) {
    forall i, j :: 0 <= i < j < |p| ==> SortsBefore(p[i], p[j])
  }

  /** Payloads of the same channel come together, in the order of their turns, and channels in the order
      of their ids. */
  lemma SortedExactlyWhen(p: seq<SignedProposal>)
    ensures Sorted(p)
       <==> forall i, j :: 0 <= i < j < |p| ==>
              && p[i].proposal.ledgerId <= p[j].proposal.ledgerId
              && (p[i].proposal.ledgerId == p[j].proposal.ledgerId ==> p[i].turnNum <= p[j].turnNum)
  {
    if Sorted(p) {
      forall i, j | 0 <= i < j < |p|
        ensures p[i].proposal.ledgerId <= p[j].proposal.ledgerId
        ensures p[i].proposal.ledgerId == p[j].proposal.ledgerId ==> p[i].turnNum <= p[j].turnNum
      {
        assert !SortsBefore(p[j], p[i]);
      }
    }
  }

  /** Sorting payloads with different sort keys can have only one result. */
  lemma {:induction false} SortingIsDetermined(p: seq<SignedProposal>, q: seq<SignedProposal>)
    requires Sorted(p) && StrictlySorted(q) && multiset(p) == multiset(q)
    ensures p == q
  {
    assert |p| == |multiset(p)| == |multiset(q)| == |q|;
    if p != [] {
      assert p[0] == q[0] by {
        assert q[0] in multiset(p) && p[0] in multiset(q);
        var i :| 0 <= i < |p| && p[i] == q[0];
        var j :| 0 <= j < |q| && q[j] == p[0];
      }
      assert p == [p[0]] + p[1..] && q == [q[0]] + q[1..];
      assert multiset(p[1..]) == multiset(p) - multiset{p[0]} == multiset(q[1..]);
      SortingIsDetermined(p[1..], q[1..]);
    }
  }

  /** The leader's queue is in strict order. */
  lemma LeaderQueueSorted(s: System, h: History)
    requires Explains(h, s)
    ensures StrictlySorted(s.leader.queue)
  {
    var q := s.leader.queue;
    forall i | 0 <= i < |q|
      ensures q[i].turnNum == h.start.turnNum + h.adopted + i + 1 && q[i].proposal.ledgerId == s.leader.fp.channelId
    {
      HistoryState(s.leader.fp, h, h.adopted + i);
    }
  }

  // ------------------------------------------------------------------
  // Delivering a queue
  // ------------------------------------------------------------------

  /** The system once the first n payloads have been delivered to the follower, one after the other. */
  function DeliverFirst(s: System, payloads: seq<SignedProposal>, n: nat): (s': System)
    requires WellFormed(s) && n <= |payloads|
    ensures WellFormed(s') && s'.leader.fp == s.leader.fp
  {
    if n == 0 then s else Next(DeliverFirst(s, payloads, n - 1), DeliverToFollower(payloads[n - 1]))
  }

  /** Delivering proposals moves nothing but the follower's queue. */
  ghost predicate OnlyReceived(s: System, t: System) {
    t.leader == s.leader && t.follower.current == s.follower.current && t.toFollower == s.toFollower
  }

  lemma OneMoreDelivered(s: System, h: History, n: nat) returns (h': History)
    requires Explains(h, s) && h.adopted <= n < |h.made| && n <= h.received
    ensures var r := Next(s, DeliverToFollower(h.made[n]));
            Explains(h', r) && OnlyReceived(s, r)
    ensures h' == h.(received := if n == h.received then n + 1 else h.received)
  {
    assert s.leader.queue[n - h.adopted] == h.made[n];
    assert h.made[n] in s.toFollower;
    FollowerTakesNext(s, h, n);
    h' := h;
    if n == h.received {
      h' := h.(received := n + 1);
      assert h.made[h.signed..n] + [h.made[n]] == h.made[h.signed..n + 1];
    }
  }

  /** `t` is `s` once the first n entries of the leader's queue have been delivered: the follower has
      come at least that far. */
  ghost predicate Caught(s: System, h: History, n: nat, t: System, h': History) {
    && Explains(h', t) && OnlyReceived(s, t)
    && h' == h.(received := if h.received < h.adopted + n then h.adopted + n else h.received)
  }

  lemma CatchOneMore(s: System, h: History, n: nat, t: System, h': History) returns (h'': History)
    requires Caught(s, h, n, t, h') && n < |s.leader.queue|
    ensures Caught(s, h, n + 1, Next(t, DeliverToFollower(s.leader.queue[n])), h'')
  {
    assert s.leader.queue[n] == h'.made[h.adopted + n];
    h'' := OneMoreDelivered(t, h', h.adopted + n);
  }

  lemma {:induction false} DeliveredSoFar(s: System, h: History, n: nat) returns (h': History)
    requires Explains(h, s) && n <= |s.leader.queue|
    ensures Caught(s, h, n, DeliverFirst(s, s.leader.queue, n), h')
  {
    if n == 0 {
      h' := h;
    } else {
      var before := DeliveredSoFar(s, h, n - 1);
      h' := CatchOneMore(s, h, n - 1, DeliverFirst(s, s.leader.queue, n - 1), before);
    }
  }

  /** What a side has been proposed is the last state of its part of the history. */
  lemma LatestOfSide(l: Ledger, h: History, n: nat, m: nat)
    requires TwoParties(l.fp) && n <= m <= |h.made| && SideAt(l, h, n, m)
    ensures Latest(l) == StateAt(h, m)
  {
    SideAhead(l, h, n, m, m - n);
  }

  lemma DeliveredAll(s: System, h: History)
    requires Explains(h, s)
    ensures var t := DeliverFirst(s, s.leader.queue, |s.leader.queue|);
            OnlyReceived(s, t) && Latest(t.follower) == Latest(s.leader)
  {
    var t := DeliverFirst(s, s.leader.queue, |s.leader.queue|);
    var h' := DeliveredSoFar(s, h, |s.leader.queue|);
    assert h'.received == |h.made| && h'.made == h.made && h'.start == h.start;
    LatestOfSide(s.leader, h, h.adopted, |h.made|);
    LatestOfSide(t.follower, h', h'.signed, h'.received);
  }

  /** Resynchronisation: from every reachable state, handing the follower the leader's queue in sorted
      order brings what it has been proposed level with what the leader has proposed. */
  lemma QueueResynchronises(s: System, steps: seq<Step>, payloads: seq<SignedProposal>)
    requires Initial(s)
    requires multiset(payloads) == multiset(Run(s, steps).leader.queue) && Sorted(payloads)
    ensures var r := Run(s, steps);
            var t := DeliverFirst(r, payloads, |payloads|);
            OnlyReceived(r, t) && Latest(t.follower) == Latest(r.leader)
  {
    var h := EveryRunIsExplained(s, steps);
    LeaderQueueSorted(Run(s, steps), h);
    SortingIsDetermined(payloads, Run(s, steps).leader.queue);
    DeliveredAll(Run(s, steps), h);
  }
}

/** When ledgers stay free of negative amounts: along queues and histories, and in every run. */
module Solvency {
  import opened Types
  import opened LedgerVars
  import opened Consensus
  import opened LedgerRun

  ghost predicate SolventAt(v: Vars, q: seq<SignedProposal>, n: nat)
    requires n <= |q|
  {
    After(v, q, n).Ok? ==> Solvent(After(v, q, n).value.outcome)
  }

  ghost predicate HarmlessAt(v: Vars, q: seq<SignedProposal>, n: nat)
    requires n < |q|
  {
    After(v, q, n).Ok? ==> Harmless(After(v, q, n).value, q[n].proposal)
  }

  /** All states up to the n-th are solvent. */
  ghost predicate SolventUpTo(v: Vars, q: seq<SignedProposal>, n: nat)
    requires n <= |q|
  {
    forall k :: 0 <= k <= n ==> SolventAt(v, q, k)
  }

  /** A sequence of proposals leads through solvent states only exactly when each of them is harmless
      where it is applied. */
  lemma {:induction false} SolventUpToExactlyWhen(v: Vars, q: seq<SignedProposal>, n: nat)
    requires Solvent(v.outcome) && n <= |q| && After(v, q, n).Ok?
    ensures SolventUpTo(v, q, n) <==> forall k :: 0 <= k < n ==> HarmlessAt(v, q, k)
  {
    if n > 0 {
      SolventUpToExactlyWhen(v, q, n - 1);
      assert SolventUpTo(v, q, n) <==> SolventUpTo(v, q, n - 1) && SolventAt(v, q, n);
      if SolventUpTo(v, q, n - 1) {
        assert SolventAt(v, q, n - 1);
        SolventExactlyWhen(After(v, q, n - 1).value, q[n - 1].proposal);
        assert SolventAt(v, q, n) <==> HarmlessAt(v, q, n - 1);
      }
    }
  }

  /** Proposals that speak of no negative amount are harmless anywhere on the way. */
  lemma {:induction false} NoNegativeStaysSolvent(v: Vars, q: seq<SignedProposal>, n: nat)
    requires Solvent(v.outcome) && n <= |q|
    requires forall k :: 0 <= k < n ==> NoNegative(q[k].proposal) || HarmlessAt(v, q, k)
    ensures SolventUpTo(v, q, n)
  {
    if n > 0 {
      NoNegativeStaysSolvent(v, q, n - 1);
      assert SolventAt(v, q, n - 1);
      if After(v, q, n).Ok? {
        if NoNegative(q[n - 1].proposal) {
          NoNegativeIsHarmless(After(v, q, n - 1).value, q[n - 1].proposal);
        }
        SolventExactlyWhen(After(v, q, n - 1).value, q[n - 1].proposal);
      }
    }
  }

  /** The current state and every queued state of the ledger are solvent. */
  ghost predicate AllSolvent(l: Ledger) {
    SolventUpTo(l.current.vars, l.queue, |l.queue|)
  }

  /** The current state and every queued state of a valid ledger share out the same total, and if the
      current one is solvent they all are exactly when every queued proposal is harmless where it is
      applied. */
  lemma EveryProposedStateConserves(l: Ledger, n: nat)
    requires Valid(l) && n <= |l.queue|
    ensures After(l.current.vars, l.queue, n).Ok?
    ensures LedgerTotal(After(l.current.vars, l.queue, n).value.outcome) == LedgerTotal(l.current.vars.outcome)
    ensures Solvent(l.current.vars.outcome) ==>
              (AllSolvent(l) <==> forall k :: 0 <= k < |l.queue| ==> HarmlessAt(l.current.vars, l.queue, k))
  {
    QueueApplies(l.fp, l.current.vars, l.queue, n);
    AfterKeeps(l.current.vars, l.queue, n);
    QueueApplies(l.fp, l.current.vars, l.queue, |l.queue|);
    if Solvent(l.current.vars.outcome) {
      SolventUpToExactlyWhen(l.current.vars, l.queue, |l.queue|);
    }
  }

  lemma SideOfSolventHistory(l: Ledger, h: History, n: nat, m: nat)
    requires TwoParties(l.fp) && n <= m <= |h.made| && SideAt(l, h, n, m)
    requires SolventUpTo(h.start, h.made, |h.made|)
    ensures AllSolvent(l)
  {
    forall k | 0 <= k <= |l.queue| ensures SolventAt(l.current.vars, l.queue, k) {
      SideAhead(l, h, n, m, k);
      assert SolventAt(h.start, h.made, n + k);
    }
  }

  // ------------------------------------------------------------------
  // Runs
  // ------------------------------------------------------------------

  /** The states either side has ever held or proposed are solvent. */
  ghost predicate SolventThroughout(h: History) {
    SolventUpTo(h.start, h.made, |h.made|)
  }

  /** In every run from a solvent state: all states there have been are solvent exactly when every
      proposal made was harmless where it was made; and then both sides are solvent, with all they
      have queued. */
  lemma RunSolventExactlyWhen(s: System, steps: seq<Step>, h: History)
    requires Initial(s) && Solvent(s.leader.current.vars.outcome)
    requires Explains(h, Run(s, steps)) && h.start == s.leader.current.vars
    ensures SolventThroughout(h) <==> forall k :: 0 <= k < |h.made| ==> HarmlessAt(h.start, h.made, k)
    ensures SolventThroughout(h) ==> AllSolvent(Run(s, steps).leader) && AllSolvent(Run(s, steps).follower)
  {
    var r := Run(s, steps);
    QueueApplies(r.leader.fp, h.start, h.made, |h.made|);
    SolventUpToExactlyWhen(h.start, h.made, |h.made|);
    if SolventThroughout(h) {
      SideOfSolventHistory(r.leader, h, h.adopted, |h.made|);
      SideOfSolventHistory(r.follower, h, h.signed, h.received);
    }
  }

  /** Every proposal the leader is asked to make is e or speaks of no negative amount. */
  ghost predicate DecentBut(steps: seq<Step>, e: Proposal) {
    forall k :: 0 <= k < |steps| && steps[k].LeaderPropose? ==> steps[k].proposal == e || NoNegative(steps[k].proposal)
  }

  ghost predicate BothSolvent(s: System) {
    AllSolvent(s.leader) && AllSolvent(s.follower)
  }

  lemma DecentRunsAreSolvent(s: System, steps: seq<Step>, e: Proposal)
    requires Initial(s) && Solvent(s.leader.current.vars.outcome) && DecentBut(steps, e) && NoNegative(e)
    ensures BothSolvent(Run(s, steps))
  {
    var h := EveryRunIsExplained(s, steps);
    assert forall k :: 0 <= k < |h.made| ==> NoNegative(h.made[k].proposal);
    NoNegativeStaysSolvent(h.start, h.made, |h.made|);
    RunSolventExactlyWhen(s, steps, h);
  }

  // ------------------------------------------------------------------
  // A removal in every run
  // ------------------------------------------------------------------

  lemma Unused(ids: set<Destination>) returns (t: Destination)
    ensures t !in ids && forall id :: id in ids ==> id < t
    decreases |ids|
  {
    t := 0;
    if ids != {} {
      var x :| x in ids;
      t := Unused(ids - {x});
      assert forall id :: id in ids ==> id == x || id in ids - {x};
      if t <= x {
        t := x + 1;
      }
    }
  }

  /** A guarantee that takes up all that the left party of `target` has. */
  ghost function Drain(o: LedgerOutcome, target: Destination, unused: Destination): Change
    requires target in o.guarantees
  {
    if o.leader.destination == o.guarantees[target].left
    then Add(Guarantee(o.leader.amount, unused, 0, 0), o.leader.amount)
    else Add(Guarantee(o.follower.amount, unused, 0, 0), 0)
  }

  lemma DrainedThenRemoved(v: Vars, target: Destination, leftAmount: int, unused: Destination)
    requires Solvent(v.outcome) && target in v.outcome.guarantees && unused !in v.outcome.guarantees
    requires leftAmount <= v.outcome.guarantees[target].amount
    ensures var p := Proposal(0, Drain(v.outcome, target, unused));
            && NoNegative(p) && Apply(v, p).Ok?
            && var u := Apply(v, p).value;
               && ApplyRemove(u, target, leftAmount).Ok?
               && (leftAmount < 0 ==> !Solvent(ApplyRemove(u, target, leftAmount).value.outcome))
  {
  }

  /** The leader proposes to take up all the left party has, and then to remove the guarantee. */
  lemma InsolventRun(s: System, e: Proposal) returns (drain: Proposal)
    requires Initial(s) && Solvent(s.leader.current.vars.outcome)
    requires e.change.Remove? && e.ledgerId == s.leader.fp.channelId
    requires Target(e) in s.leader.current.vars.outcome.guarantees && e.change.leftAmount < 0
    ensures drain.change.Add? && NoNegative(drain) && Target(drain) != Target(e)
    ensures var s1 := Next(s, LeaderPropose(drain));
            && s1.leader.current == s.leader.current
            && |s1.leader.queue| == 1 && s1.leader.queue[0].proposal == drain
            && !AllSolvent(Next(s1, LeaderPropose(e)).leader)
  {
    var v, target := s.leader.current.vars, Target(e);
    var unused := Unused(v.outcome.guarantees.Keys);
    drain := Proposal(e.ledgerId, Drain(v.outcome, target, unused));
    assert v.outcome.guarantees[target].amount >= 0;
    DrainedThenRemoved(v, target, e.change.leftAmount, unused);
    var u := Apply(v, drain).value;
    var l1 := Next(s, LeaderPropose(drain)).leader;
    assert After(v, l1.queue, 0) == Ok(v) && After(v, l1.queue, 1) == Ok(u);
    var l2 := Next(Next(s, LeaderPropose(drain)), LeaderPropose(e)).leader;
    assert l2.queue[..1] == l1.queue[..1] && l2.queue[1].proposal == e;
    AfterSame(v, l1.queue, l2.queue, 1);
    assert !SolventAt(v, l2.queue, 2);
  }

  /** For a removal of a guarantee there is: in every run in which all other proposals speak of no
      negative amount both sides stay solvent, if and only if the removal does not either. */
  lemma RemovalSafeExactlyWhen(s: System, e: Proposal)
    requires Initial(s) && Solvent(s.leader.current.vars.outcome)
    requires e.change.Remove? && e.ledgerId == s.leader.fp.channelId
    requires Target(e) in s.leader.current.vars.outcome.guarantees
    ensures (forall steps :: DecentBut(steps, e) ==> BothSolvent(Run(s, steps))) <==> e.change.leftAmount >= 0
  {
    if e.change.leftAmount >= 0 {
      forall steps | DecentBut(steps, e) ensures BothSolvent(Run(s, steps)) {
        DecentRunsAreSolvent(s, steps, e);
      }
    } else {
      var drain := InsolventRun(s, e);
      var steps := [LeaderPropose(drain), LeaderPropose(e)];
      OneMoreStep(s, steps, 0);
      OneMoreStep(s, steps, 1);
      assert steps[..2] == steps;
      assert DecentBut(steps, e) && !BothSolvent(Run(s, steps));
    }
  }
}

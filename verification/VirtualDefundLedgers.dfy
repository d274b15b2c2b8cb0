/** Each ledger in a run of virtual defunding, by itself. */
module VirtualDefundLedgers {
  import opened Types
  import opened LedgerVars
  import opened Consensus
  import opened LedgerRun
  import opened Messages
  import opened Solvency
  import opened VirtualDefund
  import opened GuaranteeRun
  import opened RemovalRun
  import opened LedgerMoves
  import opened VirtualDefundWorld
  import opened VirtualDefundCranks
  import opened VirtualDefundRun
  import VirtualFund

  /** Whatever is proposed on ledger e is the removal in question or comes from another objective. */
  ghost predicate ComesFrom(w: World, e: nat, acts: seq<Act>, steps: seq<Step>)
    requires Shaped(w) && e < 2
  {
    forall k :: 0 <= k < |steps| && steps[k].LeaderPropose? ==>
      steps[k].proposal == Expected(w, e) || FromOther(w, e, acts, steps[k])
  }

  /** Another objective has proposed it, about another channel. */
  ghost predicate FromOther(w: World, e: nat, acts: seq<Act>, step: Step) {
    Other(e, step) in acts && Minds(step, w.terms.vFixed.channelId)
  }

  lemma CrankOnLedger(w: World, p: nat, e: nat, r: Cranked, o1: Objective, ms1: seq<Message>, mine: set<nat>)
    returns (steps: seq<Step>)
    requires Shaped(w) && p < 3 && e < 2 && CrankEffect(w, p, mine, r, o1, ms1)
    ensures WellFormed(w.ledgers[e]) && AfterCrank(w, p, r).ledgers[e] == Run(w.ledgers[e], steps)
    ensures ComesFrom(w, e, [CrankParty(p)], steps)
  {
    SameLedgersAfter(w, p, mine, r, o1, ms1);
    steps := SteppedIsRun(w, e, p, LedgersAfter(w, p, o1, ms1)[e]);
  }

  lemma SteppedIsRun(w: World, e: nat, p: nat, t: System) returns (steps: seq<Step>)
    requires Shaped(w) && e < 2 && LedgerStepped(w, e, p, t)
    ensures WellFormed(w.ledgers[e]) && t == Run(w.ledgers[e], steps) && ComesFrom(w, e, [CrankParty(p)], steps)
  {
    assert Run(w.ledgers[e], []) == w.ledgers[e];
    steps := if t == w.ledgers[e] then [] else [StepOf(RoleOf(w, e, p), Expected(w, e))];
    assert steps != [] ==> steps[..|steps| - 1] == [];
  }

  /** From world w to world w' ledger e has gone through these steps. */
  ghost predicate Stepped(w: World, e: nat, a: Act, w': World, steps: seq<Step>)
    requires Shaped(w) && e < 2
  {
    && |w'.ledgers| == 2 && WellFormed(w.ledgers[e]) && w'.ledgers[e] == Run(w.ledgers[e], steps)
    && ComesFrom(w, e, [a], steps)
  }

  lemma DoneCrankOnLedger(w: World, c: Account, p: nat, e: nat, r: Cranked) returns (steps: seq<Step>)
    requires Accounts(c, w) && p < 3 && e < 2 && w.parties[p].status == VirtualFund.Approved
    requires r == Crank(ObjectiveOf(w, p), w.terms.vFixed.participants[p]) && r.failed == None
    requires Proper(r.objective) && r.objective.myRole == p
    ensures Stepped(w, e, CrankParty(p), AfterCrank(w, p, r), steps)
  {
    var o1, ms1 := CrankOf(w, c, p);
    steps := CrankOnLedger(w, p, e, r, o1, ms1, c.signed[p]);
  }

  lemma CrankStepOnLedger(w: World, c: Account, p: nat, e: nat) returns (steps: seq<Step>)
    requires Accounts(c, w) && p < 3 && e < 2
    ensures Stepped(w, e, CrankParty(p), NextWorld(w, CrankParty(p)), steps)
  {
    steps := [];
    CrankedWorld(w, p);
    OnlyApprovedCrank(ObjectiveOf(w, p), w.terms.vFixed.participants[p]);
    var r := Crank(ObjectiveOf(w, p), w.terms.vFixed.participants[p]);
    if r.failed == None {
      steps := DoneCrankOnLedger(w, c, p, e, r);
    }
  }

  lemma OtherStepOnLedger(w: World, e': nat, step: Step, e: nat) returns (steps: seq<Step>)
    requires Shaped(w) && e < 2
    ensures Stepped(w, e, Other(e', step), NextWorld(w, Other(e', step)), steps)
  {
    steps := [];
    if e' == e && Minds(step, w.terms.vFixed.channelId) {
      steps := [step];
      assert steps[..0] == [];
    }
  }

  lemma IdleOnLedger(w: World, a: Act, e: nat)
    requires Shaped(w) && e < 2 && (a.Approve? || a.DeliverState? || (a.CrankParty? && a.p >= 3))
    ensures Stepped(w, e, a, NextWorld(w, a), [])
  {
  }

  /** A step of the world is at most one step of each ledger. */
  lemma StepOnLedger(w: World, c: Account, a: Act, e: nat) returns (steps: seq<Step>)
    requires Accounts(c, w) && e < 2
    ensures Stepped(w, e, a, NextWorld(w, a), steps)
  {
    if a.Other? {
      steps := OtherStepOnLedger(w, a.e, a.step, e);
    } else if a.CrankParty? && a.p < 3 {
      steps := CrankStepOnLedger(w, c, a.p, e);
    } else {
      IdleOnLedger(w, a, e);
      steps := [];
    }
  }

  lemma ComesFromBoth(w: World, e: nat, acts: seq<Act>, a: Act, steps: seq<Step>, last: seq<Step>)
    requires Shaped(w) && e < 2 && ComesFrom(w, e, acts, steps) && ComesFrom(w, e, [a], last)
    ensures ComesFrom(w, e, acts + [a], steps + last)
  {
    forall k | 0 <= k < |steps + last| && (steps + last)[k].LeaderPropose?
      ensures (steps + last)[k].proposal == Expected(w, e) || FromOther(w, e, acts + [a], (steps + last)[k])
    {
      if k >= |steps| {
        assert (steps + last)[k] == last[k - |steps|];
      }
    }
  }

  /** From world w to world u ledger e has gone through these steps. */
  ghost predicate Through(w: World, e: nat, acts: seq<Act>, u: World, steps: seq<Step>)
    requires Shaped(w) && e < 2
  {
    && Shaped(u) && WellFormed(w.ledgers[e]) && u.ledgers[e] == Run(w.ledgers[e], steps)
    && Expected(u, e) == Expected(w, e) && ComesFrom(w, e, acts, steps)
  }

  lemma OneMoreAct(w: World, e: nat, acts: seq<Act>, u: World, c: Account, steps: seq<Step>, a: Act)
    returns (steps': seq<Step>)
    requires Shaped(w) && e < 2 && Through(w, e, acts, u, steps) && Accounts(c, u) && Shaped(NextWorld(u, a))
    ensures Through(w, e, acts + [a], NextWorld(u, a), steps')
  {
    var last := StepOnLedger(u, c, a, e);
    RunAppend(w.ledgers[e], steps, last);
    steps' := steps + last;
    ComesFromBoth(w, e, acts, a, steps, last);
    StepKeepsTerms(u, a);
  }

  /** In every run of the world each ledger goes through a run of its own, so that all that holds in
      every run of a ledger holds here. */
  lemma {:induction false} LedgerGoesThrough(w: World, acts: seq<Act>, e: nat) returns (steps: seq<Step>)
    requires Start(w) && e < 2
    ensures Through(w, e, acts, RunWorld(w, acts), steps)
    decreases |acts|
  {
    if acts == [] {
      steps := [];
    } else {
      var n := |acts| - 1;
      assert acts[..n] + [acts[n]] == acts;
      var before := LedgerGoesThrough(w, acts[..n], e);
      var c := EveryRunIsAccounted(w, acts[..n]);
      EveryWorldIsShaped(w, acts);
      steps := OneMoreAct(w, e, acts[..n], RunWorld(w, acts[..n]), c, before, acts[n]);
    }
  }

  /** Other objectives propose no negative amounts. */
  ghost predicate OthersDecent(acts: seq<Act>) {
    forall k :: 0 <= k < |acts| && acts[k].Other? && acts[k].step.LeaderPropose? ==> NoNegative(acts[k].step.proposal)
  }

  lemma DecentSteps(w: World, acts: seq<Act>, e: nat, steps: seq<Step>)
    requires Shaped(w) && e < 2 && OthersDecent(acts) && ComesFrom(w, e, acts, steps)
    ensures DecentBut(steps, Expected(w, e))
  {
    forall k | 0 <= k < |steps| && steps[k].LeaderPropose?
      ensures steps[k].proposal == Expected(w, e) || NoNegative(steps[k].proposal)
    {
      if Other(e, steps[k]) in acts {
        var n :| 0 <= n < |acts| && acts[n] == Other(e, steps[k]);
      }
    }
  }

  // ------------------------------------------------------------------
  // What defunding moves
  // ------------------------------------------------------------------

  /** The history of ledger e in a run, of which there is one. */
  ghost predicate LedgerHistory(w: World, acts: seq<Act>, e: nat, h: History)
    requires Start(w) && e < 2
  {
    var u := RunWorld(w, acts);
    Shaped(u) && Explains(h, u.ledgers[e]) && h.start == w.ledgers[e].leader.current.vars
  }

  lemma LedgerHistoryIsClosing(w: World, acts: seq<Act>, e: nat, h: History)
    requires Start(w) && e < 2 && LedgerHistory(w, acts, e, h)
    ensures Closing(h, Expected(w, e))
  {
    var steps := LedgerGoesThrough(w, acts, e);
    var h0 := EveryRunIsExplained(w.ledgers[e], steps);
    HistoryIsDetermined(Run(w.ledgers[e], steps), h, h0);
    forall k | 0 <= k < |h.made| && Target(h.made[k].proposal) == Target(Expected(w, e))
      ensures h.made[k].proposal == Expected(w, e)
    {
      assert LeaderPropose(h.made[k].proposal) in steps;
    }
  }

  ghost predicate AllCompleted(u: World) {
    |u.parties| == 3 && forall p :: 0 <= p < 3 ==> u.parties[p].status == VirtualFund.Completed
  }

  lemma PartyOnSide(w: World, e: nat, role: Role) returns (q: nat)
    requires Shaped(w) && e < 2
    ensures q < 3 && (q == e || q == e + 1) && RoleOf(w, e, q) == role
  {
    q := if RoleOf(w, e, e) == role then e else e + 1;
  }

  lemma SideGaveUp(w: World, acts: seq<Act>, e: nat, role: Role)
    requires Start(w) && e < 2 && AllCompleted(RunWorld(w, acts))
    ensures Shaped(RunWorld(w, acts))
    ensures GaveUp(RunWorld(w, acts), e, role)
  {
    EveryWorldIsShaped(w, acts);
    var q := PartyOnSide(RunWorld(w, acts), e, role);
    CompletionMeansDefunded(w, acts, q);
  }

  /** In every run, once all participants have completed, either side of either ledger has returned
      Alice's amount less the payment to the guarantee's left party and the rest to the other one, and
      nothing more. */
  lemma DefundingReturns(w: World, acts: seq<Act>, e: nat, h: History, role: Role)
    requires Start(w) && e < 2 && LedgerHistory(w, acts, e, h)
    requires AllCompleted(RunWorld(w, acts))
    ensures w.terms.vFixed.channelId in h.start.outcome.guarantees
    ensures Moves(h, Expected(w, e), SeenBy(h, role),
                  Returned(h.start.outcome, w.terms.vFixed.channelId,
                           w.terms.initialOutcome.allocations[0].amount - w.terms.paidToBob))
  {
    LedgerHistoryIsClosing(w, acts, e, h);
    SideGaveUp(w, acts, e, role);
    RunKeepsTerms(w, acts);
    SideStands(RunWorld(w, acts).ledgers[e], h, role);
    RemovalMoves(h, Expected(w, e), SeenBy(h, role));
  }
}

/** When virtual defunding keeps ledgers free of negative amounts. Nothing but the size of the guarantee
    limits what Alice's share may be reduced by, so it is the payment that decides. */
module VirtualDefundSolvency {
  import opened Types
  import opened LedgerVars
  import opened Consensus
  import opened LedgerRun
  import opened Messages
  import opened Solvency
  import opened VirtualDefund
  import opened VirtualDefundCrank
  import opened VirtualDefundWorld
  import opened VirtualDefundSteps
  import opened VirtualDefundCranks
  import opened VirtualDefundRun
  import opened VirtualDefundLedgers
  import VirtualFund

  /** Alice does not pay more than her share. */
  ghost predicate PaidFromShare(t: Terms)
    requires |t.initialOutcome.allocations| == 2
  {
    t.paidToBob <= t.initialOutcome.allocations[0].amount
  }

  /** In every run in which other objectives propose no negative amounts: all states a ledger has ever
      been proposed are solvent exactly when the left party could cover the removal where it was
      proposed, if it was; and then both sides are solvent with all they have queued. */
  lemma DefundRunSolventExactlyWhen(w: World, acts: seq<Act>, e: nat, h: History)
    requires Start(w) && e < 2 && OthersDecent(acts) && Solvent(w.ledgers[e].leader.current.vars.outcome)
    requires Shaped(RunWorld(w, acts)) && Explains(h, RunWorld(w, acts).ledgers[e])
    requires h.start == w.ledgers[e].leader.current.vars
    ensures SolventThroughout(h)
       <==> forall k :: 0 <= k < |h.made| && h.made[k].proposal == Expected(w, e) ==> HarmlessAt(h.start, h.made, k)
    ensures SolventThroughout(h) ==> BothSolvent(RunWorld(w, acts).ledgers[e])
  {
    var steps := LedgerGoesThrough(w, acts, e);
    DecentSteps(w, acts, e, steps);
    var h0 := EveryRunIsExplained(w.ledgers[e], steps);
    HistoryIsDetermined(Run(w.ledgers[e], steps), h, h0);
    RunSolventExactlyWhen(w.ledgers[e], steps, h);
    MadeIsDecent(h, steps, Expected(w, e));
    if forall k :: 0 <= k < |h.made| && h.made[k].proposal == Expected(w, e) ==> HarmlessAt(h.start, h.made, k) {
      NoNegativeStaysSolvent(h.start, h.made, |h.made|);
    }
  }

  lemma MadeIsDecent(h: History, steps: seq<Step>, e: Proposal)
    requires DecentBut(steps, e) && forall k :: 0 <= k < |h.made| ==> LeaderPropose(h.made[k].proposal) in steps
    ensures forall k :: 0 <= k < |h.made| ==> h.made[k].proposal == e || NoNegative(h.made[k].proposal)
  {
  }

  // ------------------------------------------------------------------
  // A round of signatures
  // ------------------------------------------------------------------

  ghost predicate Participants(x: set<nat>) {
    forall q :: q in x ==> q < 3
  }

  ghost predicate PartyAt(party: Party, t: Terms, x: set<nat>)
    requires |t.initialOutcome.allocations| >= 2 && |t.vFixed.participants| == 3
  {
    Participants(x) && party.signatures == SignaturesOf(t, x)
  }

  /** Ledger 0 is d, party i holds the signatures of x[i], and those that are needed are approved. */
  ghost predicate At(u: World, t: Terms, d: System, x: seq<set<nat>>) {
    && Shaped(u) && u.terms == t && u.ledgers[0] == d && |x| == 3
    && PartyAt(u.parties[0], t, x[0]) && PartyAt(u.parties[1], t, x[1]) && PartyAt(u.parties[2], t, x[2])
    && u.parties[0].status == u.parties[1].status == VirtualFund.Approved
    && (x[2] != {0, 1, 2} ==> u.parties[2].status == VirtualFund.Approved)
  }

  lemma AtUpdated(u: World, t: Terms, d: System, x: seq<set<nat>>, p: nat, y: set<nat>, status: Status, u': World)
    requires At(u, t, d, x) && p < 3 && Participants(y) && Shaped(u') && u'.terms == t && u'.ledgers[0] == d
    requires u'.parties == u.parties[p := Party(status, SignaturesOf(t, y))]
    requires p < 2 || y != {0, 1, 2} ==> status == VirtualFund.Approved
    ensures At(u', t, d, x[p := y])
  {
  }

  lemma OneMoreWorld(w: World, acts: seq<Act>, a: Act)
    requires Shaped(RunWorld(w, acts))
    ensures RunWorld(w, acts + [a]) == NextWorld(RunWorld(w, acts), a)
  {
    assert (acts + [a])[..|acts|] == acts;
  }

  lemma SignaturesTell(t: Terms, x: set<nat>, y: set<nat>)
    requires |t.initialOutcome.allocations| >= 2 && |t.vFixed.participants| == 3
    requires Participants(x) && Participants(y) && SignaturesOf(t, x) == SignaturesOf(t, y)
    ensures x == y
  {
    assert forall i :: 0 <= i < 3 ==> SignaturesOf(t, x)[i] == SignatureOf(t, x, i);
    assert forall i :: 0 <= i < 3 ==> SignaturesOf(t, y)[i] == SignatureOf(t, y, i);
    forall i | 0 <= i < 3 ensures i in x <==> i in y {
      assert SignatureOf(t, x, i) == SignatureOf(t, y, i);
    }
  }

  /** Party p has sent the final state with these signatures to both others. */
  ghost predicate ToBothOthers(w: World, p: nat, who: set<nat>)
    requires |w.terms.vFixed.participants| == 3 && |w.terms.initialOutcome.allocations| >= 2 && Participants(who)
  {
    forall q :: 0 <= q < 3 && q != p ==> Sent(w, q, FinalSignedBy(w.terms, who))
  }

  /** What a crank does to the world in terms of its effect. */
  lemma EffectOnWorld(w: World, p: nat, mine: set<nat>, r: Cranked, o1: Objective, ms1: seq<Message>)
    requires Shaped(w) && p < 3 && CrankEffect(w, p, mine, r, o1, ms1)
    ensures var w' := AfterCrank(w, p, r);
            && w'.terms == w.terms
            && w'.parties == w.parties[p := Party(r.objective.status, SignaturesOf(w.terms, mine + {p}))]
            && Participants(mine)
            && (p !in mine ==> ToBothOthers(w', p, mine + {p}))
            && (!({0, 1, 2} <= mine + {p}) ==> w'.ledgers == w.ledgers && r.objective.status == VirtualFund.Approved)
            && (p == 2 ==> w'.ledgers[0] == w.ledgers[0])
  {
    SameLedgersAfter(w, p, mine, r, o1, ms1);
    var ms :| r.messages == ms + ms1 && Announces(w, p, mine, ms);
    JoinedMessages(ms, ms1);
    if Untouched(w, p, o1, ms1) {
      UntouchedLedgers(w, p, o1, ms1);
    }
  }

  lemma EffectAt(u: World, t: Terms, d: System, x: seq<set<nat>>, p: nat, r: Cranked, o1: Objective, ms1: seq<Message>)
    requires At(u, t, d, x) && p < 3 && CrankEffect(u, p, x[p], r, o1, ms1) && Shaped(AfterCrank(u, p, r))
    requires p !in x[p] && (p == 2 || x[p] + {p} != {0, 1, 2})
    ensures At(AfterCrank(u, p, r), t, d, x[p := x[p] + {p}])
    ensures ToBothOthers(AfterCrank(u, p, r), p, x[p] + {p})
  {
    EffectOnWorld(u, p, x[p], r, o1, ms1);
    AtUpdated(u, t, d, x, p, x[p] + {p}, r.objective.status, AfterCrank(u, p, r));
  }

  lemma CrankAt(u: World, c: Account, t: Terms, d: System, x: seq<set<nat>>, p: nat)
    requires Accounts(c, u) && p < 3 && At(u, t, d, x) && !Overpaid(t) && Shaped(NextWorld(u, CrankParty(p)))
    requires p !in x[p] && (p == 2 || x[p] + {p} != {0, 1, 2})
    ensures At(NextWorld(u, CrankParty(p)), t, d, x[p := x[p] + {p}])
    ensures ToBothOthers(NextWorld(u, CrankParty(p)), p, x[p] + {p})
  {
    assert PartyView(u, c, p) && PartyAt(u.parties[p], t, x[p]);
    SignaturesTell(t, x[p], c.signed[p]);
    CrankedWorld(u, p);
    var o1, ms1 := CrankOf(u, c, p);
    EffectAt(u, t, d, x, p, Crank(ObjectiveOf(u, p), u.terms.vFixed.participants[p]), o1, ms1);
  }

  /** A party signs and sends all signatures it has. */
  lemma SignAndSend(w: World, acts: seq<Act>, d: System, x: seq<set<nat>>, p: nat)
    requires Start(w) && p < 3 && !Overpaid(w.terms) && At(RunWorld(w, acts), w.terms, d, x)
    requires p !in x[p] && (p == 2 || x[p] + {p} != {0, 1, 2})
    ensures At(RunWorld(w, acts + [CrankParty(p)]), w.terms, d, x[p := x[p] + {p}])
    ensures ToBothOthers(RunWorld(w, acts + [CrankParty(p)]), p, x[p] + {p})
  {
    OneMoreWorld(w, acts, CrankParty(p));
    var c := EveryRunIsAccounted(w, acts);
    EveryWorldIsShaped(w, acts + [CrankParty(p)]);
    CrankAt(RunWorld(w, acts), c, w.terms, d, x, p);
  }

  lemma DeliverAt(u: World, t: Terms, d: System, x: seq<set<nat>>, p: nat, who: set<nat>)
    requires At(u, t, d, x) && p < 3 && Participants(who) && (p == 2 ==> x[2] != {0, 1, 2})
    requires Sent(u, p, FinalSignedBy(t, who))
    ensures At(NextWorld(u, DeliverState(p, FinalSignedBy(t, who))), t, d, x[p := x[p] + who])
  {
    var ss := FinalSignedBy(t, who);
    TakeOwned(ObjectiveOf(u, p), t, x[p], who);
    var u' := NextWorld(u, DeliverState(p, ss));
    assert u' == WithSignatures(u, p, x[p] + who);
    AtUpdated(u, t, d, x, p, x[p] + who, u.parties[p].status, u');
  }

  /** A party takes in the signatures sent. */
  lemma Receive(w: World, acts: seq<Act>, d: System, x: seq<set<nat>>, p: nat, who: set<nat>)
    requires At(RunWorld(w, acts), w.terms, d, x) && p < 3 && Participants(who) && (p == 2 ==> x[2] != {0, 1, 2})
    requires Sent(RunWorld(w, acts), p, FinalSignedBy(w.terms, who))
    ensures At(RunWorld(w, acts + [DeliverState(p, FinalSignedBy(w.terms, who))]), w.terms, d, x[p := x[p] + who])
  {
    OneMoreWorld(w, acts, DeliverState(p, FinalSignedBy(w.terms, who)));
    DeliverAt(RunWorld(w, acts), w.terms, d, x, p, who);
  }

  // ------------------------------------------------------------------
  // A run that ends insolvent
  // ------------------------------------------------------------------

  lemma UpToDateAfter(u: World, c: Account, p: nat, r: Cranked, o1: Objective, ms1: seq<Message>)
    requires Accounts(c, u) && p < 3 && u.parties[p].status == VirtualFund.Approved && {0, 1, 2} <= c.signed[p]
    requires r == Crank(ObjectiveOf(u, p), u.terms.vFixed.participants[p]) && CrankEffect(u, p, c.signed[p], r, o1, ms1)
    ensures SideUpToDate(r.objective, r.objective.toMyLeft) && SideUpToDate(r.objective, r.objective.toMyRight)
  {
    PartyIsHonest(u, c, p);
    CrankLeavesNothingUndone(ObjectiveOf(u, p));
    assert FullySigned(r.objective);
  }

  /** Cranking with all signatures, the leader of a ledger that holds the guarantee with no removal
      queued proposes it. */
  lemma LeaderProposesRemoval(u: World, c: Account, p: nat)
    requires Accounts(c, u) && p < 2 && RoleOf(u, 0, p) == Leader && !Overpaid(u.terms)
    requires u.parties[p].status == VirtualFund.Approved && {0, 1, 2} <= c.signed[p]
    requires u.terms.vFixed.channelId in u.ledgers[0].leader.current.vars.outcome.guarantees
    requires !RemovalProposed(u.ledgers[0].leader.queue, u.terms.vFixed.channelId)
    ensures NextWorld(u, CrankParty(p)).ledgers[0] == Next(u.ledgers[0], LeaderPropose(Expected(u, 0)))
  {
    CrankedWorld(u, p);
    var o1, ms1 := CrankOf(u, c, p);
    var r := Crank(ObjectiveOf(u, p), u.terms.vFixed.participants[p]);
    SameLedgersAfter(u, p, c.signed[p], r, o1, ms1);
    UpToDateAfter(u, c, p, r, o1, ms1);
    LeaderSideDiffers(u, p, r.objective, o1, ms1);
  }

  lemma LeaderSideDiffers(u: World, p: nat, o': Objective, o1: Objective, ms1: seq<Message>)
    requires Shaped(u) && p < 2 && RoleOf(u, 0, p) == Leader && SidesStepped(u, p, o1, ms1)
    requires Proper(o') && o'.myRole == p && o'.vFixed == u.terms.vFixed
    requires o'.toMyLeft == o1.toMyLeft && o'.toMyRight == o1.toMyRight
    requires SideUpToDate(o', o'.toMyLeft) && SideUpToDate(o', o'.toMyRight)
    requires u.terms.vFixed.channelId in u.ledgers[0].leader.current.vars.outcome.guarantees
    requires !RemovalProposed(u.ledgers[0].leader.queue, u.terms.vFixed.channelId)
    ensures LedgerAfter(u, 0, p, o1, ms1) == Next(u.ledgers[0], LeaderPropose(Expected(u, 0)))
  {
    var t := LedgerAfter(u, 0, p, o1, ms1);
    assert t != u.ledgers[0];
  }

  /** A run that has come to this stage, in which other objectives were decent. */
  ghost predicate Reached(w: World, acts: seq<Act>, d: System, x: seq<set<nat>>) {
    Start(w) && !Overpaid(w.terms) && OthersDecent(acts) && At(RunWorld(w, acts), w.terms, d, x)
  }

  lemma SignStage(w: World, acts: seq<Act>, d: System, x: seq<set<nat>>, p: nat, who: set<nat>)
    returns (acts': seq<Act>)
    requires Reached(w, acts, d, x) && p < 3 && p !in x[p] && who == x[p] + {p} && (p == 2 || who != {0, 1, 2})
    ensures Reached(w, acts', d, x[p := who]) && Participants(who)
    ensures ToBothOthers(RunWorld(w, acts'), p, who)
  {
    acts' := acts + [CrankParty(p)];
    SignAndSend(w, acts, d, x, p);
  }

  lemma ReceiveStage(w: World, acts: seq<Act>, d: System, x: seq<set<nat>>, p: nat, who: set<nat>)
    returns (acts': seq<Act>)
    requires Reached(w, acts, d, x) && p < 3 && Participants(who) && x[p] <= who && (p == 2 ==> x[2] != {0, 1, 2})
    requires Sent(RunWorld(w, acts), p, FinalSignedBy(w.terms, who))
    ensures Reached(w, acts', d, x[p := who])
  {
    acts' := acts + [DeliverState(p, FinalSignedBy(w.terms, who))];
    Receive(w, acts, d, x, p, who);
    assert x[p] + who == who;
  }

  /** Alice signs, then the intermediary, who has her signature. */
  lemma FirstSign(w: World, acts: seq<Act>, d: System) returns (acts': seq<Act>)
    requires Reached(w, acts, d, [{}, {}, {}])
    ensures Reached(w, acts', d, [{0}, {0, 1}, {}]) && ToBothOthers(RunWorld(w, acts'), 1, {0, 1})
  {
    acts' := SignStage(w, acts, d, [{}, {}, {}], 0, {0});
    assert [{}, {}, {}][0 := {0}] == [{0}, {}, {}];
    acts' := ReceiveStage(w, acts', d, [{0}, {}, {}], 1, {0});
    assert [{0}, {}, {}][1 := {0}] == [{0}, {0}, {}];
    acts' := SignStage(w, acts', d, [{0}, {0}, {}], 1, {0, 1});
    assert [{0}, {0}, {}][1 := {0, 1}] == [{0}, {0, 1}, {}];
  }

  /** Then Bob signs, who has both. */
  lemma BobSigns(w: World, acts: seq<Act>, d: System) returns (acts': seq<Act>)
    requires Reached(w, acts, d, [{0}, {0, 1}, {}])
    requires ToBothOthers(RunWorld(w, acts), 1, {0, 1})
    ensures Reached(w, acts', d, [{0}, {0, 1}, {0, 1, 2}])
    ensures ToBothOthers(RunWorld(w, acts'), 2, {0, 1, 2})
  {
    acts' := ReceiveStage(w, acts, d, [{0}, {0, 1}, {}], 2, {0, 1});
    assert [{0}, {0, 1}, {}][2 := {0, 1}] == [{0}, {0, 1}, {0, 1}];
    acts' := SignStage(w, acts', d, [{0}, {0, 1}, {0, 1}], 2, {0, 1, 2});
    assert [{0}, {0, 1}, {0, 1}][2 := {0, 1, 2}] == [{0}, {0, 1}, {0, 1, 2}];
  }

  /** And party p gets all signatures. */
  lemma AllSigned(w: World, acts: seq<Act>, d: System, p: nat) returns (acts': seq<Act>)
    requires Reached(w, acts, d, [{}, {}, {}]) && p < 2
    ensures Reached(w, acts', d, [{0}, {0, 1}, {0, 1, 2}][p := {0, 1, 2}])
  {
    acts' := FirstSign(w, acts, d);
    acts' := BobSigns(w, acts', d);
    acts' := ReceiveStage(w, acts', d, [{0}, {0, 1}, {0, 1, 2}], p, {0, 1, 2});
  }

  /** Nobody has rejected the objective. */
  ghost predicate Willing(w: World) {
    forall p :: 0 <= p < |w.parties| ==> w.parties[p].status in {VirtualFund.Unapproved, VirtualFund.Approved}
  }

  lemma ApproveOne(w: World, acts: seq<Act>, p: nat)
    requires Start(w) && p < 3 && Shaped(RunWorld(w, acts))
    requires RunWorld(w, acts).parties[p].status in {VirtualFund.Unapproved, VirtualFund.Approved}
    ensures var u := RunWorld(w, acts);
            RunWorld(w, acts + [Approve(p)])
                == u.(parties := u.parties[p := u.parties[p].(status := VirtualFund.Approved)])
    ensures Shaped(RunWorld(w, acts + [Approve(p)]))
  {
    OneMoreWorld(w, acts, Approve(p));
    EveryWorldIsShaped(w, acts + [Approve(p)]);
    var u := RunWorld(w, acts);
    if u.parties[p].status == VirtualFund.Approved {
      assert u.parties[p := u.parties[p].(status := VirtualFund.Approved)] == u.parties;
    }
  }

  /** Everybody approves. */
  lemma EverybodyApproves(w: World) returns (acts: seq<Act>)
    requires Start(w) && Willing(w)
    ensures OthersDecent(acts) && Shaped(RunWorld(w, acts))
    ensures var u := RunWorld(w, acts);
            u == w.(parties := u.parties) && forall p :: 0 <= p < 3 ==>
              u.parties[p].status == VirtualFund.Approved && u.parties[p].signatures == [None, None, None]
  {
    ApproveOne(w, [], 0);
    ApproveOne(w, [] + [Approve(0)], 1);
    ApproveOne(w, [] + [Approve(0)] + [Approve(1)], 2);
    acts := [] + [Approve(0)] + [Approve(1)] + [Approve(2)];
  }

  /** Another objective proposes `drain` on ledger 0. */
  lemma ApprovedAndDrained(w: World, drain: Proposal) returns (acts: seq<Act>)
    requires Start(w) && Willing(w) && !Overpaid(w.terms) && NoNegative(drain)
             && Target(drain) != w.terms.vFixed.channelId
    ensures Reached(w, acts, Next(w.ledgers[0], LeaderPropose(drain)), [{}, {}, {}])
  {
    var approved := EverybodyApproves(w);
    acts := approved + [Other(0, LeaderPropose(drain))];
    OneMoreWorld(w, approved, Other(0, LeaderPropose(drain)));
    EveryWorldIsShaped(w, acts);
  }

  /** If Alice is to pay more than her share, some run leaves her, or whoever shares ledger 0 with
      her, with a negative amount. */
  lemma InsolventDefundRun(w: World) returns (acts: seq<Act>)
    requires Start(w) && Willing(w) && Solvent(w.ledgers[0].leader.current.vars.outcome) && !PaidFromShare(w.terms)
    ensures OthersDecent(acts) && Shaped(RunWorld(w, acts)) && !AllSolvent(RunWorld(w, acts).ledgers[0].leader)
  {
    var e, p := Expected(w, 0), if w.leftLeads[0] then 0 else 1;
    var id, v := w.terms.vFixed.channelId, w.ledgers[0].leader.current.vars;
    assert v.outcome.guarantees[id].amount >= 0;
    var drain := InsolventRun(w.ledgers[0], e);
    acts := ApprovedAndDrained(w, drain);
    acts := AllSigned(w, acts, Next(w.ledgers[0], LeaderPropose(drain)), p);
    RemovalGoesOut(w, acts, p, drain);
    EveryWorldIsShaped(w, acts + [CrankParty(p)]);
    acts := acts + [CrankParty(p)];
  }

  lemma RemovalGoesOut(w: World, acts: seq<Act>, p: nat, drain: Proposal)
    requires Start(w) && drain.change.Add? && p == (if w.leftLeads[0] then 0 else 1)
    requires var d := Next(w.ledgers[0], LeaderPropose(drain));
             && Reached(w, acts, d, [{0}, {0, 1}, {0, 1, 2}][p := {0, 1, 2}])
             && d.leader.current == w.ledgers[0].leader.current
             && |d.leader.queue| == 1 && d.leader.queue[0].proposal == drain
    ensures Shaped(RunWorld(w, acts))
    ensures RunWorld(w, acts + [CrankParty(p)]).ledgers[0]
         == Next(Next(w.ledgers[0], LeaderPropose(drain)), LeaderPropose(Expected(w, 0)))
  {
    var u := RunWorld(w, acts);
    var c := EveryRunIsAccounted(w, acts);
    RunKeepsTerms(w, acts);
    OneMoreWorld(w, acts, CrankParty(p));
    assert PartyView(u, c, p) && PartyAt(u.parties[p], w.terms, {0, 1, 2});
    SignaturesTell(w.terms, {0, 1, 2}, c.signed[p]);
    LeaderProposesRemoval(u, c, p);
  }

  ghost predicate WorldSolvent(u: World) {
    Shaped(u) && BothSolvent(u.ledgers[0]) && BothSolvent(u.ledgers[1])
  }

  /** Defunding keeps solvent ledgers solvent in every run in which other objectives propose no negative
      amounts, if and only if Alice does not pay more than her share. */
  lemma DefundRunsSolventExactlyWhen(w: World)
    requires Start(w) && Willing(w)
    requires Solvent(w.ledgers[0].leader.current.vars.outcome) && Solvent(w.ledgers[1].leader.current.vars.outcome)
    ensures (forall acts :: OthersDecent(acts) ==> WorldSolvent(RunWorld(w, acts))) <==> PaidFromShare(w.terms)
  {
    if PaidFromShare(w.terms) {
      forall acts | OthersDecent(acts) ensures WorldSolvent(RunWorld(w, acts)) {
        PaidFromShareStaysSolvent(w, acts, 0);
        PaidFromShareStaysSolvent(w, acts, 1);
      }
    } else {
      var acts := InsolventDefundRun(w);
      assert !WorldSolvent(RunWorld(w, acts));
    }
  }

  lemma PaidFromShareStaysSolvent(w: World, acts: seq<Act>, e: nat)
    requires Start(w) && e < 2 && OthersDecent(acts) && PaidFromShare(w.terms)
    requires Solvent(w.ledgers[e].leader.current.vars.outcome)
    ensures Shaped(RunWorld(w, acts)) && BothSolvent(RunWorld(w, acts).ledgers[e])
  {
    var steps := LedgerGoesThrough(w, acts, e);
    DecentSteps(w, acts, e, steps);
    DecentRunsAreSolvent(w.ledgers[e], steps, Expected(w, e));
  }

  /** With 5 from each side in the channel, 5 more on the ledger and a payment of 20, the objective's own
      removal is accepted and takes Alice to -10. */
  lemma OwnRemovalOverdraws()
    ensures exists w :: && Start(w) && Willing(w) && RealIds(w) && w.terms.paidToBob == 20
                        && !Overpaid(w.terms) && Overdraws(w)
  {
    var w := SomeStart(20);
    var l := w.ledgers[0].leader;
    var v := l.current.vars;
    assert After(v, l.queue, 0) == Ok(v);
    var l' := UpdateLedger(ObjectiveOf(w, 0), l, 1).value.0;
    assert After(v, l'.queue, 0) == Ok(v) && |l'.queue| == 1;
    assert After(v, l'.queue, 1) == Apply(v, Expected(w, 0));
    assert Overdraws(w);
  }

  /** The constructors refuse none of the ids. */
  ghost predicate RealIds(w: World)
    requires Shaped(w)
  {
    && !IsExternal(w.terms.vFixed.channelId)
    && !IsExternal(w.ledgers[0].leader.fp.channelId) && !IsExternal(w.ledgers[1].leader.fp.channelId)
  }

  ghost predicate Overdraws(w: World)
    requires Shaped(w)
  {
    var r := UpdateLedger(ObjectiveOf(w, 0), w.ledgers[0].leader, w.terms.vFixed.participants[0]);
    && r.Ok? && Latest(r.value.0).Ok? && Latest(r.value.0).value.outcome.leader.amount == -10
  }
}

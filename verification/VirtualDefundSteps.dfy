/** Approval, ledger steps and the delivery of signatures keep the invariant of virtual defunding. */
module VirtualDefundSteps {
  import opened Types
  import opened States
  import opened LedgerVars
  import opened Consensus
  import opened LedgerRun
  import opened Channels
  import opened Setup
  import opened VirtualDefund
  import opened GuaranteeRun
  import opened RemovalRun
  import opened VirtualDefundWorld

  ghost predicate LedgerMoved(w: World, w': World, e: nat)
    requires Shaped(w) && e < 2 && |w'.ledgers| == 2
  {
    && WellFormed(w'.ledgers[e]) && w'.ledgers[e].leader.fp == w.ledgers[e].leader.fp
    && StaysRemoved(w.ledgers[e], w'.ledgers[e], Expected(w, e))
  }

  /** The ledgers have moved on without anybody getting the guarantee back. */
  ghost predicate LedgersMoved(w: World, w': World)
    requires Shaped(w)
  {
    && |w'.ledgers| == 2 && w'.terms == w.terms && w'.leftLeads == w.leftLeads && |w'.parties| == 3
    && |w'.parties[0].signatures| == |w'.parties[1].signatures| == |w'.parties[2].signatures| == 3
    && LedgerMoved(w, w', 0) && LedgerMoved(w, w', 1)
  }

  lemma MovedKeepsShape(w: World, w': World)
    requires Shaped(w) && LedgersMoved(w, w')
    ensures Shaped(w')
    ensures Expected(w', 0) == Expected(w, 0) && Expected(w', 1) == Expected(w, 1)
    ensures forall p :: 0 <= p < 3 && PartyDefunded(w, p) ==> PartyDefunded(w', p)
  {
  }

  /** Only party p's view may have changed. */
  ghost predicate OthersSame(w: World, c: Account, w': World, c': Account, p: nat) {
    && |w.parties| == |w'.parties| == |c.signed| == |c'.signed| == 3
    && forall q :: 0 <= q < 3 && q != p ==> w'.parties[q] == w.parties[q] && c'.signed[q] == c.signed[q]
  }

  ghost predicate NewCirculated(w: World, w': World, c': Account)
    requires Shaped(w') && |c'.signed| == 3
  {
    forall x :: x in w'.states ==> x in w.states || Circulated(w', c', x.ss)
  }

  /** What has to be shown of a step in which at most party p acts. */
  lemma ViewsCarry(w: World, c: Account, w': World, c': Account, p: nat)
    requires Views(c, w) && p < 3 && LedgersMoved(w, w') && Shaped(w')
    requires OthersSame(w, c, w', c', p) && c.signed[p] <= c'.signed[p]
    requires PartyView(w', c', p) && CompletedWhenDefunded(w', p)
    requires NewCirculated(w, w', c')
    ensures Views(c', w')
  {
    MovedKeepsShape(w, w');
    forall q | 0 <= q < 3 ensures PartyView(w', c', q) && CompletedWhenDefunded(w', q) {
      assert PartyView(w, c, q) && CompletedWhenDefunded(w, q);
    }
    forall x | x in w'.states ensures Circulated(w', c', x.ss) {
      if x in w.states {
        var ss := x.ss;
        assert Circulated(w, c, ss);
        var who :| IsFinal(w, c, ss, who);
        assert IsFinal(w', c', ss, who);
      }
    }
  }

  lemma ApproveStep(w: World, c: Account, p: nat)
    requires Accounts(c, w)
    ensures Accounts(c, NextWorld(w, Approve(p)))
  {
    var w' := NextWorld(w, Approve(p));
    if w' != w {
      MovedKeepsShape(w, w');
      assert PartyView(w, c, p);
      ViewsCarry(w, c, w', c, p);
    }
  }

  lemma OtherViews(w: World, c: Account, w': World, c': Account)
    requires Views(c, w) && LedgersMoved(w, w') && w'.parties == w.parties && w'.states == w.states
             && c'.signed == c.signed
    ensures Views(c', w')
  {
    MovedKeepsShape(w, w');
    assert PartyView(w, c, 0) && CompletedWhenDefunded(w, 0);
    ViewsCarry(w, c, w', c', 0);
  }

  lemma CourseCarries(w: World, c: Account, w': World, c': Account)
    requires Shaped(w) && LedgersOnCourse(w, c) && LedgersMoved(w, w') && |c'.histories| == 2
    requires OnCourse(w'.ledgers[0], c'.histories[0], Expected(w, 0)) && c'.histories[0].start == c.histories[0].start
    requires OnCourse(w'.ledgers[1], c'.histories[1], Expected(w, 1)) && c'.histories[1].start == c.histories[1].start
    ensures Shaped(w') && LedgersOnCourse(w', c') && Expected(w', 0) == Expected(w, 0)
            && Expected(w', 1) == Expected(w, 1)
  {
    MovedKeepsShape(w, w');
  }

  lemma OtherCourse(w: World, c: Account, e: nat, step: Step, w': World) returns (c': Account)
    requires Shaped(w) && LedgersOnCourse(w, c) && e < 2 && Minds(step, w.terms.vFixed.channelId)
    requires w' == w.(ledgers := w.ledgers[e := Next(w.ledgers[e], step)])
    ensures c'.signed == c.signed && LedgersMoved(w, w') && Shaped(w') && LedgersOnCourse(w', c')
    ensures RemovalMade(w', c', 0) || RemovalMade(w', c', 1) ==> RemovalMade(w, c, 0) || RemovalMade(w, c, 1)
  {
    var h := StepKeepsCourse(w.ledgers[e], c.histories[e], Expected(w, e), step);
    c' := c.(histories := c.histories[e := h]);
    CourseCarries(w, c, w', c');
  }

  lemma OtherStep(w: World, c: Account, e: nat, step: Step) returns (c': Account)
    requires Accounts(c, w)
    ensures Accounts(c', NextWorld(w, Other(e, step)))
  {
    c' := c;
    if e < 2 && Minds(step, w.terms.vFixed.channelId) {
      c' := OtherCourse(w, c, e, step, NextWorld(w, Other(e, step)));
      OtherViews(w, c, NextWorld(w, Other(e, step)), c');
    }
  }

  // ------------------------------------------------------------------
  // Delivering signatures
  // ------------------------------------------------------------------

  /** Genuine signatures are always taken. */
  lemma {:induction false} TakeSucceeds(o: Objective, incoming: map<nat, Signature>, n: nat)
    requires Proper(o) && n <= 3
    requires forall i :: 0 <= i < 3 && i in incoming ==>
               && incoming[i] == Sign(FinalState(o), o.vFixed.participants[i])
               && (o.signatures[i].Some? ==> o.signatures[i].value == incoming[i])
    ensures TakeSignatures(o, incoming, n).Ok?
  {
    if n > 0 {
      TakeSucceeds(o, incoming, n - 1);
    }
  }

  /** What party p holds and what is on its way are the signatures of the participants named. */
  lemma TakeOwned(o: Objective, t: Terms, mine: set<nat>, who: set<nat>)
    requires Proper(o) && |t.initialOutcome.allocations| >= 2 && |t.vFixed.participants| == 3
    requires o.vFixed == t.vFixed && o.initialOutcome == t.initialOutcome && o.paidToBob == t.paidToBob
    requires o.signatures == SignaturesOf(t, mine) && forall q :: q in who ==> q < 3
    ensures TakeSignatures(o, SigsOf(Final(t), who), 3) == Ok(SignaturesOf(t, mine + who))
  {
    var incoming := SigsOf(Final(t), who);
    TakeSucceeds(o, incoming, 3);
    TakeSignaturesKeeps(o, incoming, 3);
    var sigs := TakeSignatures(o, incoming, 3).value;
    assert sigs == SignaturesOf(t, mine + who) by {
      forall i | 0 <= i < 3 ensures sigs[i] == SignaturesOf(t, mine + who)[i] {
      }
    }
  }

  /** The world once party p also holds the signatures of `who`. */
  ghost function WithSignatures(w: World, p: nat, who: set<nat>): World
    requires Shaped(w) && p < 3
  {
    w.(parties := w.parties[p := w.parties[p].(signatures := SignaturesOf(w.terms, who))])
  }

  lemma DeliveryAddsSignatures(w: World, c: Account, p: nat, ss: SignedState, who: set<nat>)
    requires Shaped(w) && |c.signed| == 3 && p < 3 && Sent(w, p, ss) && PartyView(w, c, p) && IsFinal(w, c, ss, who)
    ensures NextWorld(w, DeliverState(p, ss)) == WithSignatures(w, p, c.signed[p] + who)
  {
    TakeOwned(ObjectiveOf(w, p), w.terms, c.signed[p], who);
  }

  lemma SignatureViews(w: World, c: Account, p: nat, who: set<nat>, w': World, c': Account)
    requires Views(c, w) && p < 3 && HaveSigned(c, who)
    requires w' == WithSignatures(w, p, c.signed[p] + who) && c' == c.(signed := c.signed[p := c.signed[p] + who])
    ensures Views(c', w')
  {
    assert PartyView(w, c, p) && CompletedWhenDefunded(w, p);
    MovedKeepsShape(w, w');
    ViewsCarry(w, c, w', c', p);
  }

  lemma DeliverViews(w: World, c: Account, p: nat, ss: SignedState) returns (c': Account)
    requires Views(c, w) && p < 3 && Sent(w, p, ss)
    ensures Views(c', NextWorld(w, DeliverState(p, ss))) && c'.histories == c.histories
    ensures AllHaveSigned(c) ==> AllHaveSigned(c')
    ensures NextWorld(w, DeliverState(p, ss)) == w.(parties := NextWorld(w, DeliverState(p, ss)).parties)
  {
    assert Circulated(w, c, ss) && PartyView(w, c, p);
    var who :| IsFinal(w, c, ss, who);
    DeliveryAddsSignatures(w, c, p, ss, who);
    c' := c.(signed := c.signed[p := c.signed[p] + who]);
    SignatureViews(w, c, p, who, WithSignatures(w, p, c.signed[p] + who), c');
  }

  lemma DeliverStep(w: World, c: Account, p: nat, ss: SignedState) returns (c': Account)
    requires Accounts(c, w)
    ensures Accounts(c', NextWorld(w, DeliverState(p, ss)))
  {
    c' := c;
    if p < 3 && Sent(w, p, ss) {
      c' := DeliverViews(w, c, p, ss);
      var w' := NextWorld(w, DeliverState(p, ss));
      assert w'.ledgers == w.ledgers;
    }
  }

  /** A proposal goes to the ledger it names and no other. */
  lemma ProposalGoesToItsLedger(w: World, p: nat, e: nat, sp: SignedProposal, t: System)
    requires Shaped(w) && p < 3 && e < 2 && (p == e || p == e + 1) && WellFormed(t)
             && t.leader.fp == w.ledgers[e].leader.fp
    requires Target(sp.proposal) == w.terms.vFixed.channelId
    requires sp.proposal.ledgerId == w.ledgers[e].leader.fp.channelId != 0
    requires Receives(SideOf(w, e, p), sp) == Ok(Side(t, RoleOf(w, e, p)))
    ensures var w' := w.(ledgers := w.ledgers[e := t]);
            && Shaped(w')
            && Update(ObjectiveOf(w, p), Event(w.terms.vFixed.channelId, None, Some(sp))) == Ok(ObjectiveOf(w', p))
  {
  }

  /** Taking a proposal about the channel into an objective is delivering it on the one ledger it
      names, and is never an error: such deliveries are among the `Other` steps. */
  lemma UpdateIsDeliveryOnItsLedger(w: World, h: History, p: nat, e: nat, sp: SignedProposal)
    requires Shaped(w) && p < 3 && e < 2 && (p == e || p == e + 1) && Explains(h, w.ledgers[e])
    requires Target(sp.proposal) == w.terms.vFixed.channelId
    requires sp.proposal.ledgerId == w.ledgers[e].leader.fp.channelId != 0 && SentTo(w.ledgers[e], RoleOf(w, e, p), sp)
    ensures var w' := NextWorld(w, Other(e, DeliveryTo(RoleOf(w, e, p), sp)));
            && Shaped(w')
            && Update(ObjectiveOf(w, p), Event(w.terms.vFixed.channelId, None, Some(sp))) == Ok(ObjectiveOf(w', p))
  {
    SentProposalsAreTaken(w.ledgers[e], h, RoleOf(w, e, p), sp);
    ProposalGoesToItsLedger(w, p, e, sp, Next(w.ledgers[e], DeliveryTo(RoleOf(w, e, p), sp)));
  }
}

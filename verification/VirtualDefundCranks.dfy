/** Cranking keeps the invariant of virtual defunding. */
module VirtualDefundCranks {
  import opened Types
  import opened LedgerVars
  import opened Consensus
  import opened LedgerRun
  import opened Messages
  import opened VirtualDefund
  import opened VirtualDefundCrank
  import opened GuaranteeRun
  import opened RemovalRun
  import opened VirtualDefundWorld
  import opened VirtualDefundSteps
  import VirtualFund

  lemma PartyCloses(w: World, c: Account, e: nat, p: nat)
    requires Shaped(w) && LedgersOnCourse(w, c) && e < 2 && (p == e || p == e + 1)
    ensures Me(w.ledgers[e].leader.fp, RoleOf(w, e, p)) == w.terms.vFixed.participants[p]
    ensures OnCourse(w.ledgers[e], c.histories[e], Expected(w, e)) && FundedAtFirst(w.terms, c.histories[e])
    ensures Valid(SideOf(w, e, p))
  {
    var s, h := w.ledgers[e], c.histories[e];
    SideIsValid(s.leader, h, h.adopted, |h.made|);
    SideIsValid(s.follower, h, h.signed, h.received);
  }

  lemma SidesAreValid(w: World, c: Account, p: nat)
    requires Shaped(w) && LedgersOnCourse(w, c) && p < 3
    ensures p > 0 ==> Valid(SideOf(w, p - 1, p))
    ensures p < 2 ==> Valid(SideOf(w, p, p))
  {
    if p > 0 {
      PartyCloses(w, c, p - 1, p);
    }
    if p < 2 {
      PartyCloses(w, c, p, p);
    }
  }

  lemma ViewIsGenuine(w: World, c: Account, p: nat)
    requires Shaped(w) && |c.signed| == 3 && p < 3 && PartyView(w, c, p)
    ensures SignaturesGenuine(ObjectiveOf(w, p))
  {
  }

  lemma PartyIsHonest(w: World, c: Account, p: nat)
    requires Accounts(c, w) && p < 3
    ensures Honest(ObjectiveOf(w, p))
  {
    assert PartyView(w, c, p);
    ViewIsGenuine(w, c, p);
    SidesAreValid(w, c, p);
  }

  /** The objective has the world's terms. */
  ghost predicate OnTerms(o: Objective, w: World, p: nat)
    requires Shaped(w) && p < 3
  {
    && Proper(o) && o.myRole == p
    && o.vFixed == w.terms.vFixed && o.initialOutcome == w.terms.initialOutcome && o.paidToBob == w.terms.paidToBob
    && o.toMyLeft == ObjectiveOf(w, p).toMyLeft && o.toMyRight == ObjectiveOf(w, p).toMyRight
  }

  /** Bob is to pay more than his share, and so Alice to get more than the guarantee holds. */
  ghost predicate Overpaid(t: Terms)
    requires |t.initialOutcome.allocations| == 2
  {
    t.paidToBob < -t.initialOutcome.allocations[1].amount
  }

  /** Ledger e has made at most the step of this objective by party p. */
  ghost predicate LedgerStepped(w: World, e: nat, p: nat, t: System)
    requires Shaped(w) && e < 2
  {
    t == w.ledgers[e] || t == Next(w.ledgers[e], StepOf(RoleOf(w, e, p), Expected(w, e)))
  }

  lemma SideOfCrank(w: World, c: Account, e: nat, p: nat, o: Objective)
    requires Shaped(w) && LedgersOnCourse(w, c) && e < 2 && (p == e || p == e + 1) && OnTerms(o, w, p)
    ensures match DefundSide(o, Some(SideOf(w, e, p)), w.terms.vFixed.participants[p])
            case Err(x) => x == CannotApply(InvalidAmount) && Overpaid(w.terms)
            case Ok((l', ms)) =>
              && l'.Some? && OnlyTo(ms, w.ledgers[e].leader.fp, Opposite(RoleOf(w, e, p)))
              && LedgerStepped(w, e, p, Sending(w.ledgers[e], RoleOf(w, e, p), l'.value, ms))
  {
    PartyCloses(w, c, e, p);
    SideCloses(o, w.ledgers[e], c.histories[e], Expected(w, e), RoleOf(w, e, p));
  }

  /** Each ledger takes at most a step of its own, and only proposals are sent. */
  ghost predicate SidesStepped(w: World, p: nat, o1: Objective, ms1: seq<Message>)
    requires Shaped(w) && p < 3
  {
    && Proper(o1) && o1.myRole == p && StatesIn(ms1) == {}
    && LedgerStepped(w, 0, p, LedgerAfter(w, 0, p, o1, ms1))
    && LedgerStepped(w, 1, p, LedgerAfter(w, 1, p, o1, ms1))
  }

  lemma SidesOfCrank(w: World, c: Account, p: nat, o: Objective)
    requires Shaped(w) && LedgersOnCourse(w, c) && p < 3 && OnTerms(o, w, p)
    ensures var key := w.terms.vFixed.participants[p];
            var left, right := DefundSide(o, o.toMyLeft, key), DefundSide(o, o.toMyRight, key);
            && (left.Err? ==> left.error == CannotApply(InvalidAmount) && Overpaid(w.terms))
            && (right.Err? ==> right.error == CannotApply(InvalidAmount) && Overpaid(w.terms))
            && (left.Ok? && right.Ok? ==>
                  SidesStepped(w, p, o.(toMyLeft := left.value.0, toMyRight := right.value.0),
                               left.value.1 + right.value.1))
  {
    var key := w.terms.vFixed.participants[p];
    if p > 0 {
      SideOfCrank(w, c, p - 1, p, o);
    }
    if p < 2 {
      SideOfCrank(w, c, p, p, o);
    }
    var left, right := DefundSide(o, o.toMyLeft, key), DefundSide(o, o.toMyRight, key);
    if left.Ok? && right.Ok? {
      var e := if p == 0 then 1 else p - 1;
      var e' := if p == 2 then 0 else p;
      JoinedSides(left.value.1, right.value.1, w.ledgers[e].leader.fp, w.ledgers[e'].leader.fp,
                  Opposite(RoleOf(w, e, p)), Opposite(RoleOf(w, e', p)));
      DefundSideShape(o, o.toMyLeft, key);
      DefundSideShape(o, o.toMyRight, key);
    }
  }

  /** What a crank comes to: the ledgers become those of `o1`, the proposals sent are those of
      `ms1`, and the party's own signature is added. */
  ghost predicate CrankEffect(w: World, p: nat, mine: set<nat>, r: Cranked, o1: Objective, ms1: seq<Message>)
    requires Shaped(w) && p < 3
  {
    && r.failed == None && SidesStepped(w, p, o1, ms1)
    && Proper(r.objective) && r.objective.myRole == p && r.objective.vFixed == w.terms.vFixed
    && r.objective.toMyLeft == o1.toMyLeft && r.objective.toMyRight == o1.toMyRight
    && r.objective.signatures == SignaturesOf(w.terms, mine + {p})
    && r.objective.status in {VirtualFund.Approved, VirtualFund.Completed}
    && (r.objective.status == VirtualFund.Completed ==> ClosedBy(w, p, o1))
    && ({0, 1, 2} <= mine + {p} || (Untouched(w, p, o1, ms1) && r.objective.status == VirtualFund.Approved))
    && (exists ms :: r.messages == ms + ms1 && Announces(w, p, mine, ms))
  }

  ghost predicate Untouched(w: World, p: nat, o1: Objective, ms1: seq<Message>)
    requires Shaped(w) && p < 3
  {
    o1.toMyLeft == ObjectiveOf(w, p).toMyLeft && o1.toMyRight == ObjectiveOf(w, p).toMyRight && ms1 == []
  }

  ghost predicate ClosedBy(w: World, p: nat, o: Objective)
    requires Shaped(w) && p < 3
  {
    && (p > 0 ==> o.toMyLeft.Some? && w.terms.vFixed.channelId !in o.toMyLeft.value.current.vars.outcome.guarantees)
    && (p < 2 ==> o.toMyRight.Some? && w.terms.vFixed.channelId !in o.toMyRight.value.current.vars.outcome.guarantees)
  }

  /** Messages that carry no proposals and, unless party p had signed before, the final state with
      these signatures and its own to both others. */
  ghost predicate Announces(w: World, p: nat, mine: set<nat>, ms: seq<Message>)
    requires Shaped(w) && p < 3
  {
    && (forall box :: ProposalsFor(ms, box) == {}) && (forall q :: q in mine ==> q < 3)
    && (forall x :: x in StatesIn(ms) ==> p !in mine && x.ss == FinalSignedBy(w.terms, mine + {p}))
    && (p !in mine ==> forall q :: 0 <= q < 3 && q != p ==>
          Letter(w.terms.vFixed.participants[q], FinalSignedBy(w.terms, mine + {p})) in StatesIn(ms))
  }

  lemma AnnouncedIs(w: World, c: Account, p: nat)
    requires Views(c, w) && p < 3
    ensures var o := ObjectiveOf(w, p);
            && Signed(o).signatures == SignaturesOf(w.terms, c.signed[p] + {p})
            && Announces(w, p, c.signed[p], Announced(o))
  {
    var o, mine := ObjectiveOf(w, p), c.signed[p];
    assert PartyView(w, c, p);
    if p in mine {
      assert mine + {p} == mine;
    }
    assert Signed(o).signatures == SignaturesOf(w.terms, mine + {p});
    if p !in mine {
      var ss := FinalSignedBy(w.terms, mine + {p});
      assert Stored(Signed(o).signatures, 3) == ss.sigs;
      StateMessagesCarry(ss, p);
    } else {
      NoMessages();
    }
  }

  lemma NothingStepped(w: World, p: nat, o1: Objective)
    requires Shaped(w) && p < 3 && OnTerms(o1, w, p)
    ensures SidesStepped(w, p, o1, [])
  {
    NoMessages();
  }

  /** The crank while signatures are missing. */
  lemma SigningEffect(w: World, c: Account, p: nat)
    requires Views(c, w) && p < 3 && Honest(ObjectiveOf(w, p)) && w.parties[p].status == VirtualFund.Approved
    requires !FullySigned(Signed(ObjectiveOf(w, p)))
    ensures var o := ObjectiveOf(w, p);
            CrankEffect(w, p, c.signed[p], Crank(o, w.terms.vFixed.participants[p]), Signed(o), [])
  {
    var o := ObjectiveOf(w, p);
    SigningSucceeds(o);
    AnnouncedIs(w, c, p);
    NothingStepped(w, p, Signed(o));
    assert Announced(o) + [] == Announced(o);
  }

  lemma ClosedEffect(w: World, p: nat, mine: set<nat>, updated: Objective, o: Objective, ms: seq<Message>,
                     o1: Objective, ms1: seq<Message>)
    requires Shaped(w) && p < 3 && OnTerms(updated, w, p) && SidesStepped(w, p, o1, ms1)
    requires updated.status == VirtualFund.Approved && FullySigned(updated)
    requires updated.signatures == SignaturesOf(w.terms, mine + {p}) && Announces(w, p, mine, ms)
    requires var left, right := DefundSide(updated, updated.toMyLeft, MyKey(updated)),
             DefundSide(updated, updated.toMyRight, MyKey(updated));
             && left.Ok? && right.Ok? && ms1 == left.value.1 + right.value.1
             && o1 == updated.(toMyLeft := left.value.0, toMyRight := right.value.0)
    ensures CrankEffect(w, p, mine, CrankLedgers(updated, MyKey(updated), o, ms), o1, ms1)
  {
    CrankedLedgers(updated, MyKey(updated), o, ms);
    assert {0, 1, 2} <= mine + {p};
  }

  /** The crank once all have signed. */
  lemma ClosingEffect(w: World, c: Account, p: nat) returns (o1: Objective, ms1: seq<Message>)
    requires Accounts(c, w) && p < 3 && Honest(ObjectiveOf(w, p)) && w.parties[p].status == VirtualFund.Approved
    requires FullySigned(Signed(ObjectiveOf(w, p)))
    ensures var r := Crank(ObjectiveOf(w, p), w.terms.vFixed.participants[p]);
            if r.failed == None then CrankEffect(w, p, c.signed[p], r, o1, ms1)
            else r.failed == Some(LedgerUpdate(CannotApply(InvalidAmount))) && Overpaid(w.terms)
  {
    var o, key := ObjectiveOf(w, p), w.terms.vFixed.participants[p];
    o1, ms1 := o, [];
    SigningSucceeds(o);
    AnnouncedIs(w, c, p);
    SidesOfCrank(w, c, p, Signed(o));
    var left, right := DefundSide(Signed(o), o.toMyLeft, key), DefundSide(Signed(o), o.toMyRight, key);
    if left.Ok? && right.Ok? {
      o1, ms1 := Signed(o).(toMyLeft := left.value.0, toMyRight := right.value.0), left.value.1 + right.value.1;
      ClosedEffect(w, p, c.signed[p], Signed(o), o, Announced(o), o1, ms1);
    }
  }

  lemma SameLedgersAfter(w: World, p: nat, mine: set<nat>, r: Cranked, o1: Objective, ms1: seq<Message>)
    requires Shaped(w) && p < 3 && CrankEffect(w, p, mine, r, o1, ms1)
    ensures LedgersAfter(w, p, r.objective, r.messages) == LedgersAfter(w, p, o1, ms1)
  {
    var ms :| r.messages == ms + ms1 && Announces(w, p, mine, ms);
    JoinedMessages(ms, ms1);
    assert forall box :: {} + ProposalsFor(ms1, box) == ProposalsFor(ms1, box);
  }

  lemma UntouchedLedgers(w: World, p: nat, o1: Objective, ms1: seq<Message>)
    requires Shaped(w) && p < 3 && Proper(o1) && o1.myRole == p && Untouched(w, p, o1, ms1)
    ensures LedgersAfter(w, p, o1, ms1) == w.ledgers
  {
    forall e | 0 <= e < 2 ensures LedgerAfter(w, e, p, o1, ms1) == w.ledgers[e] {
      var s := w.ledgers[e];
      NoMessages();
      assert s.toFollower + {} == s.toFollower && s.toLeader + {} == s.toLeader;
    }
  }

  lemma CrankSends(w: World, p: nat, mine: set<nat>, r: Cranked, o1: Objective, ms1: seq<Message>, w': World,
                   c': Account)
    requires Shaped(w) && p < 3 && CrankEffect(w, p, mine, r, o1, ms1)
    requires Shaped(w') && w'.terms == w.terms && w'.states == w.states + StatesIn(r.messages)
    requires |c'.signed| == 3 && HaveSigned(c', mine + {p})
    ensures NewCirculated(w, w', c')
  {
    var ms :| r.messages == ms + ms1 && Announces(w, p, mine, ms);
    JoinedMessages(ms, ms1);
    forall x | x in w'.states && x !in w.states ensures Circulated(w', c', x.ss) {
      assert IsFinal(w', c', x.ss, mine + {p});
    }
  }

  lemma LedgerStep(w: World, c: Account, e: nat, p: nat, t: System) returns (h: History)
    requires Shaped(w) && LedgersOnCourse(w, c) && e < 2 && LedgerStepped(w, e, p, t)
    ensures OnCourse(t, h, Expected(w, e)) && StaysRemoved(w.ledgers[e], t, Expected(w, e))
            && h.start == c.histories[e].start
    ensures t == w.ledgers[e] ==> h == c.histories[e]
    ensures WellFormed(t) && t.leader.fp == w.ledgers[e].leader.fp
  {
    h := c.histories[e];
    if t != w.ledgers[e] {
      h := StepKeepsCourse(w.ledgers[e], h, Expected(w, e), StepOf(RoleOf(w, e, p), Expected(w, e)));
    }
  }

  lemma LedgersStep(w: World, c: Account, p: nat, w': World) returns (c': Account)
    requires Shaped(w) && LedgersOnCourse(w, c)
    requires w'.terms == w.terms && w'.leftLeads == w.leftLeads && |w'.ledgers| == 2 && |w'.parties| == 3
    requires |w'.parties[0].signatures| == |w'.parties[1].signatures| == |w'.parties[2].signatures| == 3
    requires LedgerStepped(w, 0, p, w'.ledgers[0]) && LedgerStepped(w, 1, p, w'.ledgers[1])
    ensures c'.signed == c.signed && LedgersMoved(w, w') && Shaped(w') && LedgersOnCourse(w', c')
    ensures w'.ledgers == w.ledgers ==> c' == c
    ensures Expected(w', 0) == Expected(w, 0) && Expected(w', 1) == Expected(w, 1)
  {
    var h0 := LedgerStep(w, c, 0, p, w'.ledgers[0]);
    var h1 := LedgerStep(w, c, 1, p, w'.ledgers[1]);
    c' := c.(histories := [h0, h1]);
    CourseCarries(w, c, w', c');
  }

  lemma DefundedAfter(w: World, p: nat, o1: Objective, ms1: seq<Message>, w': World)
    requires Shaped(w) && p < 3 && SidesStepped(w, p, o1, ms1) && ClosedBy(w, p, o1)
    requires Shaped(w') && w'.terms == w.terms && w'.leftLeads == w.leftLeads
             && w'.ledgers == LedgersAfter(w, p, o1, ms1)
    ensures PartyDefunded(w', p)
  {
  }

  lemma CrankViews(w: World, c: Account, p: nat, r: Cranked, o1: Objective, ms1: seq<Message>, w': World, c': Account)
    requires Views(c, w) && p < 3 && CrankEffect(w, p, c.signed[p], r, o1, ms1)
    requires w' == AfterCrank(w, p, r) && LedgersMoved(w, w') && Shaped(w')
    requires c'.signed == c.signed[p := c.signed[p] + {p}]
    ensures Views(c', w')
  {
    assert PartyView(w, c, p);
    SameLedgersAfter(w, p, c.signed[p], r, o1, ms1);
    CrankSends(w, p, c.signed[p], r, o1, ms1, w', c');
    if r.objective.status == VirtualFund.Completed {
      DefundedAfter(w, p, o1, ms1, w');
    }
    ViewsCarry(w, c, w', c', p);
  }

  lemma CrankIsAccounted(w: World, c: Account, p: nat, r: Cranked, o1: Objective, ms1: seq<Message>)
    returns (c': Account)
    requires Accounts(c, w) && p < 3 && CrankEffect(w, p, c.signed[p], r, o1, ms1)
    ensures Accounts(c', AfterCrank(w, p, r))
  {
    var w' := AfterCrank(w, p, r);
    SameLedgersAfter(w, p, c.signed[p], r, o1, ms1);
    if Untouched(w, p, o1, ms1) {
      UntouchedLedgers(w, p, o1, ms1);
    }
    var c1 := LedgersStep(w, c, p, w');
    c' := c1.(signed := c.signed[p := c.signed[p] + {p}]);
    CrankViews(w, c, p, r, o1, ms1, w', c');
    RemovalNeedsAll(w, c, p, o1, ms1, w', c');
  }

  lemma RemovalNeedsAll(w: World, c: Account, p: nat, o1: Objective, ms1: seq<Message>, w': World, c': Account)
    requires Views(c, w) && |c.histories| == |c'.histories| == 2 && RemovedWhenSigned(w, c) && p < 3 && Shaped(w')
    requires c'.signed == c.signed[p := c.signed[p] + {p}]
    requires Untouched(w, p, o1, ms1) || {0, 1, 2} <= c.signed[p] + {p}
    requires Untouched(w, p, o1, ms1) ==>
               c'.histories == c.histories && Expected(w', 0) == Expected(w, 0) && Expected(w', 1) == Expected(w, 1)
    ensures RemovedWhenSigned(w', c')
  {
    assert PartyView(w, c, p);
    if !Untouched(w, p, o1, ms1) {
      assert 0 in c.signed[p] + {p} && 1 in c.signed[p] + {p} && 2 in c.signed[p] + {p};
    }
  }

  lemma CrankOf(w: World, c: Account, p: nat) returns (o1: Objective, ms1: seq<Message>)
    requires Accounts(c, w) && p < 3 && w.parties[p].status == VirtualFund.Approved
    ensures var r := Crank(ObjectiveOf(w, p), w.terms.vFixed.participants[p]);
            if r.failed == None then CrankEffect(w, p, c.signed[p], r, o1, ms1)
            else r.failed == Some(LedgerUpdate(CannotApply(InvalidAmount))) && Overpaid(w.terms)
  {
    PartyIsHonest(w, c, p);
    o1, ms1 := Signed(ObjectiveOf(w, p)), [];
    if FullySigned(o1) {
      o1, ms1 := ClosingEffect(w, c, p);
    } else {
      SigningEffect(w, c, p);
    }
  }

  /** A side whose guarantee cannot cover the share stays as it is. */
  lemma ExcessiveSideStays(w: World, c: Account, e: nat, p: nat, o: Objective)
    requires Shaped(w) && LedgersOnCourse(w, c) && e < 2 && (p == e || p == e + 1) && OnTerms(o, w, p)
             && Overpaid(w.terms)
    ensures var r := DefundSide(o, Some(SideOf(w, e, p)), w.terms.vFixed.participants[p]);
            r.Ok? ==> r.value.0 == Some(SideOf(w, e, p))
  {
    PartyCloses(w, c, e, p);
    SideOfCrank(w, c, e, p, o);
    ExcessiveChangesNothing(w.ledgers[e], c.histories[e], Expected(w, e), RoleOf(w, e, p));
  }

  lemma OverpaidLeavesLeft(w: World, c: Account, p: nat, updated: Objective, o: Objective, ms: seq<Message>)
    requires Shaped(w) && LedgersOnCourse(w, c) && p < 3 && Overpaid(w.terms)
    requires OnTerms(updated, w, p) && o == ObjectiveOf(w, p)
    requires CrankLedgers(updated, w.terms.vFixed.participants[p], o, ms).failed != None
    ensures CrankLedgers(updated, w.terms.vFixed.participants[p], o, ms).objective == o
  {
    FailedLedgers(updated, w.terms.vFixed.participants[p], o, ms);
    if p > 0 {
      ExcessiveSideStays(w, c, p - 1, p, updated);
    }
  }

  /** A crank that fails leaves the objective as it was, and with it the ledgers that the objective it
      falls back to shares with the one worked on; so nothing is lost by not storing it. */
  lemma FailedCrankChangesNothing(w: World, c: Account, p: nat)
    requires Accounts(c, w) && p < 3
    ensures var o := ObjectiveOf(w, p);
            var r := Crank(o, w.terms.vFixed.participants[p]);
            r.failed != None ==> r.objective == o
  {
    var o := ObjectiveOf(w, p);
    if o.status == VirtualFund.Approved {
      var o1, ms1 := CrankOf(w, c, p);
      PartyIsHonest(w, c, p);
      SigningSucceeds(o);
      if Crank(o, w.terms.vFixed.participants[p]).failed != None {
        OverpaidLeavesLeft(w, c, p, Signed(o), o, Announced(o));
      }
    }
  }

  lemma OnlyApprovedCrank(o: Objective, key: Address)
    requires Proper(o)
    ensures o.status != VirtualFund.Approved ==> Crank(o, key).failed == Some(NotApproved)
  {
  }

  lemma CrankedWorld(w: World, p: nat)
    requires Shaped(w) && p < 3
    ensures var r := Crank(ObjectiveOf(w, p), w.terms.vFixed.participants[p]);
            && Proper(r.objective) && r.objective.myRole == p
            && NextWorld(w, CrankParty(p)) == AfterCrank(w, p, r)
  {
    CrankKeepsProper(ObjectiveOf(w, p));
  }

  /** A crank keeps the account, and fails only for want of approval or for a payment out of range. */
  lemma CrankStep(w: World, c: Account, p: nat) returns (c': Account)
    requires Accounts(c, w) && p < 3
    ensures Accounts(c', NextWorld(w, CrankParty(p)))
    ensures var failed := Crank(ObjectiveOf(w, p), w.terms.vFixed.participants[p]).failed;
            || failed in {None, Some(NotApproved)}
            || (failed == Some(LedgerUpdate(CannotApply(InvalidAmount))) && Overpaid(w.terms))
  {
    c' := c;
    CrankedWorld(w, p);
    if w.parties[p].status == VirtualFund.Approved {
      var o1, ms1 := CrankOf(w, c, p);
      var r := Crank(ObjectiveOf(w, p), w.terms.vFixed.participants[p]);
      if r.failed == None {
        c' := CrankIsAccounted(w, c, p, r, o1, ms1);
      }
    }
  }
}

/** Cranking a virtual defund objective: nothing is removed before everybody has signed the final
    state, and cranking twice in a row does nothing more. */
module VirtualDefundCrank {
  import opened Types
  import opened States
  import opened Consensus
  import opened Channels
  import opened Messages
  import opened VirtualDefund
  import VirtualFund

  /** The objective of an honest participant. */
  ghost predicate Honest(o: Objective) {
    && Proper(o) && SignaturesGenuine(o) && DistinctParticipants(o.vFixed.participants)
    && (o.toMyLeft.Some? ==> Valid(o.toMyLeft.value))
    && (o.toMyRight.Some? ==> Valid(o.toMyRight.value))
  }

  function MyKey(o: Objective): Address
    requires Proper(o)
  {
    o.vFixed.participants[o.myRole]
  }

  /** The objective once its owner has signed. */
  function Signed(o: Objective): Objective
    requires Proper(o)
  {
    if o.signatures[o.myRole].Some? then o
    else o.(signatures := o.signatures[o.myRole := Some(Sign(FinalState(o), MyKey(o)))])
  }

  /** The messages that carry all signatures its owner knows of. */
  ghost function Announced(o: Objective): seq<Message>
    requires Proper(o)
  {
    if o.signatures[o.myRole].Some? then []
    else ToOthers(SignedState(FinalState(o), Stored(Signed(o).signatures, 3)), o.myRole)
  }

  /** Signing never fails for an honest participant. */
  lemma SigningSucceeds(o: Objective)
    requires Honest(o) && o.status == VirtualFund.Approved
    ensures Honest(Signed(o)) && FinalState(Signed(o)) == FinalState(o) && MyKey(Signed(o)) == MyKey(o)
    ensures Crank(o, MyKey(o)) == CrankSigned(Signed(o), MyKey(o), o, Announced(o))
  {
    assert SignaturesGenuine(Signed(o));
    SignedFinalHoldsAll(Signed(o), 3);
  }

  /** Working on a side keeps it what it is, a ledger of the same two parties or none. */
  lemma DefundSideShape(o: Objective, l: Option<Ledger>, key: Address)
    requires Proper(o) && (l.Some? ==> TwoParties(l.value.fp)) && DefundSide(o, l, key).Ok?
    ensures var l' := DefundSide(o, l, key).value.0;
            (l'.Some? <==> l.Some?) && (l'.Some? ==> l'.value.fp == l.value.fp)
  {
  }

  lemma LedgersKeepProper(updated: Objective, o: Objective, ms: seq<Message>)
    requires Proper(updated) && Proper(o) && o.myRole == updated.myRole
    ensures Proper(CrankLedgers(updated, MyKey(updated), o, ms).objective)
  {
    var key := MyKey(updated);
    if DefundSide(updated, updated.toMyLeft, key).Ok? {
      DefundSideShape(updated, updated.toMyLeft, key);
    }
    if DefundSide(updated, updated.toMyRight, key).Ok? {
      DefundSideShape(updated, updated.toMyRight, key);
    }
  }

  /** What working on both ledgers without an error comes to. */
  lemma CrankedLedgers(updated: Objective, key: Address, o: Objective, ms: seq<Message>)
    requires Proper(updated)
    requires DefundSide(updated, updated.toMyLeft, key).Ok? && DefundSide(updated, updated.toMyRight, key).Ok?
    ensures var left, right := DefundSide(updated, updated.toMyLeft, key).value,
            DefundSide(updated, updated.toMyRight, key).value;
            var o2 := updated.(toMyLeft := left.0, toMyRight := right.0);
            CrankLedgers(updated, key, o, ms)
            == if SideDefunded(o2, left.0) && SideDefunded(o2, right.0)
               then Cranked(o2.(status := VirtualFund.Completed), ms + (left.1 + right.1), ForNothing, None)
               else Cranked(o2, ms + (left.1 + right.1), ForLedgerDefunding, None)
  {
  }

  /** What an error on a ledger leaves: the left ledger as work on it has left it. */
  lemma FailedLedgers(updated: Objective, key: Address, o: Objective, ms: seq<Message>)
    requires Proper(updated) && CrankLedgers(updated, key, o, ms).failed != None
    ensures var left := DefundSide(updated, updated.toMyLeft, key);
            CrankLedgers(updated, key, o, ms).objective == if left.Err? then o else o.(toMyLeft := left.value.0)
  {
  }

  /** All three participants have signed the final state. */
  ghost predicate SignedByAll(o: Objective)
    requires Proper(o)
  {
    forall i :: 0 <= i < 3 ==>
          o.signatures[i].Some? && SignedBy(FinalState(o), o.signatures[i].value, o.vFixed.participants[i])
  }

  lemma FullIsAll(o: Objective)
    requires Proper(o) && SignaturesGenuine(o) && FullySigned(o)
    ensures SignedByAll(o)
  {
  }

  /** The ledgers are touched only once all three participants have signed the same final state. */
  lemma NoRemovalBeforeAllSigned(o: Objective)
    requires Honest(o)
    ensures var r := Crank(o, MyKey(o)).objective;
            r.toMyLeft != o.toMyLeft || r.toMyRight != o.toMyRight ==>
              FinalState(Signed(o)) == FinalState(o) && Proper(Signed(o)) && SignedByAll(Signed(o))
  {
    if o.status == VirtualFund.Approved {
      SigningSucceeds(o);
      if FullySigned(Signed(o)) {
        FullIsAll(Signed(o));
      }
    }
  }

  // ------------------------------------------------------------------
  // Idempotence
  // ------------------------------------------------------------------

  /** There is nothing to do on a ledger until something arrives: the guarantee is gone, or its
      removal has been proposed by the leader, or the follower does not find it next in the queue. */
  ghost predicate UpToDate(o: Objective, l: Ledger) {
    || Defunded(o, l)
    || (l.role == Leader && RemovalProposed(l.queue, o.vFixed.channelId))
    || (l.role == Follower && !RemovalProposedNext(l, o.vFixed.channelId))
  }

  ghost predicate SideUpToDate(o: Objective, l: Option<Ledger>) {
    l.Some? ==> UpToDate(o, l.value)
  }

  lemma UpdateLedgerTwice(o: Objective, l: Ledger, key: Address)
    requires Proper(o) && Valid(l) && !Defunded(o, l) && UpdateLedger(o, l, key).Ok?
    ensures var l' := UpdateLedger(o, l, key).value.0;
            && Valid(l') && UpToDate(o, l') && (Defunded(o, l') || UpdateLedger(o, l', key) == Ok((l', [])))
  {
    var e, target := RemoveProposalOf(o, l.fp.channelId), o.vFixed.channelId;
    var l' := UpdateLedger(o, l, key).value.0;
    if l.role == Leader && !RemovalProposed(l.queue, target) {
      ProposeKeeps(l, e, key);
      assert l'.queue[|l'.queue| - 1].proposal == e;
      assert RemovalProposed(l'.queue, target);
    } else if l.role == Follower && RemovalProposedNext(l, target) {
      SignNextKeeps(l, e, key);
      assert Defunded(o, l');
    }
  }

  lemma DefundSideTwice(o: Objective, l: Option<Ledger>, key: Address)
    requires Proper(o) && (l.Some? ==> Valid(l.value)) && DefundSide(o, l, key).Ok?
    ensures var l' := DefundSide(o, l, key).value.0;
            && (l'.Some? <==> l.Some?) && (l'.Some? ==> Valid(l'.value)) && SideUpToDate(o, l')
            && DefundSide(o, l', key) == Ok((l', []))
  {
    if !SideDefunded(o, l) {
      UpdateLedgerTwice(o, l.value, key);
    }
  }

  /** Only the channel's id and terms matter to work on a ledger. */
  lemma DefundSideDependsOnTerms(o: Objective, o': Objective, l: Option<Ledger>, key: Address)
    requires Proper(o) && Proper(o') && (l.Some? ==> TwoParties(l.value.fp))
    requires o'.vFixed == o.vFixed && o'.initialOutcome == o.initialOutcome && o'.paidToBob == o.paidToBob
    ensures DefundSide(o', l, key) == DefundSide(o, l, key)
  {
  }

  ghost predicate NothingMore(r: Cranked, key: Address) {
    && Proper(r.objective)
    && Crank(r.objective, key)
       == if r.objective.status == VirtualFund.Completed then Cranked(r.objective, [], ForNothing, Some(NotApproved))
          else Cranked(r.objective, [], r.waitingFor, None)
  }

  lemma LedgersTwice(updated: Objective, o: Objective, ms: seq<Message>)
    requires Honest(updated) && updated.status == VirtualFund.Approved && FullySigned(updated)
    requires CrankLedgers(updated, MyKey(updated), o, ms).failed == None
    ensures NothingMore(CrankLedgers(updated, MyKey(updated), o, ms), MyKey(updated))
  {
    var key, r := MyKey(updated), CrankLedgers(updated, MyKey(updated), o, ms);
    var o2 := r.objective;
    DefundSideTwice(updated, updated.toMyLeft, key);
    DefundSideTwice(updated, updated.toMyRight, key);
    DefundSideDependsOnTerms(updated, o2, o2.toMyLeft, key);
    DefundSideDependsOnTerms(updated, o2, o2.toMyRight, key);
  }

  /** Cranking what a successful crank returned sends nothing and waits for the same thing, or finds
      the objective completed. */
  lemma CrankIsIdempotent(o: Objective)
    requires Honest(o) && o.status == VirtualFund.Approved
    ensures Crank(o, MyKey(o)).failed == None ==> NothingMore(Crank(o, MyKey(o)), MyKey(o))
  {
    SigningSucceeds(o);
    if FullySigned(Signed(o)) && Crank(o, MyKey(o)).failed == None {
      LedgersTwice(Signed(o), o, Announced(o));
    }
  }

  /** What a crank that did not fail leaves behind: the participant has signed and done all it can,
      and waits for the first thing that is missing. */
  ghost predicate NothingUndone(r: Cranked)
    requires Proper(r.objective)
  {
    var o := r.objective;
    && o.signatures[o.myRole].Some?
    && (FullySigned(o) ==> SideUpToDate(o, o.toMyLeft) && SideUpToDate(o, o.toMyRight))
    && (o.status == VirtualFund.Completed
        <==> FullySigned(o) && SideDefunded(o, o.toMyLeft) && SideDefunded(o, o.toMyRight))
    && r.waitingFor == if !FullySigned(o) then ForCompleteFinal
                       else if o.status != VirtualFund.Completed then ForLedgerDefunding else ForNothing
  }

  lemma LedgersLeaveNothingUndone(updated: Objective, o: Objective, ms: seq<Message>, r: Cranked)
    requires Honest(updated) && updated.status == VirtualFund.Approved && FullySigned(updated)
    requires r == CrankLedgers(updated, MyKey(updated), o, ms) && r.failed == None
    ensures Proper(r.objective) && NothingUndone(r)
  {
    var key := MyKey(updated);
    DefundSideShape(updated, updated.toMyLeft, key);
    DefundSideShape(updated, updated.toMyRight, key);
    DefundSideTwice(updated, updated.toMyLeft, key);
    DefundSideTwice(updated, updated.toMyRight, key);
    CrankedLedgers(updated, key, o, ms);
  }

  lemma CrankLeavesNothingUndone(o: Objective)
    requires Honest(o) && o.status == VirtualFund.Approved
    ensures var r := Crank(o, MyKey(o));
            r.failed == None ==> Proper(r.objective) && NothingUndone(r)
  {
    SigningSucceeds(o);
    if FullySigned(Signed(o)) && Crank(o, MyKey(o)).failed == None {
      LedgersLeaveNothingUndone(Signed(o), o, Announced(o), Crank(o, MyKey(o)));
    }
  }
}

/** What the operations of a virtual defund objective answer: exactly when they succeed, what success
    changes, and why they refuse. */
module VirtualDefundAnswers {
  import opened Types
  import opened Outcomes
  import opened States
  import opened LedgerVars
  import opened Consensus
  import opened Channels
  import opened Messages
  import opened VirtualDefund
  import opened VirtualDefundWorld
  import opened VirtualDefundRun
  import VirtualFund

  // ------------------------------------------------------------------
  // Construction
  // ------------------------------------------------------------------

  ghost predicate Usable(c: Channel) {
    && PostFundTurnNum in c.signedStates && |c.signedStates[PostFundTurnNum].state.outcome| > 0
    && |c.fixed.participants| == 3 && DistinctParticipants(c.fixed.participants)
  }

  /** An objective is made exactly for a participant of a channel that is found, with the ledgers its
      place calls for. */
  lemma MadeExactlyWhen(v: Option<Channel>, paid: int, preApprove: bool, me: Address, left: Option<Ledger>,
                        right: Option<Ledger>)
    requires v.Some? ==> Usable(v.value)
    ensures var r := NewObjective(v, paid, preApprove, me, left, right);
            && (r.Ok? <==> && v.Some? && me in v.value.fixed.participants
                           && (me != v.value.fixed.participants[0] ==> left.Some?)
                           && (me != v.value.fixed.participants[2] ==> right.Some?))
            && (r == Err(NoChannel) <==> v.None?)
            && (r == Err(NotInV) <==> v.Some? && me !in v.value.fixed.participants)
            && (r.Err? ==> r.error in {NoChannel, NotInV, NoLedger})
  {
    if v.Some? {
      var ps := v.value.fixed.participants;
      assert ps == [ps[0], ps[1], ps[2]];
    }
  }

  /** The objectives of a run are those that the constructor makes, whether approved at once or not, from
      the channel and the ledgers of each participant. */
  lemma ObjectivesAreMade(w: World, p: nat, preApprove: bool, c: Channel, s: State, left: Option<Ledger>,
                          right: Option<Ledger>)
    requires Start(w) && p < 3 && OpenedFrom(c, s) && c.myIndex == p
    requires s.fixed == w.terms.vFixed && s.outcome[0] == w.terms.initialOutcome
    requires w.parties[p].status == if preApprove then VirtualFund.Approved else VirtualFund.Unapproved
    requires p > 0 ==> left == Some(SideOf(w, p - 1, p))
    requires p < 2 ==> right == Some(SideOf(w, p, p))
    ensures NewObjective(Some(c), w.terms.paidToBob, preApprove, w.terms.vFixed.participants[p], left, right)
         == Ok(ObjectiveOf(w, p))
  {
  }

  /** The payment can be read off exactly when the state is final and the channel is found. */
  lemma PaidExactlyWhen(final: State, v: Option<Channel>)
    requires |final.outcome| > 0 && |final.outcome[0].allocations| >= 2
    requires v.Some? ==> PreFundTurnNum in v.value.signedStates
                         && var pre := v.value.signedStates[PreFundTurnNum].state;
                            |pre.outcome| > 0 && |pre.outcome[0].allocations| >= 2
    ensures CalculatePaidToBob(final, v).Ok? <==> final.isFinal && v.Some?
    ensures CalculatePaidToBob(final, v) == Err(NotFinal) <==> !final.isFinal
    ensures CalculatePaidToBob(final, v).Ok? ==>
              v.value.signedStates[PreFundTurnNum].state.outcome[0].allocations[1].amount
              + CalculatePaidToBob(final, v).value == final.outcome[0].allocations[1].amount
  {
  }

  /** The final state follows the postfund state. It moves the payment from the first allocation to the
      second and leaves all else as it was, so that no money is made or lost. */
  lemma FinalStateMovesThePayment(o: Objective)
    requires |o.initialOutcome.allocations| == 2
    ensures var s, a := FinalState(o), o.initialOutcome.allocations;
            && s.fixed == o.vFixed && s.turnNum == PostFundTurnNum + 1 && s.isFinal && |s.outcome| == 1
            && s.outcome[0].asset == o.initialOutcome.asset
            && var b := s.outcome[0].allocations;
               && |b| == 2 && b[0] == a[0].(amount := b[0].amount) && b[1] == a[1].(amount := b[1].amount)
               && b[0].amount == a[0].amount - o.paidToBob
               && Reserved(b, 2) == Reserved(a, 2)
  {
    var a, b := o.initialOutcome.allocations, FinalState(o).outcome[0].allocations;
    assert Reserved(a, 2) == Reserved(a, 1) + a[1].amount && Reserved(a, 1) == Reserved(a, 0) + a[0].amount;
    assert Reserved(b, 2) == Reserved(b, 1) + b[1].amount && Reserved(b, 1) == Reserved(b, 0) + b[0].amount;
  }

  // ------------------------------------------------------------------
  // Update
  // ------------------------------------------------------------------

  /** The incoming signature of participant i is the one stored, or a new and genuine one. */
  predicate Acceptable(o: Objective, incoming: map<nat, Signature>, i: nat)
    requires Proper(o) && i < 3 && i in incoming
  {
    if o.signatures[i].Some? then o.signatures[i].value == incoming[i]
    else SignedBy(FinalState(o), incoming[i], o.vFixed.participants[i])
  }

  /** Signatures are taken exactly when all are acceptable, and then all are stored. */
  lemma {:induction false} SignaturesTakenExactlyWhen(o: Objective, incoming: map<nat, Signature>, n: nat)
    requires Proper(o) && n <= 3
    ensures TakeSignatures(o, incoming, n).Ok?
       <==> forall i :: 0 <= i < n && i in incoming ==> Acceptable(o, incoming, i)
    ensures TakeSignatures(o, incoming, n).Ok? ==>
              forall i :: 0 <= i < 3 ==>
                TakeSignatures(o, incoming, n).value[i]
                == if i < n && i in incoming then Some(incoming[i]) else o.signatures[i]
    ensures TakeSignatures(o, incoming, n) == Err(ConflictingSignature) ==>
              exists i :: 0 <= i < n && i in incoming && o.signatures[i].Some? && !Acceptable(o, incoming, i)
    ensures TakeSignatures(o, incoming, n) == Err(InvalidSignature) ==>
              exists i :: 0 <= i < n && i in incoming && o.signatures[i].None? && !Acceptable(o, incoming, i)
    ensures TakeSignatures(o, incoming, n).Err? ==>
              TakeSignatures(o, incoming, n).error in {ConflictingSignature, InvalidSignature}
  {
    if n > 0 {
      SignaturesTakenExactlyWhen(o, incoming, n - 1);
    }
  }

  /** A ledger's refusal is an error unless the turn number is to blame, and then the proposal is ignored. */
  lemma ReceivedExactlyWhen(l: Ledger, sp: SignedProposal)
    requires TwoParties(l.fp)
    ensures var r := ReceiveOn(l, sp);
            && (Receives(l, sp).Ok? <==> r.Ok? || r == Err(InvalidTurnNum))
            && (Receives(l, sp).Ok? ==> Receives(l, sp).value == if r.Ok? then r.value else l)
            && (Receives(l, sp).Err? ==> r.Err? && Receives(l, sp) == Err(ProposalRefused(r.error)))
  {
  }

  predicate BringsProposal(o: Objective, e: Event) {
    e.proposal.Some? && Target(e.proposal.value.proposal) == o.vFixed.channelId
  }

  predicate BringsState(e: Event) {
    e.signedState.Some? && |e.signedState.value.state.fixed.participants| > 0
  }

  predicate Names(e: Event, l: Option<Ledger>)
    requires e.proposal.Some?
  {
    l.Some? && e.proposal.value.proposal.ledgerId == l.value.fp.channelId
  }

  /** The proposal is for one of the objective's ledgers, which does not refuse it. */
  predicate ProposalFits(o: Objective, e: Event)
    requires Proper(o) && e.proposal.Some?
  {
    && e.proposal.value.proposal.ledgerId != 0 && (Names(e, o.toMyLeft) || Names(e, o.toMyRight))
    && Receives(if Names(e, o.toMyLeft) then o.toMyLeft.value else o.toMyRight.value, e.proposal.value).Ok?
  }

  predicate StateFits(o: Objective, e: Event)
    requires Proper(o) && e.signedState.Some?
  {
    var ss := e.signedState.value;
    ss.state.fixed.channelId == o.vFixed.channelId && TakeSignatures(o, ss.sigs, 3).Ok?
  }

  /** An update succeeds exactly when everything in the event concerns the objective and is accepted. It
      then stores the signatures, changes the ledger named by the proposal, and nothing else. */
  lemma UpdatedExactlyWhen(o: Objective, e: Event)
    requires Proper(o)
    ensures Update(o, e).Ok?
       <==> && e.objectiveOf == o.vFixed.channelId
            && (BringsState(e) ==> StateFits(o, e)) && (BringsProposal(o, e) ==> ProposalFits(o, e))
    ensures Update(o, e).Ok? ==>
              var o', left := Update(o, e).value, BringsProposal(o, e) && Names(e, o.toMyLeft);
              var right := BringsProposal(o, e) && !Names(e, o.toMyLeft);
              && o' == o.(signatures := o'.signatures, toMyLeft := o'.toMyLeft, toMyRight := o'.toMyRight)
              && (if BringsState(e) then Ok(o'.signatures) == TakeSignatures(o, e.signedState.value.sigs, 3)
                  else o'.signatures == o.signatures)
              && (if left then o'.toMyLeft == Some(Receives(o.toMyLeft.value, e.proposal.value).value)
                  else o'.toMyLeft == o.toMyLeft)
              && (if right then o'.toMyRight == Some(Receives(o.toMyRight.value, e.proposal.value).value)
                  else o'.toMyRight == o.toMyRight)
    ensures Update(o, e) == Err(WrongObjective) <==> e.objectiveOf != o.vFixed.channelId
    ensures Update(o, e) == Err(OutOfScope) ==>
              BringsState(e) && e.signedState.value.state.fixed.channelId != o.vFixed.channelId
    ensures Update(o, e) == Err(ZeroLedger) ==> BringsProposal(o, e) && e.proposal.value.proposal.ledgerId == 0
    ensures Update(o, e) == Err(UnknownLedger) ==>
              BringsProposal(o, e) && !Names(e, o.toMyLeft) && !Names(e, o.toMyRight)
  {
    if BringsState(e) {
      SignaturesTakenExactlyWhen(o, e.signedState.value.sigs, 3);
    }
  }

  // ------------------------------------------------------------------
  // Crank
  // ------------------------------------------------------------------

  /** Once all have signed, the left ledger is worked on before the right one, the objective is completed
      exactly when both are defunded then, and what it sends comes in that order. */
  lemma LeftBeforeRight(updated: Objective, key: Address, o: Objective, ms: seq<Message>)
    requires Proper(updated)
    ensures var left, right := DefundSide(updated, updated.toMyLeft, key), DefundSide(updated, updated.toMyRight, key);
            var r := CrankLedgers(updated, key, o, ms);
            && (r.failed == None <==> left.Ok? && right.Ok?)
            && (r.failed == None ==>
                  && r.messages == ms + left.value.1 + right.value.1
                  && r.objective.toMyLeft == left.value.0 && r.objective.toMyRight == right.value.0)
            && (left.Err? ==> r.failed == Some(LedgerUpdate(left.error)) && r.objective == o)
            && (left.Ok? && right.Err? ==>
                  r.failed == Some(LedgerUpdate(right.error)) && r.objective == o.(toMyLeft := left.value.0))
  {
  }

  /** A crank that fails sends nothing; of the objective at most the left ledger has changed, or the
      party's own signature was stored but could not be announced. */
  lemma FailedCrankSendsNothing(o: Objective, key: Address)
    requires Proper(o)
    ensures var r := Crank(o, key);
            r.failed.Some? ==>
              && r.messages == [] && r.waitingFor == ForNothing
              && (if r.failed.value.FinalStateUnsigned? then r.objective == o.(signatures := r.objective.signatures)
                  else r.objective == o.(toMyLeft := r.objective.toMyLeft))
    ensures Crank(o, key).failed == Some(NotApproved) <==> o.status != VirtualFund.Approved
  {
  }
}

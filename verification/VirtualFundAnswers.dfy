/** What the operations of a virtual fund objective answer: exactly when they succeed, what success
    changes, and why they refuse. */
module VirtualFundAnswers {
  import opened Types
  import opened States
  import opened LedgerVars
  import opened Consensus
  import opened Channels
  import opened Setup
  import opened Messages
  import opened VirtualFund

  // ------------------------------------------------------------------
  // Construction
  // ------------------------------------------------------------------

  lemma {:induction false} LastIndexFinds(participants: seq<Address>, a: Address, n: nat)
    requires n <= |participants|
    ensures LastIndex(participants, a, n).Some? <==> a in participants[..n]
    ensures LastIndex(participants, a, n).Some? ==>
              var i := LastIndex(participants, a, n).value;
              i < n && participants[i] == a
  {
    if n > 0 {
      LastIndexFinds(participants, a, n - 1);
      assert participants[..n] == participants[..n - 1] + [participants[n - 1]];
    }
  }

  /** A channel between Alice, one intermediary and Bob, with one allocation for each end. */
  predicate SingleHop(s: State)
    requires |s.outcome| == 1
  {
    var a, ps := s.outcome[0].allocations, s.fixed.participants;
    && |ps| == 3 && |a| == 2
    && a[0].destination == AddressToDestination(ps[0]) && a[1].destination == AddressToDestination(ps[2])
  }

  /** An objective is made exactly for a participant of a single-hop channel that has the ledgers its
      place calls for. */
  lemma ConstructedExactlyWhen(preApprove: bool, s: State, me: Address, left: Option<Ledger>, right: Option<Ledger>)
    requires |s.outcome| == 1 && DistinctParticipants(s.fixed.participants)
    ensures var r, ps := ConstructFromState(preApprove, s, me, left, right), s.fixed.participants;
            && (r.Ok? <==> && SingleHop(s) && !IsExternal(s.fixed.channelId) && me in ps
                           && (me != ps[0] ==> left.Some?) && (me != ps[2] ==> right.Some?))
            && (r == Err(NotInV) <==> me !in ps)
            && (r == Err(NotSingleHop) <==> me in ps && (|ps| != 3 || |s.outcome[0].allocations| != 2))
            && (r == Err(ChannelIdExternal) ==> IsExternal(s.fixed.channelId))
            && (r in {Err(SlotZeroMismatch), Err(SlotOneMismatch)} ==> !SingleHop(s))
            && (r == Err(NoLeftLedger) ==> left == None && |ps| == 3 && me != ps[0])
            && (r == Err(NoRightLedger) ==> right == None && |ps| == 3 && me != ps[2])
  {
    var ps := s.fixed.participants;
    LastIndexFinds(ps, me, |ps|);
    assert ps[..|ps|] == ps;
  }

  // ------------------------------------------------------------------
  // Update
  // ------------------------------------------------------------------

  /** The event brings a proposal about the objective's channel. */
  predicate BringsProposal(o: Objective, e: Event) {
    e.proposal.Some? && Target(e.proposal.value.proposal) == o.v.fixed.channelId
  }

  predicate BringsState(e: Event) {
    e.signedState.Some? && |e.signedState.value.state.fixed.participants| > 0
  }

  predicate ForLeft(o: Objective, e: Event)
    requires BringsProposal(o, e)
  {
    o.toMyLeft.Some? && e.proposal.value.proposal.ledgerId == o.toMyLeft.value.ledger.fp.channelId
  }

  predicate ForRight(o: Objective, e: Event)
    requires BringsProposal(o, e)
  {
    o.toMyRight.Some? && e.proposal.value.proposal.ledgerId == o.toMyRight.value.ledger.fp.channelId
  }

  /** Everything in the event concerns this objective. */
  predicate Concerns(o: Objective, e: Event) {
    && e.objectiveOf == o.v.fixed.channelId
    && (BringsProposal(o, e) ==> e.proposal.value.proposal.ledgerId != 0 && (ForLeft(o, e) || ForRight(o, e)))
    && (BringsState(e) ==> e.signedState.value.state.fixed.channelId == o.v.fixed.channelId != 0)
  }

  /** An update succeeds exactly when everything in the event concerns the objective. It then changes
      the channel by the signed state and the ledger named by the proposal, and nothing else. */
  lemma UpdatedExactlyWhen(o: Objective, e: Event)
    requires WellConnected(o)
    ensures Update(o, e).Ok? <==> Concerns(o, e)
    ensures Update(o, e).Ok? ==>
              var o', left := Update(o, e).value, BringsProposal(o, e) && ForLeft(o, e);
              var right := BringsProposal(o, e) && !ForLeft(o, e);
              && o' == o.(v := o'.v, toMyLeft := o'.toMyLeft, toMyRight := o'.toMyRight)
              && o'.v == (if BringsState(e) then AddSignedStateTo(o.v, e.signedState.value, e.order).0 else o.v)
              && (if left then o'.toMyLeft == Some(HandleProposal(o.toMyLeft.value, e.proposal.value))
                  else o'.toMyLeft == o.toMyLeft)
              && (if right then o'.toMyRight == Some(HandleProposal(o.toMyRight.value, e.proposal.value))
                  else o'.toMyRight == o.toMyRight)
    ensures Update(o, e) == Err(WrongObjective) <==> e.objectiveOf != o.v.fixed.channelId
    ensures Update(o, e) == Err(ZeroLedger) ==> BringsProposal(o, e) && e.proposal.value.proposal.ledgerId == 0
    ensures Update(o, e) == Err(UnknownLedger) ==> BringsProposal(o, e) && !ForLeft(o, e) && !ForRight(o, e)
    ensures Update(o, e) == Err(OutOfScope) ==>
              BringsState(e)
              && !(e.signedState.value.state.fixed.channelId == o.v.fixed.channelId != 0)
  {
  }

  // ------------------------------------------------------------------
  // Crank
  // ------------------------------------------------------------------

  /** A connection is funded exactly when the ledger's current state holds, for the channel, a guarantee
      of both amounts together between the two parties. */
  lemma FundedExactlyWhen(c: Connection)
    ensures Funded(c)
       <==> var gs := c.ledger.current.vars.outcome.guarantees;
            && c.info.target in gs
            && gs[c.info.target]
               == Guarantee(c.info.leftAmount + c.info.rightAmount, c.info.target, c.info.left, c.info.right)
  {
  }

  /** The left ledger is worked on before the right one, and what was done counts only if both succeed. */
  lemma LeftBeforeRight(o: Objective, key: Address)
    requires WellConnected(o)
    ensures var left, right := FundSide(o.toMyLeft, key), FundSide(o.toMyRight, key);
            CrankFunding(o, key)
            == if left.Err? then Err(left.error)
               else if right.Err? then Err(right.error)
               else Ok((o.(toMyLeft := left.value.0, toMyRight := right.value.0), left.value.1 + right.value.1))
  {
  }

  lemma FailedFromFunding(updated: Objective, key: Address, o: Objective, ms: seq<Message>)
    requires Crankable(updated)
    ensures var r := CrankFromFunding(updated, key, o, ms);
            r.failed.Some? ==>
              r.objective == o && r.messages == [] && r.waitingFor == ForNothing && r.failed != Some(NotApproved)
  {
  }

  /** A crank that fails returns the objective as it was and sends nothing. */
  lemma FailedCrankChangesNothing(o: Objective, key: Address)
    requires Crankable(o)
    ensures var r := Crank(o, key);
            r.failed.Some? ==> r.objective == o && r.messages == [] && r.waitingFor == ForNothing
    ensures Crank(o, key).failed == Some(NotApproved) <==> o.status != Approved
  {
    match SignIfNeeded(o.v, PreFundTurnNum, key) {
      case Err(_) =>
      case Ok((v, ss)) => FailedFromFunding(o.(v := v), key, o, MessagesFor(ss, o.v.myIndex));
    }
  }
}

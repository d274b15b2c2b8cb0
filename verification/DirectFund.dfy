/** The objective that funds a channel on chain: participants deposit in the order in which the
    outcome pays them, each only when what it deposits is safe. */
module DirectFund {
  import opened Types
  import opened Outcomes
  import opened States
  import opened Channels
  import opened Setup
  import opened Messages
  import opened VirtualFund

  datatype FundingStage = ForPrefund | ForMyTurn | ForFunding | ForPostfund | ForNothingMore

  datatype FundError = StatusNotApproved | SigningPanicked(panic: Panic)

  /** Amounts are of the one asset of the outcome. */
  datatype DirectObjective = DirectObjective(
    status: Status,
    c: Channel,
    safetyThreshold: int,
    depositTarget: int,
    fullyFunded: int,
    latestBlock: nat,
    submitted: bool
  )

  // ------------------------------------------------------------------
  // Construction
  // ------------------------------------------------------------------

  datatype DirectError = ExternalId | NotPrefund | AlreadyFinal | NotInChannel

  function ConstructDirect(preApprove: bool, s: State, me: Address): Result<DirectObjective, DirectError>
    requires |s.outcome| == 1
  {
    var a, dest := s.outcome[0].allocations, AddressToDestination(me);
    var i := IndexOf(s.fixed.participants, me);
    if IsExternal(s.fixed.channelId) then Err(ExternalId)
    else if s.turnNum != 0 then Err(NotPrefund)
    else if s.isFinal then Err(AlreadyFinal)
    else if i == |s.fixed.participants| then Err(NotInChannel)
    else
      var threshold := Reserved(a, FirstFor(a, dest));
      Ok(DirectObjective(
        if preApprove then Approved else Unapproved, NewChannel(s, i),
        threshold, threshold + AllocatedTo(a, dest, |a|), Reserved(a, |a|), 0, false))
  }

  method ConstructFromInitialState(preApprove: bool, s: State, me: Address)
    returns (r: Result<DirectObjective, DirectError>)
    requires |s.outcome| == 1
    ensures r == ConstructDirect(preApprove, s, me)
  {
    if IsExternal(s.fixed.channelId) {
      return Err(ExternalId);
    }
    if s.turnNum != 0 {
      return Err(NotPrefund);
    }
    if s.isFinal {
      return Err(AlreadyFinal);
    }
    var participants := s.fixed.participants;
    var myIndex := 0;
    while myIndex < |participants| && participants[myIndex] != me
      invariant myIndex <= |participants|
      invariant IndexFrom(participants, me, 0) == IndexFrom(participants, me, myIndex)
    {
      myIndex := myIndex + 1;
    }
    if myIndex == |participants| {
      return Err(NotInChannel);
    }
    var a, dest := s.outcome[0].allocations, AddressToDestination(me);
    var mine := TotalFor(a, dest);
    var full := Total(a);
    var threshold := DepositSafetyThreshold(a, dest);
    return Ok(DirectObjective(
      if preApprove then Approved else Unapproved,
      NewChannel(s, myIndex), threshold, threshold + mine, full, 0, false));
  }

  // ------------------------------------------------------------------
  // Update
  // ------------------------------------------------------------------

  datatype ChainEvent = Deposited(block: nat, nowHeld: int) | OtherChainEvent

  /** Only an event from a newer block than any seen before is taken in. */
  function UpdateWithChainEvent(o: DirectObjective, e: ChainEvent): Option<DirectObjective> {
    match e
    case OtherChainEvent => None
    case Deposited(block, nowHeld) =>
      if block > o.latestBlock then Some(o.(c := o.c.(onChainFunding := nowHeld), latestBlock := block)) else Some(o)
  }

  function UpdateWithState(o: DirectObjective, ss: SignedState, order: seq<nat>): DirectObjective {
    o.(c := AddSignedStateTo(o.c, ss, order).0)
  }

  /** An event for another objective is refused. */
  function UpdateDirect(o: DirectObjective, objectiveOf: Destination, ss: SignedState, order: seq<nat>)
    : Option<DirectObjective>
  {
    if objectiveOf != o.c.fixed.channelId then None else Some(UpdateWithState(o, ss, order))
  }

  // ------------------------------------------------------------------
  // Crank
  // ------------------------------------------------------------------

  predicate FullyFunded(o: DirectObjective) {
    o.c.onChainFunding >= o.fullyFunded
  }

  predicate SafeToDeposit(o: DirectObjective) {
    o.c.onChainFunding >= o.safetyThreshold
  }

  function AmountToDeposit(o: DirectObjective): int {
    o.depositTarget - o.c.onChainFunding
  }

  /** `deposits` are the amounts of the transactions to submit. */
  datatype DirectCranked = DirectCranked(
    objective: DirectObjective,
    messages: seq<Message>,
    deposits: seq<int>,
    waitingFor: FundingStage,
    failed: Option<FundError>
  )

  predicate DirectCrankable(o: DirectObjective) {
    PreFundTurnNum in o.c.signedStates && PostFundTurnNum in o.c.signedStates
  }

  function CrankDirect(o: DirectObjective, key: Address): DirectCranked
    requires DirectCrankable(o)
  {
    if o.status != Approved then DirectCranked(o, [], [], ForNothingMore, Some(StatusNotApproved))
    else
      match SignIfNeeded(o.c, PreFundTurnNum, key)
      case Err(p) => DirectCranked(o, [], [], ForPrefund, Some(SigningPanicked(p)))
      case Ok((c, ss)) =>
        var ms := MessagesFor(ss, o.c.myIndex);
        if !Complete(c, PreFundTurnNum) then DirectCranked(o.(c := c), ms, [], ForPrefund, None)
        else CrankDeposits(o.(c := c), key, ms)
  }

  /** The rest of a crank once the prefund state is complete. */
  function CrankDeposits(o: DirectObjective, key: Address, ms: seq<Message>): DirectCranked
    requires DirectCrankable(o)
  {
    if FullyFunded(o) then CrankDirectPostfund(o, key, ms)
    else if !SafeToDeposit(o) then DirectCranked(o, ms, [], ForMyTurn, None)
    else if AmountToDeposit(o) > 0 && !o.submitted
    then DirectCranked(o.(submitted := true), ms, [AmountToDeposit(o)], ForFunding, None)
    else DirectCranked(o, ms, [], ForFunding, None)
  }

  function CrankDirectPostfund(o: DirectObjective, key: Address, ms: seq<Message>): DirectCranked
    requires DirectCrankable(o)
  {
    match SignIfNeeded(o.c, PostFundTurnNum, key)
    case Err(p) => DirectCranked(o, [], [], ForPostfund, Some(SigningPanicked(p)))
    case Ok((c, ss)) =>
      var ms' := ms + MessagesFor(ss, o.c.myIndex);
      if !Complete(c, PostFundTurnNum) then DirectCranked(o.(c := c), ms', [], ForPostfund, None)
      else DirectCranked(o.(c := c, status := Completed), ms', [], ForNothingMore, None)
  }
}

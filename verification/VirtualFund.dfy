/** The objective that funds a virtual channel between Alice and Bob through one intermediary: each
    of the two ledgers takes a guarantee for the channel. */
module VirtualFund {
  import opened Types
  import opened States
  import opened LedgerVars
  import opened Consensus
  import opened Channels
  import opened Setup
  import opened Messages

  datatype Status = Unapproved | Approved | Rejected | Completed

  datatype WaitingFor = ForCompletePrefund | ForCompleteFunding | ForCompletePostFund | ForNothing

  datatype CrankError =
    | NotApproved
    | Panicked(panic: Panic)
    | LedgerQuery(query: LedgerError)
    | LedgerUpdate(update: ChannelError)

  datatype GuaranteeInfo = GuaranteeInfo(
    left: Destination,
    right: Destination,
    leftAmount: int,
    rightAmount: int,
    target: Destination
  )

  datatype Connection = Connection(ledger: Ledger, info: GuaranteeInfo)

  /** Roles are 0 for Alice, 1 for the intermediary and 2 for Bob. Amounts are of the one asset. */
  datatype Objective = Objective(
    status: Status,
    v: Channel,
    toMyLeft: Option<Connection>,
    toMyRight: Option<Connection>,
    myRole: nat,
    a0: int,
    b0: int
  )

  predicate IsAlice(o: Objective) {
    o.myRole == 0
  }

  predicate IsBob(o: Objective) {
    o.myRole == 2
  }

  // ------------------------------------------------------------------
  // Construction
  // ------------------------------------------------------------------

  datatype ConstructError =
    | NotInV
    | NotSingleHop
    | ChannelIdExternal
    | SlotZeroMismatch
    | SlotOneMismatch
    | NoLeftLedger
    | NoRightLedger

  /** The last position at which `a` stands among the first n, if any. */
  function LastIndex(participants: seq<Address>, a: Address, n: nat): Option<nat>
    requires n <= |participants|
  {
    if n == 0 then None
    else if participants[n - 1] == a then Some(n - 1)
    else LastIndex(participants, a, n - 1)
  }

  method InferRole(participants: seq<Address>, a: Address) returns (role: Option<nat>)
    ensures role == LastIndex(participants, a, |participants|)
    ensures role.Some? <==> a in participants
    ensures role.Some? ==> role.value < |participants| && participants[role.value] == a
    ensures role.Some? ==> forall j :: role.value < j < |participants| ==> participants[j] != a
  {
    role := None;
    for i := 0 to |participants|
      invariant role == LastIndex(participants, a, i)
      invariant role.None? ==> forall j :: 0 <= j < i ==> participants[j] != a
      invariant role.Some? ==> role.value < i && participants[role.value] == a
      invariant role.Some? ==> forall j :: role.value < j < i ==> participants[j] != a
    {
      if participants[i] == a {
        role := Some(i);
      }
    }
  }

  /** What the participant with the given role expects of the ledger to its right. */
  function InfoToTheRight(s: State, role: nat): GuaranteeInfo
    requires role + 1 < |s.fixed.participants| && |s.outcome| == 1 && |s.outcome[0].allocations| >= 2
  {
    GuaranteeInfo(
      AddressToDestination(s.fixed.participants[role]), AddressToDestination(s.fixed.participants[role + 1]),
      s.outcome[0].allocations[0].amount, s.outcome[0].allocations[1].amount, s.fixed.channelId)
  }

  /** And of the ledger to its left. */
  function InfoToTheLeft(s: State, role: nat): GuaranteeInfo
    requires 0 < role < |s.fixed.participants| && |s.outcome| == 1 && |s.outcome[0].allocations| >= 2
  {
    GuaranteeInfo(
      AddressToDestination(s.fixed.participants[role - 1]), AddressToDestination(s.fixed.participants[role]),
      s.outcome[0].allocations[0].amount, s.outcome[0].allocations[1].amount, s.fixed.channelId)
  }

  function ConstructFromState(preApprove: bool, s: State, me: Address, left: Option<Ledger>, right: Option<Ledger>)
    : Result<Objective, ConstructError>
    requires |s.outcome| == 1
  {
    match LastIndex(s.fixed.participants, me, |s.fixed.participants|)
    case None => Err(NotInV)
    case Some(role) =>
      var a := s.outcome[0].allocations;
      if role > 2 || |s.fixed.participants| != 3 || |a| != 2 then Err(NotSingleHop)
      else if IsExternal(s.fixed.channelId) then Err(ChannelIdExternal)
      else if a[0].destination != AddressToDestination(s.fixed.participants[0]) then Err(SlotZeroMismatch)
      else if a[1].destination != AddressToDestination(s.fixed.participants[2]) then Err(SlotOneMismatch)
      else if role != 0 && left == None then Err(NoLeftLedger)
      else if role != 2 && right == None then Err(NoRightLedger)
      else Ok(Objective(
        if preApprove then Approved else Unapproved,
        NewChannel(s, role),
        if role != 0 then Some(Connection(left.value, InfoToTheLeft(s, role))) else None,
        if role != 2 then Some(Connection(right.value, InfoToTheRight(s, role))) else None,
        role, a[0].amount, a[1].amount))
  }

  // ------------------------------------------------------------------
  // The guarantee a connection is to hold
  // ------------------------------------------------------------------

  function ExpectedGuarantee(info: GuaranteeInfo): Guarantee {
    Guarantee(info.leftAmount + info.rightAmount, info.target, info.left, info.right)
  }

  function ExpectedProposal(c: Connection): Proposal {
    Proposal(c.ledger.fp.channelId, Add(ExpectedGuarantee(c.info), c.info.leftAmount))
  }

  predicate Funded(c: Connection) {
    Includes(c.ledger.current.vars.outcome, ExpectedGuarantee(c.info))
  }

  /** The two parties to a ledger build the same proposal: what one builds for the ledger on its
      right its neighbour builds for the ledger on its left. */
  lemma NeighboursProposeTheSame(preApprove: bool, preApprove': bool, s: State, i: nat,
                                 l1: Option<Ledger>, r1: Option<Ledger>, l2: Option<Ledger>, r2: Option<Ledger>)
    requires |s.outcome| == 1 && i < 2 && |s.fixed.participants| == 3 && DistinctParticipants(s.fixed.participants)
    requires var here := ConstructFromState(preApprove, s, s.fixed.participants[i], l1, r1);
             var next := ConstructFromState(preApprove', s, s.fixed.participants[i + 1], l2, r2);
             here.Ok? && next.Ok? && r1.Some? && l2.Some? && r1.value.fp.channelId == l2.value.fp.channelId
    ensures var here := ConstructFromState(preApprove, s, s.fixed.participants[i], l1, r1).value;
            var next := ConstructFromState(preApprove', s, s.fixed.participants[i + 1], l2, r2).value;
            && here.toMyRight.Some? && next.toMyLeft.Some?
            && ExpectedProposal(here.toMyRight.value) == ExpectedProposal(next.toMyLeft.value)
            && ExpectedGuarantee(here.toMyRight.value.info).amount == here.a0 + here.b0
  {
    LastIndexIs(s.fixed.participants, i, 3);
    LastIndexIs(s.fixed.participants, i + 1, 3);
  }

  lemma {:induction false} LastIndexIs(participants: seq<Address>, i: nat, n: nat)
    requires DistinctParticipants(participants) && i < n <= |participants|
    ensures LastIndex(participants, participants[i], n) == Some(i)
  {
    if i < n - 1 {
      LastIndexIs(participants, i, n - 1);
    }
  }

  // ------------------------------------------------------------------
  // Update
  // ------------------------------------------------------------------

  datatype Event = Event(objectiveOf: Destination, signedState: Option<SignedState>, order: seq<nat>,
                         proposal: Option<SignedProposal>)

  datatype UpdateError = WrongObjective | ZeroLedger | UnknownLedger | OutOfScope

  /** Whatever the ledger refuses is dropped without an error. */
  function HandleProposal(c: Connection, sp: SignedProposal): Connection
    requires TwoParties(c.ledger.fp)
  {
    match ReceiveOn(c.ledger, sp)
    case Ok(l) => c.(ledger := l)
    case Err(_) => c
  }

  predicate WellConnected(o: Objective) {
    && (o.toMyLeft.Some? <==> !IsAlice(o)) && (o.toMyRight.Some? <==> !IsBob(o))
    && (o.toMyLeft.Some? ==> TwoParties(o.toMyLeft.value.ledger.fp))
    && (o.toMyRight.Some? ==> TwoParties(o.toMyRight.value.ledger.fp))
  }

  function UpdateProposal(o: Objective, sp: SignedProposal): Result<Objective, UpdateError>
    requires WellConnected(o)
  {
    if Target(sp.proposal) != o.v.fixed.channelId then Ok(o)
    else if sp.proposal.ledgerId == 0 then Err(ZeroLedger)
    else if o.toMyLeft.Some? && sp.proposal.ledgerId == o.toMyLeft.value.ledger.fp.channelId then
      Ok(o.(toMyLeft := Some(HandleProposal(o.toMyLeft.value, sp))))
    else if o.toMyRight.Some? && sp.proposal.ledgerId == o.toMyRight.value.ledger.fp.channelId then
      Ok(o.(toMyRight := Some(HandleProposal(o.toMyRight.value, sp))))
    else Err(UnknownLedger)
  }

  function UpdateState(o: Objective, ss: SignedState, order: seq<nat>): Result<Objective, UpdateError> {
    if ss.state.fixed.channelId == 0 then Err(OutOfScope)
    else if ss.state.fixed.channelId != o.v.fixed.channelId then Err(OutOfScope)
    else Ok(o.(v := AddSignedStateTo(o.v, ss, order).0))
  }

  function Update(o: Objective, e: Event): Result<Objective, UpdateError>
    requires WellConnected(o)
  {
    if e.objectiveOf != o.v.fixed.channelId then Err(WrongObjective)
    else
      var afterProposal := if e.proposal.Some? then UpdateProposal(o, e.proposal.value) else Ok(o);
      match afterProposal
      case Err(err) => Err(err)
      case Ok(o1) =>
        if e.signedState.Some? && |e.signedState.value.state.fixed.participants| > 0
        then UpdateState(o1, e.signedState.value, e.order)
        else Ok(o1)
  }

  // ------------------------------------------------------------------
  // Crank
  // ------------------------------------------------------------------

  /** A leader proposes the guarantee unless it has; a follower signs it if it is next in the queue. */
  function UpdateLedger(c: Connection, key: Address): Result<(Connection, seq<Message>), CrankError>
    requires TwoParties(c.ledger.fp)
  {
    var l, g := c.ledger, ExpectedGuarantee(c.info);
    match IsProposed(l, g)
    case Err(e) => Err(LedgerQuery(e))
    case Ok(proposed) =>
      if l.role == Leader then
        if proposed then Ok((c, []))
        else
          match ProposeOn(l, ExpectedProposal(c), key)
          case Err(e) => Err(LedgerUpdate(e))
          case Ok((l', _)) => Ok((c.(ledger := l'), [ProposalMessage(FollowerOf(l.fp), l'.queue)]))
      else if IsProposedNext(l, g) != Ok(true) then Ok((c, []))
      else
        match SignNextOn(l, ExpectedProposal(c), key)
        case Err(e) => Err(LedgerUpdate(e))
        case Ok((l', sp)) => Ok((c.(ledger := l'), [ProposalMessage(LeaderOf(l.fp), [sp])]))
  }

  /** A side that exists and is not funded yet is worked on. */
  function FundSide(c: Option<Connection>, key: Address): Result<(Option<Connection>, seq<Message>), CrankError>
    requires c.Some? ==> TwoParties(c.value.ledger.fp)
  {
    if c.None? || Funded(c.value) then Ok((c, []))
    else
      match UpdateLedger(c.value, key)
      case Err(e) => Err(e)
      case Ok((c', ms)) => Ok((Some(c'), ms))
  }

  predicate SideFunded(c: Option<Connection>) {
    c.Some? ==> Funded(c.value)
  }

  predicate FundingComplete(o: Objective)
    requires WellConnected(o)
  {
    if IsAlice(o) then Funded(o.toMyRight.value)
    else if IsBob(o) then Funded(o.toMyLeft.value)
    else Funded(o.toMyRight.value) && Funded(o.toMyLeft.value)
  }

  datatype Cranked = Cranked(objective: Objective, messages: seq<Message>, waitingFor: WaitingFor,
                             failed: Option<CrankError>)

  function MessagesFor(ss: Option<SignedState>, me: nat): seq<Message> {
    if ss.Some? then ToOthers(ss.value, me) else []
  }

  /** The objective as it should be for `Crank`: the channel stores both setup states. */
  predicate Crankable(o: Objective) {
    && WellConnected(o)
    && PreFundTurnNum in o.v.signedStates && PostFundTurnNum in o.v.signedStates
  }

  function Crank(o: Objective, key: Address): Cranked
    requires Crankable(o)
  {
    if o.status != Approved then Cranked(o, [], ForNothing, Some(NotApproved))
    else
      match SignIfNeeded(o.v, PreFundTurnNum, key)
      case Err(p) => Cranked(o, [], ForNothing, Some(Panicked(p)))
      case Ok((v, ss)) =>
        var ms := MessagesFor(ss, o.v.myIndex);
        if !Complete(v, PreFundTurnNum) then Cranked(o.(v := v), ms, ForCompletePrefund, None)
        else CrankFromFunding(o.(v := v), key, o, ms)
  }

  /** The rest of a crank once the prefund state is complete: `o` is where to fall back to. */
  function CrankFromFunding(updated: Objective, key: Address, o: Objective, ms: seq<Message>): Cranked
    requires Crankable(updated)
  {
    match CrankFunding(updated, key)
    case Err(e) => Cranked(o, [], ForNothing, Some(e))
    case Ok((o1, ms1)) =>
      if !FundingComplete(o1) then Cranked(o1, ms + ms1, ForCompleteFunding, None)
      else
        match CrankPostfund(o1, key)
        case Err(e) => Cranked(o, [], ForNothing, Some(e))
        case Ok((o2, ms2, waitingFor)) => Cranked(o2, ms + ms1 + ms2, waitingFor, None)
  }

  /** Left before right; an error on either side throws both away. */
  function CrankFunding(o: Objective, key: Address): (r: Result<(Objective, seq<Message>), CrankError>)
    requires WellConnected(o)
    ensures r.Ok? ==> WellConnected(r.value.0) && r.value.0.v == o.v && r.value.0.status == o.status
                      && r.value.0.myRole == o.myRole
  {
    match FundSide(o.toMyLeft, key)
    case Err(e) => Err(e)
    case Ok((left, ms)) =>
      match FundSide(o.toMyRight, key)
      case Err(e) => Err(e)
      case Ok((right, ms')) => Ok((o.(toMyLeft := left, toMyRight := right), ms + ms'))
  }

  function CrankPostfund(o: Objective, key: Address): Result<(Objective, seq<Message>, WaitingFor), CrankError>
    requires PostFundTurnNum in o.v.signedStates
  {
    match SignIfNeeded(o.v, PostFundTurnNum, key)
    case Err(p) => Err(Panicked(p))
    case Ok((v, ss)) =>
      var ms := MessagesFor(ss, o.v.myIndex);
      if !Complete(v, PostFundTurnNum) then Ok((o.(v := v), ms, ForCompletePostFund))
      else Ok((o.(v := v, status := Completed), ms, ForNothing))
  }
}

/** The objective that closes a virtual channel: its participants sign a final state and then remove
    the guarantees for it from their ledgers. */
module VirtualDefund {
  import opened Types
  import opened Outcomes
  import opened States
  import opened LedgerVars
  import opened Consensus
  import opened Channels
  import opened Messages
  import VirtualFund

  type Status = VirtualFund.Status

  datatype WaitingFor = ForCompleteFinal | ForLedgerDefunding | ForNothing

  const FinalTurnNum: nat := 2

  datatype DefundError =
    | NotApproved
    | FinalStateUnsigned(reason: SignedStateError)
    | LedgerUpdate(update: ChannelError)

  /** Roles are 0 for Alice, 1 for the intermediary and 2 for Bob. */
  datatype Objective = Objective(
    status: Status,
    initialOutcome: SingleAssetExit,
    paidToBob: int,
    vFixed: FixedPart,
    signatures: seq<Option<Signature>>,
    toMyLeft: Option<Ledger>,
    toMyRight: Option<Ledger>,
    myRole: nat
  )

  predicate IsAlice(o: Objective) {
    o.myRole == 0
  }

  predicate IsBob(o: Objective) {
    o.myRole == 2
  }

  /** The shape of an objective for a channel with one intermediary. */
  predicate Proper(o: Objective) {
    && |o.signatures| == 3 && o.myRole < 3 && |o.vFixed.participants| == 3
    && |o.initialOutcome.allocations| >= 2
    && (o.toMyLeft.Some? <==> !IsAlice(o)) && (o.toMyRight.Some? <==> !IsBob(o))
    && (o.toMyLeft.Some? ==> TwoParties(o.toMyLeft.value.fp))
    && (o.toMyRight.Some? ==> TwoParties(o.toMyRight.value.fp))
  }

  // ------------------------------------------------------------------
  // The final state
  // ------------------------------------------------------------------

  function FinalOutcome(initial: SingleAssetExit, paid: int): SingleAssetExit
    requires |initial.allocations| >= 2
  {
    var a := initial.allocations;
    initial.(allocations := a[0 := a[0].(amount := a[0].amount - paid)][1 := a[1].(amount := a[1].amount + paid)])
  }

  function FinalState(o: Objective): State
    requires |o.initialOutcome.allocations| >= 2
  {
    State(o.vFixed, [FinalOutcome(o.initialOutcome, o.paidToBob)], FinalTurnNum, true)
  }

  // ------------------------------------------------------------------
  // Construction
  // ------------------------------------------------------------------

  datatype ConstructError = NotFinal | Crashed | NoChannel | NoLedger | NotInV | ExternalId

  /** `left` and `right` are the ledgers found with the neighbours. */
  function NewObjective(v: Option<Channel>, paid: int, preApprove: bool, me: Address, left: Option<Ledger>,
                        right: Option<Ledger>)
    : Result<Objective, ConstructError>
    requires v.Some? ==> PostFundTurnNum in v.value.signedStates
                         && |v.value.signedStates[PostFundTurnNum].state.outcome| > 0
                         && |v.value.fixed.participants| >= 3
  {
    if v.None? then Err(NoChannel)
    else
      var c, ps := v.value, v.value.fixed.participants;
      var isAlice := me == ps[0];
      var isBob := me != ps[0] && me != ps[1] && me == ps[2];
      if !isAlice && me != ps[1] && !isBob then Err(NotInV)
      else if !isAlice && left.None? then Err(NoLedger)
      else if !isBob && right.None? then Err(NoLedger)
      else Ok(Objective(
        if preApprove then VirtualFund.Approved else VirtualFund.Unapproved,
        c.signedStates[PostFundTurnNum].state.outcome[0], paid, c.fixed, [None, None, None],
        if isAlice then None else left, if isBob then None else right, c.myIndex))
  }

  /** What a proposed final state says was paid. A missing channel is used before it is looked for. */
  function CalculatePaidToBob(final: State, v: Option<Channel>): Result<int, ConstructError>
    requires |final.outcome| > 0 && |final.outcome[0].allocations| >= 2
    requires v.Some? ==> PreFundTurnNum in v.value.signedStates
                         && var pre := v.value.signedStates[PreFundTurnNum].state;
                            |pre.outcome| > 0 && |pre.outcome[0].allocations| >= 2
  {
    if !final.isFinal then Err(NotFinal)
    else if v.None? then Err(Crashed)
    else
      var initially := v.value.signedStates[PreFundTurnNum].state.outcome[0].allocations[1].amount;
      Ok(final.outcome[0].allocations[1].amount - initially)
  }

  /** What a responder makes of a proposed final state. */
  function ConstructFromFinalState(final: State, preApprove: bool, me: Address, v: Option<Channel>,
                                   left: Option<Ledger>, right: Option<Ledger>)
    : Result<Objective, ConstructError>
    requires |final.outcome| > 0 && |final.outcome[0].allocations| >= 2
    requires v.Some? ==> PreFundTurnNum in v.value.signedStates && PostFundTurnNum in v.value.signedStates
                         && |v.value.signedStates[PostFundTurnNum].state.outcome| > 0
                         && |v.value.fixed.participants| >= 3
                         && var pre := v.value.signedStates[PreFundTurnNum].state;
                            |pre.outcome| > 0 && |pre.outcome[0].allocations| >= 2
  {
    if IsExternal(final.fixed.channelId) then Err(ExternalId)
    else
      match CalculatePaidToBob(final, v)
      case Err(e) => Err(e)
      case Ok(paid) => NewObjective(v, paid, preApprove, me, left, right)
  }

  /** The channel's prefund and postfund states have the outcome `s` has, as in a channel just made. */
  ghost predicate OpenedFrom(c: Channel, s: State) {
    && c.fixed == s.fixed && |s.fixed.participants| == 3
    && |s.outcome| == 1 && |s.outcome[0].allocations| == 2
    && PreFundTurnNum in c.signedStates && PostFundTurnNum in c.signedStates
    && c.signedStates[PreFundTurnNum].state == s
    && c.signedStates[PostFundTurnNum].state == s.(turnNum := PostFundTurnNum)
  }

  function RemoveProposalOf(o: Objective, ledgerId: Destination): Proposal
    requires |o.initialOutcome.allocations| >= 2
  {
    Proposal(ledgerId, Remove(o.vFixed.channelId, FinalOutcome(o.initialOutcome, o.paidToBob).allocations[0].amount))
  }

  /** A responder reads the initiator's payment off the final state, so that it makes the objective that
      the initiator would make in its place, with the same final state and the same removal for any
      ledger. */
  lemma ResponderAgrees(c: Channel, c': Channel, s: State, paid: int, me: Address, me': Address,
                        l1: Option<Ledger>, r1: Option<Ledger>, l2: Option<Ledger>, r2: Option<Ledger>,
                        ledgerId: Destination)
    requires OpenedFrom(c, s) && OpenedFrom(c', s)
    requires NewObjective(Some(c), paid, true, me, l1, r1).Ok?
    ensures var o := NewObjective(Some(c), paid, true, me, l1, r1).value;
            && CalculatePaidToBob(FinalState(o), Some(c')) == Ok(paid)
            && forall approve :: !IsExternal(s.fixed.channelId) ==>
                 var r := ConstructFromFinalState(FinalState(o), approve, me', Some(c'), l2, r2);
                 && r == NewObjective(Some(c'), paid, approve, me', l2, r2)
                 && (r.Ok? ==> FinalState(r.value) == FinalState(o)
                               && RemoveProposalOf(r.value, ledgerId) == RemoveProposalOf(o, ledgerId))
  {
  }

  // ------------------------------------------------------------------
  // Signatures on the final state
  // ------------------------------------------------------------------

  predicate FullySigned(o: Objective)
    requires Proper(o)
  {
    o.signatures[0].Some? && o.signatures[1].Some? && o.signatures[2].Some?
  }

  /** The final state with the first n of the stored signatures. */
  function SignedFinal(s: State, signatures: seq<Option<Signature>>, n: nat): Result<SignedState, SignedStateError>
    requires n <= |signatures|
  {
    if n == 0 then Ok(SignedState(s, map[]))
    else
      match SignedFinal(s, signatures, n - 1)
      case Err(e) => Err(e)
      case Ok(ss) => if signatures[n - 1].None? then Ok(ss) else AddSignatureTo(ss, signatures[n - 1].value)
  }

  /** Each stored signature is that of its participant on the final state. */
  ghost predicate SignaturesGenuine(o: Objective)
    requires Proper(o)
  {
    forall i :: 0 <= i < 3 && o.signatures[i].Some? ==>
          SignedBy(FinalState(o), o.signatures[i].value, o.vFixed.participants[i])
  }

  /** The signatures stored among the first n, by index. */
  ghost function Stored(signatures: seq<Option<Signature>>, n: nat): map<nat, Signature>
    requires n <= |signatures|
  {
    map i: nat | 0 <= i < n && signatures[i].Some? :: signatures[i].value
  }

  lemma StoredStep(signatures: seq<Option<Signature>>, n: nat)
    requires n < |signatures|
    ensures n !in Stored(signatures, n)
    ensures Stored(signatures, n + 1)
         == if signatures[n].None? then Stored(signatures, n) else Stored(signatures, n)[n := signatures[n].value]
  {
  }

  /** Genuine signatures can all be put on the final state. */
  lemma {:induction false} SignedFinalHoldsAll(o: Objective, n: nat)
    requires Proper(o) && SignaturesGenuine(o) && DistinctParticipants(o.vFixed.participants) && n <= 3
    ensures SignedFinal(FinalState(o), o.signatures, n) == Ok(SignedState(FinalState(o), Stored(o.signatures, n)))
  {
    if n == 0 {
      assert Stored(o.signatures, 0) == map[];
    } else {
      SignedFinalHoldsAll(o, n - 1);
      StoredStep(o.signatures, n - 1);
      IndexOfParticipant(o.vFixed.participants, n - 1);
    }
  }

  // ------------------------------------------------------------------
  // Update
  // ------------------------------------------------------------------

  datatype Event = Event(objectiveOf: Destination, signedState: Option<SignedState>, proposal: Option<SignedProposal>)

  datatype UpdateError =
    | WrongObjective
    | OutOfScope
    | ConflictingSignature
    | InvalidSignature
    | ZeroLedger
    | UnknownLedger
    | ProposalRefused(reason: ChannelError)

  /** The signatures after the first n incoming ones: those stored stay, and new ones are checked. */
  function TakeSignatures(o: Objective, incoming: map<nat, Signature>, n: nat)
    : (r: Result<seq<Option<Signature>>, UpdateError>)
    requires Proper(o) && n <= 3
    ensures r.Ok? ==> |r.value| == 3
  {
    if n == 0 then Ok(o.signatures)
    else
      match TakeSignatures(o, incoming, n - 1)
      case Err(e) => Err(e)
      case Ok(sigs) =>
        var i := n - 1;
        if i !in incoming then Ok(sigs)
        else if o.signatures[i].Some? then
          if o.signatures[i].value == incoming[i] then Ok(sigs) else Err(ConflictingSignature)
        else if RecoverSigner(FinalState(o), incoming[i]) == Ok(o.vFixed.participants[i]) then
          Ok(sigs[i := Some(incoming[i])])
        else Err(InvalidSignature)
  }

  function UpdateSignatures(o: Objective, ss: SignedState): Result<Objective, UpdateError>
    requires Proper(o)
  {
    if ss.state.fixed.channelId != o.vFixed.channelId then Err(OutOfScope)
    else
      match TakeSignatures(o, ss.sigs, 3)
      case Err(e) => Err(e)
      case Ok(sigs) => Ok(o.(signatures := sigs))
  }

  /** Stale and future proposals are ignored; anything else the ledger refuses is an error. */
  function Receives(l: Ledger, sp: SignedProposal): Result<Ledger, UpdateError>
    requires TwoParties(l.fp)
  {
    match ReceiveOn(l, sp)
    case Ok(l') => Ok(l')
    case Err(e) => if e == InvalidTurnNum then Ok(l) else Err(ProposalRefused(e))
  }

  function UpdateProposal(o: Objective, sp: SignedProposal): Result<Objective, UpdateError>
    requires Proper(o)
  {
    if Target(sp.proposal) != o.vFixed.channelId then Ok(o)
    else if sp.proposal.ledgerId == 0 then Err(ZeroLedger)
    else if o.toMyLeft.Some? && sp.proposal.ledgerId == o.toMyLeft.value.fp.channelId then
      match Receives(o.toMyLeft.value, sp)
      case Err(e) => Err(e)
      case Ok(l) => Ok(o.(toMyLeft := Some(l)))
    else if o.toMyRight.Some? && sp.proposal.ledgerId == o.toMyRight.value.fp.channelId then
      match Receives(o.toMyRight.value, sp)
      case Err(e) => Err(e)
      case Ok(l) => Ok(o.(toMyRight := Some(l)))
    else Err(UnknownLedger)
  }

  function Update(o: Objective, e: Event): Result<Objective, UpdateError>
    requires Proper(o)
  {
    if e.objectiveOf != o.vFixed.channelId then Err(WrongObjective)
    else
      var afterState :=
        if e.signedState.Some? && |e.signedState.value.state.fixed.participants| > 0
        then UpdateSignatures(o, e.signedState.value) else Ok(o);
      match afterState
      case Err(err) => Err(err)
      case Ok(o1) => if e.proposal.Some? then UpdateProposal(o1, e.proposal.value) else Ok(o1)
  }

  /** Every signature an update stores is genuine, and none is lost or replaced. */
  lemma {:induction false} TakeSignaturesKeeps(o: Objective, incoming: map<nat, Signature>, n: nat)
    requires Proper(o) && SignaturesGenuine(o) && n <= 3 && TakeSignatures(o, incoming, n).Ok?
    ensures var sigs := TakeSignatures(o, incoming, n).value;
            && SignaturesGenuine(o.(signatures := sigs))
            && forall i :: 0 <= i < 3 ==>
                 sigs[i] == if o.signatures[i].None? && i < n && i in incoming then Some(incoming[i])
                            else o.signatures[i]
  {
    if n > 0 {
      TakeSignaturesKeeps(o, incoming, n - 1);
    }
  }

  lemma UpdateKeepsGenuine(o: Objective, e: Event)
    requires Proper(o) && SignaturesGenuine(o) && Update(o, e).Ok?
    ensures var o' := Update(o, e).value;
            && Proper(o') && SignaturesGenuine(o') && FinalState(o') == FinalState(o)
            && forall i :: 0 <= i < 3 && o.signatures[i].Some? ==> o'.signatures[i] == o.signatures[i]
  {
    if e.signedState.Some? && |e.signedState.value.state.fixed.participants| > 0 {
      TakeSignaturesKeeps(o, e.signedState.value.sigs, 3);
    }
  }

  // ------------------------------------------------------------------
  // Crank
  // ------------------------------------------------------------------

  predicate Defunded(o: Objective, l: Ledger) {
    o.vFixed.channelId !in l.current.vars.outcome.guarantees
  }

  predicate SideDefunded(o: Objective, l: Option<Ledger>) {
    l.Some? ==> Defunded(o, l.value)
  }

  /** A leader proposes the removal unless it has; a follower signs it if it is next in the queue. */
  function UpdateLedger(o: Objective, l: Ledger, key: Address): Result<(Ledger, seq<Message>), ChannelError>
    requires Proper(o) && TwoParties(l.fp)
  {
    var e := RemoveProposalOf(o, l.fp.channelId);
    if l.role == Leader then
      if RemovalProposed(l.queue, o.vFixed.channelId) then Ok((l, []))
      else
        match ProposeOn(l, e, key)
        case Err(x) => Err(x)
        case Ok((l', _)) => Ok((l', [ProposalMessage(FollowerOf(l.fp), l'.queue)]))
    else if !RemovalProposedNext(l, o.vFixed.channelId) then Ok((l, []))
    else
      match SignNextOn(l, e, key)
      case Err(x) => Err(x)
      case Ok((l', sp)) => Ok((l', [ProposalMessage(LeaderOf(l.fp), [sp])]))
  }

  function DefundSide(o: Objective, l: Option<Ledger>, key: Address)
    : Result<(Option<Ledger>, seq<Message>), ChannelError>
    requires Proper(o) && (l.Some? ==> TwoParties(l.value.fp))
  {
    if SideDefunded(o, l) then Ok((l, []))
    else
      match UpdateLedger(o, l.value, key)
      case Err(e) => Err(e)
      case Ok((l', ms)) => Ok((Some(l'), ms))
  }

  datatype Cranked = Cranked(objective: Objective, messages: seq<Message>, waitingFor: WaitingFor,
                             failed: Option<DefundError>)

  function Crank(o: Objective, key: Address): Cranked
    requires Proper(o)
  {
    if o.status != VirtualFund.Approved then Cranked(o, [], ForNothing, Some(NotApproved))
    else if o.signatures[o.myRole].Some? then CrankSigned(o, key, o, [])
    else
      var updated := o.(signatures := o.signatures[o.myRole := Some(Sign(FinalState(o), key))]);
      match SignedFinal(FinalState(o), updated.signatures, 3)
      case Err(e) => Cranked(updated, [], ForNothing, Some(FinalStateUnsigned(e)))
      case Ok(ss) => CrankSigned(updated, key, o, ToOthers(ss, o.myRole))
  }

  function CrankSigned(updated: Objective, key: Address, o: Objective, ms: seq<Message>): Cranked
    requires Proper(updated)
  {
    if !FullySigned(updated) then Cranked(updated, ms, ForCompleteFinal, None)
    else CrankLedgers(updated, key, o, ms)
  }

  /** Left before right. The objective `o` that an error falls back to shares its ledgers with
      `updated`, so that what was done on the left stays done. */
  function CrankLedgers(updated: Objective, key: Address, o: Objective, ms: seq<Message>): Cranked
    requires Proper(updated)
  {
    match DefundSide(updated, updated.toMyLeft, key)
    case Err(e) => Cranked(o, [], ForNothing, Some(LedgerUpdate(e)))
    case Ok((left, ms1)) =>
      match DefundSide(updated, updated.toMyRight, key)
      case Err(e) => Cranked(o.(toMyLeft := left), [], ForNothing, Some(LedgerUpdate(e)))
      case Ok((right, ms2)) =>
        var o2 := updated.(toMyLeft := left, toMyRight := right);
        if SideDefunded(o2, left) && SideDefunded(o2, right)
        then Cranked(o2.(status := VirtualFund.Completed), ms + ms1 + ms2, ForNothing, None)
        else Cranked(o2, ms + ms1 + ms2, ForLedgerDefunding, None)
  }
}

/** Three virtual fund objectives and the two ledgers between them: the steps they take, and the
    invariant of their runs. */
module VirtualFundWorld {
  import opened Types
  import opened States
  import opened LedgerVars
  import opened Consensus
  import opened LedgerRun
  import opened Channels
  import opened Setup
  import opened Messages
  import opened VirtualFund
  import opened GuaranteeRun

  datatype Party = Party(status: Status, v: Channel)

  /** `s` is the prefund state of the virtual channel. Ledger e lies between parties e and e + 1, and
      `leftLeads[e]` tells whether party e is its leader. `states` holds every signed state ever sent,
      with its addressee. */
  datatype World = World(
    s: State,
    leftLeads: seq<bool>,
    parties: seq<Party>,
    ledgers: seq<System>,
    states: set<Letter>
  )

  /** What is fixed: three distinct participants, two different ledgers led by the right parties, one
      asset with non-negative amounts. */
  ghost predicate Shaped(w: World) {
    && |w.leftLeads| == 2 && |w.parties| == 3 && |w.ledgers| == 2
    && |w.s.fixed.participants| == 3 && DistinctParticipants(w.s.fixed.participants)
    && w.s.turnNum == PreFundTurnNum && w.s.fixed.channelId != 0
    && |w.s.outcome| == 1 && |w.s.outcome[0].allocations| == 2
    && w.s.outcome[0].allocations[0].amount >= 0 && w.s.outcome[0].allocations[1].amount >= 0
    && w.ledgers[0].leader.fp.channelId != w.ledgers[1].leader.fp.channelId
    && LedgerShaped(w, 0) && LedgerShaped(w, 1)
  }

  ghost predicate LedgerShaped(w: World, e: nat)
    requires e < |w.leftLeads| && e < |w.ledgers| && e + 1 < |w.s.fixed.participants|
  {
    && WellFormed(w.ledgers[e])
    && Me(w.ledgers[e].leader.fp, RoleOf(w, e, e)) == w.s.fixed.participants[e]
    && Me(w.ledgers[e].leader.fp, RoleOf(w, e, e + 1)) == w.s.fixed.participants[e + 1]
  }

  /** The role of party p on ledger e. */
  function RoleOf(w: World, e: nat, p: nat): Role
    requires e < |w.leftLeads|
  {
    if w.leftLeads[e] == (p == e) then Leader else Follower
  }

  /** The connection of party p to ledger e. */
  ghost function ConnectionOf(w: World, e: nat, p: nat): Connection
    requires Shaped(w) && e < 2
  {
    Connection(Side(w.ledgers[e], RoleOf(w, e, p)), InfoToTheRight(w.s, e))
  }

  ghost function Expected(w: World, e: nat): Proposal
    requires Shaped(w) && e < 2
  {
    ExpectedProposal(ConnectionOf(w, e, e))
  }

  ghost function ObjectiveOf(w: World, p: nat): Objective
    requires Shaped(w) && p < 3
  {
    Objective(
      w.parties[p].status, w.parties[p].v,
      if p > 0 then Some(ConnectionOf(w, p - 1, p)) else None,
      if p < 2 then Some(ConnectionOf(w, p, p)) else None,
      p, w.s.outcome[0].allocations[0].amount, w.s.outcome[0].allocations[1].amount)
  }

  /** The objectives are those that the constructor makes from the ledgers of the parties. */
  lemma ObjectivesAreConstructed(w: World, p: nat, preApprove: bool, left: Option<Ledger>, right: Option<Ledger>)
    requires Shaped(w) && p < 3 && !IsExternal(w.s.fixed.channelId)
    requires w.s.outcome[0].allocations[0].destination == AddressToDestination(w.s.fixed.participants[0])
    requires w.s.outcome[0].allocations[1].destination == AddressToDestination(w.s.fixed.participants[2])
    requires w.parties[p] == Party(if preApprove then Approved else Unapproved, NewChannel(w.s, p))
    requires p > 0 ==> left == Some(Side(w.ledgers[p - 1], RoleOf(w, p - 1, p)))
    requires p < 2 ==> right == Some(Side(w.ledgers[p], RoleOf(w, p, p)))
    ensures ConstructFromState(preApprove, w.s, w.s.fixed.participants[p], left, right) == Ok(ObjectiveOf(w, p))
  {
    LastIndexIs(w.s.fixed.participants, p, 3);
  }

  // ------------------------------------------------------------------
  // Steps
  // ------------------------------------------------------------------

  /** `Other` is a step of one ledger: a delivery, or a proposal or signature by another objective. */
  datatype Act =
    | Approve(p: nat)
    | CrankParty(p: nat)
    | DeliverState(p: nat, ss: SignedState, order: seq<nat>)
    | Other(e: nat, step: Step)

  /** Ledger e once party p has turned its objective into `o` and sent `ms`. */
  ghost function LedgerAfter(w: World, e: nat, p: nat, o: Objective, ms: seq<Message>): System
    requires Shaped(w) && e < 2 && p < 3 && WellConnected(o) && o.myRole == p
  {
    if p == e then Sending(w.ledgers[e], RoleOf(w, e, p), o.toMyRight.value.ledger, ms)
    else if p == e + 1 then Sending(w.ledgers[e], RoleOf(w, e, p), o.toMyLeft.value.ledger, ms)
    else w.ledgers[e]
  }

  ghost function LedgersAfter(w: World, p: nat, o: Objective, ms: seq<Message>): seq<System>
    requires Shaped(w) && p < 3 && WellConnected(o) && o.myRole == p
  {
    [LedgerAfter(w, 0, p, o, ms), LedgerAfter(w, 1, p, o, ms)]
  }

  /** A crank that fails leaves everything as it was. */
  ghost function AfterCrank(w: World, p: nat, r: Cranked): World
    requires Shaped(w) && p < 3 && WellConnected(r.objective) && r.objective.myRole == p
  {
    if r.failed.Some? then w
    else w.(
      parties := w.parties[p := Party(r.objective.status, r.objective.v)],
      ledgers := LedgersAfter(w, p, r.objective, r.messages),
      states := w.states + StatesIn(r.messages))
  }

  lemma PostfundKeepsConnections(o: Objective, key: Address)
    requires WellConnected(o) && PostFundTurnNum in o.v.signedStates && CrankPostfund(o, key).Ok?
    ensures var r := CrankPostfund(o, key).value.0;
            WellConnected(r) && r.myRole == o.myRole
  {
  }

  lemma FundingKeepsConnections(updated: Objective, key: Address, o: Objective, ms: seq<Message>)
    requires Crankable(updated) && WellConnected(o) && o.myRole == updated.myRole
    ensures var r := CrankFromFunding(updated, key, o, ms).objective;
            WellConnected(r) && r.myRole == o.myRole
  {
    match CrankFunding(updated, key) {
      case Err(_) =>
      case Ok((o1, _)) =>
        if CrankPostfund(o1, key).Ok? {
          PostfundKeepsConnections(o1, key);
        }
    }
  }

  lemma CrankKeepsConnections(o: Objective, key: Address)
    requires Crankable(o)
    ensures var r := Crank(o, key).objective;
            WellConnected(r) && r.myRole == o.myRole
  {
    match SignIfNeeded(o.v, PreFundTurnNum, key) {
      case Err(_) =>
      case Ok((v, ss)) => FundingKeepsConnections(o.(v := v), key, o, MessagesFor(ss, o.v.myIndex));
    }
  }

  /** The signed state was sent to party p. */
  ghost predicate Sent(w: World, p: nat, ss: SignedState)
    requires p < |w.s.fixed.participants|
  {
    Letter(w.s.fixed.participants[p], ss) in w.states
  }

  ghost function NextWorld(w: World, a: Act): World
    requires Shaped(w)
  {
    match a
    case Approve(p) =>
      if p < 3 && w.parties[p].status == Unapproved
      then w.(parties := w.parties[p := w.parties[p].(status := Approved)]) else w
    case CrankParty(p) =>
      if p < 3 && Crankable(ObjectiveOf(w, p)) then
        CrankKeepsConnections(ObjectiveOf(w, p), w.s.fixed.participants[p]);
        AfterCrank(w, p, Crank(ObjectiveOf(w, p), w.s.fixed.participants[p]))
      else w
    case DeliverState(p, ss, order) =>
      if p < 3 && Sent(w, p, ss) && IsOrder(order, ss.sigs) then
        (match Update(ObjectiveOf(w, p), Event(w.s.fixed.channelId, Some(ss), order, None))
         case Err(_) => w
         case Ok(o) => w.(parties := w.parties[p := Party(o.status, o.v)]))
      else w
    case Other(e, step) =>
      if e < 2 && Minds(step, w.s.fixed.channelId) then w.(ledgers := w.ledgers[e := Next(w.ledgers[e], step)]) else w
  }

  /** Taking a proposal about the channel into an objective is delivering it on the one ledger it
      names: such deliveries are among the `Other` steps. */
  lemma UpdateIsDeliveryOnItsLedger(w: World, p: nat, e: nat, sp: SignedProposal)
    requires Shaped(w) && p < 3 && e < 2 && (p == e || p == e + 1) && w.parties[p].v.fixed == w.s.fixed
    requires Target(sp.proposal) == w.s.fixed.channelId
    requires sp.proposal.ledgerId == w.ledgers[e].leader.fp.channelId != 0 && SentTo(w.ledgers[e], RoleOf(w, e, p), sp)
    ensures var w' := NextWorld(w, Other(e, DeliveryTo(RoleOf(w, e, p), sp)));
            && Shaped(w')
            && Update(ObjectiveOf(w, p), Event(w.s.fixed.channelId, None, [], Some(sp))) == Ok(ObjectiveOf(w', p))
  {
    UpdateIsDelivery(ConnectionOf(w, e, p), w.ledgers[e], RoleOf(w, e, p), sp);
  }

  // ------------------------------------------------------------------
  // The invariant
  // ------------------------------------------------------------------

  /** Who has seen whose signatures, and the histories of the ledgers. */
  datatype Account = Account(pre: seq<set<nat>>, post: seq<set<nat>>, histories: seq<History>)

  /** Party p holds the guarantee in the doubly signed state of each of its ledgers. */
  ghost predicate PartyFunded(w: World, p: nat)
    requires Shaped(w) && p < 3
  {
    && (p > 0 ==> HoldsGuarantee(Side(w.ledgers[p - 1], RoleOf(w, p - 1, p)), Expected(w, p - 1)))
    && (p < 2 ==> HoldsGuarantee(Side(w.ledgers[p], RoleOf(w, p, p)), Expected(w, p)))
  }

  ghost predicate LedgersOnTrack(w: World, c: Account)
    requires Shaped(w)
  {
    && |c.histories| == 2
    && OnTrack(w.ledgers[0], c.histories[0], Expected(w, 0))
    && OnTrack(w.ledgers[1], c.histories[1], Expected(w, 1))
  }

  /** Party p has seen exactly these signatures, and has completed only with all of them. */
  ghost predicate Saw(s: State, p: nat, party: Party, pre: set<nat>, post: set<nat>) {
    && |s.fixed.participants| == 3 && Opening(s, pre, post)
    && party.v == SetupChannel(s, p, 0, pre, post)
    && (party.status == Completed ==> |post| == 3)
  }

  ghost predicate PartySeen(w: World, c: Account, p: nat)
    requires Shaped(w) && p < 3 && |c.pre| == |c.post| == 3
  {
    Saw(w.s, p, w.parties[p], c.pre[p], c.post[p])
  }

  /** Whoever has signed the postfund state had all prefund signatures and its ledgers funded. */
  ghost predicate SignedWhenFunded(w: World, c: Account, p: nat)
    requires Shaped(w) && p < 3 && |c.pre| == |c.post| == 3
  {
    p in c.post[p] ==> |c.pre[p]| == 3 && PartyFunded(w, p)
  }

  /** Nobody's signature is seen that its owner has not made. */
  ghost predicate SignedByOwner(c: Account, p: nat)
    requires p < 3 && |c.post| == 3
  {
    forall q :: q in c.post[p] ==> q < 3 && q in c.post[q]
  }

  ghost predicate Circulated(w: World, c: Account, ss: SignedState)
    requires Shaped(w) && |c.post| == 3
  {
    exists i :: 0 <= i < 3 && IsSetupSignature(w, c, ss, i)
  }

  ghost predicate IsSetupSignature(w: World, c: Account, ss: SignedState, i: nat)
    requires Shaped(w) && |c.post| == 3 && i < 3
  {
    ss == OneSignature(w.s, i) || (ss == OneSignature(SetupState(w.s, PostFundTurnNum), i) && i in c.post[i])
  }

  /** The parties' part of the account. */
  ghost predicate Views(c: Account, w: World) {
    && Shaped(w) && |c.pre| == |c.post| == 3
    && (forall p :: 0 <= p < 3 ==> PartySeen(w, c, p))
    && (forall p :: 0 <= p < 3 ==> SignedWhenFunded(w, c, p))
    && (forall p :: 0 <= p < 3 ==> SignedByOwner(c, p))
    && (forall x :: x in w.states ==> Circulated(w, c, x.ss))
  }

  ghost predicate Accounts(c: Account, w: World) {
    Views(c, w) && LedgersOnTrack(w, c)
  }

  /** The ledgers have moved on without anybody losing the guarantee. */
  ghost predicate LedgersMoved(w: World, w': World)
    requires Shaped(w)
  {
    && |w'.ledgers| == 2 && w'.s == w.s && w'.leftLeads == w.leftLeads && |w'.parties| == 3
    && LedgerMoved(w, w', 0) && LedgerMoved(w, w', 1)
  }

  ghost predicate LedgerMoved(w: World, w': World, e: nat)
    requires Shaped(w) && e < 2 && |w'.ledgers| == 2
  {
    && WellFormed(w'.ledgers[e]) && w'.ledgers[e].leader.fp == w.ledgers[e].leader.fp
    && Keeps(w.ledgers[e], w'.ledgers[e], Expected(w, e))
  }

  lemma MovedKeepsShape(w: World, w': World)
    requires Shaped(w) && LedgersMoved(w, w')
    ensures Shaped(w')
    ensures forall e :: 0 <= e < 2 ==> Expected(w', e) == Expected(w, e)
    ensures forall p :: 0 <= p < 3 && PartyFunded(w, p) ==> PartyFunded(w', p)
  {
    assert LedgerMoved(w, w', 0) && LedgerMoved(w, w', 1);
    forall e | 0 <= e < 2 ensures LedgerShaped(w', e) {
      assert LedgerShaped(w, e);
      assert LedgerMoved(w, w', e);
    }
    forall e | 0 <= e < 2 ensures Expected(w', e) == Expected(w, e) {
      assert LedgerMoved(w, w', e);
      ExpectedDependsOnId(w, e);
      ExpectedDependsOnId(w', e);
    }
    forall p | 0 <= p < 3 && PartyFunded(w, p) ensures PartyFunded(w', p) {
      if p > 0 {
        assert LedgerMoved(w, w', p - 1);
      }
      if p < 2 {
        assert LedgerMoved(w, w', p);
      }
    }
  }

  lemma ExpectedDependsOnId(w: World, e: nat)
    requires Shaped(w) && e < 2
    ensures var info := InfoToTheRight(w.s, e);
            Expected(w, e) == Proposal(w.ledgers[e].leader.fp.channelId, Add(ExpectedGuarantee(info), info.leftAmount))
  {
    assert LedgerShaped(w, e);
  }
}

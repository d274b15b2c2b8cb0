/** Three virtual defund objectives and the two ledgers between them: the steps they take, and the
    invariant of their runs. */
module VirtualDefundWorld {
  import opened Types
  import opened Outcomes
  import opened States
  import opened LedgerVars
  import opened Consensus
  import opened LedgerRun
  import opened Channels
  import opened Setup
  import opened Messages
  import opened VirtualDefund
  import opened VirtualDefundCrank
  import opened GuaranteeRun
  import opened RemovalRun
  import VirtualFund

  datatype Party = Party(status: Status, signatures: seq<Option<Signature>>)

  /** What all participants know: the channel, its initial outcome and the payment. */
  datatype Terms = Terms(vFixed: FixedPart, initialOutcome: SingleAssetExit, paidToBob: int)

  /** Ledger e lies between parties e and e + 1, and `leftLeads[e]` tells whether party e is its
      leader. `states` holds every signed state ever sent, with its addressee. */
  datatype World = World(
    terms: Terms,
    leftLeads: seq<bool>,
    parties: seq<Party>,
    ledgers: seq<System>,
    states: set<Letter>
  )

  function Final(t: Terms): State
    requires |t.initialOutcome.allocations| >= 2
  {
    State(t.vFixed, [FinalOutcome(t.initialOutcome, t.paidToBob)], FinalTurnNum, true)
  }

  ghost predicate Shaped(w: World) {
    && |w.leftLeads| == 2 && |w.parties| == 3 && |w.ledgers| == 2
    && |w.terms.vFixed.participants| == 3 && DistinctParticipants(w.terms.vFixed.participants)
    && |w.terms.initialOutcome.allocations| == 2
    && |w.parties[0].signatures| == |w.parties[1].signatures| == |w.parties[2].signatures| == 3
    && w.ledgers[0].leader.fp.channelId != w.ledgers[1].leader.fp.channelId
    && LedgerShaped(w, 0) && LedgerShaped(w, 1)
  }

  ghost predicate LedgerShaped(w: World, e: nat)
    requires e < |w.leftLeads| && e < |w.ledgers| && e + 1 < |w.terms.vFixed.participants|
  {
    && WellFormed(w.ledgers[e])
    && Me(w.ledgers[e].leader.fp, RoleOf(w, e, e)) == w.terms.vFixed.participants[e]
    && Me(w.ledgers[e].leader.fp, RoleOf(w, e, e + 1)) == w.terms.vFixed.participants[e + 1]
  }

  /** The role of party p on ledger e. */
  function RoleOf(w: World, e: nat, p: nat): Role
    requires e < |w.leftLeads|
  {
    if w.leftLeads[e] == (p == e) then Leader else Follower
  }

  /** Party p's side of ledger e. */
  ghost function SideOf(w: World, e: nat, p: nat): Ledger
    requires Shaped(w) && e < 2
  {
    Side(w.ledgers[e], RoleOf(w, e, p))
  }

  ghost function Expected(w: World, e: nat): Proposal
    requires Shaped(w) && e < 2
  {
    Proposal(w.ledgers[e].leader.fp.channelId,
             Remove(w.terms.vFixed.channelId,
                    FinalOutcome(w.terms.initialOutcome, w.terms.paidToBob).allocations[0].amount))
  }

  ghost function ObjectiveOf(w: World, p: nat): (o: Objective)
    requires Shaped(w) && p < 3
    ensures Proper(o)
  {
    Objective(
      w.parties[p].status, w.terms.initialOutcome, w.terms.paidToBob, w.terms.vFixed, w.parties[p].signatures,
      if p > 0 then Some(SideOf(w, p - 1, p)) else None,
      if p < 2 then Some(SideOf(w, p, p)) else None, p)
  }

  // ------------------------------------------------------------------
  // Steps
  // ------------------------------------------------------------------

  /** `Other` is a step of one ledger: a delivery, or a proposal or signature by another objective. */
  datatype Act =
    | Approve(p: nat)
    | CrankParty(p: nat)
    | DeliverState(p: nat, ss: SignedState)
    | Other(e: nat, step: Step)

  /** Ledger e once party p has turned its objective into `o` and sent `ms`. */
  ghost function LedgerAfter(w: World, e: nat, p: nat, o: Objective, ms: seq<Message>): System
    requires Shaped(w) && e < 2 && p < 3 && Proper(o) && o.myRole == p
  {
    if p == e then Sending(w.ledgers[e], RoleOf(w, e, p), o.toMyRight.value, ms)
    else if p == e + 1 then Sending(w.ledgers[e], RoleOf(w, e, p), o.toMyLeft.value, ms)
    else w.ledgers[e]
  }

  ghost function LedgersAfter(w: World, p: nat, o: Objective, ms: seq<Message>): seq<System>
    requires Shaped(w) && p < 3 && Proper(o) && o.myRole == p
  {
    [LedgerAfter(w, 0, p, o, ms), LedgerAfter(w, 1, p, o, ms)]
  }

  /** The objective as a crank leaves it; nothing is stored of one that fails. */
  ghost function AfterCrank(w: World, p: nat, r: Cranked): World
    requires Shaped(w) && p < 3 && Proper(r.objective) && r.objective.myRole == p
  {
    if r.failed.Some? then w
    else w.(
      parties := w.parties[p := Party(r.objective.status, r.objective.signatures)],
      ledgers := LedgersAfter(w, p, r.objective, r.messages),
      states := w.states + StatesIn(r.messages))
  }

  lemma CrankKeepsProper(o: Objective)
    requires Proper(o)
    ensures var r := Crank(o, MyKey(o)).objective;
            Proper(r) && r.myRole == o.myRole
  {
    LedgersKeepProper(Signed(o), o, []);
    if o.status == VirtualFund.Approved && o.signatures[o.myRole].None? {
      match SignedFinal(FinalState(o), Signed(o).signatures, 3) {
        case Err(_) =>
        case Ok(ss) => LedgersKeepProper(Signed(o), o, ToOthers(ss, o.myRole));
      }
    }
  }

  /** The signed state was sent to party p. */
  ghost predicate Sent(w: World, p: nat, ss: SignedState)
    requires p < |w.terms.vFixed.participants|
  {
    Letter(w.terms.vFixed.participants[p], ss) in w.states
  }

  ghost function NextWorld(w: World, a: Act): World
    requires Shaped(w)
  {
    match a
    case Approve(p) =>
      if p < 3 && w.parties[p].status == VirtualFund.Unapproved
      then w.(parties := w.parties[p := w.parties[p].(status := VirtualFund.Approved)]) else w
    case CrankParty(p) =>
      if p < 3 then
        CrankKeepsProper(ObjectiveOf(w, p));
        AfterCrank(w, p, Crank(ObjectiveOf(w, p), w.terms.vFixed.participants[p]))
      else w
    case DeliverState(p, ss) =>
      if p < 3 && Sent(w, p, ss) then
        (match Update(ObjectiveOf(w, p), Event(w.terms.vFixed.channelId, Some(ss), None))
         case Err(_) => w
         case Ok(o) => w.(parties := w.parties[p := Party(o.status, o.signatures)]))
      else w
    case Other(e, step) =>
      if e < 2 && Minds(step, w.terms.vFixed.channelId) then w.(ledgers := w.ledgers[e := Next(w.ledgers[e], step)])
      else w
  }

  // ------------------------------------------------------------------
  // The invariant
  // ------------------------------------------------------------------

  /** Whose signatures each party holds, and the histories of the ledgers. */
  datatype Account = Account(signed: seq<set<nat>>, histories: seq<History>)

  /** The signatures of the participants in `who`, in the order of the participants. */
  ghost function SignaturesOf(t: Terms, who: set<nat>): seq<Option<Signature>>
    requires |t.initialOutcome.allocations| >= 2 && |t.vFixed.participants| == 3
  {
    [SignatureOf(t, who, 0), SignatureOf(t, who, 1), SignatureOf(t, who, 2)]
  }

  ghost function SignatureOf(t: Terms, who: set<nat>, i: nat): Option<Signature>
    requires |t.initialOutcome.allocations| >= 2 && i < |t.vFixed.participants|
  {
    if i in who then Some(Sign(Final(t), t.vFixed.participants[i])) else None
  }

  /** The final state signed by the participants in `who`. */
  ghost function FinalSignedBy(t: Terms, who: set<nat>): SignedState
    requires |t.initialOutcome.allocations| >= 2 && forall q :: q in who ==> q < |t.vFixed.participants|
  {
    SignedState(Final(t), SigsOf(Final(t), who))
  }

  /** Everybody in `who` is a participant who has signed. */
  ghost predicate HaveSigned(c: Account, who: set<nat>)
    requires |c.signed| == 3
  {
    forall q :: q in who ==> q < 3 && q in c.signed[q]
  }

  ghost predicate AllHaveSigned(c: Account)
    requires |c.signed| == 3
  {
    forall q :: 0 <= q < 3 ==> q in c.signed[q]
  }

  ghost predicate PartyView(w: World, c: Account, p: nat)
    requires Shaped(w) && |c.signed| == 3 && p < 3
  {
    w.parties[p].signatures == SignaturesOf(w.terms, c.signed[p]) && HaveSigned(c, c.signed[p])
  }

  /** Party p's ledgers no longer hold the guarantee. */
  ghost predicate PartyDefunded(w: World, p: nat)
    requires Shaped(w) && p < 3
  {
    && (p > 0 ==> !Holds(SideOf(w, p - 1, p), Expected(w, p - 1)))
    && (p < 2 ==> !Holds(SideOf(w, p, p), Expected(w, p)))
  }

  ghost predicate CompletedWhenDefunded(w: World, p: nat)
    requires Shaped(w) && p < 3
  {
    w.parties[p].status == VirtualFund.Completed ==> PartyDefunded(w, p)
  }

  ghost predicate IsFinal(w: World, c: Account, ss: SignedState, who: set<nat>)
    requires Shaped(w) && |c.signed| == 3
  {
    HaveSigned(c, who) && ss == FinalSignedBy(w.terms, who)
  }

  ghost predicate Circulated(w: World, c: Account, ss: SignedState)
    requires Shaped(w) && |c.signed| == 3
  {
    exists who :: IsFinal(w, c, ss, who)
  }

  /** The parties' part of the account. */
  ghost predicate Views(c: Account, w: World) {
    && Shaped(w) && |c.signed| == 3
    && (forall p :: 0 <= p < 3 ==> PartyView(w, c, p))
    && (forall p :: 0 <= p < 3 ==> CompletedWhenDefunded(w, p))
    && (forall x :: x in w.states ==> Circulated(w, c, x.ss))
  }

  /** The ledger started with a guarantee of the channel's total. */
  ghost predicate FundedAtFirst(t: Terms, h: History)
    requires |t.initialOutcome.allocations| == 2
  {
    && t.vFixed.channelId in h.start.outcome.guarantees
    && h.start.outcome.guarantees[t.vFixed.channelId].amount
       == t.initialOutcome.allocations[0].amount + t.initialOutcome.allocations[1].amount
  }

  ghost predicate LedgersOnCourse(w: World, c: Account)
    requires Shaped(w)
  {
    && |c.histories| == 2
    && OnCourse(w.ledgers[0], c.histories[0], Expected(w, 0)) && FundedAtFirst(w.terms, c.histories[0])
    && OnCourse(w.ledgers[1], c.histories[1], Expected(w, 1)) && FundedAtFirst(w.terms, c.histories[1])
  }

  ghost predicate RemovalMade(w: World, c: Account, e: nat)
    requires Shaped(w) && e < 2 && |c.histories| == 2
  {
    RemovalAmong(c.histories[e], Expected(w, e), |c.histories[e].made|)
  }

  /** Nothing has been removed from any ledger unless all participants have signed. */
  ghost predicate RemovedWhenSigned(w: World, c: Account)
    requires Shaped(w) && |c.signed| == 3 && |c.histories| == 2
  {
    RemovalMade(w, c, 0) || RemovalMade(w, c, 1) ==> AllHaveSigned(c)
  }

  ghost predicate Accounts(c: Account, w: World) {
    Views(c, w) && LedgersOnCourse(w, c) && RemovedWhenSigned(w, c)
  }
}

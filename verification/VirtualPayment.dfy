/** A virtual channel from funding to defunding: what the two runs of its three participants together
    do to their balances, whatever other objectives do on the ledgers meanwhile. */
module VirtualPayment {
  import opened Types
  import opened LedgerVars
  import opened Consensus
  import opened LedgerRun
  import opened GuaranteeRun
  import opened LedgerMoves
  import F = VirtualFundWorld
  import D = VirtualDefundWorld
  import VirtualFund
  import VirtualFundRun
  import VirtualFundLedgers
  import VirtualDefundRun
  import VirtualDefundLedgers

  /** The funding run has ended with a participant that has completed. */
  ghost predicate Funded(w: F.World, acts: seq<F.Act>, p: nat) {
    && VirtualFundRun.Start(w) && p < 3
    && |VirtualFundRun.RunWorld(w, acts).parties| == 3
    && VirtualFundRun.RunWorld(w, acts).parties[p].status == VirtualFund.Completed
  }

  ghost predicate Defunded(x: D.World, acts: seq<D.Act>) {
    VirtualDefundRun.Start(x) && VirtualDefundLedgers.AllCompleted(VirtualDefundRun.RunWorld(x, acts))
  }

  /** A channel, what Alice and Bob put in, what is paid to Bob, and whether the left party leads. */
  datatype Deal = Deal(id: Destination, a0: int, b0: int, paid: int, leftLeads: seq<bool>)

  ghost predicate Funds(w: F.World, deal: Deal) {
    && w.s.fixed.channelId == deal.id && w.leftLeads == deal.leftLeads && |deal.leftLeads| == 2
    && |w.s.outcome| == 1 && |w.s.outcome[0].allocations| == 2
    && w.s.outcome[0].allocations[0].amount == deal.a0 && w.s.outcome[0].allocations[1].amount == deal.b0
  }

  ghost predicate Defunds(d: D.World, deal: Deal) {
    && d.terms.vFixed.channelId == deal.id && d.leftLeads == deal.leftLeads && d.terms.paidToBob == deal.paid
    && |d.terms.initialOutcome.allocations| == 2 && d.terms.initialOutcome.allocations[0].amount == deal.a0
  }

  /** The balances of ledger e are labelled with the destinations of its leader and its follower. */
  ghost predicate Labelled(w: F.World, e: nat)
    requires F.Shaped(w) && e < 2
  {
    w.ledgers[e].leader.current.vars.outcome.leader.destination
    == AddressToDestination(w.s.fixed.participants[if w.leftLeads[e] then e else e + 1])
  }

  // ------------------------------------------------------------------
  // One ledger
  // ------------------------------------------------------------------

  /** What leader and follower of a ledger gain by the channel. */
  function Net(leftLeads: bool, a0: int, b0: int, paid: int): Moved {
    if leftLeads then Moved(-paid, paid) else Moved(b0 + paid - a0, a0 - paid - b0)
  }

  /** The outcome holds a guarantee for the channel, whose left party leads or does not. */
  predicate Guarantees(o: LedgerOutcome, id: Destination, leftLeads: bool, amount: int) {
    && id in o.guarantees && o.guarantees[id].amount == amount
    && (o.leader.destination == o.guarantees[id].left <==> leftLeads)
  }

  /** Part of a ledger's history: its first n proposals, of which e is about the channel. */
  datatype Part = Part(h: History, e: Proposal, n: nat)

  ghost predicate Sound(x: Part) {
    x.n <= |x.h.made| && StateAt(x.h, x.n).Ok?
  }

  ghost function End(x: Part): LedgerOutcome
    requires Sound(x)
  {
    StateAt(x.h, x.n).value.outcome
  }

  /** What was moved over two parts, but for what others moved. */
  ghost function Own(x: Part, y: Part): Moved
    requires Sound(x) && Sound(y)
  {
    var all := MovedBetween(x.h.start.outcome, End(y));
    var others := Plus(MovedByOthers(x.h, x.e, x.n), MovedByOthers(y.h, y.e, y.n));
    Moved(all.leader - others.leader, all.follower - others.follower)
  }

  ghost predicate Charged(x: Part, deal: Deal, e: nat) {
    && Sound(x) && Moves(x.h, x.e, x.n, Moved(-deal.a0, -deal.b0))
    && e < |deal.leftLeads| && Guarantees(End(x), deal.id, deal.leftLeads[e], deal.a0 + deal.b0)
  }

  ghost predicate PaidBack(y: Part, deal: Deal) {
    && Sound(y) && deal.id in y.h.start.outcome.guarantees
    && Moves(y.h, y.e, y.n, Returned(y.h.start.outcome, deal.id, deal.a0 - deal.paid))
  }

  ghost predicate Nets(x: Part, y: Part, deal: Deal, e: nat) {
    && Sound(x) && Sound(y) && e < |deal.leftLeads|
    && Own(x, y) == Net(deal.leftLeads[e], deal.a0, deal.b0, deal.paid)
  }

  lemma NetOf(x: Part, y: Part, deal: Deal, e: nat)
    requires Charged(x, deal, e) && PaidBack(y, deal) && y.h.start.outcome == End(x)
    ensures Nets(x, y, deal, e)
  {
  }

  // ------------------------------------------------------------------
  // The two runs
  // ------------------------------------------------------------------

  /** What one side of ledger e has seen by the end of the funding run. */
  ghost predicate FundingPart(w: F.World, acts: seq<F.Act>, e: nat, role: Role, x: Part) {
    && VirtualFundRun.Start(w) && e < 2 && VirtualFundLedgers.LedgerHistory(w, acts, e, x.h)
    && x.e == F.Expected(w, e) && x.n == SeenBy(x.h, role)
  }

  ghost predicate DefundingPart(w: D.World, acts: seq<D.Act>, e: nat, role: Role, y: Part) {
    && VirtualDefundRun.Start(w) && e < 2 && VirtualDefundLedgers.LedgerHistory(w, acts, e, y.h)
    && y.e == D.Expected(w, e) && y.n == SeenBy(y.h, role)
  }

  ghost predicate HoldsFor(o: LedgerOutcome, w: F.World, e: nat)
    requires F.Shaped(w) && e < 2
  {
    var a, ps := w.s.outcome[0].allocations, w.s.fixed.participants;
    Includes(o, Guarantee(a[0].amount + a[1].amount, w.s.fixed.channelId,
                          AddressToDestination(ps[e]), AddressToDestination(ps[e + 1])))
  }

  /** After funding, a side's state holds the guarantee. */
  lemma SideHoldsFor(w: F.World, acts: seq<F.Act>, p: nat, e: nat, role: Role)
    requires Funded(w, acts, p) && e < 2 && F.Shaped(VirtualFundRun.RunWorld(w, acts))
    ensures HoldsFor(Side(VirtualFundRun.RunWorld(w, acts).ledgers[e], role).current.vars.outcome, w, e)
  {
    var u := VirtualFundRun.RunWorld(w, acts);
    VirtualFundRun.RunKeepsChannel(w, acts);
    var q := if F.RoleOf(u, e, e) == role then e else e + 1;
    VirtualFundRun.CompletionMeansGuaranteed(w, acts, p, q);
    assert VirtualFundRun.SecuredOn(u, e, q);
  }

  /** And it names the same leader. */
  lemma FundedState(w: F.World, acts: seq<F.Act>, p: nat, e: nat, h: History, role: Role)
    requires Funded(w, acts, p) && e < 2 && VirtualFundLedgers.LedgerHistory(w, acts, e, h)
    ensures var o := Side(VirtualFundRun.RunWorld(w, acts).ledgers[e], role).current.vars.outcome;
            && o.leader.destination == w.ledgers[e].leader.current.vars.outcome.leader.destination
            && HoldsFor(o, w, e)
  {
    SideHoldsFor(w, acts, p, e, role);
    SideStands(VirtualFundRun.RunWorld(w, acts).ledgers[e], h, role);
    LeaderStays(h, SeenBy(h, role));
  }

  lemma FundingEnds(w: F.World, acts: seq<F.Act>, p: nat, e: nat, role: Role, x: Part)
    requires Funded(w, acts, p) && FundingPart(w, acts, e, role, x) && Labelled(w, e)
    ensures Sound(x) && End(x) == Side(VirtualFundRun.RunWorld(w, acts).ledgers[e], role).current.vars.outcome
    ensures var a := w.s.outcome[0].allocations;
            Guarantees(End(x), w.s.fixed.channelId, w.leftLeads[e], a[0].amount + a[1].amount)
  {
    FundedState(w, acts, p, e, x.h, role);
    SideStands(VirtualFundRun.RunWorld(w, acts).ledgers[e], x.h, role);
  }

  lemma FundingMoves(w: F.World, acts: seq<F.Act>, p: nat, e: nat, role: Role, x: Part, deal: Deal)
    requires Funded(w, acts, p) && FundingPart(w, acts, e, role, x) && Labelled(w, e) && Funds(w, deal)
    ensures Charged(x, deal, e)
  {
    FundingEnds(w, acts, p, e, role, x);
    assert Moves(x.h, x.e, x.n, Moved(-deal.a0, -deal.b0)) by {
      VirtualFundLedgers.FundingCharges(w, acts, e, x.h, role, p);
    }
  }

  lemma DefundingMoves(d: D.World, acts: seq<D.Act>, e: nat, role: Role, y: Part, deal: Deal)
    requires Defunded(d, acts) && DefundingPart(d, acts, e, role, y) && Defunds(d, deal)
    ensures PaidBack(y, deal)
    ensures End(y) == Side(VirtualDefundRun.RunWorld(d, acts).ledgers[e], role).current.vars.outcome
  {
    SideStands(VirtualDefundRun.RunWorld(d, acts).ledgers[e], y.h, role);
    VirtualDefundLedgers.DefundingReturns(d, acts, e, y.h, role);
  }

  /** The funding run is over, and x is what one side of ledger e has seen of it. */
  ghost predicate FundedOn(w: F.World, acts: seq<F.Act>, e: nat, x: Part) {
    (exists p :: Funded(w, acts, p)) && (exists role :: FundingPart(w, acts, e, role, x)) && Labelled(w, e)
  }

  ghost predicate DefundedOn(d: D.World, acts: seq<D.Act>, e: nat, y: Part) {
    Defunded(d, acts) && exists role :: DefundingPart(d, acts, e, role, y)
  }

  lemma ChargedOn(w: F.World, acts: seq<F.Act>, e: nat, x: Part, deal: Deal)
    requires FundedOn(w, acts, e, x) && Funds(w, deal)
    ensures Charged(x, deal, e)
  {
    var p :| Funded(w, acts, p);
    var role :| FundingPart(w, acts, e, role, x);
    FundingMoves(w, acts, p, e, role, x, deal);
  }

  lemma PaidBackOn(d: D.World, acts: seq<D.Act>, e: nat, y: Part, deal: Deal)
    requires DefundedOn(d, acts, e, y) && Defunds(d, deal)
    ensures PaidBack(y, deal)
  {
    var role :| DefundingPart(d, acts, e, role, y);
    DefundingMoves(d, acts, e, role, y, deal);
  }

  /** What leader and follower gain by a channel that was funded in one run and defunded in another,
      which starts on ledger e with what one side held at the end of the first. */
  lemma LedgerNet(w: F.World, acts: seq<F.Act>, d: D.World, acts': seq<D.Act>, deal: Deal, e: nat, x: Part, y: Part)
    requires FundedOn(w, acts, e, x) && Funds(w, deal) && DefundedOn(d, acts', e, y) && Defunds(d, deal)
    requires Sound(x) && y.h.start.outcome == End(x)
    ensures Nets(x, y, deal, e)
  {
    ChargedOn(w, acts, e, x, deal);
    PaidBackOn(d, acts', e, y, deal);
    NetOf(x, y, deal, e);
  }

  function LeftOf(leftLeads: bool, m: Moved): int {
    if leftLeads then m.leader else m.follower
  }

  function RightOf(leftLeads: bool, m: Moved): int {
    if leftLeads then m.follower else m.leader
  }

  /** What Alice, Bob and the intermediary gain by the channel, and when it is what it should be. */
  ghost predicate Settles(x: Part, y: Part, x': Part, y': Part, deal: Deal) {
    && Sound(x) && Sound(y) && Sound(x') && Sound(y') && |deal.leftLeads| == 2
    && var leads, leads' := deal.leftLeads[0], deal.leftLeads[1];
       var alice, bob := LeftOf(leads, Own(x, y)), RightOf(leads', Own(x', y'));
       var intermediary := RightOf(leads, Own(x, y)) + LeftOf(leads', Own(x', y'));
       && (alice == -deal.paid <==> leads || deal.a0 == deal.b0)
       && (bob == deal.paid <==> leads' || deal.a0 == deal.b0)
       && (intermediary == 0 <==> leads == leads' || deal.a0 == deal.b0)
  }

  lemma NetsSettle(x: Part, y: Part, x': Part, y': Part, deal: Deal)
    requires |deal.leftLeads| == 2 && Nets(x, y, deal, 0) && Nets(x', y', deal, 1)
    ensures Settles(x, y, x', y', deal)
  {
  }

  /** Once a channel has been funded and defunded, and apart from what other objectives have moved,
      Alice is down by the payment exactly when she leads her ledger or both put in the same, Bob is up
      by it exactly when the intermediary leads his or both put in the same, and the intermediary has
      what it had exactly when it leads one of the two ledgers and not the other, or both put in the
      same. */
  lemma PaymentGoesThroughExactlyWhen(w: F.World, acts: seq<F.Act>, d: D.World, acts': seq<D.Act>, deal: Deal,
                                      x: Part, y: Part, x': Part, y': Part)
    requires Funds(w, deal) && FundedOn(w, acts, 0, x) && FundedOn(w, acts, 1, x')
    requires Defunds(d, deal) && DefundedOn(d, acts', 0, y) && DefundedOn(d, acts', 1, y')
    requires Sound(x) && y.h.start.outcome == End(x) && Sound(x') && y'.h.start.outcome == End(x')
    ensures Settles(x, y, x', y', deal)
  {
    LedgerNet(w, acts, d, acts', deal, 0, x, y);
    LedgerNet(w, acts, d, acts', deal, 1, x', y');
    NetsSettle(x, y, x', y', deal);
  }
}

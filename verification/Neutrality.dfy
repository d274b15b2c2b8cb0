/** What any number of virtual channels, funded and defunded over the same two ledgers in any order,
    do to the balances of Alice, the intermediary and Bob. */
module Neutrality {
  import opened Types
  import opened States
  import opened LedgerVars
  import opened Consensus
  import opened LedgerRun
  import opened GuaranteeRun
  import VirtualDefund
  import VirtualFund

  /** The amounts of a virtual channel, and what Alice pays to Bob through it. */
  datatype Plan = Plan(a0: int, b0: int, paid: int)

  /** A ledger, and the left and right party of every guarantee on it. */
  datatype Place = Place(ledgerId: Destination, left: Destination, right: Destination)

  function PlannedGuarantee(t: map<Destination, Plan>, place: Place, id: Destination): Guarantee
    requires id in t
  {
    Guarantee(t[id].a0 + t[id].b0, id, place.left, place.right)
  }

  function Funding(t: map<Destination, Plan>, place: Place, id: Destination): Proposal
    requires id in t
  {
    Proposal(place.ledgerId, Add(PlannedGuarantee(t, place, id), t[id].a0))
  }

  function Defunding(t: map<Destination, Plan>, place: Place, id: Destination): Proposal
    requires id in t
  {
    Proposal(place.ledgerId, Remove(id, t[id].a0 - t[id].paid))
  }

  /** These are the proposals the two objectives make. */
  lemma ObjectivesMakePlanned(t: map<Destination, Plan>, s: State, role: nat, c: VirtualFund.Connection,
                              o: VirtualDefund.Objective)
    requires role < 2 && |s.fixed.participants| == 3 && |s.outcome| == 1 && |s.outcome[0].allocations| == 2
    requires c.info == VirtualFund.InfoToTheRight(s, role)
    requires o.vFixed == s.fixed && o.initialOutcome == s.outcome[0]
    requires s.fixed.channelId in t
    requires t[s.fixed.channelId]
             == Plan(s.outcome[0].allocations[0].amount, s.outcome[0].allocations[1].amount, o.paidToBob)
    ensures var place := Place(c.ledger.fp.channelId, AddressToDestination(s.fixed.participants[role]),
                               AddressToDestination(s.fixed.participants[role + 1]));
            && VirtualFund.ExpectedProposal(c) == Funding(t, place, s.fixed.channelId)
            && VirtualDefund.RemoveProposalOf(o, c.ledger.fp.channelId) == Defunding(t, place, s.fixed.channelId)
  {
  }

  ghost predicate Planned(t: map<Destination, Plan>, place: Place, p: Proposal) {
    Target(p) in t && (p == Funding(t, place, Target(p)) || p == Defunding(t, place, Target(p)))
  }

  // ------------------------------------------------------------------
  // Sums over channels
  // ------------------------------------------------------------------

  ghost function SumOver(f: map<Destination, int>, ids: set<Destination>): int
    requires ids <= f.Keys
  {
    if ids == {} then 0
    else
      var x :| x in ids;
      f[x] + SumOver(f, ids - {x})
  }

  /** Any channel can be counted first. */
  lemma {:induction false} SumOverSplit(f: map<Destination, int>, ids: set<Destination>, x: Destination)
    requires ids <= f.Keys && x in ids
    ensures SumOver(f, ids) == f[x] + SumOver(f, ids - {x})
    decreases |ids|
  {
    var y :| y in ids && SumOver(f, ids) == f[y] + SumOver(f, ids - {y});
    if y != x {
      SumOverSplit(f, ids - {y}, x);
      SumOverSplit(f, ids - {x}, y);
      assert ids - {y} - {x} == ids - {x} - {y};
    }
  }

  /** What was paid through the channels in the bag, each counted as often as it occurs. */
  ghost function PaidThrough(t: map<Destination, Plan>, bag: multiset<Destination>): int
    requires forall id :: id in bag ==> id in t
    decreases |bag|
  {
    if bag == multiset{} then 0
    else
      var x :| x in bag;
      t[x].paid + PaidThrough(t, bag - multiset{x})
  }

  lemma {:induction false} PaidThroughSplit(t: map<Destination, Plan>, bag: multiset<Destination>, x: Destination)
    requires (forall id :: id in bag ==> id in t) && x in bag
    ensures PaidThrough(t, bag) == t[x].paid + PaidThrough(t, bag - multiset{x})
    decreases |bag|
  {
    var y :| y in bag && PaidThrough(t, bag) == t[y].paid + PaidThrough(t, bag - multiset{y});
    if y != x {
      PaidThroughSplit(t, bag - multiset{y}, x);
      PaidThroughSplit(t, bag - multiset{x}, y);
      assert bag - multiset{y} - multiset{x} == bag - multiset{x} - multiset{y};
    }
  }

  // ------------------------------------------------------------------
  // One ledger
  // ------------------------------------------------------------------

  /** The ledger knows none of the channels, and its leader is the left party. */
  ghost predicate Fresh(t: map<Destination, Plan>, place: Place, v: Vars) {
    v.outcome.leader.destination == place.left && forall id :: id in t ==> id !in v.outcome.guarantees
  }

  ghost predicate AllPlanned(t: map<Destination, Plan>, place: Place, made: seq<SignedProposal>, n: nat)
    requires n <= |made|
  {
    forall k :: 0 <= k < n ==> Planned(t, place, made[k].proposal)
  }

  /** The channels defunded by the first n proposals. */
  ghost function Defunds(made: seq<SignedProposal>, n: nat): multiset<Destination>
    requires n <= |made|
  {
    if n == 0 then multiset{}
    else
      Defunds(made, n - 1)
      + match made[n - 1].proposal.change
        case Add(_, _) => multiset{}
        case Remove(id, _) => multiset{id}
  }

  lemma {:induction false} DefundsArePlanned(t: map<Destination, Plan>, place: Place, made: seq<SignedProposal>, n: nat)
    requires n <= |made| && AllPlanned(t, place, made, n)
    ensures forall id :: id in Defunds(made, n) ==> id in t
  {
    if n > 0 {
      DefundsArePlanned(t, place, made, n - 1);
      assert Planned(t, place, made[n - 1].proposal);
    }
  }

  ghost function LeftAmounts(t: map<Destination, Plan>): map<Destination, int> {
    map id | id in t :: t[id].a0
  }

  ghost function RightAmounts(t: map<Destination, Plan>): map<Destination, int> {
    map id | id in t :: t[id].b0
  }

  /** The channels that the ledger funds. */
  ghost function Held(t: map<Destination, Plan>, v: Vars): set<Destination> {
    v.outcome.guarantees.Keys * t.Keys
  }

  /** The balances in terms of what was paid through channels already defunded and of what the
      channels still held have locked up. */
  ghost predicate Balanced(t: map<Destination, Plan>, place: Place, start: Vars, v: Vars, bag: multiset<Destination>)
    requires forall id :: id in bag ==> id in t
  {
    && v.outcome.leader.destination == place.left
    && (forall id :: id in Held(t, v) ==> v.outcome.guarantees[id] == PlannedGuarantee(t, place, id))
    && v.outcome.leader.amount
       == start.outcome.leader.amount - PaidThrough(t, bag) - SumOver(LeftAmounts(t), Held(t, v))
    && v.outcome.follower.amount
       == start.outcome.follower.amount + PaidThrough(t, bag) - SumOver(RightAmounts(t), Held(t, v))
  }

  lemma FundingBalances(t: map<Destination, Plan>, place: Place, start: Vars, v: Vars, bag: multiset<Destination>,
                        id: Destination)
    requires (forall i :: i in bag ==> i in t) && Balanced(t, place, start, v, bag)
    requires id in t && Apply(v, Funding(t, place, id)).Ok?
    ensures Balanced(t, place, start, Apply(v, Funding(t, place, id)).value, bag)
  {
    var u := Apply(v, Funding(t, place, id)).value;
    assert Held(t, u) == Held(t, v) + {id} && Held(t, u) - {id} == Held(t, v);
    SumOverSplit(LeftAmounts(t), Held(t, u), id);
    SumOverSplit(RightAmounts(t), Held(t, u), id);
  }

  lemma DefundingBalances(t: map<Destination, Plan>, place: Place, start: Vars, v: Vars, bag: multiset<Destination>,
                          id: Destination)
    requires (forall i :: i in bag ==> i in t) && Balanced(t, place, start, v, bag)
    requires id in t && Apply(v, Defunding(t, place, id)).Ok?
    ensures Balanced(t, place, start, Apply(v, Defunding(t, place, id)).value, bag + multiset{id})
  {
    var u := Apply(v, Defunding(t, place, id)).value;
    assert Held(t, u) == Held(t, v) - {id};
    assert v.outcome.guarantees[id] == PlannedGuarantee(t, place, id);
    SumOverSplit(LeftAmounts(t), Held(t, v), id);
    SumOverSplit(RightAmounts(t), Held(t, v), id);
    PaidThroughSplit(t, bag + multiset{id}, id);
    assert bag + multiset{id} - multiset{id} == bag;
  }

  /** The closed form of both balances after any planned proposals. */
  lemma {:induction false} BalancesAfter(t: map<Destination, Plan>, place: Place, start: Vars,
                                         made: seq<SignedProposal>, n: nat)
    requires n <= |made| && Fresh(t, place, start) && AllPlanned(t, place, made, n) && After(start, made, n).Ok?
    ensures forall id :: id in Defunds(made, n) ==> id in t
    ensures Balanced(t, place, start, After(start, made, n).value, Defunds(made, n))
  {
    DefundsArePlanned(t, place, made, n);
    if n == 0 {
      assert Held(t, start) == {};
    } else {
      BalancesAfter(t, place, start, made, n - 1);
      var v, p := After(start, made, n - 1).value, made[n - 1].proposal;
      assert Planned(t, place, p);
      if p.change.Add? {
        FundingBalances(t, place, start, v, Defunds(made, n - 1), Target(p));
        assert Defunds(made, n) == Defunds(made, n - 1);
      } else {
        DefundingBalances(t, place, start, v, Defunds(made, n - 1), Target(p));
      }
    }
  }

  /** The channels funded by the first n proposals. */
  ghost function Funds(made: seq<SignedProposal>, n: nat): multiset<Destination>
    requires n <= |made|
  {
    if n == 0 then multiset{}
    else
      Funds(made, n - 1)
      + match made[n - 1].proposal.change
        case Add(g, _) => multiset{g.target}
        case Remove(_, _) => multiset{}
  }

  /** What a planned proposal does to the channels held. */
  lemma HeldAfter(t: map<Destination, Plan>, place: Place, v: Vars, p: Proposal)
    requires Planned(t, place, p) && Apply(v, p).Ok?
    ensures p.change.Add? ==> Target(p) !in Held(t, v) && Held(t, Apply(v, p).value) == Held(t, v) + {Target(p)}
    ensures p.change.Remove? ==> Target(p) in Held(t, v) && Held(t, Apply(v, p).value) == Held(t, v) - {Target(p)}
  {
  }

  lemma CountedApart(ids: set<Destination>, x: Destination)
    requires x in ids
    ensures multiset(ids) == multiset(ids - {x}) + multiset{x}
  {
  }

  /** Every channel funded has been defunded or is held. */
  lemma {:induction false} FundedIsDefundedOrHeld(t: map<Destination, Plan>, place: Place, start: Vars,
                                                  made: seq<SignedProposal>, n: nat)
    requires n <= |made| && Fresh(t, place, start) && AllPlanned(t, place, made, n) && After(start, made, n).Ok?
    ensures Funds(made, n) == Defunds(made, n) + multiset(Held(t, After(start, made, n).value))
  {
    if n == 0 {
      assert Held(t, start) == {};
    } else {
      FundedIsDefundedOrHeld(t, place, start, made, n - 1);
      OneMoreCounted(t, place, After(start, made, n - 1).value, made, n - 1);
    }
  }

  lemma OneMoreCounted(t: map<Destination, Plan>, place: Place, v: Vars, made: seq<SignedProposal>, n: nat)
    requires n < |made| && Planned(t, place, made[n].proposal) && Apply(v, made[n].proposal).Ok?
    requires Funds(made, n) == Defunds(made, n) + multiset(Held(t, v))
    ensures Funds(made, n + 1) == Defunds(made, n + 1) + multiset(Held(t, Apply(v, made[n].proposal).value))
  {
    var p := made[n].proposal;
    var held, held' := Held(t, v), Held(t, Apply(v, p).value);
    HeldAfter(t, place, v, p);
    if p.change.Add? {
      assert held' - {Target(p)} == held;
      CountedApart(held', Target(p));
    } else {
      CountedApart(held, Target(p));
    }
  }

  // ------------------------------------------------------------------
  // Runs of a ledger
  // ------------------------------------------------------------------

  /** Every proposal of the run is that of an objective for one of the channels. */
  ghost predicate PlannedSteps(t: map<Destination, Plan>, place: Place, steps: seq<Step>) {
    forall k :: 0 <= k < |steps| && steps[k].LeaderPropose? ==> Planned(t, place, steps[k].proposal)
  }

  /** A run over a ledger that knows none of the channels, and its history. There is exactly one. */
  ghost predicate PlannedHistory(t: map<Destination, Plan>, place: Place, s: System, steps: seq<Step>, h: History) {
    && Initial(s) && Fresh(t, place, s.leader.current.vars) && PlannedSteps(t, place, steps)
    && Explains(h, Run(s, steps)) && h.start == s.leader.current.vars
  }

  /** In any run, either side's balances are those of the closed form, for the channels it has seen
      defunded, and every channel it has seen funded has been defunded or is held. */
  lemma RunBalances(t: map<Destination, Plan>, place: Place, s: System, steps: seq<Step>, h: History, role: Role)
    requires PlannedHistory(t, place, s, steps, h)
    ensures forall id :: id in Defunds(h.made, SeenBy(h, role)) ==> id in t
    ensures var v := Side(Run(s, steps), role).current.vars;
            && Balanced(t, place, s.leader.current.vars, v, Defunds(h.made, SeenBy(h, role)))
            && Funds(h.made, SeenBy(h, role)) == Defunds(h.made, SeenBy(h, role)) + multiset(Held(t, v))
  {
    var h0 := EveryRunIsExplained(s, steps);
    HistoryIsDetermined(Run(s, steps), h, h0);
    assert AllPlanned(t, place, h.made, |h.made|);
    BalancesAfter(t, place, h.start, h.made, SeenBy(h, role));
    FundedIsDefundedOrHeld(t, place, h.start, h.made, SeenBy(h, role));
  }

  // ------------------------------------------------------------------
  // Two ledgers
  // ------------------------------------------------------------------

  /** None of the channels is held any more. */
  ghost predicate Settled(t: map<Destination, Plan>, v: Vars) {
    Held(t, v) == {}
  }

  /** From one pair of outcomes to another, the intermediary keeps its total and `paid` has moved from
      Alice to Bob. Alice leads the ledger with the intermediary, which leads the ledger with Bob. */
  ghost predicate MovedThrough(b: LedgerOutcome, b': LedgerOutcome, o: LedgerOutcome, o': LedgerOutcome, paid: int) {
    && o.follower.amount + o'.leader.amount == b.follower.amount + b'.leader.amount
    && o.leader.amount == b.leader.amount - paid
    && o'.follower.amount == b'.follower.amount + paid
  }

  /** Once no channel is held, Alice is down by what was paid on her ledger and Bob up by what was paid
      on his, and the intermediary has what it had exactly when the two are the same. */
  lemma IntermediaryIsNeutralExactlyWhen(t: map<Destination, Plan>, place: Place, place': Place, s: System, s': System,
                                         steps: seq<Step>, steps': seq<Step>, h: History, h': History, role: Role,
                                         role': Role)
    requires PlannedHistory(t, place, s, steps, h) && PlannedHistory(t, place', s', steps', h')
    requires Settled(t, Side(Run(s, steps), role).current.vars) && Settled(t, Side(Run(s', steps'), role').current.vars)
    ensures forall id :: id in Funds(h.made, SeenBy(h, role)) || id in Funds(h'.made, SeenBy(h', role')) ==> id in t
    ensures var b, b' := s.leader.current.vars.outcome, s'.leader.current.vars.outcome;
            var o, o' := Side(Run(s, steps), role).current.vars.outcome,
                         Side(Run(s', steps'), role').current.vars.outcome;
            var paid, paid' := PaidThrough(t, Funds(h.made, SeenBy(h, role))),
                               PaidThrough(t, Funds(h'.made, SeenBy(h', role')));
            && o.leader.amount == b.leader.amount - paid
            && o'.follower.amount == b'.follower.amount + paid'
            && (o.follower.amount + o'.leader.amount == b.follower.amount + b'.leader.amount <==> paid == paid')
  {
    RunBalances(t, place, s, steps, h, role);
    RunBalances(t, place', s', steps', h', role');
    assert Funds(h.made, SeenBy(h, role)) == Defunds(h.made, SeenBy(h, role));
    assert Funds(h'.made, SeenBy(h', role')) == Defunds(h'.made, SeenBy(h', role'));
  }

  /** Whatever virtual channels were funded and defunded over the two ledgers in whatever order, once
      none is held and each was funded as often on the one ledger as on the other, the intermediary
      has what it had, and Alice has paid to Bob exactly what was paid through the channels. Either
      ledger may be seen from either side. */
  lemma RunsAreNeutral(t: map<Destination, Plan>, place: Place, place': Place, s: System, s': System,
                       steps: seq<Step>, steps': seq<Step>, h: History, h': History, role: Role, role': Role)
    requires PlannedHistory(t, place, s, steps, h) && PlannedHistory(t, place', s', steps', h')
    requires Settled(t, Side(Run(s, steps), role).current.vars) && Settled(t, Side(Run(s', steps'), role').current.vars)
    requires Funds(h.made, SeenBy(h, role)) == Funds(h'.made, SeenBy(h', role'))
    ensures forall id :: id in Funds(h.made, SeenBy(h, role)) ==> id in t
    ensures MovedThrough(s.leader.current.vars.outcome, s'.leader.current.vars.outcome,
                         Side(Run(s, steps), role).current.vars.outcome,
                         Side(Run(s', steps'), role').current.vars.outcome,
                         PaidThrough(t, Funds(h.made, SeenBy(h, role))))
  {
    IntermediaryIsNeutralExactlyWhen(t, place, place', s, s', steps, steps', h, h', role, role');
  }

  ghost function Payments(t: map<Destination, Plan>): map<Destination, int> {
    map id | id in t :: t[id].paid
  }

  ghost predicate AtMostOnce(bag: multiset<Destination>) {
    forall id :: bag[id] <= 1
  }

  /** The channels in the bag. */
  ghost function Channels(t: map<Destination, Plan>, bag: multiset<Destination>): set<Destination> {
    set id | id in t && id in bag
  }

  lemma {:induction false} PaidOnceEach(t: map<Destination, Plan>, bag: multiset<Destination>)
    requires AtMostOnce(bag) && forall id :: id in bag ==> id in t
    ensures PaidThrough(t, bag) == SumOver(Payments(t), Channels(t, bag))
    decreases |bag|
  {
    if bag == multiset{} {
      assert Channels(t, bag) == {};
    } else {
      var x :| x in bag;
      var rest := bag - multiset{x};
      PaidThroughSplit(t, bag, x);
      PaidOnceEach(t, rest);
      assert Channels(t, rest) == Channels(t, bag) - {x};
      SumOverSplit(Payments(t), Channels(t, bag), x);
    }
  }

  /** In particular, if no channel was funded twice on the same ledger and the same channels were
      funded on both, Alice has paid to Bob the sum of the payments of those channels. */
  lemma ChannelsFundedOnceAreNeutral(t: map<Destination, Plan>, place: Place, place': Place, s: System, s': System,
                                     steps: seq<Step>, steps': seq<Step>, h: History, h': History, role: Role,
                                     role': Role)
    requires PlannedHistory(t, place, s, steps, h) && PlannedHistory(t, place', s', steps', h')
    requires Settled(t, Side(Run(s, steps), role).current.vars) && Settled(t, Side(Run(s', steps'), role').current.vars)
    requires AtMostOnce(Funds(h.made, SeenBy(h, role))) && AtMostOnce(Funds(h'.made, SeenBy(h', role')))
    requires forall id :: id in Funds(h.made, SeenBy(h, role)) <==> id in Funds(h'.made, SeenBy(h', role'))
    ensures MovedThrough(s.leader.current.vars.outcome, s'.leader.current.vars.outcome,
                         Side(Run(s, steps), role).current.vars.outcome,
                         Side(Run(s', steps'), role').current.vars.outcome,
                         SumOver(Payments(t), Channels(t, Funds(h.made, SeenBy(h, role)))))
  {
    var bag, bag' := Funds(h.made, SeenBy(h, role)), Funds(h'.made, SeenBy(h', role'));
    assert bag == bag' by {
      forall id ensures bag[id] == bag'[id] {
        assert id in bag <==> id in bag';
      }
    }
    RunsAreNeutral(t, place, place', s, s', steps, steps', h, h', role, role');
    PaidOnceEach(t, bag);
  }

  // ------------------------------------------------------------------
  // A channel funded and defunded
  // ------------------------------------------------------------------

  lemma {:induction false} EveryProposalCounts(made: seq<SignedProposal>, n: nat)
    requires n <= |made|
    ensures |Funds(made, n)| + |Defunds(made, n)| == n
  {
    if n > 0 {
      EveryProposalCounts(made, n - 1);
    }
  }

  /** The steps that fund one channel and defund it again. */
  ghost function FundAndDefund(t: map<Destination, Plan>, place: Place, s: System, id: Destination): seq<Step>
    requires id in t && Quiet(s) && Apply(s.leader.current.vars, Funding(t, place, id)).Ok?
    requires Apply(Apply(s.leader.current.vars, Funding(t, place, id)).value, Defunding(t, place, id)).Ok?
  {
    var u := Apply(s.leader.current.vars, Funding(t, place, id)).value;
    Round(s, Funding(t, place, id), u) + Round(s, Defunding(t, place, id), Apply(u, Defunding(t, place, id)).value)
  }

  lemma FundAndDefundGoesThrough(t: map<Destination, Plan>, place: Place, s: System, id: Destination)
    requires id in t && Quiet(s)
    requires place.ledgerId == s.leader.fp.channelId && Apply(s.leader.current.vars, Funding(t, place, id)).Ok?
    requires Apply(Apply(s.leader.current.vars, Funding(t, place, id)).value, Defunding(t, place, id)).Ok?
    ensures var u := Apply(s.leader.current.vars, Funding(t, place, id)).value;
            var r := Run(s, FundAndDefund(t, place, s, id));
            r.leader.current.vars == r.follower.current.vars == Apply(u, Defunding(t, place, id)).value
  {
    var fund, defund := Funding(t, place, id), Defunding(t, place, id);
    var u := Apply(s.leader.current.vars, fund).value;
    RunAppend(s, Round(s, fund, u), Round(s, defund, Apply(u, defund).value));
    RoundGoesThrough(s, fund);
    RoundGoesThrough(Run(s, Round(s, fund, u)), defund);
  }

  lemma NotHeldAfter(t: map<Destination, Plan>, place: Place, v: Vars, id: Destination)
    requires t.Keys == {id} && Apply(v, Funding(t, place, id)).Ok?
    requires Apply(Apply(v, Funding(t, place, id)).value, Defunding(t, place, id)).Ok?
    ensures var u := Apply(Apply(v, Funding(t, place, id)).value, Defunding(t, place, id)).value;
            Settled(t, u) && u.turnNum == v.turnNum + 2
  {
  }

  /** Two planned proposals about the only channel, after which it is not held, funded it once. */
  lemma TwoProposals(t: map<Destination, Plan>, place: Place, s: System, steps: seq<Step>, h: History, role: Role,
                     id: Destination)
    requires PlannedHistory(t, place, s, steps, h) && t.Keys == {id}
    requires var v := Side(Run(s, steps), role).current.vars;
             Settled(t, v) && v.turnNum == s.leader.current.vars.turnNum + 2
    ensures Funds(h.made, SeenBy(h, role)) == multiset{id}
  {
    HistoryState(s.leader.fp, h, SeenBy(h, role));
    RunBalances(t, place, s, steps, h, role);
    EveryProposalCounts(h.made, SeenBy(h, role));
    OnlyOne(Funds(h.made, SeenBy(h, role)), id);
  }

  /** They leave both sides settled, with the one channel funded once. */
  lemma FundAndDefundSettles(t: map<Destination, Plan>, place: Place, s: System, id: Destination, role: Role)
    returns (h: History)
    requires t.Keys == {id} && Initial(s) && Fresh(t, place, s.leader.current.vars)
    requires place.ledgerId == s.leader.fp.channelId && Apply(s.leader.current.vars, Funding(t, place, id)).Ok?
    requires Apply(Apply(s.leader.current.vars, Funding(t, place, id)).value, Defunding(t, place, id)).Ok?
    ensures var steps := FundAndDefund(t, place, s, id);
            && PlannedHistory(t, place, s, steps, h) && Settled(t, Side(Run(s, steps), role).current.vars)
            && Funds(h.made, SeenBy(h, role)) == multiset{id}
  {
    var steps := FundAndDefund(t, place, s, id);
    FundAndDefundGoesThrough(t, place, s, id);
    NotHeldAfter(t, place, s.leader.current.vars, id);
    assert PlannedSteps(t, place, steps);
    h := EveryRunIsExplained(s, steps);
    TwoProposals(t, place, s, steps, h, role, id);
  }

  lemma OnlyOne(bag: multiset<Destination>, id: Destination)
    requires |bag| == 1 && forall x :: x in bag ==> x == id
    ensures bag == multiset{id}
  {
    var x :| x in bag;
    assert |bag - multiset{x}| == 0;
  }

  /** There are runs as in RunsAreNeutral: Alice pays Bob 2 through a channel with 5 from each. */
  lemma SomeNeutralRuns()
    ensures var id, ledger, ledger' := ChannelIdFrom(7), ChannelIdFrom(8), ChannelIdFrom(9);
            var t, place, place' := map[id := Plan(5, 5, 2)], Place(ledger, 1, 2), Place(ledger', 2, 3);
            exists s, s', steps, steps', h, h' ::
              && PlannedHistory(t, place, s, steps, h) && PlannedHistory(t, place', s', steps', h')
              && Settled(t, Run(s, steps).leader.current.vars) && Settled(t, Run(s', steps').leader.current.vars)
              && Funds(h.made, h.adopted) == Funds(h'.made, h'.adopted) == multiset{id}
  {
    var id, ledger, ledger' := ChannelIdFrom(7), ChannelIdFrom(8), ChannelIdFrom(9);
    var t, place, place' := map[id := Plan(5, 5, 2)], Place(ledger, 1, 2), Place(ledger', 2, 3);
    var s := Opened(FixedPart(ledger, [1, 2]), Vars(1, LedgerOutcome(0, Balance(1, 10), Balance(2, 10), map[])));
    var s' := Opened(FixedPart(ledger', [2, 3]), Vars(1, LedgerOutcome(0, Balance(2, 10), Balance(3, 10), map[])));
    var h := FundAndDefundSettles(t, place, s, id, Leader);
    var h' := FundAndDefundSettles(t, place', s', id, Leader);
  }

  /** Who leads matters: funding and defunding one channel moves exactly the payment from the leader
      to the follower if and only if the leader is the left party, or the amounts happen to hide it. */
  lemma PaymentMovesExactlyWhen(v: Vars, t: map<Destination, Plan>, place: Place, id: Destination)
    requires id in t && Apply(v, Funding(t, place, id)).Ok?
    requires Apply(Apply(v, Funding(t, place, id)).value, Defunding(t, place, id)).Ok?
    ensures var u := Apply(Apply(v, Funding(t, place, id)).value, Defunding(t, place, id)).value.outcome;
            (u.leader.amount == v.outcome.leader.amount - t[id].paid
             && u.follower.amount == v.outcome.follower.amount + t[id].paid)
            <==> v.outcome.leader.destination == place.left || t[id].a0 == t[id].b0 + 2 * t[id].paid
  {
  }

  /** With the follower on the left the payment comes out wrong: 2 are to go from the left party to
      the right one, who leads, but the leader ends up with 1 less. */
  lemma PaymentGoesAstray()
    ensures var id := ChannelIdFrom(7);
            var t, place := map[id := Plan(4, 1, 2)], Place(ChannelIdFrom(8), 2, 1);
            var v := Vars(1, LedgerOutcome(0, Balance(1, 10), Balance(2, 10), map[]));
            && Apply(v, Funding(t, place, id)).Ok?
            && Apply(Apply(v, Funding(t, place, id)).value, Defunding(t, place, id)).Ok?
            && var u := Apply(Apply(v, Funding(t, place, id)).value, Defunding(t, place, id)).value.outcome;
               u.leader.amount == 9 && u.follower.amount == 11
  {
  }
}

/** The variable part of a running ledger channel: two balances and a set of guarantees. */
module LedgerVars {
  import opened Types

  datatype Balance = Balance(destination: Destination, amount: int)

  datatype Guarantee = Guarantee(amount: int, target: Destination, left: Destination, right: Destination)

  datatype LedgerOutcome = LedgerOutcome(
    asset: Address,
    leader: Balance,
    follower: Balance,
    guarantees: map<Destination, Guarantee>
  )

  datatype Vars = Vars(turnNum: nat, outcome: LedgerOutcome)

  /** A proposal adds or removes one guarantee of the ledger it names. */
  datatype Change =
    | Add(guarantee: Guarantee, leftDeposit: int)
    | Remove(removed: Destination, leftAmount: int)

  datatype Proposal = Proposal(ledgerId: Destination, change: Change)

  function Target(p: Proposal): Destination {
    match p.change
    case Add(g, _) => g.target
    case Remove(t, _) => t
  }

  datatype LedgerError =
    | DuplicateGuarantee
    | InvalidDeposit
    | InsufficientFunds
    | GuaranteeNotFound
    | InvalidAmount

  /** Each guarantee is stored under its own target. */
  ghost predicate WellKeyed(o: LedgerOutcome) {
    forall t :: t in o.guarantees ==> o.guarantees[t].target == t
  }

  predicate Includes(o: LedgerOutcome, g: Guarantee) {
    g.target in o.guarantees && o.guarantees[g.target] == g
  }

  // ------------------------------------------------------------------
  // Applying proposals
  // ------------------------------------------------------------------

  function RightDeposit(g: Guarantee, leftDeposit: int): int {
    g.amount - leftDeposit
  }

  /** The leader is charged the left deposit, whoever is the guarantee's left party. */
  function ApplyAdd(v: Vars, g: Guarantee, leftDeposit: int): Result<Vars, LedgerError> {
    var o := v.outcome;
    if g.target in o.guarantees then Err(DuplicateGuarantee)
    else if leftDeposit > g.amount then Err(InvalidDeposit)
    else if leftDeposit > o.leader.amount then Err(InsufficientFunds)
    else if RightDeposit(g, leftDeposit) > o.follower.amount then Err(InsufficientFunds)
    else Ok(Vars(v.turnNum + 1, LedgerOutcome(
      o.asset,
      o.leader.(amount := o.leader.amount - leftDeposit),
      o.follower.(amount := o.follower.amount - RightDeposit(g, leftDeposit)),
      o.guarantees[g.target := g])))
  }

  /** The left amount goes to the leader if it is the guarantee's left party, else to the follower. */
  function ApplyRemove(v: Vars, target: Destination, leftAmount: int): Result<Vars, LedgerError> {
    var o := v.outcome;
    if target !in o.guarantees then Err(GuaranteeNotFound)
    else if leftAmount > o.guarantees[target].amount then Err(InvalidAmount)
    else
      var g := o.guarantees[target];
      var rightAmount := g.amount - leftAmount;
      var leaderIsLeft := o.leader.destination == g.left;
      Ok(Vars(v.turnNum + 1, LedgerOutcome(
        o.asset,
        o.leader.(amount := o.leader.amount + if leaderIsLeft then leftAmount else rightAmount),
        o.follower.(amount := o.follower.amount + if leaderIsLeft then rightAmount else leftAmount),
        o.guarantees - {target})))
  }

  function Apply(v: Vars, p: Proposal): Result<Vars, LedgerError> {
    match p.change
    case Add(g, leftDeposit) => ApplyAdd(v, g, leftDeposit)
    case Remove(target, leftAmount) => ApplyRemove(v, target, leftAmount)
  }

  /** Vars that proposals are applied to in place. A failed proposal leaves them as they were. */
  class WorkingVars {
    var turnNum: nat
    var outcome: LedgerOutcome

    constructor (v: Vars)
      ensures Value() == v
    {
      turnNum := v.turnNum;
      outcome := v.outcome;
    }

    function Value(): Vars
      reads this
    {
      Vars(turnNum, outcome)
    }

    method Add(g: Guarantee, leftDeposit: int) returns (failure: Option<LedgerError>)
      modifies this
      ensures match ApplyAdd(old(Value()), g, leftDeposit)
              case Ok(v) => failure == None && Value() == v
              case Err(e) => failure == Some(e) && Value() == old(Value())
    {
      if g.target in outcome.guarantees {
        return Some(DuplicateGuarantee);
      }
      if leftDeposit > g.amount {
        return Some(InvalidDeposit);
      }
      if leftDeposit > outcome.leader.amount {
        return Some(InsufficientFunds);
      }
      if RightDeposit(g, leftDeposit) > outcome.follower.amount {
        return Some(InsufficientFunds);
      }
      turnNum := turnNum + 1;
      outcome := outcome.(leader := outcome.leader.(amount := outcome.leader.amount - leftDeposit));
      outcome := outcome.(follower := outcome.follower.(
          amount := outcome.follower.amount - RightDeposit(g, leftDeposit)));
      outcome := outcome.(guarantees := outcome.guarantees[g.target := g]);
      return None;
    }

    method Remove(target: Destination, leftAmount: int) returns (failure: Option<LedgerError>)
      modifies this
      ensures match ApplyRemove(old(Value()), target, leftAmount)
              case Ok(v) => failure == None && Value() == v
              case Err(e) => failure == Some(e) && Value() == old(Value())
    {
      if target !in outcome.guarantees {
        return Some(GuaranteeNotFound);
      }
      var g := outcome.guarantees[target];
      if leftAmount > g.amount {
        return Some(InvalidAmount);
      }
      turnNum := turnNum + 1;
      var rightAmount := g.amount - leftAmount;
      if outcome.leader.destination == g.left {
        outcome := outcome.(leader := outcome.leader.(amount := outcome.leader.amount + leftAmount));
        outcome := outcome.(follower := outcome.follower.(amount := outcome.follower.amount + rightAmount));
      } else {
        outcome := outcome.(leader := outcome.leader.(amount := outcome.leader.amount + rightAmount));
        outcome := outcome.(follower := outcome.follower.(amount := outcome.follower.amount + leftAmount));
      }
      outcome := outcome.(guarantees := outcome.guarantees - {target});
      return None;
    }

    method HandleProposal(p: Proposal) returns (failure: Option<LedgerError>)
      modifies this
      ensures match Apply(old(Value()), p)
              case Ok(v) => failure == None && Value() == v
              case Err(e) => failure == Some(e) && Value() == old(Value())
    {
      match p.change {
        case Add(g, leftDeposit) => failure := Add(g, leftDeposit);
        case Remove(target, leftAmount) => failure := Remove(target, leftAmount);
      }
    }
  }

  // ------------------------------------------------------------------
  // Conservation
  // ------------------------------------------------------------------

  ghost function GuaranteeTotal(m: map<Destination, Guarantee>): int
    decreases |m|
  {
    if m == map[] then 0
    else
      var t :| t in m;
      assert |m - {t}| < |m| by { SmallerMap(m, t); }
      m[t].amount + GuaranteeTotal(m - {t})
  }

  lemma SmallerMap(m: map<Destination, Guarantee>, t: Destination)
    requires t in m
    ensures |m - {t}| == |m| - 1
  {
    assert (m - {t}).Keys == m.Keys - {t};
  }

  /** Any guarantee can be counted first. */
  lemma {:induction false} GuaranteeTotalSplit(m: map<Destination, Guarantee>, t: Destination)
    requires t in m
    ensures GuaranteeTotal(m) == m[t].amount + GuaranteeTotal(m - {t})
    decreases |m|
  {
    var u :| u in m && GuaranteeTotal(m) == m[u].amount + GuaranteeTotal(m - {u});
    if u != t {
      SmallerMap(m, u);
      SmallerMap(m, t);
      GuaranteeTotalSplit(m - {u}, t);
      GuaranteeTotalSplit(m - {t}, u);
      assert m - {u} - {t} == m - {t} - {u};
    }
  }

  ghost function LedgerTotal(o: LedgerOutcome): int {
    o.leader.amount + o.follower.amount + GuaranteeTotal(o.guarantees)
  }

  /** A ledger that promises nobody a negative amount. */
  ghost predicate Solvent(o: LedgerOutcome) {
    && o.leader.amount >= 0 && o.follower.amount >= 0
    && forall t :: t in o.guarantees ==> o.guarantees[t].amount >= 0
  }

  lemma ApplyConserves(v: Vars, p: Proposal)
    requires Apply(v, p).Ok?
    ensures LedgerTotal(Apply(v, p).value.outcome) == LedgerTotal(v.outcome)
  {
    var o := v.outcome;
    match p.change
    case Add(g, leftDeposit) =>
      GuaranteeTotalSplit(o.guarantees[g.target := g], g.target);
      assert o.guarantees[g.target := g] - {g.target} == o.guarantees;
    case Remove(target, leftAmount) =>
      GuaranteeTotalSplit(o.guarantees, target);
  }

  /** The share of a removed guarantee that goes to its left party cannot overdraw that party. */
  predicate LeftPartyCovers(o: LedgerOutcome, target: Destination, leftAmount: int)
    requires target in o.guarantees
  {
    leftAmount + (if o.leader.destination == o.guarantees[target].left then o.leader.amount else o.follower.amount) >= 0
  }

  /** It adds no negative guarantee and returns no negative amount that its left party cannot cover. */
  predicate Harmless(v: Vars, p: Proposal) {
    match p.change
    case Add(g, _) => g.amount >= 0
    case Remove(target, leftAmount) =>
      target in v.outcome.guarantees ==> LeftPartyCovers(v.outcome, target, leftAmount)
  }

  /** A proposal keeps a solvent ledger solvent exactly when it is harmless. */
  lemma SolventExactlyWhen(v: Vars, p: Proposal)
    requires Solvent(v.outcome) && Apply(v, p).Ok?
    ensures Solvent(Apply(v, p).value.outcome) <==> Harmless(v, p)
  {
    var o := v.outcome;
    match p.change
    case Add(g, leftDeposit) =>
      assert g.target in Apply(v, p).value.outcome.guarantees;
    case Remove(target, leftAmount) =>
      assert o.guarantees[target].amount >= 0;
  }

  /** It speaks of no negative amount. */
  predicate NoNegative(p: Proposal) {
    match p.change
    case Add(g, _) => g.amount >= 0
    case Remove(_, leftAmount) => leftAmount >= 0
  }

  lemma NoNegativeIsHarmless(v: Vars, p: Proposal)
    requires Solvent(v.outcome) && NoNegative(p)
    ensures Harmless(v, p)
  {
  }

  lemma ApplyKeepsKeys(v: Vars, p: Proposal)
    requires WellKeyed(v.outcome) && Apply(v, p).Ok?
    ensures WellKeyed(Apply(v, p).value.outcome)
    ensures Apply(v, p).value.turnNum == v.turnNum + 1
    ensures Apply(v, p).value.outcome.leader.destination == v.outcome.leader.destination
    ensures Apply(v, p).value.outcome.follower.destination == v.outcome.follower.destination
  {
  }

  /** A guarantee is untouched by proposals about other targets. */
  lemma ApplyKeepsOthers(v: Vars, p: Proposal, t: Destination)
    requires Apply(v, p).Ok? && Target(p) != t
    ensures t in Apply(v, p).value.outcome.guarantees <==> t in v.outcome.guarantees
    ensures t in v.outcome.guarantees ==> Apply(v, p).value.outcome.guarantees[t] == v.outcome.guarantees[t]
  {
  }

  /** Adding a guarantee and removing it again with the same left share restores both balances
      exactly when the leader is the guarantee's left party, or both parties put in the same. */
  lemma AddRemoveRoundTripExactlyWhen(v: Vars, g: Guarantee, leftDeposit: int)
    requires ApplyAdd(v, g, leftDeposit).Ok?
    ensures var added := ApplyAdd(v, g, leftDeposit).value;
            && ApplyRemove(added, g.target, leftDeposit).Ok?
            && var back := ApplyRemove(added, g.target, leftDeposit).value;
               && back.turnNum == v.turnNum + 2
               && (back.outcome == v.outcome
                   <==> v.outcome.leader.destination == g.left || leftDeposit == RightDeposit(g, leftDeposit))
  {
    var o := v.outcome;
    var added := ApplyAdd(v, g, leftDeposit).value;
    assert o.guarantees[g.target := g] - {g.target} == o.guarantees;
    var back := ApplyRemove(added, g.target, leftDeposit).value.outcome;
    assert back.guarantees == o.guarantees;
    if o.leader.destination != g.left && leftDeposit != RightDeposit(g, leftDeposit) {
      assert back.leader != o.leader;
    }
  }

  /** With the follower on the left, 3 from the leader and 1 from the follower do not come back. */
  lemma RoundTripFails()
    ensures var v := Vars(1, LedgerOutcome(0, Balance(1, 10), Balance(2, 10), map[]));
            var g := Guarantee(4, ChannelIdFrom(7), 2, 1);
            && ApplyAdd(v, g, 3).Ok? && ApplyRemove(ApplyAdd(v, g, 3).value, g.target, 3).Ok?
            && var back := ApplyRemove(ApplyAdd(v, g, 3).value, g.target, 3).value.outcome;
               back.leader.amount == 8 && back.follower.amount == 12 && back != v.outcome
  {
  }
}

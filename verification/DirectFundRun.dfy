/** Runs of direct funding: any number of participants, the chain, and a network that may lose,
    repeat and reorder both messages and chain events. */
module DirectFundRun {
  import opened Types
  import opened Outcomes
  import opened DepositSafety
  import opened Channels
  import opened Setup
  import opened VirtualFund
  import opened DirectFund
  import opened DirectFundCrank
  import opened DirectFundWorld
  import opened DirectFundMoney
  import opened DirectFundSteps
  import opened DirectFundCranks

  lemma StepIsAccounted(w: World, c: Account, a: Act) returns (c': Account)
    requires Accounts(c, w)
    ensures Accounts(c', NextWorld(w, a))
  {
    c' := c;
    match a
    case Approve(p) => ApproveStep(w, c, p);
    case CrankParty(p) => c' := CrankStep(w, c, p);
    case DeliverState(p, ss, order) => c' := DeliverStep(w, c, p, ss, order);
    case Observe(p, e) => ObserveStep(w, c, p, e);
    case Process(i) => ProcessStep(w, c, i);
    case DepositByOther(amount) => DepositByOtherStep(w, c, amount);
    case Tick => TickStep(w, c);
  }

  /** Objectives just made for a channel the chain holds nothing for. */
  ghost predicate Start(w: World) {
    && Fundable(w.s) && Peopled(w)
    && w.states == {} && w.deposits == [] && w.held == 0 && w.events == {}
    && forall k :: 0 <= k < |w.parties| ==> JustMade(w, k)
  }

  ghost predicate JustMade(w: World, k: nat)
    requires Fundable(w.s) && Peopled(w) && k < |w.parties|
  {
    exists preApprove :: ConstructDirect(preApprove, w.s, w.s.fixed.participants[k]) == Ok(w.parties[k])
  }

  lemma NewObjective(w: World, k: nat)
    requires Start(w) && k < |w.parties|
    ensures var o := w.parties[k];
            && OnTerms(w.s, o, k) && HonestDirect(o, w.s, k, {}, {}) && o.c.onChainFunding == 0
            && !o.submitted && o.latestBlock == 0 && o.status in {Approved, Unapproved}
  {
    assert JustMade(w, k);
    var preApprove :| ConstructDirect(preApprove, w.s, w.s.fixed.participants[k]) == Ok(w.parties[k]);
    ConstructedOnTerms(preApprove, w.s, k);
    SetupStart(w.s, k);
  }

  lemma StartIsAccounted(w: World) returns (c: Account)
    requires Start(w)
    ensures Accounts(c, w)
  {
    var n := |w.parties|;
    c := Account(seq(n, i => {}), seq(n, i => {}));
    forall k | 0 <= k < n ensures Believes(w, k) && PartySaw(w, c, k) {
      NewObjective(w, k);
    }
  }

  lemma {:induction false} EveryRunIsAccounted(w: World, acts: seq<Act>) returns (c: Account)
    requires Start(w)
    ensures Accounts(c, RunWorld(w, acts))
    decreases |acts|
  {
    if acts == [] {
      c := StartIsAccounted(w);
    } else {
      var before := EveryRunIsAccounted(w, acts[..|acts| - 1]);
      c := StepIsAccounted(RunWorld(w, acts[..|acts| - 1]), before, acts[|acts| - 1]);
    }
  }

  // ------------------------------------------------------------------
  // Whatever the outcome, and whoever else deposits
  // ------------------------------------------------------------------

  /** In every run cranks only fail for want of approval, and cranking twice does nothing more. */
  lemma CrankIsIdempotentInRuns(w: World, acts: seq<Act>, p: nat)
    requires Start(w) && p < |w.parties|
    ensures var u := RunWorld(w, acts);
            && p < |u.parties| && DirectCrankable(u.parties[p])
            && var o, key := u.parties[p], u.s.fixed.participants[p];
               o.status == Approved ==>
                 CrankDirect(o, key).failed == None && NothingMoreDirect(CrankDirect(o, key), key)
  {
    var c := EveryRunIsAccounted(w, acts);
    var u := RunWorld(w, acts);
    RunPeople(w, acts);
    var o := u.parties[p];
    assert PartySaw(u, c, p);
    SetupQueries(u.s, p, o.c.onChainFunding, c.pre[p], c.post[p]);
    if o.status == Approved {
      var post' := HonestEffect(o, u.s, p, c.pre[p], c.post[p]);
      DirectCrankIsIdempotent(o, u.s, p, c.pre[p], c.post[p]);
    }
  }

  /** In every run, what a participant believes is held never goes down, whatever order the events
      arrive in. */
  lemma BeliefsNeverGoDown(w: World, acts: seq<Act>, p: nat, e: ChainEvent)
    requires Start(w) && p < |w.parties|
    ensures var u := RunWorld(w, acts);
            && p < |u.parties|
            && u.parties[p].c.onChainFunding <= NextWorld(u, Observe(p, e)).parties[p].c.onChainFunding <= u.held
  {
    var c := EveryRunIsAccounted(w, acts);
    var u := RunWorld(w, acts);
    RunPeople(w, acts);
    ObserveBeliefs(u, p, e);
    assert Believes(NextWorld(u, Observe(p, e)), p);
  }

  /** In every run, once a participant's postfund signature is seen anywhere, or somebody has
      completed, the chain holds the whole amount at least. */
  lemma PostfundMeansFunded(w: World, acts: seq<Act>, p: nat)
    requires Start(w) && p < |w.parties|
    ensures var u := RunWorld(w, acts);
            && p < |u.parties| && PostFundTurnNum in u.parties[p].c.signedStates
            && (u.parties[p].c.signedStates[PostFundTurnNum].sigs != map[] || u.parties[p].status == Completed ==>
                  u.held >= Whole(w.s))
  {
    var c := EveryRunIsAccounted(w, acts);
    var u := RunWorld(w, acts);
    RunPeople(w, acts);
    assert PartySaw(u, c, p) && SignedByOwner(c, p);
    SetupQueries(u.s, p, u.parties[p].c.onChainFunding, c.pre[p], c.post[p]);
    SigsCount(SetupState(u.s, PostFundTurnNum), c.post[p]);
    if c.post[p] != {} {
      var q :| q in c.post[p];
      assert SignedWhenFunded(u, c, q);
    }
  }

  /** Whatever party p has deposited, a transfer of everything pays it back. */
  ghost predicate Recovers(u: World, p: nat)
    requires SingleAsset(u.s) && p < |u.s.fixed.participants|
  {
    forall i :: 0 <= i < |u.deposits| && u.deposits[i].party == p && u.deposits[i].done ==>
      PaidTo(Allocations(u.s), Payee(u.s, p), u.held, |Allocations(u.s)|) >= u.deposits[i].amount
  }

  /** In every run each participant submits at most one deposit, of no more than its share; and if its
      allocations are unbroken it can recover it, whatever the others' are. */
  lemma DepositsAreRecoverable(w: World, acts: seq<Act>, p: nat)
    requires Start(w) && p < |w.parties|
    ensures var u := RunWorld(w, acts);
            && OneEach(u.deposits)
            && (forall i :: 0 <= i < |u.deposits| && u.deposits[i].party == p ==>
                  0 < u.deposits[i].amount <= Share(w.s, p))
            && (Unbroken(Allocations(w.s), Payee(w.s, p)) ==> Recovers(u, p))
  {
    var c := EveryRunIsAccounted(w, acts);
    var u := RunWorld(w, acts);
    var a, d := Allocations(w.s), Payee(w.s, p);
    DepositRecoverableExactlyWhen(a, d);
    forall i | 0 <= i < |u.deposits| && u.deposits[i].party == p
      ensures 0 < u.deposits[i].amount <= Share(w.s, p)
      ensures Unbroken(a, d) && u.deposits[i].done ==> PaidTo(a, d, u.held, |a|) >= u.deposits[i].amount
    {
      assert Covered(u, i);
      if u.deposits[i].done {
        PaidToMonotone(a, d, Ahead(w.s, p) + Share(w.s, p), u.held, |a|);
      }
    }
  }

  // ------------------------------------------------------------------
  // When all are served in turn and nobody else deposits
  // ------------------------------------------------------------------

  ghost predicate NobodyElse(acts: seq<Act>) {
    forall i :: 0 <= i < |acts| ==> !acts[i].DepositByOther?
  }

  lemma MoneyStep(w: World, c: Account, a: Act)
    requires Accounts(c, w) && MoneyInPlace(w) && !a.DepositByOther?
    ensures MoneyInPlace(NextWorld(w, a))
  {
    if a.CrankParty? {
      CrankMoneyStep(w, c, a.p);
    } else if a.Process? {
      ProcessMoney(w, a.i);
    } else {
      SameMoneyInPlace(w, NextWorld(w, a));
    }
  }

  lemma {:induction false} MoneyStaysInPlace(w: World, acts: seq<Act>)
    requires Start(w) && ServedInTurn(w.s) && NobodyElse(acts)
    ensures MoneyInPlace(RunWorld(w, acts))
    decreases |acts|
  {
    if acts == [] {
      assert Reserved(Allocations(w.s), 0) == 0;
      forall k | 0 <= k < |w.parties| ensures PartyInPlace(w, k) {
        ShareFits(w.s, k);
      }
    } else {
      var rest := acts[..|acts| - 1];
      MoneyStaysInPlace(w, rest);
      var c := EveryRunIsAccounted(w, rest);
      MoneyStep(RunWorld(w, rest), c, acts[|acts| - 1]);
    }
  }

  /** In every such run each participant submits at most one deposit, of exactly its share, and
      the chain always holds what the outcome gives to some number of those first in line. */
  lemma DepositsAreSafe(w: World, acts: seq<Act>)
    requires Start(w) && ServedInTurn(w.s) && NobodyElse(acts)
    ensures var u := RunWorld(w, acts);
            && PrefixSum(w.s, u.held) && 0 <= u.held <= Whole(w.s)
            && OneEach(u.deposits)
            && forall i :: 0 <= i < |u.deposits| ==>
                 u.deposits[i].party < |u.parties| && u.deposits[i].amount == Share(w.s, u.deposits[i].party)
  {
    MoneyStaysInPlace(w, acts);
    var c := EveryRunIsAccounted(w, acts);
    var u := RunWorld(w, acts);
    PrefixSumBounded(w.s, u.held);
    forall i | 0 <= i < |u.deposits|
      ensures u.deposits[i].party < |u.parties| && u.deposits[i].amount == Share(w.s, u.deposits[i].party) {
      assert DepositInPlace(u, i);
    }
  }

  lemma PostfundMeansExactlyFunded(w: World, acts: seq<Act>, p: nat)
    requires Start(w) && ServedInTurn(w.s) && NobodyElse(acts) && p < |w.parties|
    ensures var u := RunWorld(w, acts);
            && p < |u.parties| && PostFundTurnNum in u.parties[p].c.signedStates
            && (u.parties[p].c.signedStates[PostFundTurnNum].sigs != map[] || u.parties[p].status == Completed ==>
                  u.held == Whole(w.s))
  {
    PostfundMeansFunded(w, acts, p);
    DepositsAreSafe(w, acts);
  }
}

/** Runs of the virtual funding protocol: Alice, the intermediary and Bob crank and update their
    objectives over two ledgers that other objectives may use at the same time. */
module VirtualFundRun {
  import opened Types
  import opened Outcomes
  import opened States
  import opened LedgerVars
  import opened Consensus
  import opened LedgerRun
  import opened Channels
  import opened Setup
  import opened VirtualFund
  import opened VirtualFundCrank
  import opened GuaranteeRun
  import opened VirtualFundWorld
  import opened VirtualFundSteps
  import opened VirtualFundCranks

  lemma StepIsAccounted(w: World, c: Account, a: Act) returns (c': Account)
    requires Accounts(c, w)
    ensures Accounts(c', NextWorld(w, a))
  {
    c' := c;
    match a
    case Approve(p) => ApproveStep(w, c, p);
    case CrankParty(p) => if p < 3 { c' := CrankStep(w, c, p); }
    case DeliverState(p, ss, order) => c' := DeliverStep(w, c, p, ss, order);
    case Other(e, step) => c' := OtherStep(w, c, e, step);
  }

  /** Every world reached has the right shape, so the test is never what stops a run. */
  ghost function RunWorld(w: World, acts: seq<Act>): World {
    if acts == [] then w
    else
      var u := RunWorld(w, acts[..|acts| - 1]);
      if Shaped(u) then NextWorld(u, acts[|acts| - 1]) else u
  }

  /** Three objectives just made over two ledgers that know nothing of the channel. */
  ghost predicate Start(w: World) {
    && Shaped(w) && w.states == {}
    && (forall p :: 0 <= p < 3 ==> w.parties[p].status != Completed && w.parties[p].v == NewChannel(w.s, p))
    && (forall e :: 0 <= e < 2 ==>
          Initial(w.ledgers[e]) && w.s.fixed.channelId !in w.ledgers[e].leader.current.vars.outcome.guarantees)
  }

  /** A ledger between two parties that holds no guarantee. */
  ghost function EmptyLedger(id: Destination, leader: Address, follower: Address): System {
    Opened(FixedPart(id, [leader, follower]),
           Vars(1, LedgerOutcome(0, Balance(leader, 10), Balance(follower, 10), map[])))
  }

  /** There are such worlds. */
  lemma SomeStart() returns (w: World)
    ensures Start(w) && forall p :: 0 <= p < 3 ==> w.parties[p].status == Approved
  {
    var a := [Allocation(1, 5, NormalAllocation, []), Allocation(3, 5, NormalAllocation, [])];
    var s := State(FixedPart(ChannelIdFrom(7), [1, 2, 3]), [SingleAssetExit(0, a)], PreFundTurnNum, false);
    var ledgers := [EmptyLedger(ChannelIdFrom(8), 1, 2), EmptyLedger(ChannelIdFrom(9), 2, 3)];
    w := World(s, [true, true],
               [Party(Approved, NewChannel(s, 0)), Party(Approved, NewChannel(s, 1)),
                Party(Approved, NewChannel(s, 2))],
               ledgers, {});
  }

  lemma StartIsAccounted(w: World) returns (c: Account)
    requires Start(w)
    ensures Accounts(c, w)
  {
    InitialIsExplained(w.ledgers[0]);
    InitialIsExplained(w.ledgers[1]);
    c := Account([{}, {}, {}], [{}, {}, {}],
                 [History(w.ledgers[0].leader.current.vars, [], 0, 0, 0),
                  History(w.ledgers[1].leader.current.vars, [], 0, 0, 0)]);
    forall p | 0 <= p < 3 ensures PartySeen(w, c, p) {
      SetupStart(w.s, p);
    }
  }

  lemma {:induction false} EveryRunIsAccounted(w: World, acts: seq<Act>) returns (c: Account)
    requires Start(w)
    ensures Accounts(c, RunWorld(w, acts))
    decreases |acts|
  {
    if acts == [] {
      c := StartIsAccounted(w);
    } else {
      var before := EveryRunIsAccounted(w, acts[..|acts| - 1]);
      c := StepIsAccounted(RunWorld(w, acts[..|acts| - 1]), before, acts[|acts| - 1]);
    }
  }

  lemma EveryWorldIsShaped(w: World, acts: seq<Act>)
    requires Start(w)
    ensures Shaped(RunWorld(w, acts))
  {
    var c := EveryRunIsAccounted(w, acts);
  }

  lemma StepKeepsChannel(w: World, a: Act)
    requires Shaped(w)
    ensures NextWorld(w, a).s == w.s && NextWorld(w, a).leftLeads == w.leftLeads
  {
  }

  /** The channel to fund and the places of the ledgers are fixed. */
  lemma {:induction false} RunKeepsChannel(w: World, acts: seq<Act>)
    ensures RunWorld(w, acts).s == w.s && RunWorld(w, acts).leftLeads == w.leftLeads
    decreases |acts|
  {
    if acts != [] {
      var before := acts[..|acts| - 1];
      RunKeepsChannel(w, before);
      if Shaped(RunWorld(w, before)) {
        StepKeepsChannel(RunWorld(w, before), acts[|acts| - 1]);
      }
    }
  }

  /** Party q holds the guarantee of both amounts in a doubly signed state of each of its ledgers. */
  ghost predicate Secured(w: World, q: nat)
    requires Shaped(w) && q < 3
  {
    forall e :: 0 <= e < 2 && (q == e || q == e + 1) ==> SecuredOn(w, e, q)
  }

  ghost predicate SecuredOn(w: World, e: nat, q: nat)
    requires Shaped(w) && e < 2
  {
    var l, a := Side(w.ledgers[e], RoleOf(w, e, q)), w.s.outcome[0].allocations;
    && Valid(l)
    && Includes(l.current.vars.outcome,
                Guarantee(a[0].amount + a[1].amount, w.s.fixed.channelId,
                          AddressToDestination(w.s.fixed.participants[e]),
                          AddressToDestination(w.s.fixed.participants[e + 1])))
  }

  lemma FundedIsSecured(w: World, c: Account, q: nat)
    requires Accounts(c, w) && q < 3 && PartyFunded(w, q)
    ensures Secured(w, q)
  {
    forall e | 0 <= e < 2 && (q == e || q == e + 1) ensures SecuredOn(w, e, q) {
      PartyConnects(w, c, e, q);
    }
  }

  /** In every run, wherever a participant's postfund signature is seen, that participant holds the
      guarantee on all its ledgers. */
  lemma PostfundMeansGuaranteed(w: World, acts: seq<Act>, p: nat, q: nat)
    requires Start(w) && p < 3 && q < 3
    ensures var u := RunWorld(w, acts);
            && Shaped(u) && u.s == w.s && PostFundTurnNum in u.parties[p].v.signedStates
            && (q in u.parties[p].v.signedStates[PostFundTurnNum].sigs ==> Secured(u, q))
  {
    var c := EveryRunIsAccounted(w, acts);
    var u := RunWorld(w, acts);
    RunKeepsChannel(w, acts);
    assert PartySeen(u, c, p) && SignedByOwner(c, p) && SignedWhenFunded(u, c, q);
    SetupQueries(u.s, p, 0, c.pre[p], c.post[p]);
    if q in u.parties[p].v.signedStates[PostFundTurnNum].sigs {
      assert q in c.post[p];
      FundedIsSecured(u, c, q);
    }
  }

  /** So once one participant has completed, or has all postfund signatures, both ledgers hold the
      guarantee on both sides. */
  lemma CompletionMeansGuaranteed(w: World, acts: seq<Act>, p: nat, q: nat)
    requires Start(w) && p < 3 && q < 3
    ensures var u := RunWorld(w, acts);
            && Shaped(u) && u.s == w.s
            && (u.parties[p].status == Completed || Complete(u.parties[p].v, PostFundTurnNum) ==> Secured(u, q))
  {
    var c := EveryRunIsAccounted(w, acts);
    var u := RunWorld(w, acts);
    RunKeepsChannel(w, acts);
    assert PartySeen(u, c, p) && SignedByOwner(c, p) && SignedWhenFunded(u, c, q);
    SetupQueries(u.s, p, 0, c.pre[p], c.post[p]);
    if u.parties[p].status == Completed || Complete(u.parties[p].v, PostFundTurnNum) {
      FullMeansAll(c.post[p], 3, q);
      FundedIsSecured(u, c, q);
    }
  }

  /** In every run a crank can only fail for want of approval or of funds: no panic, no mismatch of
      proposals. */
  lemma CranksFailOnlyForFunds(w: World, acts: seq<Act>, p: nat)
    requires Start(w) && p < 3
    ensures var u := RunWorld(w, acts);
            && Shaped(u) && Crankable(ObjectiveOf(u, p))
            && Crank(ObjectiveOf(u, p), u.s.fixed.participants[p]).failed
               in {None, Some(NotApproved), Some(LedgerUpdate(CannotApply(InsufficientFunds)))}
  {
    var c := EveryRunIsAccounted(w, acts);
    PartyIsHonest(RunWorld(w, acts), c, p);
    SetupQueries(RunWorld(w, acts).s, p, 0, c.pre[p], c.post[p]);
    var c' := CrankStep(RunWorld(w, acts), c, p);
  }

  /** Idempotence holds in every reachable state. */
  lemma CrankIsIdempotentInRuns(w: World, acts: seq<Act>, p: nat)
    requires Start(w) && p < 3
    ensures var u := RunWorld(w, acts);
            && Shaped(u) && Crankable(ObjectiveOf(u, p))
            && var o, key := ObjectiveOf(u, p), u.s.fixed.participants[p];
               o.status == Approved && Crank(o, key).failed == None ==> NothingMore(Crank(o, key), key)
  {
    var c := EveryRunIsAccounted(w, acts);
    var u := RunWorld(w, acts);
    PartyIsHonest(u, c, p);
    SetupQueries(u.s, p, 0, c.pre[p], c.post[p]);
    if ObjectiveOf(u, p).status == Approved {
      CrankIsIdempotent(ObjectiveOf(u, p), u.s, c.pre[p], c.post[p]);
    }
  }
}

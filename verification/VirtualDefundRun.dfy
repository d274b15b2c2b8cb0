/** Runs of the virtual defunding protocol: Alice, the intermediary and Bob crank and update their
    objectives over two ledgers that other objectives may use at the same time. */
module VirtualDefundRun {
  import opened Types
  import opened Outcomes
  import opened States
  import opened LedgerVars
  import opened Consensus
  import opened LedgerRun
  import opened VirtualDefund
  import opened VirtualDefundCrank
  import opened GuaranteeRun
  import opened RemovalRun
  import opened VirtualDefundWorld
  import opened VirtualDefundSteps
  import opened VirtualDefundCranks
  import VirtualFund

  lemma StepIsAccounted(w: World, c: Account, a: Act) returns (c': Account)
    requires Accounts(c, w)
    ensures Accounts(c', NextWorld(w, a))
  {
    c' := c;
    match a
    case Approve(p) => ApproveStep(w, c, p);
    case CrankParty(p) => if p < 3 { c' := CrankStep(w, c, p); }
    case DeliverState(p, ss) => c' := DeliverStep(w, c, p, ss);
    case Other(e, step) => c' := OtherStep(w, c, e, step);
  }

  /** Every world reached has the right shape, so the test is never what stops a run. */
  ghost function RunWorld(w: World, acts: seq<Act>): World {
    if acts == [] then w
    else
      var u := RunWorld(w, acts[..|acts| - 1]);
      if Shaped(u) then NextWorld(u, acts[|acts| - 1]) else u
  }

  /** Three objectives just made with the same terms, over two ledgers that hold the channel's guarantee. */
  ghost predicate Start(w: World) {
    && Shaped(w) && w.states == {}
    && (forall p :: 0 <= p < 3 ==>
          w.parties[p].status != VirtualFund.Completed && w.parties[p].signatures == [None, None, None])
    && (forall e :: 0 <= e < 2 ==>
          && Initial(w.ledgers[e])
          && FundedAtFirst(w.terms, History(w.ledgers[e].leader.current.vars, [], 0, 0, 0)))
  }

  /** A ledger between two parties that holds a guarantee of 10 for the channel. */
  ghost function FundedLedger(id: Destination, leader: Address, follower: Address, channelId: Destination): System {
    var m := map[channelId := Guarantee(10, channelId, leader, follower)];
    Opened(FixedPart(id, [leader, follower]), Vars(2, LedgerOutcome(0, Balance(leader, 5), Balance(follower, 5), m)))
  }

  /** There are such worlds, for every payment. */
  lemma SomeStart(paid: int) returns (w: World)
    ensures Start(w) && forall p :: 0 <= p < 3 ==> w.parties[p].status == VirtualFund.Approved
    ensures w.terms.vFixed == FixedPart(ChannelIdFrom(7), [1, 2, 3]) && w.terms.paidToBob == paid
    ensures w.ledgers == [FundedLedger(ChannelIdFrom(8), 1, 2, ChannelIdFrom(7)),
                          FundedLedger(ChannelIdFrom(9), 2, 3, ChannelIdFrom(7))]
    ensures forall i :: 0 <= i < 2 ==> w.terms.initialOutcome.allocations[i].amount == 5
  {
    var a := [Allocation(1, 5, NormalAllocation, []), Allocation(3, 5, NormalAllocation, [])];
    var party := Party(VirtualFund.Approved, [None, None, None]);
    var id := ChannelIdFrom(7);
    w := World(Terms(FixedPart(id, [1, 2, 3]), SingleAssetExit(0, a), paid), [true, true], [party, party, party],
               [FundedLedger(ChannelIdFrom(8), 1, 2, id), FundedLedger(ChannelIdFrom(9), 2, 3, id)], {});
  }

  lemma StartIsAccounted(w: World) returns (c: Account)
    requires Start(w)
    ensures Accounts(c, w)
  {
    InitialIsExplained(w.ledgers[0]);
    InitialIsExplained(w.ledgers[1]);
    c := Account([{}, {}, {}],
                 [History(w.ledgers[0].leader.current.vars, [], 0, 0, 0),
                  History(w.ledgers[1].leader.current.vars, [], 0, 0, 0)]);
  }

  lemma {:induction false} EveryRunIsAccounted(w: World, acts: seq<Act>) returns (c: Account)
    requires Start(w)
    ensures Accounts(c, RunWorld(w, acts))
    decreases |acts|
  {
    if acts == [] {
      c := StartIsAccounted(w);
    } else {
      var before := EveryRunIsAccounted(w, acts[..|acts| - 1]);
      c := StepIsAccounted(RunWorld(w, acts[..|acts| - 1]), before, acts[|acts| - 1]);
    }
  }

  lemma EveryWorldIsShaped(w: World, acts: seq<Act>)
    requires Start(w)
    ensures Shaped(RunWorld(w, acts))
  {
    var c := EveryRunIsAccounted(w, acts);
  }

  lemma StepKeepsTerms(w: World, a: Act)
    requires Shaped(w)
    ensures NextWorld(w, a).terms == w.terms && NextWorld(w, a).leftLeads == w.leftLeads
  {
  }

  lemma {:induction false} RunKeepsTerms(w: World, acts: seq<Act>)
    ensures RunWorld(w, acts).terms == w.terms && RunWorld(w, acts).leftLeads == w.leftLeads
    decreases |acts|
  {
    if acts != [] {
      var before := acts[..|acts| - 1];
      RunKeepsTerms(w, before);
      if Shaped(RunWorld(w, before)) {
        StepKeepsTerms(RunWorld(w, before), acts[|acts| - 1]);
      }
    }
  }

  /** This side of ledger e no longer holds the guarantee. */
  ghost predicate GaveUp(w: World, e: nat, role: Role)
    requires e < |w.ledgers|
  {
    w.terms.vFixed.channelId !in Side(w.ledgers[e], role).current.vars.outcome.guarantees
  }

  /** Participant q has signed the final state. */
  ghost predicate HasSigned(w: World, q: nat)
    requires Shaped(w) && q < 3
  {
    w.parties[q].signatures[q] == Some(Sign(Final(w.terms), w.terms.vFixed.participants[q]))
  }

  lemma MissingMeansSigned(w: World, c: Account, e: nat, role: Role, q: nat)
    requires Accounts(c, w) && e < 2 && q < 3 && GaveUp(w, e, role)
    ensures HasSigned(w, q) && !Overpaid(w.terms)
  {
    assert PartyView(w, c, q);
    MissingMeansProposed(w.ledgers[e], c.histories[e], Expected(w, e));
    RemovedWithinAmount(w.ledgers[e], c.histories[e], Expected(w, e));
    assert RemovalMade(w, c, e);
  }

  /** In every run, as long as one participant has not signed the final state, both sides of both
      ledgers hold the guarantee; and so they do for ever if Bob is to pay more than his share. */
  lemma RemovalMeansAllSigned(w: World, acts: seq<Act>, e: nat, role: Role, q: nat)
    requires Start(w) && e < 2 && q < 3
    ensures var u := RunWorld(w, acts);
            && Shaped(u) && u.terms == w.terms
            && (GaveUp(u, e, role) ==> HasSigned(u, q) && !Overpaid(u.terms))
  {
    var c := EveryRunIsAccounted(w, acts);
    var u := RunWorld(w, acts);
    RunKeepsTerms(w, acts);
    if GaveUp(u, e, role) {
      MissingMeansSigned(u, c, e, role, q);
    }
  }

  /** In every run, a participant that has completed has no guarantee for the channel left on its
      ledgers, and so all participants have signed. */
  lemma CompletionMeansDefunded(w: World, acts: seq<Act>, p: nat)
    requires Start(w) && p < 3
    ensures var u := RunWorld(w, acts);
            && Shaped(u)
            && (u.parties[p].status == VirtualFund.Completed ==>
                  PartyDefunded(u, p) && forall q :: 0 <= q < 3 ==> HasSigned(u, q))
  {
    var c := EveryRunIsAccounted(w, acts);
    var u := RunWorld(w, acts);
    assert CompletedWhenDefunded(u, p);
    if u.parties[p].status == VirtualFund.Completed {
      var e := if p < 2 then p else 1;
      forall q | 0 <= q < 3 ensures HasSigned(u, q) {
        MissingMeansSigned(u, c, e, RoleOf(u, e, p), q);
      }
    }
  }

  /** In every run, cranks fail only for want of approval, unless Bob is to pay more than his share;
      proposals never mismatch. */
  lemma CranksFailOnlyWhenOverpaid(w: World, acts: seq<Act>, p: nat)
    requires Start(w) && p < 3
    ensures var u := RunWorld(w, acts);
            && Shaped(u)
            && var failed := Crank(ObjectiveOf(u, p), u.terms.vFixed.participants[p]).failed;
               || failed in {None, Some(NotApproved)}
               || (failed == Some(LedgerUpdate(CannotApply(InvalidAmount))) && Overpaid(w.terms))
  {
    var c := EveryRunIsAccounted(w, acts);
    RunKeepsTerms(w, acts);
    var c' := CrankStep(RunWorld(w, acts), c, p);
  }

  /** Idempotence holds in every reachable state. */
  lemma CrankIsIdempotentInRuns(w: World, acts: seq<Act>, p: nat)
    requires Start(w) && p < 3
    ensures var u := RunWorld(w, acts);
            && Shaped(u)
            && var o := ObjectiveOf(u, p);
               o.status == VirtualFund.Approved && Crank(o, MyKey(o)).failed == None ==>
                 NothingMore(Crank(o, MyKey(o)), MyKey(o))
  {
    var c := EveryRunIsAccounted(w, acts);
    var u := RunWorld(w, acts);
    PartyIsHonest(u, c, p);
    if ObjectiveOf(u, p).status == VirtualFund.Approved {
      CrankIsIdempotent(ObjectiveOf(u, p));
    }
  }
}

/** What the operations of a direct fund objective answer: exactly when they succeed, and what they
    change. */
module DirectFundAnswers {
  import opened Types
  import opened States
  import opened Channels
  import opened VirtualFund
  import opened DirectFund

  lemma {:induction false} IndexFromFinds(participants: seq<Address>, a: Address, i: nat)
    requires i <= |participants|
    ensures IndexFrom(participants, a, i) < |participants| <==> a in participants[i..]
    decreases |participants| - i
  {
    if i < |participants| {
      IndexFromFinds(participants, a, i + 1);
      assert participants[i..] == [participants[i]] + participants[i + 1..];
    }
  }

  /** An objective is made exactly for a participant of a prefund state that is not final. */
  lemma ConstructedExactlyWhen(preApprove: bool, s: State, me: Address)
    requires |s.outcome| == 1
    ensures var r := ConstructDirect(preApprove, s, me);
            && (r.Ok? <==> && !IsExternal(s.fixed.channelId) && s.turnNum == PreFundTurnNum && !s.isFinal
                           && me in s.fixed.participants)
            && (r == Err(ExternalId) <==> IsExternal(s.fixed.channelId))
            && (r == Err(NotPrefund) ==> s.turnNum != PreFundTurnNum)
            && (r == Err(AlreadyFinal) ==> s.isFinal)
            && (r == Err(NotInChannel) ==> me !in s.fixed.participants)
  {
    IndexFromFinds(s.fixed.participants, me, 0);
    assert s.fixed.participants[0..] == s.fixed.participants;
  }

  /** An event for another objective is refused; one for this objective touches the channel only, by the
      signed state it brings. */
  lemma UpdatedExactlyWhen(o: DirectObjective, objectiveOf: Destination, ss: SignedState, order: seq<nat>)
    ensures UpdateDirect(o, objectiveOf, ss, order).Some? <==> objectiveOf == o.c.fixed.channelId
    ensures UpdateDirect(o, objectiveOf, ss, order).Some? ==>
              var o' := UpdateDirect(o, objectiveOf, ss, order).value;
              o' == o.(c := o'.c) && o'.c == AddSignedStateTo(o.c, ss, order).0
  {
  }

  // ------------------------------------------------------------------
  // Chain events
  // ------------------------------------------------------------------

  /** Only deposits can be handled, and one from a block that is not newer changes nothing. */
  lemma HandledExactlyWhen(o: DirectObjective, e: ChainEvent)
    ensures UpdateWithChainEvent(o, e).Some? <==> e.Deposited?
    ensures e.Deposited? && e.block <= o.latestBlock ==> UpdateWithChainEvent(o, e) == Some(o)
  {
  }

  /** The objective after these events; one it cannot handle changes nothing. */
  function ObserveAll(o: DirectObjective, events: seq<ChainEvent>): DirectObjective
    decreases |events|
  {
    if events == [] then o
    else
      var before := ObserveAll(o, events[..|events| - 1]);
      match UpdateWithChainEvent(before, events[|events| - 1])
      case None => before
      case Some(o') => o'
  }

  /** Event i is the first of those from the newest block, and that is newer than `block`. */
  ghost predicate FirstOfNewest(events: seq<ChainEvent>, block: nat, i: nat) {
    && i < |events| && events[i].Deposited? && events[i].block > block
    && forall j :: 0 <= j < |events| && events[j].Deposited? ==>
         events[j].block <= events[i].block && (events[j].block == events[i].block ==> i <= j)
  }

  /** Nothing but the belief changes, and that only with a newer block. */
  lemma {:induction false} ObservedBlocks(o: DirectObjective, events: seq<ChainEvent>)
    ensures var o' := ObserveAll(o, events);
            && o' == o.(c := o.c.(onChainFunding := o'.c.onChainFunding), latestBlock := o'.latestBlock)
            && o.latestBlock <= o'.latestBlock && (o'.latestBlock == o.latestBlock ==> o' == o)
            && (o'.latestBlock != o.latestBlock ==>
                  exists k :: 0 <= k < |events| && events[k].Deposited? && events[k].block == o'.latestBlock)
            && forall k :: 0 <= k < |events| && events[k].Deposited? ==> events[k].block <= o'.latestBlock
    decreases |events|
  {
    if events != [] {
      var n := |events| - 1;
      ObservedBlocks(o, events[..n]);
      assert forall k :: 0 <= k < n ==> events[..n][k] == events[k];
      assert events[n] in events;
    }
  }

  /** Whatever events arrive, and in whatever order, the objective believes what the newest block
      reported first, if that is newer than what it knew. */
  lemma {:induction false} BelievesTheNewest(o: DirectObjective, events: seq<ChainEvent>, i: nat)
    requires FirstOfNewest(events, o.latestBlock, i)
    ensures var o' := ObserveAll(o, events);
            o'.latestBlock == events[i].block && o'.c.onChainFunding == events[i].nowHeld
    decreases |events|
  {
    var n := |events| - 1;
    ObservedBlocks(o, events[..n]);
    assert forall k :: 0 <= k < n ==> events[..n][k] == events[k];
    if i < n {
      BelievesTheNewest(o, events[..n], i);
    }
  }

  /** A crank that fails sends nothing and submits nothing. */
  lemma FailedCrankSendsNothing(o: DirectObjective, key: Address)
    requires DirectCrankable(o)
    ensures var r := CrankDirect(o, key);
            r.failed.Some? ==>
              r.messages == [] && r.deposits == [] && r.objective == o.(c := r.objective.c)
    ensures CrankDirect(o, key).failed == Some(StatusNotApproved) <==> o.status != Approved
  {
  }
}

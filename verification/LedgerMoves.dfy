/** What one proposal about a channel does to the balances of a ledger, whatever else is proposed about
    other channels. */
module LedgerMoves {
  import opened Types
  import opened LedgerVars
  import opened LedgerRun
  import opened GuaranteeRun
  import opened RemovalRun

  /** Amounts by which the balances of leader and follower have changed. */
  datatype Moved = Moved(leader: int, follower: int)

  function MovedBetween(u: LedgerOutcome, v: LedgerOutcome): Moved {
    Moved(v.leader.amount - u.leader.amount, v.follower.amount - u.follower.amount)
  }

  function Plus(m: Moved, m': Moved): Moved {
    Moved(m.leader + m'.leader, m.follower + m'.follower)
  }

  /** What the first n proposals have moved, but for e. */
  ghost function MovedByOthers(h: History, e: Proposal, n: nat): Moved
    requires n <= |h.made| && StateAt(h, n).Ok?
  {
    if n == 0 then Moved(0, 0)
    else if h.made[n - 1].proposal == e then MovedByOthers(h, e, n - 1)
    else
      Plus(MovedByOthers(h, e, n - 1), MovedBetween(StateAt(h, n - 1).value.outcome, StateAt(h, n).value.outcome))
  }

  ghost predicate Moves(h: History, e: Proposal, n: nat, own: Moved)
    requires n <= |h.made| && StateAt(h, n).Ok?
  {
    MovedBetween(h.start.outcome, StateAt(h, n).value.outcome) == Plus(MovedByOthers(h, e, n), own)
  }

  lemma StillMoves(h: History, e: Proposal, n: nat, own: Moved)
    requires 0 < n <= |h.made| && StateAt(h, n).Ok? && h.made[n - 1].proposal != e && Moves(h, e, n - 1, own)
    ensures Moves(h, e, n, own)
  {
  }

  lemma NowMoves(h: History, e: Proposal, n: nat)
    requires 0 < n <= |h.made| && StateAt(h, n).Ok? && h.made[n - 1].proposal == e
    requires Moves(h, e, n - 1, Moved(0, 0))
    ensures Moves(h, e, n, MovedBetween(StateAt(h, n - 1).value.outcome, StateAt(h, n).value.outcome))
  {
  }

  /** What the addition e has moved by the n-th state. */
  ghost function Added(h: History, e: Proposal, n: nat): Moved
    requires e.change.Add? && n <= |h.made| && StateAt(h, n).Ok?
  {
    if Target(e) in StateAt(h, n).value.outcome.guarantees
    then Moved(-e.change.leftDeposit, -RightDeposit(e.change.guarantee, e.change.leftDeposit))
    else Moved(0, 0)
  }

  lemma OthersStay(h: History, e: Proposal, n: nat)
    requires 0 < n <= |h.made| && StateAt(h, n).Ok? && Target(h.made[n - 1].proposal) != Target(e)
    ensures Target(e) in StateAt(h, n).value.outcome.guarantees
       <==> Target(e) in StateAt(h, n - 1).value.outcome.guarantees
  {
    ApplyKeepsOthers(StateAt(h, n - 1).value, h.made[n - 1].proposal, Target(e));
  }

  lemma AddedNow(h: History, e: Proposal, n: nat)
    requires e.change.Add? && 0 < n <= |h.made| && StateAt(h, n).Ok? && h.made[n - 1].proposal == e
    ensures Added(h, e, n - 1) == Moved(0, 0)
    ensures Added(h, e, n) == MovedBetween(StateAt(h, n - 1).value.outcome, StateAt(h, n).value.outcome)
  {
    assert ApplyAdd(StateAt(h, n - 1).value, e.change.guarantee, e.change.leftDeposit) == StateAt(h, n);
  }

  lemma AdditionStep(h: History, e: Proposal, n: nat)
    requires Tame(h, e) && 0 < n <= |h.made| && StateAt(h, n).Ok? && Moves(h, e, n - 1, Added(h, e, n - 1))
    ensures Moves(h, e, n, Added(h, e, n))
  {
    if h.made[n - 1].proposal == e {
      AddedNow(h, e, n);
      NowMoves(h, e, n);
    } else {
      OthersStay(h, e, n);
      StillMoves(h, e, n, Added(h, e, n - 1));
    }
  }

  /** The addition charges the leader the left deposit, once. */
  lemma {:induction false} AdditionMoves(h: History, e: Proposal, n: nat)
    requires Tame(h, e) && n <= |h.made| && StateAt(h, n).Ok?
    ensures Moves(h, e, n, Added(h, e, n))
  {
    if n > 0 {
      AdditionMoves(h, e, n - 1);
      AdditionStep(h, e, n);
    }
  }

  /** What removing a guarantee returns to leader and follower. */
  function Returned(o: LedgerOutcome, target: Destination, leftAmount: int): Moved
    requires target in o.guarantees
  {
    var rightAmount := o.guarantees[target].amount - leftAmount;
    if o.leader.destination == o.guarantees[target].left then Moved(leftAmount, rightAmount)
    else Moved(rightAmount, leftAmount)
  }

  lemma {:induction false} LeaderStays(h: History, n: nat)
    requires n <= |h.made| && StateAt(h, n).Ok?
    ensures StateAt(h, n).value.outcome.leader.destination == h.start.outcome.leader.destination
  {
    if n > 0 {
      LeaderStays(h, n - 1);
    }
  }

  /** What the removal e has moved by the n-th state. */
  ghost function Removed(h: History, e: Proposal, n: nat): Moved
    requires Closing(h, e) && n <= |h.made| && StateAt(h, n).Ok?
  {
    if Target(e) in StateAt(h, n).value.outcome.guarantees then Moved(0, 0)
    else Returned(h.start.outcome, Target(e), e.change.leftAmount)
  }

  lemma RemovedNow(h: History, e: Proposal, n: nat)
    requires Closing(h, e) && 0 < n <= |h.made| && StateAt(h, n).Ok? && h.made[n - 1].proposal == e
    ensures Removed(h, e, n - 1) == Moved(0, 0)
    ensures Removed(h, e, n) == MovedBetween(StateAt(h, n - 1).value.outcome, StateAt(h, n).value.outcome)
  {
    LeaderStays(h, n - 1);
    HeldUntilRemoved(h, e, n - 1);
    assert ApplyRemove(StateAt(h, n - 1).value, Target(e), e.change.leftAmount) == StateAt(h, n);
  }

  lemma RemovalStep(h: History, e: Proposal, n: nat)
    requires Closing(h, e) && 0 < n <= |h.made| && StateAt(h, n).Ok? && Moves(h, e, n - 1, Removed(h, e, n - 1))
    ensures Moves(h, e, n, Removed(h, e, n))
  {
    if h.made[n - 1].proposal == e {
      RemovedNow(h, e, n);
      NowMoves(h, e, n);
    } else {
      OthersStay(h, e, n);
      StillMoves(h, e, n, Removed(h, e, n - 1));
    }
  }

  /** The removal returns the guarantee that was there at first, once. */
  lemma {:induction false} RemovalMoves(h: History, e: Proposal, n: nat)
    requires Closing(h, e) && n <= |h.made| && StateAt(h, n).Ok?
    ensures Moves(h, e, n, Removed(h, e, n))
  {
    if n > 0 {
      RemovalMoves(h, e, n - 1);
      RemovalStep(h, e, n);
    }
  }
}

/** One ledger on its way to giving up the guarantee of a virtual channel, while other objectives may
    be using the ledger too. */
module RemovalRun {
  import opened Types
  import opened LedgerVars
  import opened Consensus
  import opened LedgerRun
  import opened Messages
  import opened GuaranteeRun
  import opened VirtualDefund

  /** The ledger started with the guarantee, and nothing but its removal with the expected share has
      ever been proposed about it. */
  ghost predicate Closing(h: History, e: Proposal) {
    && e.change.Remove?
    && Target(e) in h.start.outcome.guarantees
    && forall k :: 0 <= k < |h.made| && Target(h.made[k].proposal) == Target(e) ==> h.made[k].proposal == e
  }

  /** The removal is among the first n proposals. */
  ghost predicate RemovalAmong(h: History, e: Proposal, n: nat)
    requires n <= |h.made|
  {
    exists k :: 0 <= k < n && h.made[k].proposal == e
  }

  /** The guarantee stays as it was until it is removed, and is not seen again. */
  lemma {:induction false} HeldUntilRemoved(h: History, e: Proposal, n: nat)
    requires Closing(h, e) && n <= |h.made| && StateAt(h, n).Ok?
    ensures var m := StateAt(h, n).value.outcome.guarantees;
            && (Target(e) in m <==> !RemovalAmong(h, e, n))
            && (Target(e) in m ==> m[Target(e)] == h.start.outcome.guarantees[Target(e)])
  {
    if n > 0 {
      HeldUntilRemoved(h, e, n - 1);
      if Target(h.made[n - 1].proposal) != Target(e) {
        ApplyKeepsOthers(StateAt(h, n - 1).value, h.made[n - 1].proposal, Target(e));
      }
    }
  }

  ghost predicate Holds(l: Ledger, e: Proposal) {
    Target(e) in l.current.vars.outcome.guarantees
  }

  ghost predicate OnCourse(s: System, h: History, e: Proposal) {
    Explains(h, s) && Closing(h, e)
  }

  /** Neither side gets the guarantee back. */
  ghost predicate StaysRemoved(s: System, t: System, e: Proposal) {
    && (!Holds(s.leader, e) ==> !Holds(t.leader, e))
    && (!Holds(s.follower, e) ==> !Holds(t.follower, e))
  }

  /** A side without the guarantee has seen its removal proposed. */
  lemma MissingMeansProposed(s: System, h: History, e: Proposal)
    requires OnCourse(s, h, e) && (!Holds(s.leader, e) || !Holds(s.follower, e))
    ensures RemovalAmong(h, e, |h.made|)
  {
    HeldUntilRemoved(h, e, h.adopted);
    HeldUntilRemoved(h, e, h.signed);
  }

  lemma RemovalCarries(h: History, h': History, e: Proposal, n: nat, n': nat)
    requires h.made <= h'.made && n <= |h.made| && n <= n' <= |h'.made|
    ensures RemovalAmong(h, e, n) ==> RemovalAmong(h', e, n')
  {
    if RemovalAmong(h, e, n) {
      var k :| 0 <= k < n && h.made[k].proposal == e;
      assert h'.made[k] == h.made[k];
    }
  }

  lemma StepKeepsCourse(s: System, h: History, e: Proposal, step: Step) returns (h': History)
    requires OnCourse(s, h, e) && Allows(step, e)
    ensures OnCourse(Next(s, step), h', e) && StaysRemoved(s, Next(s, step), e) && h'.start == h.start
    ensures RemovalAmong(h', e, |h'.made|) ==> RemovalAmong(h, e, |h.made|) || step == LeaderPropose(e)
  {
    h' := StepIsExplained(s, h, step);
    assert forall k :: 0 <= k < |h.made| ==> h'.made[k] == h.made[k];
    assert Closing(h', e);
    HeldUntilRemoved(h, e, h.adopted);
    HeldUntilRemoved(h, e, h.signed);
    HeldUntilRemoved(h', e, h'.adopted);
    HeldUntilRemoved(h', e, h'.signed);
    RemovalCarries(h, h', e, h.adopted, h'.adopted);
    RemovalCarries(h, h', e, h.signed, h'.signed);
  }

  // ------------------------------------------------------------------
  // What the objective does on the ledger
  // ------------------------------------------------------------------

  ghost predicate Closes(o: Objective, s: System, e: Proposal) {
    Proper(o) && WellFormed(s) && RemoveProposalOf(o, s.leader.fp.channelId) == e
  }

  /** The share returned is more than the guarantee holds. */
  ghost predicate Excessive(h: History, e: Proposal)
    requires Closing(h, e)
  {
    e.change.leftAmount > h.start.outcome.guarantees[Target(e)].amount
  }

  /** So it cannot have been removed. */
  lemma RemovedWithinAmount(s: System, h: History, e: Proposal)
    requires OnCourse(s, h, e) && RemovalAmong(h, e, |h.made|)
    ensures !Excessive(h, e)
  {
    var k :| 0 <= k < |h.made| && h.made[k].proposal == e;
    assert EntrySigned(s.leader.fp, h.start, h.made, k);
    HeldUntilRemoved(h, e, k);
  }

  /** Nor can it be: neither side's step changes anything. */
  lemma ExcessiveChangesNothing(s: System, h: History, e: Proposal, role: Role)
    requires OnCourse(s, h, e) && Excessive(h, e)
    ensures Next(s, StepOf(role, e)) == s
  {
    if RemovalAmong(h, e, |h.made|) {
      RemovedWithinAmount(s, h, e);
      assert false;
    }
    if role == Leader {
      SideAhead(s.leader, h, h.adopted, |h.made|, |s.leader.queue|);
      HistoryState(s.leader.fp, h, |h.made|);
      HeldUntilRemoved(h, e, |h.made|);
    } else if s.follower.queue != [] {
      assert s.follower.queue[0] == h.made[h.signed];
    }
  }

  ghost predicate SideClosed(s: System, role: Role, e: Proposal, l': Ledger, ms: seq<Message>)
    requires WellFormed(s)
  {
    && OnlyTo(ms, s.leader.fp, Opposite(role))
    && (role == Leader ==> forall m :: m in ms ==> m.ProposalMessage? && m.proposals == l'.queue)
    && var t := Sending(s, role, l', ms);
       if ms == [] then t == s else t == Next(s, StepOf(role, e))
  }

  /** The leader's part: nothing, if it has proposed; else the proposal step, with its whole queue sent
      to the follower. It fails exactly when it is to return more than there is. */
  lemma LeaderCloses(o: Objective, s: System, h: History, e: Proposal)
    requires OnCourse(s, h, e) && Closes(o, s, e) && Holds(s.leader, e)
    ensures match UpdateLedger(o, s.leader, LeaderOf(s.leader.fp))
            case Err(x) => x == CannotApply(InvalidAmount) && Excessive(h, e)
            case Ok((l', ms)) => SideClosed(s, Leader, e, l', ms)
  {
    var l, key := s.leader, LeaderOf(s.leader.fp);
    SideIsValid(l, h, h.adopted, |h.made|);
    SideAhead(l, h, h.adopted, |h.made|, |l.queue|);
    HistoryState(l.fp, h, |h.made|);
    HeldUntilRemoved(h, e, h.adopted);
    HeldUntilRemoved(h, e, |h.made|);
    if !RemovalProposed(l.queue, Target(e)) {
      NotQueuedNotMade(l, h, e);
      match ProposeOn(l, e, key) {
        case Err(_) =>
        case Ok((l', sp)) =>
          LedgerIdsInQueue(l, e, key);
          QueueMessage(l'.queue, l.fp, Follower);
      }
    } else {
      SendingNothing(s, Leader);
    }
  }

  lemma NotQueuedNotMade(l: Ledger, h: History, e: Proposal)
    requires e.change.Remove? && h.adopted <= |h.made| && l.queue == h.made[h.adopted..]
    requires !RemovalAmong(h, e, h.adopted) && !RemovalProposed(l.queue, Target(e))
    ensures !RemovalAmong(h, e, |h.made|)
  {
    forall k | 0 <= k < |h.made| ensures h.made[k].proposal != e {
      if k >= h.adopted {
        assert l.queue[k - h.adopted] == h.made[k];
      }
    }
  }

  /** The follower's part: nothing, or the signing step, with the countersignature sent to the leader. It
      never fails: the head of the queue that removes the guarantee is the expected proposal. */
  lemma FollowerCloses(o: Objective, s: System, h: History, e: Proposal)
    requires OnCourse(s, h, e) && Closes(o, s, e)
    ensures match UpdateLedger(o, s.follower, FollowerOf(s.leader.fp))
            case Err(_) => false
            case Ok((l', ms)) => SideClosed(s, Follower, e, l', ms)
  {
    var l, key := s.follower, FollowerOf(s.leader.fp);
    if RemovalProposedNext(l, Target(e)) {
      SideIsValid(l, h, h.signed, h.received);
      assert l.queue[0] == h.made[h.signed];
      assert After(l.current.vars, l.queue, 0) == Ok(l.current.vars);
      assert EntrySigned(l.fp, l.current.vars, l.queue, 0);
      var sp := SignNextOn(l, e, key).value.1;
      QueueMessage([sp], l.fp, Leader);
      assert ElementsOf([sp]) == {sp};
    } else {
      SendingNothing(s, Follower);
    }
  }

  lemma SideCloses(o: Objective, s: System, h: History, e: Proposal, role: Role)
    requires OnCourse(s, h, e) && Closes(o, s, e)
    ensures match DefundSide(o, Some(Side(s, role)), Me(s.leader.fp, role))
            case Err(x) => role == Leader && x == CannotApply(InvalidAmount) && Excessive(h, e)
            case Ok((l', ms)) => l'.Some? && SideClosed(s, role, e, l'.value, ms)
  {
    if Defunded(o, Side(s, role)) {
      SendingNothing(s, role);
    } else if role == Leader {
      LeaderCloses(o, s, h, e);
    } else {
      FollowerCloses(o, s, h, e);
    }
  }

  /** A proposal the ledger's other side has sent is never an error for the objective. */
  lemma SentProposalsAreTaken(s: System, h: History, role: Role, sp: SignedProposal)
    requires Explains(h, s) && SentTo(s, role, sp)
    ensures Receives(Side(s, role), sp).Ok?
    ensures Post(s, role, Receives(Side(s, role), sp).value, {}) == Next(s, DeliveryTo(role, sp))
  {
    if role == Leader {
      var h' := DeliverToLeaderStep(s, h, sp);
    } else {
      var h' := DeliverToFollowerStep(s, h, sp);
    }
  }
}

/** One ledger on its way to holding the guarantee of a virtual channel, while other objectives may
    be using the ledger too. */
module GuaranteeRun {
  import opened Types
  import opened States
  import opened LedgerVars
  import opened Consensus
  import opened LedgerRun
  import opened Messages
  import opened VirtualFund

  /** Nothing but the expected proposal has ever been proposed about its target. */
  ghost predicate Tame(h: History, e: Proposal) {
    && e.change.Add?
    && Target(e) !in h.start.outcome.guarantees
    && forall k :: 0 <= k < |h.made| && Target(h.made[k].proposal) == Target(e) ==> h.made[k].proposal == e
  }

  ghost predicate HoldsGuarantee(l: Ledger, e: Proposal) {
    e.change.Add? && Includes(l.current.vars.outcome, e.change.guarantee)
  }

  /** A guarantee for the target can only be the expected one. */
  lemma {:induction false} OnlyTheExpected(h: History, e: Proposal, n: nat)
    requires Tame(h, e) && n <= |h.made| && StateAt(h, n).Ok?
    ensures var m := StateAt(h, n).value.outcome.guarantees;
            Target(e) in m ==> m[Target(e)] == e.change.guarantee
  {
    if n > 0 {
      OnlyTheExpected(h, e, n - 1);
      if Target(h.made[n - 1].proposal) != Target(e) {
        ApplyKeepsOthers(StateAt(h, n - 1).value, h.made[n - 1].proposal, Target(e));
      }
    }
  }

  /** Once there, the guarantee stays. */
  lemma {:induction false} GuaranteeStays(h: History, e: Proposal, n: nat, m: nat)
    requires Tame(h, e) && n <= m <= |h.made| && StateAt(h, m).Ok?
    ensures StateAt(h, n).Ok?
    ensures Includes(StateAt(h, n).value.outcome, e.change.guarantee) ==>
              Includes(StateAt(h, m).value.outcome, e.change.guarantee)
    decreases m
  {
    AfterOkBefore(h.start, h.made, n, m);
    if n < m {
      GuaranteeStays(h, e, n, m - 1);
      if Includes(StateAt(h, n).value.outcome, e.change.guarantee) {
        assert Target(h.made[m - 1].proposal) != Target(e);
        ApplyKeepsOthers(StateAt(h, m - 1).value, h.made[m - 1].proposal, Target(e));
      }
    }
  }

  /** A step that proposes nothing else about the target. */
  ghost predicate Allows(step: Step, e: Proposal) {
    step.LeaderPropose? && Target(step.proposal) == Target(e) ==> step.proposal == e
  }

  /** Other objectives propose nothing about this channel. */
  predicate Minds(step: Step, target: Destination) {
    step.LeaderPropose? ==> Target(step.proposal) != target
  }

  /** Neither side loses the guarantee. */
  ghost predicate Keeps(s: System, t: System, e: Proposal) {
    && (HoldsGuarantee(s.leader, e) ==> HoldsGuarantee(t.leader, e))
    && (HoldsGuarantee(s.follower, e) ==> HoldsGuarantee(t.follower, e))
  }

  ghost predicate OnTrack(s: System, h: History, e: Proposal) {
    Explains(h, s) && Tame(h, e)
  }

  lemma SameHistoryBefore(h: History, h': History, n: nat)
    requires h'.start == h.start && h.made <= h'.made && n <= |h.made|
    ensures StateAt(h', n) == StateAt(h, n)
  {
    AfterSame(h.start, h.made, h'.made, n);
  }

  lemma StepKeepsTrack(s: System, h: History, e: Proposal, step: Step) returns (h': History)
    requires OnTrack(s, h, e) && Allows(step, e)
    ensures OnTrack(Next(s, step), h', e) && Keeps(s, Next(s, step), e)
  {
    h' := StepIsExplained(s, h, step);
    assert Tame(h', e) by {
      forall k | 0 <= k < |h'.made| && Target(h'.made[k].proposal) == Target(e) ensures h'.made[k].proposal == e {
        if k < |h.made| {
          assert h'.made[k] == h.made[k];
        }
      }
    }
    SameHistoryBefore(h, h', h.adopted);
    SameHistoryBefore(h, h', h.signed);
    GuaranteeStays(h', e, h.adopted, h'.adopted);
    GuaranteeStays(h', e, h.signed, h'.signed);
  }

  // ------------------------------------------------------------------
  // What the objective does on the ledger
  // ------------------------------------------------------------------

  function Side(s: System, role: Role): Ledger {
    if role == Leader then s.leader else s.follower
  }

  /** How much of the history a side has adopted. */
  ghost function SeenBy(h: History, role: Role): nat {
    if role == Leader then h.adopted else h.signed
  }

  lemma SideStands(s: System, h: History, role: Role)
    requires Explains(h, s)
    ensures SeenBy(h, role) <= |h.made| && StateAt(h, SeenBy(h, role)) == Ok(Side(s, role).current.vars)
  {
  }

  /** The system once one side has changed and sent these proposals. */
  function Post(s: System, role: Role, l: Ledger, sent: set<SignedProposal>): System {
    if role == Leader then s.(leader := l, toFollower := s.toFollower + sent)
    else s.(follower := l, toLeader := s.toLeader + sent)
  }

  function StepOf(role: Role, e: Proposal): Step {
    if role == Leader then LeaderPropose(e) else FollowerSign(e)
  }

  /** What a connection of one side of the system expects. */
  ghost predicate Connects(c: Connection, s: System, role: Role, e: Proposal) {
    && WellFormed(s) && c.ledger == Side(s, role) && ExpectedProposal(c) == e
    && c.info.rightAmount >= 0
  }

  function Opposite(role: Role): Role {
    if role == Leader then Follower else Leader
  }

  /** The inbox of the party with this role. */
  function InboxOf(fp: FixedPart, role: Role): Inbox
    requires TwoParties(fp)
  {
    Inbox(fp.channelId, Me(fp, role))
  }

  /** The messages are proposals for this ledger only, and all go to the party with this role. */
  ghost predicate OnlyTo(ms: seq<Message>, fp: FixedPart, role: Role)
    requires TwoParties(fp)
  {
    && StatesIn(ms) == {}
    && (forall m :: m in ms ==> m.to == Me(fp, role))
    && forall box: Inbox :: box.ledgerId != fp.channelId ==> ProposalsFor(ms, box) == {}
  }

  lemma QueueMessage(q: seq<SignedProposal>, fp: FixedPart, role: Role)
    requires TwoParties(fp) && forall i :: 0 <= i < |q| ==> q[i].proposal.ledgerId == fp.channelId
    ensures ProposalsFor([ProposalMessage(Me(fp, role), q)], InboxOf(fp, role)) == ElementsOf(q)
    ensures OnlyTo([ProposalMessage(Me(fp, role), q)], fp, role)
  {
    var m := ProposalMessage(Me(fp, role), q);
    assert forall x :: x in [m] <==> x == m;
  }

  /** Messages about two different ledgers do not mix. */
  lemma JoinedSides(left: seq<Message>, right: seq<Message>, fp: FixedPart, fp': FixedPart, role: Role, role': Role)
    requires TwoParties(fp) && TwoParties(fp') && fp.channelId != fp'.channelId
    requires OnlyTo(left, fp, role) && OnlyTo(right, fp', role')
    ensures ProposalsFor(left + right, InboxOf(fp, role)) == ProposalsFor(left, InboxOf(fp, role))
    ensures ProposalsFor(left + right, InboxOf(fp', role')) == ProposalsFor(right, InboxOf(fp', role'))
    ensures StatesIn(left + right) == {}
  {
    JoinedMessages(left, right);
  }

  /** What a side has become, with what it has sent to the other one. */
  ghost function Sending(s: System, role: Role, l: Ledger, ms: seq<Message>): System
    requires WellFormed(s)
  {
    Post(s, role, l, ProposalsFor(ms, InboxOf(s.leader.fp, Opposite(role))))
  }

  lemma SendingNothing(s: System, role: Role)
    requires WellFormed(s)
    ensures Sending(s, role, Side(s, role), []) == s && OnlyTo([], s.leader.fp, Opposite(role))
  {
    NoMessages();
  }

  /** The leader's part: nothing, if it has proposed; else the proposal step, with its whole queue sent
      to the follower. Only lack of funds can stop it. */
  lemma LeaderUpdates(c: Connection, s: System, h: History, e: Proposal)
    requires OnTrack(s, h, e) && Connects(c, s, Leader, e) && !Funded(c)
    ensures match UpdateLedger(c, LeaderOf(s.leader.fp))
            case Err(x) => x == LedgerUpdate(CannotApply(InsufficientFunds))
            case Ok((c', ms)) =>
              && c'.info == c.info && OnlyTo(ms, s.leader.fp, Follower)
              && (forall m :: m in ms ==> m.ProposalMessage? && m.proposals == c'.ledger.queue)
              && var t := Sending(s, Leader, c'.ledger, ms);
                 if ms == [] then t == s else t == Next(s, LeaderPropose(e))
  {
    var l, g, key := s.leader, e.change.guarantee, LeaderOf(s.leader.fp);
    SideAhead(l, h, h.adopted, |h.made|, |l.queue|);
    HistoryState(l.fp, h, |h.made|);
    OnlyTheExpected(h, e, |h.made|);
    if IsProposed(l, g) == Ok(false) {
      match ProposeOn(l, e, key) {
        case Err(_) =>
        case Ok((l', sp)) =>
          SideIsValid(l, h, h.adopted, |h.made|);
          LedgerIdsInQueue(l, e, key);
          QueueMessage(l'.queue, l.fp, Follower);
      }
    } else {
      SendingNothing(s, Leader);
    }
  }

  lemma LedgerIdsInQueue(l: Ledger, p: Proposal, key: Address)
    requires Valid(l) && ProposeOn(l, p, key).Ok?
    ensures var q := ProposeOn(l, p, key).value.0.queue;
            forall i :: 0 <= i < |q| ==> q[i].proposal.ledgerId == l.fp.channelId
  {
    ProposeKeeps(l, p, key);
    var l' := ProposeOn(l, p, key).value.0;
    forall i | 0 <= i < |l'.queue| ensures l'.queue[i].proposal.ledgerId == l.fp.channelId {
      assert EntrySigned(l'.fp, l'.current.vars, l'.queue, i);
    }
  }

  /** The follower's part: nothing, or the signing step, with the countersignature sent to the leader. It
      never fails: the head of the queue that adds the guarantee is the expected proposal. */
  lemma FollowerUpdates(c: Connection, s: System, h: History, e: Proposal)
    requires OnTrack(s, h, e) && Connects(c, s, Follower, e) && !Funded(c)
    ensures match UpdateLedger(c, FollowerOf(s.leader.fp))
            case Err(_) => false
            case Ok((c', ms)) =>
              && c'.info == c.info && OnlyTo(ms, s.leader.fp, Leader)
              && var t := Sending(s, Follower, c'.ledger, ms);
                 if ms == [] then t == s else t == Next(s, FollowerSign(e))
  {
    var l, g, key := s.follower, e.change.guarantee, FollowerOf(s.leader.fp);
    SideIsValid(l, h, h.signed, h.received);
    SideAhead(l, h, h.signed, h.received, |l.queue|);
    HistoryState(l.fp, h, h.received);
    ProposedNextIsHeadAdd(l, g);
    if IsProposedNext(l, g) == Ok(true) {
      assert l.queue[0] == h.made[h.signed];
      assert After(l.current.vars, l.queue, 0) == Ok(l.current.vars);
      assert EntrySigned(l.fp, l.current.vars, l.queue, 0);
      var sp := SignNextOn(l, e, key).value.1;
      QueueMessage([sp], l.fp, Leader);
      assert ElementsOf([sp]) == {sp};
    } else {
      SendingNothing(s, Follower);
    }
  }

  /** The side's part in a crank, funded or not. */
  ghost predicate SideMoved(s: System, role: Role, e: Proposal, c: Connection, c': Option<Connection>, ms: seq<Message>)
    requires WellFormed(s)
  {
    && c'.Some? && c'.value.info == c.info && OnlyTo(ms, s.leader.fp, Opposite(role))
    && var t := Sending(s, role, c'.value.ledger, ms);
       t == s || t == Next(s, StepOf(role, e))
  }

  lemma SideUpdates(c: Connection, s: System, h: History, e: Proposal, role: Role)
    requires OnTrack(s, h, e) && Connects(c, s, role, e)
    ensures match FundSide(Some(c), Me(s.leader.fp, role))
            case Err(x) => role == Leader && x == LedgerUpdate(CannotApply(InsufficientFunds))
            case Ok((c', ms)) => SideMoved(s, role, e, c, c', ms)
  {
    if Funded(c) {
      SendingNothing(s, role);
    } else if role == Leader {
      LeaderUpdates(c, s, h, e);
    } else {
      FollowerUpdates(c, s, h, e);
    }
  }

  /** Either way the ledger stays on track and neither side loses the guarantee. */
  lemma MovedKeepsTrack(s: System, h: History, e: Proposal, role: Role, t: System) returns (h': History)
    requires OnTrack(s, h, e) && (t == s || t == Next(s, StepOf(role, e)))
    ensures OnTrack(t, h', e) && Keeps(s, t, e)
  {
    h' := h;
    if t != s {
      h' := StepKeepsTrack(s, h, e, StepOf(role, e));
    }
  }

  /** The delivery of a proposal to the side with this role. */
  function DeliveryTo(role: Role, sp: SignedProposal): Step {
    if role == Leader then DeliverToLeader(sp) else DeliverToFollower(sp)
  }

  ghost predicate SentTo(s: System, role: Role, sp: SignedProposal) {
    if role == Leader then sp in s.toLeader else sp in s.toFollower
  }

  /** Delivering a proposal through the objective is delivering it on the ledger; errors are dropped. */
  lemma UpdateIsDelivery(c: Connection, s: System, role: Role, sp: SignedProposal)
    requires WellFormed(s) && c.ledger == Side(s, role) && SentTo(s, role, sp)
    ensures Post(s, role, HandleProposal(c, sp).ledger, {}) == Next(s, DeliveryTo(role, sp))
  {
  }
}

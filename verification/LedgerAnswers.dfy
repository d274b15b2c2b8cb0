/** What the operations of a valid ledger channel answer: exactly when they succeed, what success does,
    and why they refuse. */
module LedgerAnswers {
  import opened Types
  import opened States
  import opened LedgerEncoding
  import opened LedgerVars
  import opened Consensus

  ghost predicate SignedEntry(fp: FixedPart, sp: SignedProposal, p: Proposal, v: Vars, who: Address) {
    sp.proposal == p && sp.turnNum == v.turnNum && SignsVars(fp, v, sp.signature, who)
  }

  /** The signature is not one on this state. */
  ghost predicate RefusedSignature(fp: FixedPart, v: Result<Vars, LedgerError>, sig: Signature) {
    v.Ok? && RecoverSigner(AsState(v.value, fp), sig).Err?
  }

  /** It is one on this state, but by somebody else. */
  ghost predicate SignedBySomebody(fp: FixedPart, v: Result<Vars, LedgerError>, sig: Signature, who: Address) {
    v.Ok? && RecoverSigner(AsState(v.value, fp), sig).Ok? && !SignsVars(fp, v.value, sig, who)
  }

  /** A leader proposes what can be applied on top of all it has proposed, under its own key. */
  lemma ProposeExactlyWhen(l: Ledger, p: Proposal, key: Address)
    requires Valid(l)
    ensures Latest(l).Ok?
    ensures ProposeOn(l, p, key).Ok?
       <==> l.role == Leader && p.ledgerId == l.fp.channelId && Apply(Latest(l).value, p).Ok? && key == LeaderOf(l.fp)
    ensures ProposeOn(l, p, key).Ok? ==>
              var (l', sp) := ProposeOn(l, p, key).value;
              && l' == l.(queue := l.queue + [sp])
              && SignedEntry(l.fp, sp, p, Apply(Latest(l).value, p).value, LeaderOf(l.fp))
    ensures ProposeOn(l, p, key).Err? ==>
              var e := ProposeOn(l, p, key).error;
              && (e == NotLeader <==> l.role != Leader)
              && (e == IncorrectChannelId <==> l.role == Leader && p.ledgerId != l.fp.channelId)
              && (e.CannotApply? ==> Apply(Latest(l).value, p) == Err(e.reason))
              && (e == WrongKey ==> key != LeaderOf(l.fp))
              && (e in {NotLeader, IncorrectChannelId, WrongKey} || e.CannotApply?)
  {
    QueueApplies(l.fp, l.current.vars, l.queue, |l.queue|);
  }

  /** A follower countersigns exactly the proposal it expects, if that is next in its queue. */
  lemma SignNextExactlyWhen(l: Ledger, expected: Proposal, key: Address)
    requires Valid(l)
    ensures SignNextOn(l, expected, key).Ok?
       <==> l.role == Follower && l.queue != [] && l.queue[0].proposal == expected && key == FollowerOf(l.fp)
    ensures SignNextOn(l, expected, key).Ok? ==>
              var (l', sp) := SignNextOn(l, expected, key).value;
              && Apply(l.current.vars, expected) == Ok(l'.current.vars)
              && l' == l.(current := l'.current, queue := l.queue[1..])
              && l'.current.followerSig == sp.signature && l'.current.leaderSig == l.queue[0].signature
              && SignedEntry(l.fp, sp, expected, l'.current.vars, FollowerOf(l.fp))
    ensures SignNextOn(l, expected, key).Err? ==>
              var e := SignNextOn(l, expected, key).error;
              && (e == NotFollower <==> l.role != Follower)
              && (e == IncorrectChannelId <==> l.role == Follower && expected.ledgerId != l.fp.channelId)
              && (e == NoProposals ==> l.queue == [])
              && (e == NonMatchingProposals ==> l.queue != [] && l.queue[0].proposal != expected)
              && (e == WrongKey ==> key != FollowerOf(l.fp))
              && e in {NotFollower, IncorrectChannelId, NoProposals, NonMatchingProposals, WrongKey}
  {
    assert After(l.current.vars, l.queue, 0) == Ok(l.current.vars);
    if l.queue != [] {
      assert EntrySigned(l.fp, l.current.vars, l.queue, 0);
    }
  }

  /** A follower queues exactly what follows on all it has queued and is signed by the leader. */
  lemma FollowerReceiveExactlyWhen(l: Ledger, p: SignedProposal)
    requires Valid(l)
    ensures Latest(l).Ok?
    ensures FollowerReceiveOn(l, p).Ok?
       <==> && l.role == Follower && p.proposal.ledgerId == l.fp.channelId
            && p.turnNum == Latest(l).value.turnNum + 1 && Apply(Latest(l).value, p.proposal).Ok?
            && SignsVars(l.fp, Apply(Latest(l).value, p.proposal).value, p.signature, LeaderOf(l.fp))
    ensures FollowerReceiveOn(l, p).Ok? ==> FollowerReceiveOn(l, p).value == l.(queue := l.queue + [p])
    ensures FollowerReceiveOn(l, p) == Err(InvalidTurnNum)
       <==> && l.role == Follower && p.proposal.ledgerId == l.fp.channelId
            && p.turnNum != Latest(l).value.turnNum + 1
    ensures FollowerReceiveOn(l, p).Err? ==>
              var e := FollowerReceiveOn(l, p).error;
              && (e == NotFollower <==> l.role != Follower)
              && (e == IncorrectChannelId <==> l.role == Follower && p.proposal.ledgerId != l.fp.channelId)
              && (e.CannotApply? ==> Apply(Latest(l).value, p.proposal) == Err(e.reason))
              && (e == SignatureUnrecoverable ==>
                    RefusedSignature(l.fp, Apply(Latest(l).value, p.proposal), p.signature))
              && (e == InvalidProposalSignature ==>
                    SignedBySomebody(l.fp, Apply(Latest(l).value, p.proposal), p.signature, LeaderOf(l.fp)))
              && (|| e in {NotFollower, IncorrectChannelId, InvalidTurnNum, SignatureUnrecoverable}
                  || e == InvalidProposalSignature || e.CannotApply?)
  {
    QueueApplies(l.fp, l.current.vars, l.queue, |l.queue|);
  }

  /** The state that the current one leads to after n queued proposals. */
  ghost function QueuedState(l: Ledger, n: nat): Vars
    requires Valid(l) && n <= |l.queue|
  {
    QueueApplies(l.fp, l.current.vars, l.queue, n);
    After(l.current.vars, l.queue, n).value
  }

  /** A leader moves to the queued state that the follower has signed, and leaves what is stale. */
  lemma LeaderReceiveExactlyWhen(l: Ledger, c: SignedProposal)
    requires Valid(l)
    ensures var n := c.turnNum - l.current.vars.turnNum;
            && (LeaderReceiveOn(l, c).Ok?
                <==> && l.role == Leader && c.proposal.ledgerId == l.fp.channelId && n <= |l.queue|
                     && (n > 0 ==> SignsVars(l.fp, QueuedState(l, n), c.signature, FollowerOf(l.fp))))
            && (LeaderReceiveOn(l, c).Ok? && n <= 0 ==> LeaderReceiveOn(l, c).value == l)
            && (LeaderReceiveOn(l, c).Ok? && n > 0 ==>
                  LeaderReceiveOn(l, c).value
                  == l.(current := SignedVars(QueuedState(l, n), l.queue[n - 1].signature, c.signature),
                        queue := l.queue[n..]))
            && (LeaderReceiveOn(l, c).Err? ==>
                  var e := LeaderReceiveOn(l, c).error;
                  && (e == NotLeader <==> l.role != Leader)
                  && (e == IncorrectChannelId <==> l.role == Leader && c.proposal.ledgerId != l.fp.channelId)
                  && (e == ProposalQueueExhausted ==> n > |l.queue|)
                  && (e == SignatureUnrecoverable ==>
                        0 < n <= |l.queue| && RefusedSignature(l.fp, Ok(QueuedState(l, n)), c.signature))
                  && (e == WrongSigner ==>
                        && 0 < n <= |l.queue|
                        && SignedBySomebody(l.fp, Ok(QueuedState(l, n)), c.signature, FollowerOf(l.fp)))
                  && (|| e in {NotLeader, IncorrectChannelId, ProposalQueueExhausted}
                      || e in {SignatureUnrecoverable, WrongSigner}))
  {
    var n := c.turnNum - l.current.vars.turnNum;
    if 0 < n {
      QueueApplies(l.fp, l.current.vars, l.queue, if n <= |l.queue| then n else |l.queue|);
    }
  }

  predicate Adds(p: Proposal, g: Guarantee) {
    p.change.Add? && p.change.guarantee == g
  }

  lemma {:induction false} IncludedExactlyWhen(v: Vars, q: seq<SignedProposal>, g: Guarantee, n: nat)
    requires n <= |q| && After(v, q, n).Ok? && !RemovalProposed(q, g.target)
    ensures Includes(After(v, q, n).value.outcome, g)
       <==> Includes(v.outcome, g) || exists i :: 0 <= i < n && Adds(q[i].proposal, g)
    ensures g.target in v.outcome.guarantees ==> g.target in After(v, q, n).value.outcome.guarantees
  {
    if n > 0 {
      IncludedExactlyWhen(v, q, g, n - 1);
      var p := q[n - 1].proposal;
      if Target(p) != g.target {
        ApplyKeepsOthers(After(v, q, n - 1).value, p, g.target);
      }
    }
  }

  /** A guarantee is proposed exactly when a queued proposal adds it, unless one is to be removed for
      the same target. */
  lemma IsProposedExactlyWhen(l: Ledger, g: Guarantee)
    requires Valid(l) && !RemovalProposed(l.queue, g.target)
    ensures IsProposed(l, g) == Ok(exists i :: 0 <= i < |l.queue| && Adds(l.queue[i].proposal, g))
  {
    QueueApplies(l.fp, l.current.vars, l.queue, |l.queue|);
    IncludedExactlyWhen(l.current.vars, l.queue, g, |l.queue|);
    if Includes(l.current.vars.outcome, g) {
      forall i | 0 <= i < |l.queue| ensures !Adds(l.queue[i].proposal, g) {
        QueueApplies(l.fp, l.current.vars, l.queue, i + 1);
        QueueApplies(l.fp, l.current.vars, l.queue, i);
        IncludedExactlyWhen(l.current.vars, l.queue, g, i);
      }
    }
  }

  // ------------------------------------------------------------------
  // Why a proposal cannot be applied
  // ------------------------------------------------------------------

  /** An addition is refused for a target that is taken, for a deposit beyond the guarantee, or if one of
      the two parties lacks the funds. */
  lemma AddRefusedExactlyWhen(v: Vars, g: Guarantee, leftDeposit: int)
    ensures var o, r := v.outcome, ApplyAdd(v, g, leftDeposit);
            && (r == Err(DuplicateGuarantee) <==> g.target in o.guarantees)
            && (r == Err(InvalidDeposit) <==> g.target !in o.guarantees && leftDeposit > g.amount)
            && (r == Err(InsufficientFunds)
                <==> && g.target !in o.guarantees && leftDeposit <= g.amount
                     && (leftDeposit > o.leader.amount || g.amount - leftDeposit > o.follower.amount))
            && (r.Err? ==> r.error in {DuplicateGuarantee, InvalidDeposit, InsufficientFunds})
  {
  }

  /** A removal is refused if there is no such guarantee or less than is to be returned. */
  lemma RemoveRefusedExactlyWhen(v: Vars, target: Destination, leftAmount: int)
    ensures var o, r := v.outcome, ApplyRemove(v, target, leftAmount);
            && (r == Err(GuaranteeNotFound) <==> target !in o.guarantees)
            && (r == Err(InvalidAmount) <==> target in o.guarantees && leftAmount > o.guarantees[target].amount)
            && (r.Err? ==> r.error in {GuaranteeNotFound, InvalidAmount})
  {
  }
}

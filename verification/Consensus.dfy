/** One side of a running ledger channel: a state signed by both parties and a queue of proposals
    signed by the leader. */
module Consensus {
  import opened Types
  import opened States
  import opened LedgerVars
  import opened LedgerEncoding

  datatype Role = Leader | Follower

  /** A proposal with a signature on the state it leads to, and that state's turn number. */
  datatype SignedProposal = SignedProposal(signature: Signature, proposal: Proposal, turnNum: nat)

  datatype SignedVars = SignedVars(vars: Vars, leaderSig: Signature, followerSig: Signature)

  datatype ChannelError =
    | NotLeader
    | NotFollower
    | IncorrectChannelId
    | CannotApply(reason: LedgerError)
    | WrongKey
    | SignatureUnrecoverable
    | WrongSigner
    | ProposalQueueExhausted
    | NoProposals
    | NonMatchingProposals
    | InvalidTurnNum
    | InvalidProposalSignature
    | ExternalChannelId

  /** The value of a consensus channel. Its id is the digest in the fixed part. */
  datatype Ledger = Ledger(fp: FixedPart, role: Role, current: SignedVars, queue: seq<SignedProposal>)

  /** A channel between (at least) a leader and a follower. */
  predicate TwoParties(fp: FixedPart) {
    |fp.participants| >= 2
  }

  function LeaderOf(fp: FixedPart): Address
    requires TwoParties(fp)
  {
    fp.participants[0]
  }

  function FollowerOf(fp: FixedPart): Address
    requires TwoParties(fp)
  {
    fp.participants[1]
  }

  function Me(fp: FixedPart, role: Role): Address
    requires TwoParties(fp)
  {
    if role == Leader then LeaderOf(fp) else FollowerOf(fp)
  }

  /** `sig` is the signature of `who` on the ledger state with these vars. */
  predicate SignsVars(fp: FixedPart, v: Vars, sig: Signature, who: Address) {
    SignedBy(AsState(v, fp), sig, who)
  }

  // ------------------------------------------------------------------
  // Queued proposals
  // ------------------------------------------------------------------

  /** The vars after the first n proposals, or the first error. */
  function After(v: Vars, q: seq<SignedProposal>, n: nat): Result<Vars, LedgerError>
    requires n <= |q|
  {
    if n == 0 then Ok(v)
    else
      match After(v, q, n - 1)
      case Err(e) => Err(e)
      case Ok(u) => Apply(u, q[n - 1].proposal)
  }

  function Latest(l: Ledger): Result<Vars, LedgerError> {
    After(l.current.vars, l.queue, |l.queue|)
  }

  lemma {:induction false} AfterErrStays(v: Vars, q: seq<SignedProposal>, i: nat, n: nat)
    requires i <= n <= |q| && After(v, q, i).Err?
    ensures After(v, q, n) == After(v, q, i)
    decreases n
  {
    if i < n {
      AfterErrStays(v, q, i, n - 1);
    }
  }

  lemma AfterOkBefore(v: Vars, q: seq<SignedProposal>, i: nat, n: nat)
    requires i <= n <= |q| && After(v, q, n).Ok?
    ensures After(v, q, i).Ok?
  {
    if After(v, q, i).Err? {
      AfterErrStays(v, q, i, n);
    }
  }

  /** Each proposal moves the turn on by one and keeps the ledger well keyed and its total constant. */
  lemma {:induction false} AfterKeeps(v: Vars, q: seq<SignedProposal>, n: nat)
    requires n <= |q| && After(v, q, n).Ok?
    ensures After(v, q, n).value.turnNum == v.turnNum + n
    ensures LedgerTotal(After(v, q, n).value.outcome) == LedgerTotal(v.outcome)
    ensures WellKeyed(v.outcome) ==> WellKeyed(After(v, q, n).value.outcome)
  {
    if n > 0 {
      AfterKeeps(v, q, n - 1);
      ApplyConserves(After(v, q, n - 1).value, q[n - 1].proposal);
    }
  }

  /** Only the first n proposals matter. */
  lemma {:induction false} AfterSame(v: Vars, q: seq<SignedProposal>, r: seq<SignedProposal>, n: nat)
    requires n <= |q| && n <= |r| && q[..n] == r[..n]
    ensures After(v, q, n) == After(v, r, n)
  {
    if n > 0 {
      assert q[..n - 1] == q[..n][..n - 1] && r[..n - 1] == r[..n][..n - 1];
      assert q[n - 1] == q[..n][n - 1] == r[n - 1];
      AfterSame(v, q, r, n - 1);
    }
  }

  /** Starting over from the vars after i proposals. */
  lemma {:induction false} AfterShift(v: Vars, q: seq<SignedProposal>, i: nat, n: nat)
    requires i + n <= |q| && After(v, q, i).Ok?
    ensures After(After(v, q, i).value, q[i..], n) == After(v, q, i + n)
  {
    if n > 0 {
      AfterShift(v, q, i, n - 1);
      assert q[i..][n - 1] == q[i + n - 1];
    }
  }

  // ------------------------------------------------------------------
  // The signed-queue invariant
  // ------------------------------------------------------------------

  /** The current state carries the signatures of both parties. */
  ghost predicate CurrentSigned(fp: FixedPart, c: SignedVars)
    requires TwoParties(fp)
  {
    && WellKeyed(c.vars.outcome)
    && SignsVars(fp, c.vars, c.leaderSig, LeaderOf(fp))
    && SignsVars(fp, c.vars, c.followerSig, FollowerOf(fp))
  }

  /** Entry i leads from the current state to a state that the leader has signed, with the turn
      number it says. */
  ghost predicate EntrySigned(fp: FixedPart, v: Vars, q: seq<SignedProposal>, i: nat)
    requires TwoParties(fp) && i < |q|
  {
    && After(v, q, i + 1).Ok?
    && q[i].turnNum == After(v, q, i + 1).value.turnNum
    && q[i].proposal.ledgerId == fp.channelId
    && SignsVars(fp, After(v, q, i + 1).value, q[i].signature, LeaderOf(fp))
  }

  ghost predicate QueueSigned(fp: FixedPart, v: Vars, q: seq<SignedProposal>)
    requires TwoParties(fp)
  {
    forall i :: 0 <= i < |q| ==> EntrySigned(fp, v, q, i)
  }

  ghost predicate Valid(l: Ledger) {
    && TwoParties(l.fp)
    && CurrentSigned(l.fp, l.current)
    && QueueSigned(l.fp, l.current.vars, l.queue)
  }

  lemma QueueApplies(fp: FixedPart, v: Vars, q: seq<SignedProposal>, n: nat)
    requires TwoParties(fp) && QueueSigned(fp, v, q) && n <= |q|
    ensures After(v, q, n).Ok?
  {
    if n > 0 {
      assert EntrySigned(fp, v, q, n - 1);
    }
  }

  lemma QueueExtended(fp: FixedPart, v: Vars, q: seq<SignedProposal>, e: SignedProposal)
    requires TwoParties(fp) && QueueSigned(fp, v, q)
    requires e.proposal.ledgerId == fp.channelId
    requires After(v, q, |q|).Ok? && Apply(After(v, q, |q|).value, e.proposal).Ok?
    requires var u := Apply(After(v, q, |q|).value, e.proposal).value;
             e.turnNum == u.turnNum && SignsVars(fp, u, e.signature, LeaderOf(fp))
    ensures QueueSigned(fp, v, q + [e])
    ensures After(v, q + [e], |q|) == After(v, q, |q|)
    ensures After(v, q + [e], |q| + 1) == Apply(After(v, q, |q|).value, e.proposal)
  {
    var r := q + [e];
    forall n | 0 <= n <= |q| ensures After(v, r, n) == After(v, q, n) {
      AfterSame(v, q, r, n);
    }
    forall i | 0 <= i < |r| ensures EntrySigned(fp, v, r, i) {
      if i < |q| {
        assert EntrySigned(fp, v, q, i);
        assert r[i] == q[i];
      }
    }
  }

  lemma QueueTrimmed(fp: FixedPart, v: Vars, q: seq<SignedProposal>, n: nat)
    requires TwoParties(fp) && QueueSigned(fp, v, q) && n <= |q|
    ensures After(v, q, n).Ok?
    ensures QueueSigned(fp, After(v, q, n).value, q[n..])
    ensures After(After(v, q, n).value, q[n..], |q| - n) == After(v, q, |q|)
  {
    QueueApplies(fp, v, q, n);
    AfterShift(v, q, n, |q| - n);
    var u := After(v, q, n).value;
    forall i | 0 <= i < |q[n..]| ensures EntrySigned(fp, u, q[n..], i) {
      assert EntrySigned(fp, v, q, n + i);
      AfterShift(v, q, n, i + 1);
      assert q[n..][i] == q[n + i];
    }
  }

  // ------------------------------------------------------------------
  // What the operations do
  // ------------------------------------------------------------------

  /** The leader adds a proposal on top of everything it has proposed. */
  function ProposeOn(l: Ledger, p: Proposal, key: Address): Result<(Ledger, SignedProposal), ChannelError>
    requires TwoParties(l.fp)
  {
    if l.role != Leader then Err(NotLeader)
    else if p.ledgerId != l.fp.channelId then Err(IncorrectChannelId)
    else
      match Latest(l)
      case Err(e) => Err(CannotApply(e))
      case Ok(latest) =>
        match Apply(latest, p)
        case Err(e) => Err(CannotApply(e))
        case Ok(u) =>
          if Me(l.fp, l.role) != key then Err(WrongKey)
          else
            var sp := SignedProposal(Sign(AsState(u, l.fp), key), p, u.turnNum);
            Ok((l.(queue := l.queue + [sp]), sp))
  }

  /** The leader moves to the state that the follower has countersigned. */
  function LeaderReceiveOn(l: Ledger, c: SignedProposal): Result<Ledger, ChannelError>
    requires TwoParties(l.fp)
  {
    if l.role != Leader then Err(NotLeader)
    else if c.proposal.ledgerId != l.fp.channelId then Err(IncorrectChannelId)
    else if c.turnNum <= l.current.vars.turnNum then Ok(l)
    else
      var ahead := c.turnNum - l.current.vars.turnNum;
      var n := if ahead <= |l.queue| then ahead else |l.queue|;
      match After(l.current.vars, l.queue, n)
      case Err(e) => Err(CannotApply(e))
      case Ok(u) =>
        if ahead > |l.queue| then Err(ProposalQueueExhausted)
        else
          match RecoverSigner(AsState(u, l.fp), c.signature)
          case Err(_) => Err(SignatureUnrecoverable)
          case Ok(signer) =>
            if signer != FollowerOf(l.fp) then Err(WrongSigner)
            else Ok(l.(current := SignedVars(u, l.queue[n - 1].signature, c.signature), queue := l.queue[n..]))
  }

  /** A queued proposal that cannot be applied stops the search for the countersigned state. */
  lemma FailsOnTheWay(l: Ledger, c: SignedProposal, i: nat)
    requires TwoParties(l.fp) && l.role == Leader && c.proposal.ledgerId == l.fp.channelId
    requires i <= |l.queue| && l.current.vars.turnNum + i <= c.turnNum && l.current.vars.turnNum < c.turnNum
    requires After(l.current.vars, l.queue, i).Err?
    ensures LeaderReceiveOn(l, c) == Err(CannotApply(After(l.current.vars, l.queue, i).error))
  {
    var ahead := c.turnNum - l.current.vars.turnNum;
    AfterErrStays(l.current.vars, l.queue, i, if ahead <= |l.queue| then ahead else |l.queue|);
  }

  /** The follower queues a proposal that follows on what it has. */
  function FollowerReceiveOn(l: Ledger, p: SignedProposal): Result<Ledger, ChannelError>
    requires TwoParties(l.fp)
  {
    if l.role != Follower then Err(NotFollower)
    else if p.proposal.ledgerId != l.fp.channelId then Err(IncorrectChannelId)
    else
      match Latest(l)
      case Err(e) => Err(CannotApply(e))
      case Ok(latest) =>
        if p.turnNum != latest.turnNum + 1 then Err(InvalidTurnNum)
        else
          match Apply(latest, p.proposal)
          case Err(e) => Err(CannotApply(e))
          case Ok(u) =>
            match RecoverSigner(AsState(u, l.fp), p.signature)
            case Err(_) => Err(SignatureUnrecoverable)
            case Ok(signer) =>
              if signer != LeaderOf(l.fp) then Err(InvalidProposalSignature)
              else Ok(l.(queue := l.queue + [p]))
  }

  /** The follower countersigns the head of the queue, if it is the proposal it expects. */
  function SignNextOn(l: Ledger, expected: Proposal, key: Address): Result<(Ledger, SignedProposal), ChannelError>
    requires TwoParties(l.fp)
  {
    if l.role != Follower then Err(NotFollower)
    else if expected.ledgerId != l.fp.channelId then Err(IncorrectChannelId)
    else if l.queue == [] then Err(NoProposals)
    else if l.queue[0].proposal != expected then Err(NonMatchingProposals)
    else
      match Apply(l.current.vars, l.queue[0].proposal)
      case Err(e) => Err(CannotApply(e))
      case Ok(u) =>
        if Me(l.fp, l.role) != key then Err(WrongKey)
        else
          var sig := Sign(AsState(u, l.fp), key);
          Ok((l.(current := SignedVars(u, l.queue[0].signature, sig), queue := l.queue[1..]),
              SignedProposal(sig, l.queue[0].proposal, u.turnNum)))
  }

  function ReceiveOn(l: Ledger, sp: SignedProposal): Result<Ledger, ChannelError>
    requires TwoParties(l.fp)
  {
    if l.role == Follower then FollowerReceiveOn(l, sp) else LeaderReceiveOn(l, sp)
  }

  // ------------------------------------------------------------------
  // What they keep
  // ------------------------------------------------------------------

  lemma ProposeKeeps(l: Ledger, p: Proposal, key: Address)
    requires Valid(l) && ProposeOn(l, p, key).Ok?
    ensures Valid(ProposeOn(l, p, key).value.0)
    ensures Latest(l).Ok? && Latest(ProposeOn(l, p, key).value.0) == Apply(Latest(l).value, p)
  {
    var sp := ProposeOn(l, p, key).value.1;
    QueueExtended(l.fp, l.current.vars, l.queue, sp);
  }

  /** Accepting a countersignature changes neither what has been proposed nor, if stale, anything.
      The leader's own signature is taken from the queue unchecked; it is the right one. */
  lemma LeaderReceiveKeeps(l: Ledger, c: SignedProposal)
    requires Valid(l) && LeaderReceiveOn(l, c).Ok?
    ensures Valid(LeaderReceiveOn(l, c).value)
    ensures Latest(LeaderReceiveOn(l, c).value) == Latest(l)
    ensures LeaderReceiveOn(l, c).value.current.vars.turnNum >= l.current.vars.turnNum
  {
    if c.turnNum > l.current.vars.turnNum {
      var n := c.turnNum - l.current.vars.turnNum;
      QueueTrimmed(l.fp, l.current.vars, l.queue, n);
      AfterKeeps(l.current.vars, l.queue, n);
      assert EntrySigned(l.fp, l.current.vars, l.queue, n - 1);
    }
  }

  lemma FollowerReceiveKeeps(l: Ledger, p: SignedProposal)
    requires Valid(l) && FollowerReceiveOn(l, p).Ok?
    ensures Valid(FollowerReceiveOn(l, p).value)
    ensures Latest(l).Ok? && Latest(FollowerReceiveOn(l, p).value) == Apply(Latest(l).value, p.proposal)
  {
    QueueExtended(l.fp, l.current.vars, l.queue, p);
  }

  /** Countersigning changes nothing of what has been proposed. The leader's signature is taken
      from the queue unchecked; it is the right one. */
  lemma SignNextKeeps(l: Ledger, expected: Proposal, key: Address)
    requires Valid(l) && SignNextOn(l, expected, key).Ok?
    ensures Valid(SignNextOn(l, expected, key).value.0)
    ensures Latest(SignNextOn(l, expected, key).value.0) == Latest(l)
    ensures SignNextOn(l, expected, key).value.0.current.vars.turnNum == l.current.vars.turnNum + 1
  {
    assert After(l.current.vars, l.queue, 0) == Ok(l.current.vars);
    QueueTrimmed(l.fp, l.current.vars, l.queue, 1);
    AfterKeeps(l.current.vars, l.queue, 1);
    assert EntrySigned(l.fp, l.current.vars, l.queue, 0);
  }

  // ------------------------------------------------------------------
  // Queries
  // ------------------------------------------------------------------

  function IsProposed(l: Ledger, g: Guarantee): Result<bool, LedgerError> {
    match Latest(l)
    case Err(e) => Err(e)
    case Ok(v) => Ok(LedgerVars.Includes(v.outcome, g) && !LedgerVars.Includes(l.current.vars.outcome, g))
  }

  datatype NextError = TurnMismatch | HeadCannotApply(reason: LedgerError)

  /** The turn number is compared before the error of the proposal is looked at. */
  function IsProposedNext(l: Ledger, g: Guarantee): Result<bool, NextError> {
    if l.queue == [] then Ok(false)
    else
      var head := l.queue[0];
      match Apply(l.current.vars, head.proposal)
      case Err(e) => if l.current.vars.turnNum != head.turnNum then Err(TurnMismatch) else Err(HeadCannotApply(e))
      case Ok(v) =>
        if v.turnNum != head.turnNum then Err(TurnMismatch)
        else Ok(LedgerVars.Includes(v.outcome, g) && !LedgerVars.Includes(l.current.vars.outcome, g))
  }

  /** A guarantee is proposed next exactly when the head of the queue adds it. */
  lemma ProposedNextIsHeadAdd(l: Ledger, g: Guarantee)
    requires Valid(l)
    ensures IsProposedNext(l, g)
         == Ok(l.queue != [] && l.queue[0].proposal.change.Add? && l.queue[0].proposal.change.guarantee == g)
  {
    if l.queue != [] {
      assert After(l.current.vars, l.queue, 0) == Ok(l.current.vars);
      assert EntrySigned(l.fp, l.current.vars, l.queue, 0);
    }
  }

  predicate RemovalProposed(q: seq<SignedProposal>, target: Destination) {
    exists i :: 0 <= i < |q| && q[i].proposal.change.Remove? && q[i].proposal.change.removed == target
  }

  predicate RemovalProposedNext(l: Ledger, target: Destination) {
    l.queue != [] && l.queue[0].proposal.change.Remove? && l.queue[0].proposal.change.removed == target
  }

  // ------------------------------------------------------------------
  // The channel object
  // ------------------------------------------------------------------

  /** What the constructor checks about the two signatures on the initial state. */
  function CheckSignatures(fp: FixedPart, v: Vars, leaderSig: Signature, followerSig: Signature): Option<ChannelError>
    requires TwoParties(fp)
  {
    match RecoverSigner(AsState(v, fp), leaderSig)
    case Err(_) => Some(SignatureUnrecoverable)
    case Ok(l) =>
      if l != LeaderOf(fp) then Some(WrongSigner)
      else
        match RecoverSigner(AsState(v, fp), followerSig)
        case Err(_) => Some(SignatureUnrecoverable)
        case Ok(f) => if f != FollowerOf(fp) then Some(WrongSigner) else None
  }

  class ConsensusChannel {
    const fp: FixedPart
    const role: Role
    var current: SignedVars
    var proposalQueue: seq<SignedProposal>

    constructor (fp: FixedPart, role: Role, current: SignedVars)
      ensures Value() == Ledger(fp, role, current, [])
    {
      this.fp := fp;
      this.role := role;
      this.current := current;
      this.proposalQueue := [];
    }

    function Value(): Ledger
      reads this
    {
      Ledger(fp, role, current, proposalQueue)
    }

    /** A new channel is refused unless both parties signed its initial state; an accepted one is valid. */
    static method New(fp: FixedPart, role: Role, turnNum: nat, outcome: LedgerOutcome, leaderSig: Signature,
                      followerSig: Signature)
      returns (r: Result<ConsensusChannel, ChannelError>)
      requires TwoParties(fp) && WellKeyed(outcome)
      ensures r.Ok? <==> !IsExternal(fp.channelId)
                         && SignsVars(fp, Vars(turnNum, outcome), leaderSig, LeaderOf(fp))
                         && SignsVars(fp, Vars(turnNum, outcome), followerSig, FollowerOf(fp))
      ensures r == Err(ExternalChannelId) <==> IsExternal(fp.channelId)
      ensures r.Ok? ==> fresh(r.value) && Valid(r.value.Value())
                        && r.value.Value() == Ledger(fp, role,
                                                     SignedVars(Vars(turnNum, outcome), leaderSig, followerSig), [])
    {
      if IsExternal(fp.channelId) {
        return Err(ExternalChannelId);
      }
      match CheckSignatures(fp, Vars(turnNum, outcome), leaderSig, followerSig) {
        case Some(e) => return Err(e);
        case None =>
      }
      var c := new ConsensusChannel(fp, role, SignedVars(Vars(turnNum, outcome), leaderSig, followerSig));
      return Ok(c);
    }

    method LatestProposedVars() returns (r: Result<Vars, LedgerError>)
      ensures r == Latest(Value())
    {
      var vars := new WorkingVars(current.vars);
      for i := 0 to |proposalQueue|
        invariant fresh(vars)
        invariant After(current.vars, proposalQueue, i) == Ok(vars.Value())
      {
        var failure := vars.HandleProposal(proposalQueue[i].proposal);
        if failure.Some? {
          AfterErrStays(current.vars, proposalQueue, i + 1, |proposalQueue|);
          return Err(failure.value);
        }
      }
      return Ok(vars.Value());
    }

    method Propose(proposal: Proposal, key: Address) returns (r: Result<SignedProposal, ChannelError>)
      requires TwoParties(fp)
      modifies this
      ensures match ProposeOn(old(Value()), proposal, key)
              case Ok((l, sp)) => r == Ok(sp) && Value() == l
              case Err(e) => r == Err(e) && Value() == old(Value())
      ensures old(Valid(Value())) ==> Valid(Value())
    {
      if role != Leader {
        return Err(NotLeader);
      }
      if proposal.ledgerId != fp.channelId {
        return Err(IncorrectChannelId);
      }
      var latest := LatestProposedVars();
      if latest.Err? {
        return Err(CannotApply(latest.error));
      }
      var vars := new WorkingVars(latest.value);
      var failure := vars.HandleProposal(proposal);
      if failure.Some? {
        return Err(CannotApply(failure.value));
      }
      if Me(fp, role) != key {
        return Err(WrongKey);
      }
      var signed := SignedProposal(Sign(AsState(vars.Value(), fp), key), proposal, vars.turnNum);
      if Valid(Value()) {
        ProposeKeeps(Value(), proposal, key);
      }
      proposalQueue := proposalQueue + [signed];
      return Ok(signed);
    }

    method LeaderReceive(countersigned: SignedProposal) returns (failed: Option<ChannelError>)
      requires TwoParties(fp)
      modifies this
      ensures match LeaderReceiveOn(old(Value()), countersigned)
              case Ok(l) => failed == None && Value() == l
              case Err(e) => failed == Some(e) && Value() == old(Value())
      ensures old(Valid(Value())) ==> Valid(Value())
    {
      if role != Leader {
        return Some(NotLeader);
      }
      if countersigned.proposal.ledgerId != fp.channelId {
        return Some(IncorrectChannelId);
      }
      var candidate := new WorkingVars(current.vars);
      var consensusTurnNum := countersigned.turnNum;
      if consensusTurnNum <= candidate.turnNum {
        return None;
      }
      for i := 0 to |proposalQueue|
        invariant fresh(candidate) && unchanged(this)
        invariant After(current.vars, proposalQueue, i) == Ok(candidate.Value())
        invariant candidate.turnNum == current.vars.turnNum + i < consensusTurnNum
      {
        var failure := candidate.HandleProposal(proposalQueue[i].proposal);
        if failure.Some? {
          FailsOnTheWay(Value(), countersigned, i + 1);
          return Some(CannotApply(failure.value));
        }
        AfterKeeps(current.vars, proposalQueue, i + 1);
        if candidate.turnNum == consensusTurnNum {
          var signer := RecoverSigner(AsState(candidate.Value(), fp), countersigned.signature);
          if signer.Err? {
            return Some(SignatureUnrecoverable);
          }
          if signer.value != FollowerOf(fp) {
            return Some(WrongSigner);
          }
          if Valid(Value()) {
            LeaderReceiveKeeps(Value(), countersigned);
          }
          current := SignedVars(candidate.Value(), proposalQueue[i].signature, countersigned.signature);
          proposalQueue := proposalQueue[i + 1..];
          return None;
        }
      }
      return Some(ProposalQueueExhausted);
    }

    method FollowerReceive(p: SignedProposal) returns (failed: Option<ChannelError>)
      requires TwoParties(fp)
      modifies this
      ensures match FollowerReceiveOn(old(Value()), p)
              case Ok(l) => failed == None && Value() == l
              case Err(e) => failed == Some(e) && Value() == old(Value())
      ensures old(Valid(Value())) ==> Valid(Value())
    {
      if role != Follower {
        return Some(NotFollower);
      }
      if p.proposal.ledgerId != fp.channelId {
        return Some(IncorrectChannelId);
      }
      var latest := LatestProposedVars();
      if latest.Err? {
        return Some(CannotApply(latest.error));
      }
      if p.turnNum != latest.value.turnNum + 1 {
        return Some(InvalidTurnNum);
      }
      var vars := new WorkingVars(latest.value);
      var failure := vars.HandleProposal(p.proposal);
      if failure.Some? {
        return Some(CannotApply(failure.value));
      }
      var signer := RecoverSigner(AsState(vars.Value(), fp), p.signature);
      if signer.Err? {
        return Some(SignatureUnrecoverable);
      }
      if signer.value != LeaderOf(fp) {
        return Some(InvalidProposalSignature);
      }
      if Valid(Value()) {
        FollowerReceiveKeeps(Value(), p);
      }
      proposalQueue := proposalQueue + [p];
      return None;
    }

    method SignNextProposal(expected: Proposal, key: Address) returns (r: Result<SignedProposal, ChannelError>)
      requires TwoParties(fp)
      modifies this
      ensures match SignNextOn(old(Value()), expected, key)
              case Ok((l, sp)) => r == Ok(sp) && Value() == l
              case Err(e) => r == Err(e) && Value() == old(Value())
      ensures old(Valid(Value())) ==> Valid(Value())
    {
      if role != Follower {
        return Err(NotFollower);
      }
      if expected.ledgerId != fp.channelId {
        return Err(IncorrectChannelId);
      }
      if |proposalQueue| == 0 {
        return Err(NoProposals);
      }
      var p := proposalQueue[0].proposal;
      if p != expected {
        return Err(NonMatchingProposals);
      }
      var vars := new WorkingVars(current.vars);
      var failure := vars.HandleProposal(p);
      if failure.Some? {
        return Err(CannotApply(failure.value));
      }
      if Me(fp, role) != key {
        return Err(WrongKey);
      }
      if Valid(Value()) {
        SignNextKeeps(Value(), expected, key);
      }
      var signature := Sign(AsState(vars.Value(), fp), key);
      var signed := proposalQueue[0];
      current := SignedVars(vars.Value(), signed.signature, signature);
      proposalQueue := proposalQueue[1..];
      return Ok(SignedProposal(signature, signed.proposal, vars.turnNum));
    }

    method Receive(sp: SignedProposal) returns (failed: Option<ChannelError>)
      requires TwoParties(fp)
      modifies this
      ensures match ReceiveOn(old(Value()), sp)
              case Ok(l) => failed == None && Value() == l
              case Err(e) => failed == Some(e) && Value() == old(Value())
      ensures old(Valid(Value())) ==> Valid(Value())
    {
      if role == Follower {
        failed := FollowerReceive(sp);
      } else {
        failed := LeaderReceive(sp);
      }
    }

    method HasRemovalBeenProposed(target: Destination) returns (r: bool)
      ensures r == RemovalProposed(proposalQueue, target)
    {
      for i := 0 to |proposalQueue|
        invariant !RemovalProposed(proposalQueue[..i], target)
      {
        var p := proposalQueue[i].proposal;
        if p.change.Remove? && p.change.removed == target {
          return true;
        }
      }
      assert proposalQueue[..|proposalQueue|] == proposalQueue;
      return false;
    }
  }
}

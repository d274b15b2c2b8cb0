/** Runs of a ledger channel between an honest leader and an honest follower, over a network that
    may lose, repeat and reorder whatever has been sent. */
module LedgerRun {
  import opened Types
  import opened States
  import opened LedgerVars
  import opened LedgerEncoding
  import opened Consensus

  /** Both sides, and every proposal ever sent to either. */
  datatype System = System(
    leader: Ledger,
    follower: Ledger,
    toFollower: set<SignedProposal>,
    toLeader: set<SignedProposal>
  )

  datatype Step =
    | LeaderPropose(proposal: Proposal)
    | FollowerSign(expected: Proposal)
    | DeliverToFollower(sp: SignedProposal)
    | DeliverToLeader(sp: SignedProposal)

  predicate WellFormed(s: System) {
    && TwoParties(s.leader.fp) && s.follower.fp == s.leader.fp
    && s.leader.role == Leader && s.follower.role == Follower
  }

  function ElementsOf(q: seq<SignedProposal>): set<SignedProposal> {
    set e | e in q
  }

  /** A proposing leader sends its whole queue; a signing follower sends its countersignature. A step
      that an operation refuses, or the delivery of something never sent, changes nothing. */
  function Next(s: System, step: Step): (s': System)
    requires WellFormed(s)
    ensures WellFormed(s') && s'.leader.fp == s.leader.fp
  {
    match step
    case LeaderPropose(p) =>
      (match ProposeOn(s.leader, p, LeaderOf(s.leader.fp))
       case Err(_) => s
       case Ok((l, _)) => s.(leader := l, toFollower := s.toFollower + ElementsOf(l.queue)))
    case FollowerSign(expected) =>
      (match SignNextOn(s.follower, expected, FollowerOf(s.follower.fp))
       case Err(_) => s
       case Ok((f, sp)) => s.(follower := f, toLeader := s.toLeader + {sp}))
    case DeliverToFollower(sp) =>
      if sp !in s.toFollower then s
      else
        (match FollowerReceiveOn(s.follower, sp)
         case Err(_) => s
         case Ok(f) => s.(follower := f))
    case DeliverToLeader(sp) =>
      if sp !in s.toLeader then s
      else
        (match LeaderReceiveOn(s.leader, sp)
         case Err(_) => s
         case Ok(l) => s.(leader := l))
  }

  function Run(s: System, steps: seq<Step>): (s': System)
    requires WellFormed(s)
    ensures WellFormed(s') && s'.leader.fp == s.leader.fp
    decreases |steps|
  {
    if steps == [] then s else Next(Run(s, steps[..|steps| - 1]), steps[|steps| - 1])
  }

  /** A channel just made on both sides from the same doubly signed state. */
  ghost predicate Initial(s: System) {
    && WellFormed(s) && CurrentSigned(s.leader.fp, s.leader.current)
    && s.follower.current == s.leader.current
    && s.leader.queue == s.follower.queue == []
    && s.toFollower == s.toLeader == {}
  }

  /** A ledger just opened between two parties in the state with these vars. */
  ghost function Opened(fp: FixedPart, v: Vars): System
    requires TwoParties(fp)
  {
    var current := SignedVars(v, Sign(AsState(v, fp), LeaderOf(fp)), Sign(AsState(v, fp), FollowerOf(fp)));
    System(Ledger(fp, Leader, current, []), Ledger(fp, Follower, current, []), {}, {})
  }

  // ------------------------------------------------------------------
  // One history behind both sides
  // ------------------------------------------------------------------

  /** The proposals the leader has ever made, in order, and how far each side has come: the leader
      has adopted the first `adopted`, the follower has signed the first `signed` and received the
      first `received`. */
  datatype History = History(start: Vars, made: seq<SignedProposal>, adopted: nat, signed: nat, received: nat)

  ghost predicate InBounds(h: History) {
    h.adopted <= h.signed <= h.received <= |h.made|
  }

  ghost predicate NoneGoesBack(h: History, h': History) {
    h.adopted <= h'.adopted && h.signed <= h'.signed && h.received <= h'.received
  }

  ghost function StateAt(h: History, n: nat): Result<Vars, LedgerError>
    requires n <= |h.made|
  {
    After(h.start, h.made, n)
  }

  /** One side has come to the n-th state of the history and queues the proposals up to the m-th. */
  ghost predicate SideAt(l: Ledger, h: History, n: nat, m: nat)
    requires TwoParties(l.fp) && n <= m <= |h.made|
  {
    && StateAt(h, n) == Ok(l.current.vars)
    && CurrentSigned(l.fp, l.current)
    && l.queue == h.made[n..m]
  }

  /** sp is the follower's countersignature on the state after the n-th proposal. */
  ghost predicate Countersigned(fp: FixedPart, start: Vars, made: seq<SignedProposal>, n: nat, sp: SignedProposal)
    requires TwoParties(fp) && n < |made|
  {
    && sp.proposal == made[n].proposal
    && sp.turnNum == start.turnNum + n + 1
    && After(start, made, n + 1).Ok?
    && SignsVars(fp, After(start, made, n + 1).value, sp.signature, FollowerOf(fp))
  }

  ghost predicate CountersignedBefore(fp: FixedPart, start: Vars, made: seq<SignedProposal>, limit: nat,
                                      sp: SignedProposal)
    requires TwoParties(fp) && limit <= |made|
  {
    exists n :: 0 <= n < limit && Countersigned(fp, start, made, n, sp)
  }

  lemma CountersignedLater(fp: FixedPart, start: Vars, made: seq<SignedProposal>, limit: nat, limit': nat,
                           sp: SignedProposal)
    requires TwoParties(fp) && limit <= limit' <= |made| && CountersignedBefore(fp, start, made, limit, sp)
    ensures CountersignedBefore(fp, start, made, limit', sp)
  {
  }

  ghost predicate MessagesFrom(s: System, h: History)
    requires TwoParties(s.leader.fp) && InBounds(h)
  {
    && s.toFollower == ElementsOf(h.made)
    && forall sp :: sp in s.toLeader ==> CountersignedBefore(s.leader.fp, h.start, h.made, h.signed, sp)
  }

  ghost predicate Explains(h: History, s: System) {
    && WellFormed(s) && InBounds(h)
    && WellKeyed(h.start.outcome)
    && QueueSigned(s.leader.fp, h.start, h.made)
    && SideAt(s.leader, h, h.adopted, |h.made|)
    && SideAt(s.follower, h, h.signed, h.received)
    && MessagesFrom(s, h)
  }

  /** The state and turn number after n proposals of an explained history. */
  lemma HistoryState(fp: FixedPart, h: History, n: nat)
    requires TwoParties(fp) && QueueSigned(fp, h.start, h.made) && WellKeyed(h.start.outcome) && n <= |h.made|
    ensures StateAt(h, n).Ok? && StateAt(h, n).value.turnNum == h.start.turnNum + n
    ensures WellKeyed(StateAt(h, n).value.outcome)
    ensures LedgerTotal(StateAt(h, n).value.outcome) == LedgerTotal(h.start.outcome)
    ensures n < |h.made| ==> EntrySigned(fp, h.start, h.made, n) && h.made[n].turnNum == h.start.turnNum + n + 1
  {
    QueueApplies(fp, h.start, h.made, n);
    AfterKeeps(h.start, h.made, n);
    if n < |h.made| {
      assert EntrySigned(fp, h.start, h.made, n);
      AfterKeeps(h.start, h.made, n + 1);
    }
  }

  /** Going on from one side's state along its queue is going on along the history. */
  lemma SideAhead(l: Ledger, h: History, n: nat, m: nat, k: nat)
    requires TwoParties(l.fp) && n <= m <= |h.made| && SideAt(l, h, n, m) && k <= m - n
    ensures After(l.current.vars, l.queue, k) == StateAt(h, n + k)
  {
    AfterShift(h.start, h.made, n, k);
    assert h.made[n..m][..k] == h.made[n..][..k];
    AfterSame(l.current.vars, l.queue, h.made[n..], k);
  }

  // ------------------------------------------------------------------
  // Every step keeps an explanation
  // ------------------------------------------------------------------

  lemma HistoryExtended(fp: FixedPart, h: History, e: SignedProposal)
    requires TwoParties(fp) && QueueSigned(fp, h.start, h.made)
    requires e.proposal.ledgerId == fp.channelId && StateAt(h, |h.made|).Ok?
    requires var u := Apply(StateAt(h, |h.made|).value, e.proposal);
             u.Ok? && e.turnNum == u.value.turnNum && SignsVars(fp, u.value, e.signature, LeaderOf(fp))
    ensures QueueSigned(fp, h.start, h.made + [e])
    ensures forall n :: 0 <= n <= |h.made| ==> StateAt(h.(made := h.made + [e]), n) == StateAt(h, n)
  {
    QueueExtended(fp, h.start, h.made, e);
    forall n | 0 <= n <= |h.made| ensures StateAt(h.(made := h.made + [e]), n) == StateAt(h, n) {
      AfterSame(h.start, h.made, h.made + [e], n);
    }
  }

  lemma CountersignedStays(fp: FixedPart, start: Vars, made: seq<SignedProposal>, made': seq<SignedProposal>,
                           limit: nat, sp: SignedProposal)
    requires TwoParties(fp) && limit <= |made| && made <= made'
    requires CountersignedBefore(fp, start, made, limit, sp)
    ensures CountersignedBefore(fp, start, made', limit, sp)
  {
    var n :| 0 <= n < limit && Countersigned(fp, start, made, n, sp);
    AfterSame(start, made, made', n + 1);
    assert Countersigned(fp, start, made', n, sp);
  }

  lemma SideStays(l: Ledger, h: History, h': History, n: nat, m: nat)
    requires TwoParties(l.fp) && n <= m <= |h.made| <= |h'.made|
    requires h'.made[..|h.made|] == h.made && forall k :: 0 <= k <= |h.made| ==> StateAt(h', k) == StateAt(h, k)
    requires SideAt(l, h, n, m)
    ensures SideAt(l, h', n, m)
  {
    assert h'.made[n..m] == h'.made[..|h.made|][n..m];
  }

  lemma SentWithTheQueue(made: seq<SignedProposal>, sp: SignedProposal, n: nat)
    requires n <= |made|
    ensures ElementsOf(made) + ElementsOf((made + [sp])[n..]) == ElementsOf(made + [sp])
  {
    var made' := made + [sp];
    assert made'[|made|] == made'[n..][|made| - n] == sp;
    assert forall e :: e in made' <==> e in made || e == sp;
  }

  lemma ProposeStep(s: System, h: History, p: Proposal) returns (h': History)
    requires Explains(h, s)
    ensures Explains(h', Next(s, LeaderPropose(p)))
    ensures h'.start == h.start && h.made <= h'.made && NoneGoesBack(h, h')
    ensures match ProposeOn(s.leader, p, LeaderOf(s.leader.fp))
            case Err(_) => h' == h
            case Ok((_, sp)) => h'.made == h.made + [sp]
  {
    var fp := s.leader.fp;
    h' := h;
    match ProposeOn(s.leader, p, LeaderOf(fp)) {
      case Err(_) =>
      case Ok((l, sp)) =>
        h' := h.(made := h.made + [sp]);
        SideAhead(s.leader, h, h.adopted, |h.made|, |s.leader.queue|);
        HistoryExtended(fp, h, sp);
        assert h'.made[..|h.made|] == h.made;
        SideStays(s.follower, h, h', h.signed, h.received);
        assert l.queue == h'.made[h.adopted..|h'.made|];
        var s' := Next(s, LeaderPropose(p));
        assert s'.toFollower == ElementsOf(h'.made) by {
          SentWithTheQueue(h.made, sp, h.adopted);
        }
        forall c | c in s'.toLeader ensures CountersignedBefore(fp, h.start, h'.made, h.signed, c) {
          CountersignedStays(fp, h.start, h.made, h'.made, h.signed, c);
        }
    }
  }

  lemma SignStep(s: System, h: History, expected: Proposal) returns (h': History)
    requires Explains(h, s)
    ensures Explains(h', Next(s, FollowerSign(expected)))
    ensures h'.start == h.start && h.made == h'.made && NoneGoesBack(h, h')
  {
    var fp := s.leader.fp;
    h' := h;
    match SignNextOn(s.follower, expected, FollowerOf(fp)) {
      case Err(_) =>
      case Ok((f, sp)) =>
        h' := h.(signed := h.signed + 1);
        assert s.follower.queue[0] == h.made[h.signed];
        HistoryState(fp, h, h.signed);
        HistoryState(fp, h, h.signed + 1);
        assert f.queue == h.made[h.signed + 1..h.received];
        var s' := Next(s, FollowerSign(expected));
        assert Countersigned(fp, h.start, h.made, h.signed, sp);
        forall c | c in s'.toLeader ensures CountersignedBefore(fp, h.start, h.made, h.signed + 1, c) {
          if c in s.toLeader {
            CountersignedLater(fp, h.start, h.made, h.signed, h.signed + 1, c);
          }
        }
    }
  }

  /** The follower takes a proposal exactly when it is the next one of the history; otherwise its
      turn number is wrong. No other error can occur. */
  lemma FollowerTakesNext(s: System, h: History, n: nat)
    requires Explains(h, s) && n < |h.made|
    ensures n == h.received ==>
              FollowerReceiveOn(s.follower, h.made[n]) == Ok(s.follower.(queue := s.follower.queue + [h.made[n]]))
    ensures n != h.received ==> FollowerReceiveOn(s.follower, h.made[n]) == Err(InvalidTurnNum)
  {
    var fp := s.leader.fp;
    SideAhead(s.follower, h, h.signed, h.received, |s.follower.queue|);
    HistoryState(fp, h, h.received);
    HistoryState(fp, h, n);
  }

  lemma DeliverToFollowerStep(s: System, h: History, sp: SignedProposal) returns (h': History)
    requires Explains(h, s)
    ensures Explains(h', Next(s, DeliverToFollower(sp)))
    ensures h'.start == h.start && h.made == h'.made && NoneGoesBack(h, h')
    ensures sp in s.toFollower ==>
              FollowerReceiveOn(s.follower, sp).Ok? || FollowerReceiveOn(s.follower, sp) == Err(InvalidTurnNum)
  {
    h' := h;
    if sp in s.toFollower {
      assert sp in h.made;
      var n :| 0 <= n < |h.made| && h.made[n] == sp;
      FollowerTakesNext(s, h, n);
      if n == h.received {
        h' := h.(received := h.received + 1);
        assert h.made[h.signed..n] + [sp] == h.made[h.signed..n + 1];
      }
    }
  }

  /** A countersignature never fails at the leader: it is stale or moves the leader to its state. */
  lemma LeaderTakesCountersignature(s: System, h: History, n: nat, sp: SignedProposal)
    requires Explains(h, s) && n < h.signed && Countersigned(s.leader.fp, h.start, h.made, n, sp)
    ensures n < h.adopted ==> LeaderReceiveOn(s.leader, sp) == Ok(s.leader)
    ensures n >= h.adopted ==>
              LeaderReceiveOn(s.leader, sp)
              == Ok(s.leader.(current := SignedVars(StateAt(h, n + 1).value, h.made[n].signature, sp.signature),
                              queue := h.made[n + 1..]))
  {
    assert s.leader.current.vars.turnNum == h.start.turnNum + h.adopted
           && h.made[n].proposal.ledgerId == s.leader.fp.channelId by {
      HistoryState(s.leader.fp, h, h.adopted);
      HistoryState(s.leader.fp, h, n);
    }
    if n >= h.adopted {
      var k := n + 1 - h.adopted;
      SideAhead(s.leader, h, h.adopted, |h.made|, k);
      assert s.leader.queue[k - 1] == h.made[n];
      assert s.leader.queue[k..] == h.made[n + 1..];
    }
  }

  /** The leader's side after adopting the n-th state. */
  lemma LeaderMoves(s: System, h: History, n: nat, sp: SignedProposal)
    requires Explains(h, s) && h.adopted <= n < h.signed && Countersigned(s.leader.fp, h.start, h.made, n, sp)
    ensures Explains(h.(adopted := n + 1),
                     s.(leader := s.leader.(
                         current := SignedVars(StateAt(h, n + 1).value, h.made[n].signature, sp.signature),
                         queue := h.made[n + 1..])))
  {
    HistoryState(s.leader.fp, h, n);
    HistoryState(s.leader.fp, h, n + 1);
    assert h.made[n + 1..] == h.made[n + 1..|h.made|];
    assert s.leader.queue[n + 1 - h.adopted..] == h.made[n + 1..];
  }

  lemma DeliverToLeaderStep(s: System, h: History, sp: SignedProposal) returns (h': History)
    requires Explains(h, s)
    ensures Explains(h', Next(s, DeliverToLeader(sp)))
    ensures h'.start == h.start && h.made == h'.made && NoneGoesBack(h, h')
    ensures sp in s.toLeader ==> LeaderReceiveOn(s.leader, sp).Ok?
  {
    h' := h;
    if sp in s.toLeader {
      var n :| 0 <= n < h.signed && Countersigned(s.leader.fp, h.start, h.made, n, sp);
      LeaderTakesCountersignature(s, h, n, sp);
      if n >= h.adopted {
        LeaderMoves(s, h, n, sp);
        h' := h.(adopted := n + 1);
      }
    }
  }

  lemma StepIsExplained(s: System, h: History, step: Step) returns (h': History)
    requires Explains(h, s)
    ensures Explains(h', Next(s, step)) && h'.start == h.start && h.made <= h'.made && NoneGoesBack(h, h')
    ensures forall k :: |h.made| <= k < |h'.made| ==> step == LeaderPropose(h'.made[k].proposal)
  {
    match step
    case LeaderPropose(p) => h' := ProposeStep(s, h, p);
    case FollowerSign(expected) => h' := SignStep(s, h, expected);
    case DeliverToFollower(sp) => h' := DeliverToFollowerStep(s, h, sp);
    case DeliverToLeader(sp) => h' := DeliverToLeaderStep(s, h, sp);
  }

  lemma InitialIsExplained(s: System)
    requires Initial(s)
    ensures Explains(History(s.leader.current.vars, [], 0, 0, 0), s)
  {
  }

  /** A system has only one history from a given start. What has been sent to the follower is what
      the leader has proposed, and turn numbers put it in order. */
  lemma HistoryIsDetermined(s: System, h: History, h': History)
    requires Explains(h, s) && Explains(h', s) && h'.start == h.start
    ensures h' == h
  {
    var fp := s.leader.fp;
    EntriesAgree(s, h, h');
    EntriesAgree(s, h', h);
    assert h'.made == h.made;
    HistoryState(fp, h, h.adopted);
    HistoryState(fp, h, h.signed);
    HistoryState(fp, h', h'.adopted);
    HistoryState(fp, h', h'.signed);
  }

  lemma EntryFound(s: System, h: History, h': History, n: nat)
    requires Explains(h, s) && Explains(h', s) && h'.start == h.start && n < |h.made|
    ensures n < |h'.made| && h'.made[n] == h.made[n]
  {
    assert h.made[n] in ElementsOf(h.made);
    var m :| 0 <= m < |h'.made| && h'.made[m] == h.made[n];
    HistoryState(s.leader.fp, h, n);
    HistoryState(s.leader.fp, h', m);
  }

  lemma EntriesAgree(s: System, h: History, h': History)
    requires Explains(h, s) && Explains(h', s) && h'.start == h.start
    ensures h.made <= h'.made
  {
    if h.made != [] {
      EntryFound(s, h, h', |h.made| - 1);
    }
    forall n | 0 <= n < |h.made| ensures h'.made[n] == h.made[n] {
      EntryFound(s, h, h', n);
    }
  }

  // ------------------------------------------------------------------
  // Whole runs
  // ------------------------------------------------------------------

  /** Every run has a single history behind both sides, made of what the leader was asked to propose. */
  lemma {:induction false} EveryRunIsExplained(s: System, steps: seq<Step>) returns (h: History)
    requires Initial(s)
    ensures Explains(h, Run(s, steps)) && h.start == s.leader.current.vars
    ensures forall k :: 0 <= k < |h.made| ==> LeaderPropose(h.made[k].proposal) in steps
    decreases |steps|
  {
    if steps == [] {
      InitialIsExplained(s);
      h := History(s.leader.current.vars, [], 0, 0, 0);
    } else {
      var n := |steps| - 1;
      var before := EveryRunIsExplained(s, steps[..n]);
      h := StepIsExplained(Run(s, steps[..n]), before, steps[n]);
      forall k | 0 <= k < |h.made| ensures LeaderPropose(h.made[k].proposal) in steps {
        if k < |before.made| {
          assert h.made[k] == before.made[k];
          assert LeaderPropose(h.made[k].proposal) in steps[..n];
        }
      }
    }
  }

  /** Agreement: the leader is never ahead of the follower, and two sides at the same turn hold the
      same doubly signed state. Every state either side holds shares out the initial total. */
  lemma Agreement(s: System, steps: seq<Step>)
    requires Initial(s)
    ensures var r := Run(s, steps);
            var a, b := r.leader.current, r.follower.current;
            && Valid(r.leader) && Valid(r.follower)
            && a.vars.turnNum <= b.vars.turnNum
            && (a.vars.turnNum == b.vars.turnNum ==> a == b)
            && LedgerTotal(a.vars.outcome) == LedgerTotal(b.vars.outcome) == LedgerTotal(s.leader.current.vars.outcome)
  {
    var h := EveryRunIsExplained(s, steps);
    var r := Run(s, steps);
    HistoryState(r.leader.fp, h, h.adopted);
    HistoryState(r.leader.fp, h, h.signed);
    SideIsValid(r.leader, h, h.adopted, |h.made|);
    SideIsValid(r.follower, h, h.signed, h.received);
  }

  lemma SideIsValid(l: Ledger, h: History, n: nat, m: nat)
    requires TwoParties(l.fp) && n <= m <= |h.made| && SideAt(l, h, n, m)
    requires QueueSigned(l.fp, h.start, h.made)
    ensures Valid(l)
  {
    forall i | 0 <= i < |l.queue| ensures EntrySigned(l.fp, l.current.vars, l.queue, i) {
      SideAhead(l, h, n, m, i + 1);
      assert EntrySigned(l.fp, h.start, h.made, n + i);
      assert l.queue[i] == h.made[n + i];
    }
  }

  /** In every run, a proposal the leader sent can only be refused for its turn number, and a
      countersignature the follower sent is never refused. */
  lemma OnlyStaleOrFutureAreRefused(s: System, steps: seq<Step>, sp: SignedProposal)
    requires Initial(s)
    ensures sp in Run(s, steps).toFollower ==>
              FollowerReceiveOn(Run(s, steps).follower, sp).Ok?
                  || FollowerReceiveOn(Run(s, steps).follower, sp) == Err(InvalidTurnNum)
    ensures sp in Run(s, steps).toLeader ==> LeaderReceiveOn(Run(s, steps).leader, sp).Ok?
  {
    var h := EveryRunIsExplained(s, steps);
    var h1 := DeliverToFollowerStep(Run(s, steps), h, sp);
    var h2 := DeliverToLeaderStep(Run(s, steps), h, sp);
  }

  // ------------------------------------------------------------------
  // Runs in which nothing is lost
  // ------------------------------------------------------------------

  lemma {:induction false} RunAppend(s: System, a: seq<Step>, b: seq<Step>)
    requires WellFormed(s)
    ensures Run(s, a + b) == Run(Run(s, a), b)
    decreases |b|
  {
    if b == [] {
      assert a + b == a;
    } else {
      var n := |b| - 1;
      RunAppend(s, a, b[..n]);
      assert (a + b)[..|a + b| - 1] == a + b[..n];
    }
  }

  /** Both sides are at the same state and nothing is proposed. */
  ghost predicate Quiet(s: System) {
    && WellFormed(s) && s.follower.current.vars == s.leader.current.vars
    && s.leader.queue == s.follower.queue == []
  }

  /** Proposing, delivering, signing and delivering back. */
  ghost function Round(s: System, p: Proposal, u: Vars): seq<Step>
    requires WellFormed(s)
  {
    var fp := s.leader.fp;
    var state := AsState(u, fp);
    [LeaderPropose(p), DeliverToFollower(SignedProposal(Sign(state, LeaderOf(fp)), p, u.turnNum)),
     FollowerSign(p), DeliverToLeader(SignedProposal(Sign(state, FollowerOf(fp)), p, u.turnNum))]
  }

  /** A proposal that can be applied goes through on both sides. */
  lemma RoundGoesThrough(s: System, p: Proposal)
    requires Quiet(s) && p.ledgerId == s.leader.fp.channelId && Apply(s.leader.current.vars, p).Ok?
    ensures var u := Apply(s.leader.current.vars, p).value;
            Quiet(Run(s, Round(s, p, u))) && Run(s, Round(s, p, u)).leader.current.vars == u
  {
    var v, fp := s.leader.current.vars, s.leader.fp;
    var u := Apply(v, p).value;
    var steps := Round(s, p, u);
    assert After(v, [], 0) == Ok(v);
    var s1 := Next(s, steps[0]);
    assert s1.leader.queue == [steps[1].sp];
    var s2 := Next(s1, steps[1]);
    assert s2.follower.queue == [steps[1].sp];
    var s3 := Next(s2, steps[2]);
    assert s3.leader.queue == [steps[1].sp];
    assert After(v, s3.leader.queue, 0) == Ok(v) && After(v, s3.leader.queue, 1) == Ok(u);
    var s4 := Next(s3, steps[3]);
    assert Quiet(s4) && s4.leader.current.vars == u;
    FourSteps(s, steps);
  }

  lemma OneMoreStep(s: System, steps: seq<Step>, n: nat)
    requires WellFormed(s) && n < |steps|
    ensures Run(s, steps[..n + 1]) == Next(Run(s, steps[..n]), steps[n])
  {
    assert steps[..n + 1][..n] == steps[..n];
  }

  lemma FourSteps(s: System, steps: seq<Step>)
    requires WellFormed(s) && |steps| == 4
    ensures Run(s, steps) == Next(Next(Next(Next(s, steps[0]), steps[1]), steps[2]), steps[3])
  {
    OneMoreStep(s, steps, 0);
    OneMoreStep(s, steps, 1);
    OneMoreStep(s, steps, 2);
    OneMoreStep(s, steps, 3);
    assert steps[..4] == steps;
  }
}

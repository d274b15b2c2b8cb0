/** What one honest party is sure of, whatever the other party sends: it never signs two different
    states with the same turn number. */
module NoEquivocation {
  import opened Types
  import opened States
  import opened LedgerVars
  import opened Consensus
  import opened LedgerAnswers

  /** One party's side and every signature it has ever made on a state of this channel. */
  datatype Party = Party(ledger: Ledger, made: set<Signature>)

  /** Requests come from the party itself; `Receive` brings anything the other party may send. */
  datatype Event =
    | Propose(proposal: Proposal)
    | SignNext(expected: Proposal)
    | Receive(sp: SignedProposal)

  function Handle(p: Party, e: Event): (p': Party)
    requires TwoParties(p.ledger.fp)
    ensures p'.ledger.fp == p.ledger.fp && p'.ledger.role == p.ledger.role
  {
    var key := Me(p.ledger.fp, p.ledger.role);
    match e
    case Propose(proposal) =>
      (match ProposeOn(p.ledger, proposal, key)
       case Err(_) => p
       case Ok((l, sp)) => Party(l, p.made + {sp.signature}))
    case SignNext(expected) =>
      (match SignNextOn(p.ledger, expected, key)
       case Err(_) => p
       case Ok((l, sp)) => Party(l, p.made + {sp.signature}))
    case Receive(sp) =>
      (match ReceiveOn(p.ledger, sp)
       case Err(_) => p
       case Ok(l) => Party(l, p.made))
  }

  function HandleAll(p: Party, events: seq<Event>): (p': Party)
    requires TwoParties(p.ledger.fp)
    ensures p'.ledger.fp == p.ledger.fp && p'.ledger.role == p.ledger.role
    decreases |events|
  {
    if events == [] then p else Handle(HandleAll(p, events[..|events| - 1]), events[|events| - 1])
  }

  /** The last turn a party has signed: a leader signs what it proposes, a follower what it adopts. */
  ghost function LastSignedTurn(l: Ledger): nat {
    l.current.vars.turnNum + if l.role == Leader then |l.queue| else 0
  }

  ghost predicate OnePerTurn(made: set<Signature>) {
    forall a, b :: a in made && b in made && a.signed.turnNum == b.signed.turnNum ==> a == b
  }

  ghost predicate Honest(p: Party) {
    && Valid(p.ledger)
    && OnePerTurn(p.made)
    && forall sig :: sig in p.made ==> sig.signed.turnNum <= LastSignedTurn(p.ledger)
  }

  lemma LatestTurn(l: Ledger)
    requires Valid(l)
    ensures Latest(l).Ok? && Latest(l).value.turnNum == l.current.vars.turnNum + |l.queue|
  {
    QueueApplies(l.fp, l.current.vars, l.queue, |l.queue|);
    AfterKeeps(l.current.vars, l.queue, |l.queue|);
  }

  lemma OneMoreTurn(made: set<Signature>, last: nat, sig: Signature)
    requires OnePerTurn(made) && sig.signed.turnNum == last + 1
    requires forall s :: s in made ==> s.signed.turnNum <= last
    ensures OnePerTurn(made + {sig})
    ensures forall s :: s in made + {sig} ==> s.signed.turnNum <= last + 1
  {
  }

  lemma HandleKeepsHonest(p: Party, e: Event)
    requires Honest(p)
    ensures Honest(Handle(p, e))
  {
    var l := p.ledger;
    var key := Me(l.fp, l.role);
    LatestTurn(l);
    match e {
      case Propose(proposal) =>
        if ProposeOn(l, proposal, key).Ok? {
          ProposeKeeps(l, proposal, key);
          OneMoreTurn(p.made, LastSignedTurn(l), ProposeOn(l, proposal, key).value.1.signature);
        }
      case SignNext(expected) =>
        if SignNextOn(l, expected, key).Ok? {
          SignNextKeeps(l, expected, key);
          OneMoreTurn(p.made, LastSignedTurn(l), SignNextOn(l, expected, key).value.1.signature);
        }
      case Receive(sp) =>
        if l.role == Follower && FollowerReceiveOn(l, sp).Ok? {
          FollowerReceiveKeeps(l, sp);
        }
        if l.role == Leader && LeaderReceiveOn(l, sp).Ok? {
          LeaderReceiveKeeps(l, sp);
          LatestTurn(LeaderReceiveOn(l, sp).value);
        }
    }
  }

  lemma {:induction false} HandleAllKeepsHonest(p: Party, events: seq<Event>)
    requires Honest(p)
    ensures Honest(HandleAll(p, events))
    decreases |events|
  {
    if events != [] {
      HandleAllKeepsHonest(p, events[..|events| - 1]);
      HandleKeepsHonest(HandleAll(p, events[..|events| - 1]), events[|events| - 1]);
    }
  }

  /** A party that starts from a doubly signed state and has signed nothing later can be shown, after
      any events and any messages, at most one signature of its own for each turn; so no two
      different states of the channel with the same turn number ever carry both signatures. */
  lemma NeverEquivocates(l: Ledger, events: seq<Event>, a: Signature, b: Signature)
    requires Valid(l) && l.queue == []
    requires var own := if l.role == Leader then l.current.leaderSig else l.current.followerSig;
             var made := HandleAll(Party(l, {own}), events).made;
             a in made && b in made && a.signed.turnNum == b.signed.turnNum
    ensures a.signed == b.signed
    ensures Valid(HandleAll(Party(l, {if l.role == Leader then l.current.leaderSig else l.current.followerSig}),
                            events).ledger)
  {
    var own := if l.role == Leader then l.current.leaderSig else l.current.followerSig;
    HandleAllKeepsHonest(Party(l, {own}), events);
  }

  // ------------------------------------------------------------------
  // It only ever agrees to what it was asked to agree to
  // ------------------------------------------------------------------

  /** The vars after these proposals, or the first error. */
  function Fold(v: Vars, ps: seq<Proposal>): Result<Vars, LedgerError>
    decreases |ps|
  {
    if ps == [] then Ok(v)
    else
      match Fold(v, ps[..|ps| - 1])
      case Err(e) => Err(e)
      case Ok(u) => Apply(u, ps[|ps| - 1])
  }

  lemma FoldOneMore(v: Vars, ps: seq<Proposal>, p: Proposal)
    requires Fold(v, ps).Ok?
    ensures Fold(v, ps + [p]) == Apply(Fold(v, ps).value, p)
  {
    assert (ps + [p])[..|ps + [p]| - 1] == ps;
  }

  /** The request that an event makes of the party, if the party meets it. */
  function Met(p: Party, e: Event): seq<Proposal>
    requires TwoParties(p.ledger.fp)
  {
    var key := Me(p.ledger.fp, p.ledger.role);
    match e
    case Propose(proposal) => if ProposeOn(p.ledger, proposal, key).Ok? then [proposal] else []
    case SignNext(expected) => if SignNextOn(p.ledger, expected, key).Ok? then [expected] else []
    case Receive(_) => []
  }

  /** The requests that were met, in order. */
  function AllMet(p: Party, events: seq<Event>): seq<Proposal>
    requires TwoParties(p.ledger.fp)
    decreases |events|
  {
    if events == [] then []
    else AllMet(p, events[..|events| - 1]) + Met(HandleAll(p, events[..|events| - 1]), events[|events| - 1])
  }

  /** What a party has signed last: a leader all it has proposed, a follower what it has adopted. */
  ghost function SignedVarsOf(l: Ledger): Result<Vars, LedgerError> {
    if l.role == Leader then Latest(l) else Ok(l.current.vars)
  }

  lemma HandleFolds(p: Party, e: Event)
    requires Honest(p)
    ensures SignedVarsOf(p.ledger).Ok?
    ensures SignedVarsOf(Handle(p, e).ledger)
         == if Met(p, e) == [] then SignedVarsOf(p.ledger) else Apply(SignedVarsOf(p.ledger).value, Met(p, e)[0])
  {
    var l := p.ledger;
    LatestTurn(l);
    match e {
      case Propose(proposal) =>
        if ProposeOn(l, proposal, Me(l.fp, l.role)).Ok? {
          ProposeKeeps(l, proposal, Me(l.fp, l.role));
        }
      case SignNext(expected) => SignNextExactlyWhen(l, expected, Me(l.fp, l.role));
      case Receive(sp) =>
        FollowerReceiveExactlyWhen(l, sp);
        if l.role == Leader && LeaderReceiveOn(l, sp).Ok? {
          LeaderReceiveKeeps(l, sp);
        }
    }
  }

  lemma OneMoreMet(v: Vars, met: seq<Proposal>, q: Party, e: Event)
    requires Honest(q) && Fold(v, met) == SignedVarsOf(q.ledger)
    ensures Fold(v, met + Met(q, e)) == SignedVarsOf(Handle(q, e).ledger)
    ensures forall x :: x in Met(q, e) ==> e == if q.ledger.role == Leader then Propose(x) else SignNext(x)
  {
    HandleFolds(q, e);
    if Met(q, e) == [] {
      assert met + [] == met;
    } else {
      FoldOneMore(v, met, Met(q, e)[0]);
    }
  }

  /** Whatever the other party sends, what an honest follower has adopted is exactly what it was asked
      to sign and has signed, in that order, and what an honest leader has proposed is exactly what it
      was asked to propose and has proposed. */
  lemma {:induction false} AgreesOnlyToRequests(p: Party, events: seq<Event>)
    requires Honest(p)
    ensures SignedVarsOf(p.ledger).Ok?
    ensures Fold(SignedVarsOf(p.ledger).value, AllMet(p, events)) == SignedVarsOf(HandleAll(p, events).ledger)
    ensures forall x :: x in AllMet(p, events) ==>
              (if p.ledger.role == Leader then Propose(x) else SignNext(x)) in events
    decreases |events|
  {
    LatestTurn(p.ledger);
    if events != [] {
      var n := |events| - 1;
      var q := HandleAll(p, events[..n]);
      AgreesOnlyToRequests(p, events[..n]);
      HandleAllKeepsHonest(p, events[..n]);
      OneMoreMet(SignedVarsOf(p.ledger).value, AllMet(p, events[..n]), q, events[n]);
    }
  }

  /** It never signs a final state or one of another channel. */
  lemma {:induction false} SignsOnlyOpenStates(p: Party, events: seq<Event>)
    requires Honest(p) && forall sig :: sig in p.made ==> OpenState(sig.signed, p.ledger.fp)
    ensures forall sig :: sig in HandleAll(p, events).made ==> OpenState(sig.signed, p.ledger.fp)
    decreases |events|
  {
    if events != [] {
      SignsOnlyOpenStates(p, events[..|events| - 1]);
    }
  }

  predicate OpenState(s: State, fp: FixedPart) {
    s.fixed == fp && !s.isFinal
  }
}

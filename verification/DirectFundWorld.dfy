/** Direct fund objectives and the chain: the steps they take, and what is known of deposits and
    beliefs whatever the outcome and whoever else deposits. */
module DirectFundWorld {
  import opened Types
  import opened Outcomes
  import opened DepositSafety
  import opened States
  import opened Channels
  import opened Messages
  import opened VirtualFund
  import opened DirectFund

  /** A deposit that a participant has submitted, and whether the chain has processed it. */
  datatype Deposit = Deposit(party: nat, amount: int, done: bool)

  /** `states` and `events` hold everything ever sent, states with their addressees. `held` is what the
      chain holds for the channel. */
  datatype World = World(
    s: State,
    parties: seq<DirectObjective>,
    states: set<Letter>,
    deposits: seq<Deposit>,
    block: nat,
    held: int,
    events: set<ChainEvent>
  )

  // ------------------------------------------------------------------
  // Steps
  // ------------------------------------------------------------------

  /** What a deposit does to the chain: a new block, and if it is for anything, more holdings. */
  function SendTransaction(block: nat, held: int, amount: int): (nat, int, ChainEvent) {
    var now := if amount > 0 then held + amount else held;
    (block + 1, now, Deposited(block + 1, now))
  }

  /** `DepositByOther` is a deposit that no objective has submitted, and `Tick` a transaction about
      another channel. */
  datatype Act =
    | Approve(p: nat)
    | CrankParty(p: nat)
    | DeliverState(p: nat, ss: SignedState, order: seq<nat>)
    | Observe(p: nat, e: ChainEvent)
    | Process(i: nat)
    | DepositByOther(amount: int)
    | Tick

  ghost predicate Peopled(w: World) {
    |w.parties| == |w.s.fixed.participants|
  }

  function Submitted(p: nat, amounts: seq<int>): seq<Deposit> {
    if amounts == [] then [] else [Deposit(p, amounts[0], false)] + Submitted(p, amounts[1..])
  }

  ghost function AfterCrank(w: World, p: nat, r: DirectCranked): World
    requires p < |w.parties|
  {
    w.(parties := w.parties[p := r.objective],
       states := w.states + StatesIn(r.messages),
       deposits := w.deposits + Submitted(p, r.deposits))
  }

  /** The signed state was sent to party p. */
  ghost predicate Sent(w: World, p: nat, ss: SignedState)
    requires p < |w.s.fixed.participants|
  {
    Letter(w.s.fixed.participants[p], ss) in w.states
  }

  ghost function NextWorld(w: World, a: Act): World
    requires Peopled(w)
  {
    match a
    case Approve(p) =>
      if p < |w.parties| && w.parties[p].status == Unapproved
      then w.(parties := w.parties[p := w.parties[p].(status := Approved)]) else w
    case CrankParty(p) =>
      if p < |w.parties| && DirectCrankable(w.parties[p])
      then AfterCrank(w, p, CrankDirect(w.parties[p], w.s.fixed.participants[p])) else w
    case DeliverState(p, ss, order) =>
      if p < |w.parties| && Sent(w, p, ss) && IsOrder(order, ss.sigs)
      then w.(parties := w.parties[p := UpdateWithState(w.parties[p], ss, order)]) else w
    case Observe(p, e) =>
      if p < |w.parties| && e in w.events then
        (match UpdateWithChainEvent(w.parties[p], e)
         case None => w
         case Some(o) => w.(parties := w.parties[p := o]))
      else w
    case Process(i) =>
      if i < |w.deposits| && !w.deposits[i].done then
        var (block, held, e) := SendTransaction(w.block, w.held, w.deposits[i].amount);
        w.(deposits := w.deposits[i := w.deposits[i].(done := true)], block := block, held := held,
           events := w.events + {e})
      else w
    case DepositByOther(amount) =>
      var (block, held, e) := SendTransaction(w.block, w.held, amount);
      w.(block := block, held := held, events := w.events + {e})
    case Tick => w.(block := w.block + 1)
  }

  ghost function RunWorld(w: World, acts: seq<Act>): (u: World)
    requires Peopled(w)
    ensures Peopled(u) && u.s == w.s
    decreases |acts|
  {
    if acts == [] then w else NextWorld(RunWorld(w, acts[..|acts| - 1]), acts[|acts| - 1])
  }

  lemma RunPeople(w: World, acts: seq<Act>)
    requires Peopled(w)
    ensures |RunWorld(w, acts).parties| == |w.parties|
  {
  }

  lemma OneMoreAct(w: World, acts: seq<Act>, a: Act)
    requires Peopled(w)
    ensures RunWorld(w, acts + [a]) == NextWorld(RunWorld(w, acts), a)
  {
    assert (acts + [a])[..|acts + [a]| - 1] == acts;
  }

  // ------------------------------------------------------------------
  // Terms
  // ------------------------------------------------------------------

  ghost predicate SingleAsset(s: State) {
    |s.outcome| == 1 && NonNegative(s.outcome[0].allocations)
  }

  ghost function Allocations(s: State): seq<Allocation>
    requires SingleAsset(s)
  {
    s.outcome[0].allocations
  }

  /** A prefund state with an outcome of one asset. */
  ghost predicate Fundable(s: State) {
    && SingleAsset(s) && |s.fixed.participants| > 0 && DistinctParticipants(s.fixed.participants)
    && s.turnNum == PreFundTurnNum
  }

  ghost function Payee(s: State, k: nat): Destination
    requires k < |s.fixed.participants|
  {
    AddressToDestination(s.fixed.participants[k])
  }

  /** What the outcome reserves before it first pays participant k, and all that it gives to k. */
  ghost function Ahead(s: State, k: nat): int
    requires SingleAsset(s) && k < |s.fixed.participants|
  {
    Reserved(Allocations(s), FirstFor(Allocations(s), Payee(s, k)))
  }

  ghost function Share(s: State, k: nat): int
    requires SingleAsset(s) && k < |s.fixed.participants|
  {
    AllocatedTo(Allocations(s), Payee(s, k), |Allocations(s)|)
  }

  ghost function Whole(s: State): int
    requires SingleAsset(s)
  {
    Reserved(Allocations(s), |Allocations(s)|)
  }

  lemma ShareFits(s: State, k: nat)
    requires SingleAsset(s) && k < |s.fixed.participants|
    ensures 0 <= Ahead(s, k) && 0 <= Share(s, k) && Ahead(s, k) + Share(s, k) <= Whole(s)
  {
    var a := Allocations(s);
    ReservedMonotone(a, 0, FirstFor(a, Payee(s, k)));
    AllocatedMonotone(a, Payee(s, k), 0, |a|);
    ReservedCoversAllocated(a, Payee(s, k), 0, |a|);
  }

  /** The terms that the constructor gives participant k. */
  ghost predicate OnTerms(s: State, o: DirectObjective, k: nat)
    requires SingleAsset(s) && k < |s.fixed.participants|
  {
    o.safetyThreshold == Ahead(s, k) && o.depositTarget == Ahead(s, k) + Share(s, k) && o.fullyFunded == Whole(s)
  }

  lemma ConstructedOnTerms(preApprove: bool, s: State, k: nat)
    requires Fundable(s) && k < |s.fixed.participants|
    ensures var r := ConstructDirect(preApprove, s, s.fixed.participants[k]);
            && (r.Ok? <==> !IsExternal(s.fixed.channelId) && !s.isFinal)
            && (r.Ok? ==>
                  OnTerms(s, r.value, k) && r.value.c == NewChannel(s, k) && !r.value.submitted
                  && r.value.latestBlock == 0 && r.value.status == if preApprove then Approved else Unapproved)
  {
    IndexOfParticipant(s.fixed.participants, k);
  }

  // ------------------------------------------------------------------
  // Deposits and beliefs
  // ------------------------------------------------------------------

  /** Deposit i is no more than its party's share, and takes the holdings to the party's target at
      least. */
  ghost predicate Covered(w: World, i: nat)
    requires SingleAsset(w.s) && Peopled(w) && i < |w.deposits|
  {
    var d := w.deposits[i];
    && d.party < |w.parties| && w.parties[d.party].submitted
    && 0 < d.amount <= Share(w.s, d.party)
    && Ahead(w.s, d.party) + Share(w.s, d.party) <= w.held + if d.done then 0 else d.amount
  }

  ghost predicate OneEach(deposits: seq<Deposit>) {
    forall i, j :: 0 <= i < j < |deposits| ==> deposits[i].party != deposits[j].party
  }

  /** What party k believes is held is no more than what is. */
  ghost predicate Believes(w: World, k: nat)
    requires SingleAsset(w.s) && Peopled(w) && k < |w.parties|
  {
    var o := w.parties[k];
    OnTerms(w.s, o, k) && o.c.onChainFunding <= w.held && o.latestBlock <= w.block
  }

  ghost predicate Foreseen(o: DirectObjective, e: ChainEvent) {
    e.Deposited? && (e.block > o.latestBlock ==> e.nowHeld >= o.c.onChainFunding)
  }

  /** Later events report more. */
  ghost predicate EventsInOrder(w: World) {
    && (forall e :: e in w.events ==> e.Deposited? && e.block <= w.block && e.nowHeld <= w.held)
    && (forall e, f :: e in w.events && f in w.events && e.Deposited? && f.Deposited? && e.block <= f.block ==>
          e.nowHeld <= f.nowHeld)
    && (forall k, e :: 0 <= k < |w.parties| && e in w.events ==> Foreseen(w.parties[k], e))
  }

  ghost predicate Beliefs(w: World) {
    && Fundable(w.s) && Peopled(w)
    && OneEach(w.deposits)
    && (forall i :: 0 <= i < |w.deposits| ==> Covered(w, i))
    && (forall k :: 0 <= k < |w.parties| ==> Believes(w, k))
    && EventsInOrder(w)
  }

  // ------------------------------------------------------------------
  // Steps keep them
  // ------------------------------------------------------------------

  /** A step that changes neither the holdings nor what parties believe, have submitted or are to do. */
  ghost predicate SameMoney(w: World, w': World) {
    && w'.s == w.s && |w'.parties| == |w.parties| && w'.deposits == w.deposits
    && w'.held == w.held && w'.block >= w.block && w'.events == w.events
    && forall k :: 0 <= k < |w.parties| ==> SameStake(w.parties[k], w'.parties[k])
  }

  ghost predicate SameStake(o: DirectObjective, o': DirectObjective) {
    && o'.safetyThreshold == o.safetyThreshold && o'.depositTarget == o.depositTarget && o'.fullyFunded == o.fullyFunded
    && o'.c.onChainFunding == o.c.onChainFunding && o'.latestBlock == o.latestBlock && o'.submitted == o.submitted
  }

  lemma SameBeliefs(w: World, w': World)
    requires Beliefs(w) && SameMoney(w, w')
    ensures Beliefs(w')
  {
    forall i | 0 <= i < |w'.deposits| ensures Covered(w', i) {
      assert Covered(w, i);
    }
    forall k | 0 <= k < |w'.parties| ensures Believes(w', k) {
      assert Believes(w, k);
    }
    forall k, e | 0 <= k < |w'.parties| && e in w'.events ensures Foreseen(w'.parties[k], e) {
      assert Foreseen(w.parties[k], e);
    }
  }

  lemma ObserveBeliefs(w: World, p: nat, e: ChainEvent)
    requires Beliefs(w)
    ensures Beliefs(NextWorld(w, Observe(p, e)))
    ensures p < |w.parties| ==> NextWorld(w, Observe(p, e)).parties[p].c.onChainFunding >= w.parties[p].c.onChainFunding
  {
    var w' := NextWorld(w, Observe(p, e));
    if p < |w.parties| && e in w.events {
      assert Foreseen(w.parties[p], e);
      forall i | 0 <= i < |w'.deposits| ensures Covered(w', i) {
        assert Covered(w, i);
      }
      forall k | 0 <= k < |w'.parties| ensures Believes(w', k) {
        assert Believes(w, k);
      }
      forall k, f | 0 <= k < |w'.parties| && f in w'.events ensures Foreseen(w'.parties[k], f) {
        assert Foreseen(w.parties[k], f);
      }
    }
  }

  /** A transaction that takes nothing away. */
  ghost predicate Transacted(w: World, w': World) {
    && w'.s == w.s && w'.parties == w.parties && w'.held >= w.held && w'.block == w.block + 1
    && w'.events == w.events + {Deposited(w'.block, w'.held)}
  }

  lemma TransactedBeliefs(w: World, w': World)
    requires Beliefs(w) && Transacted(w, w')
    ensures EventsInOrder(w') && forall k :: 0 <= k < |w'.parties| ==> Believes(w', k)
  {
    forall k | 0 <= k < |w'.parties| ensures Believes(w', k) {
      assert Believes(w, k);
    }
    forall k, e | 0 <= k < |w'.parties| && e in w'.events ensures Foreseen(w'.parties[k], e) {
      assert Believes(w, k);
      if e in w.events {
        assert Foreseen(w.parties[k], e);
      }
    }
  }

  lemma ProcessBeliefs(w: World, i: nat)
    requires Beliefs(w)
    ensures Beliefs(NextWorld(w, Process(i)))
    ensures NextWorld(w, Process(i)).held >= w.held
  {
    var w' := NextWorld(w, Process(i));
    if i < |w.deposits| && !w.deposits[i].done {
      assert Covered(w, i);
      TransactedBeliefs(w, w');
      forall j | 0 <= j < |w'.deposits| ensures Covered(w', j) {
        assert Covered(w, j);
      }
    }
  }

  lemma DepositByOtherBeliefs(w: World, amount: int)
    requires Beliefs(w)
    ensures Beliefs(NextWorld(w, DepositByOther(amount)))
    ensures NextWorld(w, DepositByOther(amount)).held >= w.held
  {
    var w' := NextWorld(w, DepositByOther(amount));
    TransactedBeliefs(w, w');
    forall j | 0 <= j < |w'.deposits| ensures Covered(w', j) {
      assert Covered(w, j);
    }
  }

  /** Party p finds it safe to deposit, has something to deposit, and has not done so yet. */
  ghost predicate DepositIsDue(o: DirectObjective) {
    SafeToDeposit(o) && AmountToDeposit(o) > 0 && !o.submitted
  }

  ghost function Submitting(w: World, p: nat): World
    requires p < |w.parties|
  {
    w.(parties := w.parties[p := w.parties[p].(submitted := true)],
       deposits := w.deposits + [Deposit(p, AmountToDeposit(w.parties[p]), false)])
  }

  lemma SubmitBeliefs(w: World, p: nat)
    requires Beliefs(w) && p < |w.parties| && DepositIsDue(w.parties[p])
    ensures Beliefs(Submitting(w, p))
  {
    var w' := Submitting(w, p);
    assert Believes(w, p);
    forall i | 0 <= i < |w'.deposits| ensures Covered(w', i) {
      if i < |w.deposits| {
        assert Covered(w, i);
      }
    }
    forall i, j | 0 <= i < j < |w'.deposits| ensures w'.deposits[i].party != w'.deposits[j].party {
      assert Covered(w, i);
    }
    forall k | 0 <= k < |w'.parties| ensures Believes(w', k) {
      assert Believes(w, k);
    }
    forall k, e | 0 <= k < |w'.parties| && e in w'.events ensures Foreseen(w'.parties[k], e) {
      assert Foreseen(w.parties[k], e);
    }
  }
}

/** Deposit safety of a participant against everybody else is exact: unless its allocations are
    unbroken there is a run in which it cannot recover what it has deposited. */
module DirectFundSafety {
  import opened Types
  import opened Outcomes
  import opened DepositSafety
  import opened States
  import opened Channels
  import opened Setup
  import opened Messages
  import opened VirtualFund
  import opened DirectFund
  import opened DirectFundCrank
  import opened DirectFundWorld
  import opened DirectFundMoney
  import opened DirectFundRun

  /** The participants before n, but for k. */
  ghost predicate Others(seen: set<nat>, k: nat, n: nat) {
    (forall q :: q in seen ==> q < n && q != k) && |seen| == if k < n then n - 1 else n
  }

  /** Party k, which has seen these prefund signatures, believes what is held. Nobody has deposited, and
      the holdings are at k's threshold. */
  ghost predicate Mine(w: World, u: World, k: nat, seen: set<nat>)
    requires Fundable(w.s) && Peopled(w) && k < |w.parties|
  {
    && u.s == w.s && Peopled(u) && u.deposits == [] && u.held == Ahead(w.s, k)
    && var o := u.parties[k];
       && OnTerms(w.s, o, k) && !o.submitted && o.status in {Approved, Unapproved}
       && HonestDirect(o, w.s, k, seen, {}) && o.c.onChainFunding == u.held
  }

  /** The first m participants but k have announced their prefund signatures, and the rest are as they
      were. */
  ghost predicate Announced(w: World, u: World, k: nat, m: nat)
    requires Peopled(w) && k < |w.parties|
  {
    && u.s == w.s && |u.parties| == |w.parties| && m <= |w.parties|
    && (forall q :: m <= q < |w.parties| && q != k ==> u.parties[q] == w.parties[q])
    && (forall q :: 0 <= q < m && q != k ==> Letter(w.s.fixed.participants[k], OneSignature(w.s, q)) in u.states)
  }

  /** A run has come so far. Nobody else has deposited if k is first in line. */
  ghost predicate Ready(w: World, acts: seq<Act>, k: nat, m: nat, seen: set<nat>)
    requires Fundable(w.s) && Peopled(w) && k < |w.parties|
  {
    && Mine(w, RunWorld(w, acts), k, seen) && Announced(w, RunWorld(w, acts), k, m)
    && (Ahead(w.s, k) == 0 ==> NobodyElse(acts))
  }

  /** Somebody deposits what is ahead of k, and k sees it. */
  lemma ThresholdReached(w: World, k: nat) returns (acts: seq<Act>)
    requires Start(w) && k < |w.parties|
    ensures Ready(w, acts, k, 0, {})
  {
    NewObjective(w, k);
    ShareFits(w.s, k);
    acts := [];
    if Ahead(w.s, k) > 0 {
      var first, e := DepositByOther(Ahead(w.s, k)), Deposited(w.block + 1, Ahead(w.s, k));
      OneMoreAct(w, [], first);
      OneMoreAct(w, [] + [first], Observe(k, e));
      acts := [] + [first] + [Observe(k, e)];
    }
  }

  lemma ApprovedWorld(u: World, p: nat)
    requires Peopled(u) && p < |u.parties| && u.parties[p].status in {Approved, Unapproved}
    ensures NextWorld(u, Approve(p)) == u.(parties := u.parties[p := u.parties[p].(status := Approved)])
  {
    if u.parties[p].status == Approved {
      assert u.parties[p := u.parties[p].(status := Approved)] == u.parties;
    }
  }

  /** A participant that has seen nothing signs the prefund state, announces it, and waits. */
  lemma SignsAlone(o: DirectObjective, s: State, q: nat)
    requires HonestDirect(o, s, q, {}, {}) && o.status == Approved && |s.fixed.participants| >= 2
    ensures DirectCrankable(o)
    ensures var r := CrankDirect(o, s.fixed.participants[q]);
            && r.deposits == []
            && forall i :: 0 <= i < |s.fixed.participants| && i != q ==>
                 Letter(s.fixed.participants[i], OneSignature(s, q)) in StatesIn(r.messages)
  {
    DirectCrankShape(o, s, q, {}, {});
    assert {} + {q} == {q};
    StateMessagesCarry(OneSignature(s, q), q);
  }

  /** Only what party q knows and has said has changed. */
  ghost predicate OnlySaid(v: World, v': World, q: nat)
    requires q < |v.s.fixed.participants|
  {
    && v'.deposits == v.deposits && v'.held == v.held && v'.s == v.s && |v'.parties| == |v.parties|
    && v.states <= v'.states
    && (forall i :: 0 <= i < |v.s.fixed.participants| && i != q ==>
          Letter(v.s.fixed.participants[i], OneSignature(v.s, q)) in v'.states)
    && forall p :: 0 <= p < |v.parties| && p != q ==> v'.parties[p] == v.parties[p]
  }

  lemma AnnouncesAlone(v: World, q: nat)
    requires Peopled(v) && q < |v.parties| && |v.parties| >= 2
    requires HonestDirect(v.parties[q], v.s, q, {}, {}) && v.parties[q].status == Approved
    ensures OnlySaid(v, NextWorld(v, CrankParty(q)), q)
  {
    SignsAlone(v.parties[q], v.s, q);
    assert v.deposits + [] == v.deposits;
  }

  lemma OneMoreAnnounced(w: World, u: World, v: World, v': World, k: nat, m: nat)
    requires Fundable(w.s) && Peopled(w) && k < |w.parties| && m < |w.parties| && m != k
    requires Mine(w, u, k, {}) && Announced(w, u, k, m)
    requires v == u.(parties := u.parties[m := u.parties[m].(status := Approved)]) && OnlySaid(v, v', m)
    ensures Mine(w, v', k, {}) && Announced(w, v', k, m + 1)
  {
  }

  lemma AnnounceStep(w: World, u: World, k: nat, m: nat)
    requires Start(w) && k < |w.parties| && m < |w.parties| && m != k
    requires Mine(w, u, k, {}) && Announced(w, u, k, m)
    ensures var v := NextWorld(NextWorld(u, Approve(m)), CrankParty(m));
            Mine(w, v, k, {}) && Announced(w, v, k, m + 1)
  {
    NewObjective(w, m);
    ApprovedWorld(u, m);
    var v := NextWorld(u, Approve(m));
    AnnouncesAlone(v, m);
    OneMoreAnnounced(w, u, v, NextWorld(v, CrankParty(m)), k, m);
  }

  lemma NextAnnounces(w: World, acts: seq<Act>, k: nat, m: nat) returns (acts': seq<Act>)
    requires Start(w) && k < |w.parties| && m < |w.parties| && m != k && Ready(w, acts, k, m, {})
    ensures Ready(w, acts', k, m + 1, {})
  {
    AnnounceStep(w, RunWorld(w, acts), k, m);
    OneMoreAct(w, acts, Approve(m));
    OneMoreAct(w, acts + [Approve(m)], CrankParty(m));
    acts' := acts + [Approve(m)] + [CrankParty(m)];
  }

  lemma {:induction false} OthersAnnounce(w: World, k: nat, m: nat) returns (acts: seq<Act>)
    requires Start(w) && k < |w.parties| && m <= |w.parties|
    ensures Ready(w, acts, k, m, {})
  {
    if m == 0 {
      acts := ThresholdReached(w, k);
    } else {
      acts := OthersAnnounce(w, k, m - 1);
      if m - 1 != k {
        acts := NextAnnounces(w, acts, k, m - 1);
      }
    }
  }

  lemma SeesOneMore(w: World, u: World, k: nat, n: nat, seen: set<nat>)
    requires Fundable(w.s) && Peopled(w) && k < |w.parties| && n < |w.parties| && n != k
    requires Mine(w, u, k, seen) && Announced(w, u, k, |w.parties|)
    ensures var u' := NextWorld(u, DeliverState(k, OneSignature(w.s, n), [n]));
            Mine(w, u', k, seen + {n}) && Announced(w, u', k, |w.parties|)
  {
    AddPreSignature(w.s, k, Ahead(w.s, k), seen, {}, n);
  }

  lemma SeesNext(w: World, acts: seq<Act>, k: nat, n: nat, seen: set<nat>) returns (acts': seq<Act>)
    requires Fundable(w.s) && Peopled(w) && k < |w.parties| && n < |w.parties| && n != k
    requires Ready(w, acts, k, |w.parties|, seen)
    ensures Ready(w, acts', k, |w.parties|, seen + {n})
  {
    var act := DeliverState(k, OneSignature(w.s, n), [n]);
    OneMoreAct(w, acts, act);
    SeesOneMore(w, RunWorld(w, acts), k, n, seen);
    acts' := acts + [act];
  }

  /** A run has come so far that k has seen the signatures of those before n. */
  ghost predicate SeenUpTo(w: World, acts: seq<Act>, k: nat, n: nat, seen: set<nat>)
    requires Fundable(w.s) && Peopled(w) && k < |w.parties|
  {
    Others(seen, k, n) && Ready(w, acts, k, |w.parties|, seen)
  }

  lemma SeesUpToNext(w: World, acts: seq<Act>, k: nat, n: nat, seen: set<nat>)
    returns (acts': seq<Act>, seen': set<nat>)
    requires Fundable(w.s) && Peopled(w) && k < |w.parties| && n < |w.parties| && SeenUpTo(w, acts, k, n, seen)
    ensures SeenUpTo(w, acts', k, n + 1, seen')
  {
    acts', seen' := acts, seen;
    if n != k {
      acts' := SeesNext(w, acts, k, n, seen);
      seen' := seen + {n};
    }
  }

  lemma {:induction false} SeesOthers(w: World, k: nat, n: nat) returns (acts: seq<Act>, seen: set<nat>)
    requires Start(w) && k < |w.parties| && n <= |w.parties|
    ensures SeenUpTo(w, acts, k, n, seen)
  {
    if n == 0 {
      acts := OthersAnnounce(w, k, |w.parties|);
      seen := {};
    } else {
      acts, seen := SeesOthers(w, k, n - 1);
      acts, seen := SeesUpToNext(w, acts, k, n - 1, seen);
    }
  }

  lemma OthersAndMe(seen: set<nat>, k: nat, n: nat)
    requires Others(seen, k, n) && k < n
    ensures |seen + {k}| == n
  {
  }

  lemma DueIsDeposited(o: DirectObjective, s: State, k: nat, seen: set<nat>, r: DirectCranked)
    requires HonestDirect(o, s, k, seen, {}) && |seen + {k}| == |s.fixed.participants|
    requires Opening(s, seen + {k}, {}) && Opening(s, seen + {k}, {} + {k})
    requires r == HonestDirectCrank(o, s, k, seen, {}) && !FullyFunded(o) && DepositIsDue(o)
    ensures r.deposits == [AmountToDeposit(o)]
  {
  }

  /** With all prefund signatures at the threshold, k deposits its whole share. */
  lemma DepositsShare(o: DirectObjective, s: State, k: nat, seen: set<nat>)
    requires Fundable(s) && k < |s.fixed.participants| && Share(s, k) > 0 && OnTerms(s, o, k)
    requires Others(seen, k, |s.fixed.participants|) && HonestDirect(o, s, k, seen, {})
    requires o.status == Approved && !o.submitted && o.c.onChainFunding == Ahead(s, k)
    ensures DirectCrankable(o) && CrankDirect(o, s.fixed.participants[k]).deposits == [Share(s, k)]
  {
    OthersAndMe(seen, k, |s.fixed.participants|);
    assert !FullyFunded(o) && DepositIsDue(o) && AmountToDeposit(o) == Share(s, k) by {
      ShareFits(s, k);
    }
    DirectCrankShape(o, s, k, seen, {});
    DueIsDeposited(o, s, k, seen, CrankDirect(o, s.fixed.participants[k]));
  }

  lemma SubmitsShare(w: World, u: World, k: nat, seen: set<nat>)
    requires Fundable(w.s) && Peopled(w) && k < |w.parties| && Share(w.s, k) > 0
    requires Mine(w, u, k, seen) && Others(seen, k, |w.parties|) && u.parties[k].status == Approved
    ensures var u' := NextWorld(u, CrankParty(k));
            u'.deposits == [Deposit(k, Share(w.s, k), false)] && u'.held == u.held
  {
    DepositsShare(u.parties[k], w.s, k, seen);
    assert Submitted(k, [Share(w.s, k)]) == [Deposit(k, Share(w.s, k), false)];
  }

  ghost predicate DepositedShare(u: World, s: State, k: nat)
    requires SingleAsset(s) && k < |s.fixed.participants|
  {
    u.deposits == [Deposit(k, Share(s, k), true)] && u.held == Ahead(s, k) + Share(s, k)
  }

  lemma DepositsNow(w: World, u: World, k: nat, seen: set<nat>)
    requires Fundable(w.s) && Peopled(w) && k < |w.parties| && Share(w.s, k) > 0
    requires Mine(w, u, k, seen) && Others(seen, k, |w.parties|)
    ensures DepositedShare(NextWorld(NextWorld(NextWorld(u, Approve(k)), CrankParty(k)), Process(0)), w.s, k)
  {
    ApprovedWorld(u, k);
    SubmitsShare(w, NextWorld(u, Approve(k)), k, seen);
  }

  lemma ThreeMoreActs(w: World, acts: seq<Act>, a: Act, b: Act, c: Act)
    requires Peopled(w)
    ensures RunWorld(w, acts + [a] + [b] + [c]) == NextWorld(NextWorld(NextWorld(RunWorld(w, acts), a), b), c)
  {
    OneMoreAct(w, acts, a);
    OneMoreAct(w, acts + [a], b);
    OneMoreAct(w, acts + [a] + [b], c);
  }

  lemma DepositsInRun(w: World, acts: seq<Act>, k: nat, seen: set<nat>)
    requires Fundable(w.s) && Peopled(w) && k < |w.parties| && Share(w.s, k) > 0
    requires Mine(w, RunWorld(w, acts), k, seen) && Others(seen, k, |w.parties|)
    ensures DepositedShare(RunWorld(w, acts + [Approve(k)] + [CrankParty(k)] + [Process(0)]), w.s, k)
  {
    DepositsNow(w, RunWorld(w, acts), k, seen);
    ThreeMoreActs(w, acts, Approve(k), CrankParty(k), Process(0));
  }

  /** There is a run that ends when k has deposited its whole share on top of its threshold. Nobody
      else needs to deposit if k is first in line. */
  lemma TurnTaken(w: World, k: nat) returns (acts: seq<Act>)
    requires Start(w) && k < |w.parties| && Share(w.s, k) > 0
    ensures DepositedShare(RunWorld(w, acts), w.s, k)
    ensures Ahead(w.s, k) == 0 ==> NobodyElse(acts)
  {
    var before, seen := SeesOthers(w, k, |w.parties|);
    DepositsInRun(w, before, k, seen);
    acts := before + [Approve(k)] + [CrankParty(k)] + [Process(0)];
  }

  /** In that run k gets back less than its share if its allocations are broken. */
  lemma BrokenLoses(w: World, k: nat) returns (acts: seq<Act>)
    requires Start(w) && k < |w.parties| && !Unbroken(Allocations(w.s), Payee(w.s, k))
    ensures !Recovers(RunWorld(w, acts), k)
    ensures Ahead(w.s, k) == 0 ==> NobodyElse(acts)
  {
    BrokenHasShare(Allocations(w.s), Payee(w.s, k));
    acts := TurnTaken(w, k);
    ShareNotPaid(RunWorld(w, acts), k);
  }

  lemma BrokenHasShare(a: seq<Allocation>, d: Destination)
    requires NonNegative(a) && !Unbroken(a, d)
    ensures AllocatedTo(a, d, |a|) > 0
  {
    var i, j :| FirstFor(a, d) <= i < j < |a| && PositiveFor(a[j], d) && a[i].destination != d && a[i].amount > 0;
    AllocatedMonotone(a, d, j, j + 1);
    AllocatedMonotone(a, d, j + 1, |a|);
  }

  lemma ShareNotPaid(u: World, k: nat)
    requires SingleAsset(u.s) && k < |u.s.fixed.participants| && DepositedShare(u, u.s, k)
    requires !Unbroken(Allocations(u.s), Payee(u.s, k))
    ensures !Recovers(u, k)
  {
    var a, d := Allocations(u.s), Payee(u.s, k);
    DepositRecoverableExactlyWhen(a, d);
    PaidAtMostAllocated(a, d, u.held, 0, |a|);
    assert u.deposits[0].done;
  }

  /** Participant k can recover its deposit in every run, whatever others deposit, exactly when its
      allocations are unbroken. */
  lemma DepositsRecoverableExactlyWhen(w: World, k: nat)
    requires Start(w) && k < |w.parties|
    ensures (forall acts :: Recovers(RunWorld(w, acts), k)) <==> Unbroken(Allocations(w.s), Payee(w.s, k))
  {
    var a, d := Allocations(w.s), Payee(w.s, k);
    if Unbroken(a, d) {
      forall acts ensures Recovers(RunWorld(w, acts), k) {
        DepositsAreRecoverable(w, acts, k);
      }
    } else {
      var acts := BrokenLoses(w, k);
    }
  }

  /** So nobody can lose exactly when all are served in turn. */
  lemma NobodyLosesExactlyWhen(w: World)
    requires Start(w)
    ensures (forall acts, k :: 0 <= k < |w.parties| ==> Recovers(RunWorld(w, acts), k)) <==> ServedInTurn(w.s)
  {
    if ServedInTurn(w.s) {
      forall acts, k | 0 <= k < |w.parties| ensures Recovers(RunWorld(w, acts), k) {
        DepositsAreRecoverable(w, acts, k);
      }
    } else {
      var k :| 0 <= k < |w.parties| && !Unbroken(Allocations(w.s), Payee(w.s, k));
      var acts := BrokenLoses(w, k);
    }
  }

  // ------------------------------------------------------------------
  // A participant that is paid in two places
  // ------------------------------------------------------------------

  function TwicePaid(): seq<Allocation> {
    [Allocation(1, 5, NormalAllocation, []), Allocation(2, 3, NormalAllocation, []),
     Allocation(1, 4, NormalAllocation, [])]
  }

  function TwicePaidState(): State {
    State(FixedPart(ChannelIdFrom(7), [1, 2]), [SingleAssetExit(0, TwicePaid())], PreFundTurnNum, false)
  }

  lemma TwicePaidSums()
    ensures SingleAsset(TwicePaidState()) && Allocations(TwicePaidState()) == TwicePaid()
    ensures Reserved(TwicePaid(), 0) == 0 && Reserved(TwicePaid(), 1) == 5
    ensures Reserved(TwicePaid(), 2) == 8 && Reserved(TwicePaid(), 3) == 12
    ensures FirstFor(TwicePaid(), 1) == 0 && FirstFor(TwicePaid(), 2) == 1
    ensures AllocatedTo(TwicePaid(), 1, 3) == 9 && AllocatedTo(TwicePaid(), 2, 3) == 3
  {
    var a := TwicePaid();
    FirstForUnique(a, 1, 0);
    FirstForUnique(a, 2, 1);
    assert Reserved(a, 1) == Reserved(a, 0) + a[0].amount;
    assert Reserved(a, 2) == Reserved(a, 1) + a[1].amount;
    assert Reserved(a, 3) == Reserved(a, 2) + a[2].amount;
    assert AllocatedTo(a, 1, 1) == 5 && AllocatedTo(a, 1, 2) == 5 && AllocatedTo(a, 1, 3) == 9;
    assert AllocatedTo(a, 2, 1) == 0 && AllocatedTo(a, 2, 2) == 3 && AllocatedTo(a, 2, 3) == 3;
  }

  lemma TwicePaidPayouts()
    ensures PaidTo(TwicePaid(), 1, 9, 3) == 6 && PaidTo(TwicePaid(), 2, 9, 3) == 3
  {
    TwicePaidSums();
    var a := TwicePaid();
    assert Payout(a, 9, 0) == 5 && Payout(a, 9, 1) == 3 && Payout(a, 9, 2) == 1;
    assert PaidTo(a, 1, 9, 1) == 5 && PaidTo(a, 1, 9, 2) == 5;
    assert PaidTo(a, 2, 9, 1) == 0 && PaidTo(a, 2, 9, 2) == 3;
  }

  lemma TwicePaidStart() returns (w: World)
    ensures Start(w) && w.s == TwicePaidState() && |w.parties| == 2
  {
    TwicePaidSums();
    var s := TwicePaidState();
    ConstructedOnTerms(true, s, 0);
    ConstructedOnTerms(true, s, 1);
    w := World(s, [ConstructDirect(true, s, 1).value, ConstructDirect(true, s, 2).value], {}, [], 0, 0, {});
    assert JustMade(w, 0) && JustMade(w, 1);
  }

  ghost predicate DepositsNine(w: World, acts: seq<Act>)
    requires Peopled(w)
  {
    RunWorld(w, acts).deposits == [Deposit(0, 9, true)] && RunWorld(w, acts).held == 9
  }

  /** Allocated 5, then 4 behind the 3 of another participant, the first one deposits 9 at once. That is
      no prefix sum, it gets back 6, and the other one, whose 3 are paid for, is due to deposit less
      than nothing, so that the channel is not funded. */
  lemma TwicePaidLoses()
    ensures exists w, acts :: Start(w) && w.s == TwicePaidState() && NobodyElse(acts) && DepositsNine(w, acts)
    ensures !PrefixSum(TwicePaidState(), 9)
    ensures PaidTo(TwicePaid(), 1, 9, 3) == 6 && PaidTo(TwicePaid(), 2, 9, 3) == 3
    ensures forall o :: OnTerms(TwicePaidState(), o, 1) && o.c.onChainFunding == 9 ==>
              SafeToDeposit(o) && AmountToDeposit(o) == -1 && !FullyFunded(o)
  {
    TwicePaidSums();
    TwicePaidPayouts();
    var w := TwicePaidStart();
    var acts := TurnTaken(w, 0);
    assert DepositsNine(w, acts);
    forall d | 0 <= d <= |TwicePaid()| ensures Reserved(TwicePaid(), d) != 9 {
      assert d in {0, 1, 2, 3};
    }
  }
}

/** How the money moves when nobody else deposits and the outcome serves participants one after the
    other. */
module DirectFundMoney {
  import opened Outcomes
  import opened DepositSafety
  import opened States
  import opened DirectFund
  import opened DirectFundWorld

  /** Every participant's allocations are unbroken. */
  ghost predicate ServedInTurn(s: State) {
    Fundable(s) && forall k :: 0 <= k < |s.fixed.participants| ==> Unbroken(Allocations(s), Payee(s, k))
  }

  ghost predicate PrefixSum(s: State, x: int)
    requires SingleAsset(s)
  {
    exists d :: 0 <= d <= |Allocations(s)| && x == Reserved(Allocations(s), d)
  }

  /** Shares come one after the other. */
  lemma SharesInOrder(s: State, j: nat, k: nat)
    requires ServedInTurn(s) && j < |s.fixed.participants| && k < |s.fixed.participants| && j != k
    requires Share(s, j) > 0 && Share(s, k) > 0
    ensures Ahead(s, j) + Share(s, j) <= Ahead(s, k) || Ahead(s, k) + Share(s, k) <= Ahead(s, j)
  {
    var a := Allocations(s);
    var m := SomewherePositive(a, Payee(s, j), |a|);
    if FirstFor(a, Payee(s, j)) < FirstFor(a, Payee(s, k)) {
      UnbrokenInOrder(a, Payee(s, j), Payee(s, k));
    } else {
      UnbrokenInOrder(a, Payee(s, k), Payee(s, j));
    }
  }

  lemma ShareEndsAtPrefixSum(s: State, k: nat)
    requires ServedInTurn(s) && k < |s.fixed.participants|
    ensures PrefixSum(s, Ahead(s, k) + Share(s, k))
  {
    var e := UnbrokenEndsAt(Allocations(s), Payee(s, k), |Allocations(s)|);
  }

  lemma PrefixSumBounded(s: State, x: int)
    requires SingleAsset(s) && PrefixSum(s, x)
    ensures 0 <= x <= Whole(s)
  {
    var d :| 0 <= d <= |Allocations(s)| && x == Reserved(Allocations(s), d);
    ReservedMonotone(Allocations(s), 0, d);
    ReservedMonotone(Allocations(s), d, |Allocations(s)|);
  }

  /** Deposit i is its party's whole share, and waits at the point where that share begins. */
  ghost predicate DepositInPlace(w: World, i: nat)
    requires SingleAsset(w.s) && Peopled(w) && i < |w.deposits|
  {
    var d := w.deposits[i];
    d.party < |w.parties| && d.amount == Share(w.s, d.party) && (!d.done ==> w.held == Ahead(w.s, d.party))
  }

  /** Until party k has deposited nobody after it has. */
  ghost predicate PartyInPlace(w: World, k: nat)
    requires SingleAsset(w.s) && Peopled(w) && k < |w.parties|
  {
    !w.parties[k].submitted && Share(w.s, k) > 0 ==> w.held <= Ahead(w.s, k)
  }

  ghost predicate MoneyInPlace(w: World) {
    && ServedInTurn(w.s) && Peopled(w) && PrefixSum(w.s, w.held)
    && (forall i :: 0 <= i < |w.deposits| ==> DepositInPlace(w, i))
    && (forall k :: 0 <= k < |w.parties| ==> PartyInPlace(w, k))
  }

  /** Steps that leave the holdings alone and take back no submission keep the money in place. */
  lemma SameMoneyInPlace(w: World, w': World)
    requires MoneyInPlace(w) && w'.s == w.s && |w'.parties| == |w.parties| && w'.deposits == w.deposits
    requires w'.held == w.held
    requires forall k :: 0 <= k < |w.parties| ==> w'.parties[k].submitted == w.parties[k].submitted
    ensures MoneyInPlace(w')
  {
    forall i | 0 <= i < |w'.deposits| ensures DepositInPlace(w', i) {
      assert DepositInPlace(w, i);
    }
    forall k | 0 <= k < |w'.parties| ensures PartyInPlace(w', k) {
      assert PartyInPlace(w, k);
    }
  }

  /** While a deposit waits no other does, and those after it have not begun. */
  lemma ProcessedDeposit(w: World, i: nat, w': World, j: nat)
    requires Beliefs(w) && MoneyInPlace(w) && i < |w.deposits| && !w.deposits[i].done && j < |w.deposits|
    requires w' == NextWorld(w, Process(i))
    ensures DepositInPlace(w', j)
  {
    assert DepositInPlace(w, i) && Covered(w, i) && DepositInPlace(w, j) && Covered(w, j);
    if j != i {
      assert w.deposits[j].party != w.deposits[i].party;
      SharesInOrder(w.s, w.deposits[i].party, w.deposits[j].party);
    }
  }

  lemma ProcessedParty(w: World, i: nat, w': World, k: nat)
    requires Beliefs(w) && MoneyInPlace(w) && i < |w.deposits| && !w.deposits[i].done && k < |w.parties|
    requires w' == NextWorld(w, Process(i))
    ensures PartyInPlace(w', k)
  {
    assert DepositInPlace(w, i) && Covered(w, i) && PartyInPlace(w, k);
    if k != w.deposits[i].party && Share(w.s, k) > 0 {
      SharesInOrder(w.s, w.deposits[i].party, k);
    }
  }

  lemma ProcessMoney(w: World, i: nat)
    requires Beliefs(w) && MoneyInPlace(w)
    ensures MoneyInPlace(NextWorld(w, Process(i)))
  {
    var w' := NextWorld(w, Process(i));
    if i < |w.deposits| && !w.deposits[i].done {
      assert DepositInPlace(w, i) && Covered(w, i);
      ShareEndsAtPrefixSum(w.s, w.deposits[i].party);
      forall j | 0 <= j < |w'.deposits| ensures DepositInPlace(w', j) {
        ProcessedDeposit(w, i, w', j);
      }
      forall k | 0 <= k < |w'.parties| ensures PartyInPlace(w', k) {
        ProcessedParty(w, i, w', k);
      }
    }
  }

  /** A participant that finds it safe to deposit is looking at the present: what it deposits is
      exactly its share. */
  lemma DepositIsShare(w: World, p: nat)
    requires Beliefs(w) && MoneyInPlace(w) && p < |w.parties| && DepositIsDue(w.parties[p])
    ensures AmountToDeposit(w.parties[p]) == Share(w.s, p) && w.held == Ahead(w.s, p)
  {
    assert Believes(w, p) && PartyInPlace(w, p);
  }

  lemma SubmitMoney(w: World, p: nat)
    requires Beliefs(w) && MoneyInPlace(w) && p < |w.parties| && DepositIsDue(w.parties[p])
    ensures MoneyInPlace(Submitting(w, p))
  {
    var w' := Submitting(w, p);
    DepositIsShare(w, p);
    forall i | 0 <= i < |w'.deposits| ensures DepositInPlace(w', i) {
      if i < |w.deposits| {
        assert DepositInPlace(w, i);
      }
    }
    forall k | 0 <= k < |w'.parties| ensures PartyInPlace(w', k) {
      assert PartyInPlace(w, k);
    }
  }
}

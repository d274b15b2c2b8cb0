/** The effects of the on-chain `transfer` and `claim` operations. */
module AssetHolder {
  import opened Types
  import opened Outcomes

  // ------------------------------------------------------------------
  // Transfer
  // ------------------------------------------------------------------

  /** How many positions before n are paid. A listed index is used up when its position comes by;
      an index whose position has gone by blocks the rest of the list. With no list every
      position is paid. */
  function Matched(indices: seq<nat>, n: nat): (k: nat)
    ensures k <= n && (indices == [] ==> k == n) && (indices != [] ==> k <= |indices|)
  {
    if n == 0 then 0
    else
      var k := Matched(indices, n - 1);
      if indices == [] || (k < |indices| && indices[k] == n - 1) then k + 1 else k
  }

  /** Position i is paid: the list is empty, or i is the listed index whose turn it is. */
  predicate Chosen(indices: seq<nat>, i: nat) {
    indices == [] || (Matched(indices, i) < |indices| && indices[Matched(indices, i)] == i)
  }

  ghost predicate StrictlyIncreasing(s: seq<nat>) {
    forall i, j :: 0 <= i < j < |s| ==> s[i] < s[j]
  }

  /** A strictly increasing list pays exactly the positions it names. */
  lemma {:induction false} IncreasingListIsHonoured(indices: seq<nat>, i: nat)
    requires StrictlyIncreasing(indices) && indices != []
    ensures Chosen(indices, i) <==> i in indices
    ensures forall k :: 0 <= k < Matched(indices, i) ==> indices[k] < i
    ensures forall k :: Matched(indices, i) <= k < |indices| ==> i <= indices[k]
  {
    if i > 0 {
      IncreasingListIsHonoured(indices, i - 1);
    }
  }

  ghost function Positions(indices: seq<nat>, n: nat): set<nat> {
    set i: nat | 0 <= i < n && Chosen(indices, i)
  }

  /** What position i keeps once the positions in `paid` have been paid from holdings h. */
  ghost function Kept(a: seq<Allocation>, h: int, paid: set<nat>, i: nat): Allocation
    requires i < |a|
  {
    a[i].(amount := a[i].amount - if i in paid then Payout(a, h, i) else 0)
  }

  /** The allocations once the positions in `paid` have been paid from holdings h. */
  ghost function AfterTransfer(a: seq<Allocation>, h: int, paid: set<nat>): (r: seq<Allocation>)
    ensures |r| == |a| && forall i :: 0 <= i < |a| ==> r[i] == Kept(a, h, paid, i)
  {
    seq(|a|, i requires 0 <= i < |a| => Kept(a, h, paid, i))
  }

  /** What the positions in `paid` before n receive. */
  ghost function Paid(a: seq<Allocation>, h: int, paid: set<nat>, n: nat): int
    requires n <= |a|
  {
    if n == 0 then 0 else Paid(a, h, paid, n - 1) + if n - 1 in paid then Payout(a, h, n - 1) else 0
  }

  /** What the paid positions before n receive, in order. */
  ghost function Exits(a: seq<Allocation>, h: int, indices: seq<nat>, n: nat): seq<Allocation>
    requires n <= |a|
  {
    if n == 0 then []
    else Exits(a, h, indices, n - 1)
         + if Chosen(indices, n - 1) then [a[n - 1].(amount := Payout(a, h, n - 1))] else []
  }

  lemma {:induction false} ExitsInOrder(a: seq<Allocation>, h: int, indices: seq<nat>, n: nat)
    requires n <= |a|
    ensures |Exits(a, h, indices, n)| == Matched(indices, n)
    ensures forall i :: 0 <= i < n && Chosen(indices, i) ==>
              && Matched(indices, i) < Matched(indices, n)
              && Exits(a, h, indices, n)[Matched(indices, i)] == a[i].(amount := Payout(a, h, i))
  {
    if n > 0 {
      ExitsInOrder(a, h, indices, n - 1);
    }
  }

  /** The exit list is as long as the index list; its entries without a paid position stay blank. */
  method ComputeTransfer(h: nat, a: seq<Allocation>, indices: seq<nat>)
    returns (newAllocations: seq<Allocation>, allocatesOnlyZeros: bool,
             exitAllocations: seq<Allocation>, totalPayouts: int)
    requires NonNegative(a)
    ensures newAllocations == AfterTransfer(a, h, Positions(indices, |a|))
    ensures totalPayouts == Paid(a, h, Positions(indices, |a|), |a|)
    ensures allocatesOnlyZeros <==> forall i :: 0 <= i < |a| ==> newAllocations[i].amount == 0
    ensures |exitAllocations| == if indices == [] then |a| else |indices|
    ensures forall i :: 0 <= i < |a| && Chosen(indices, i) ==>
              exitAllocations[Matched(indices, i)] == a[i].(amount := Payout(a, h, i))
    ensures forall k :: Matched(indices, |a|) <= k < |exitAllocations| ==> exitAllocations[k] == ZeroAllocation
  {
    totalPayouts := 0;
    newAllocations := [];
    var exits := [];
    allocatesOnlyZeros := true;
    var surplus: int := h;
    var k := 0;
    ghost var all := Positions(indices, |a|);
    for i := 0 to |a|
      invariant surplus == SurplusAt(a, h, i) && k == Matched(indices, i)
      invariant |newAllocations| == i
      invariant forall n :: 0 <= n < i ==> newAllocations[n] == Kept(a, h, all, n)
      invariant totalPayouts == Paid(a, h, all, i)
      invariant allocatesOnlyZeros <==> forall n :: 0 <= n < i ==> newAllocations[n].amount == 0
      invariant exits == Exits(a, h, indices, i)
    {
      PayoutStep(a, h, i);
      var affords := Min(a[i].amount, surplus);
      var chosen := |indices| == 0 || (k < |indices| && indices[k] == i);
      assert chosen == Chosen(indices, i);
      assert i in all <==> chosen;
      assert Exits(a, h, indices, i + 1) == exits + if chosen then [a[i].(amount := affords)] else [];
      if chosen {
        newAllocations := newAllocations + [a[i].(amount := a[i].amount - affords)];
        exits := exits + [a[i].(amount := affords)];
        totalPayouts := totalPayouts + affords;
        k := k + 1;
      } else {
        newAllocations := newAllocations + [a[i]];
      }
      if newAllocations[i].amount != 0 {
        allocatesOnlyZeros := false;
      }
      surplus := surplus - affords;
    }
    ExitsInOrder(a, h, indices, |a|);
    var size := if |indices| > 0 then |indices| else |a|;
    exitAllocations := exits + seq(size - |exits|, _ => ZeroAllocation);
  }

  /** Nobody is paid from more than the holdings: the positions from j on share what is left at j. */
  lemma {:induction false} PaidFromSurplus(a: seq<Allocation>, h: int, paid: set<nat>, j: nat, n: nat)
    requires NonNegative(a) && j <= n <= |a|
    ensures 0 <= Paid(a, h, paid, n) - Paid(a, h, paid, j) <= SurplusAt(a, h, j) - SurplusAt(a, h, n)
    decreases n
  {
    if j < n {
      PaidFromSurplus(a, h, paid, j, n - 1);
      PayoutStep(a, h, n - 1);
    }
  }

  lemma {:induction false} ReservedAfterTransfer(a: seq<Allocation>, h: int, paid: set<nat>, n: nat)
    requires n <= |a|
    ensures Reserved(AfterTransfer(a, h, paid), n) == Reserved(a, n) - Paid(a, h, paid, n)
  {
    if n > 0 {
      ReservedAfterTransfer(a, h, paid, n - 1);
    }
  }

  /** With `reserved` ahead of an entry of `amount`, paying `before` of what is ahead and `after`
      of what is behind leaves the entry's share of the holdings as it was. */
  lemma ShareIsUndisturbed(h: int, reserved: int, amount: int, before: int, after: int)
    requires amount >= 0 && 0 <= after <= Max(0, h - reserved - amount)
    ensures Min(amount, Max(0, (h - before - after) - (reserved - before))) == Min(amount, Max(0, h - reserved))
  {
  }

  /** Paying some positions leaves what every other position would be paid unchanged. */
  lemma PayoutIsUndisturbed(a: seq<Allocation>, h: nat, paid: set<nat>, j: nat)
    requires NonNegative(a) && j < |a| && j !in paid
    ensures Payout(AfterTransfer(a, h, paid), h - Paid(a, h, paid, |a|), j) == Payout(a, h, j)
  {
    var before := Paid(a, h, paid, j);
    var after := Paid(a, h, paid, |a|) - before;
    assert Reserved(AfterTransfer(a, h, paid), j) == Reserved(a, j) - before by {
      ReservedAfterTransfer(a, h, paid, j);
    }
    assert 0 <= after <= Max(0, h - Reserved(a, j) - a[j].amount) by {
      PaidFromSurplus(a, h, paid, j + 1, |a|);
    }
    ShareIsUndisturbed(h, Reserved(a, j), a[j].amount, before, after);
  }

  /** The positions in `second` receive the same from the reduced allocations. */
  lemma {:induction false} PaidUnion(a: seq<Allocation>, h: nat, first: set<nat>, second: set<nat>,
                                     reduced: seq<Allocation>, rest: int, n: nat)
    requires n <= |a| == |reduced| && first !! second
    requires forall j :: 0 <= j < |a| && j in second ==> Payout(reduced, rest, j) == Payout(a, h, j)
    ensures Paid(a, h, first, n) + Paid(reduced, rest, second, n) == Paid(a, h, first + second, n)
  {
    if n > 0 {
      PaidUnion(a, h, first, second, reduced, rest, n - 1);
    }
  }

  /** Transfer is path independent: paying two disjoint sets of positions one after the other, the
      second from the reduced holdings and allocations, is paying their union at once. */
  lemma TransferIsPathIndependent(a: seq<Allocation>, h: nat, first: set<nat>, second: set<nat>)
    requires NonNegative(a) && first !! second
    ensures var reduced := AfterTransfer(a, h, first);
            var rest := h - Paid(a, h, first, |a|);
            && rest >= 0 && NonNegative(reduced)
            && AfterTransfer(reduced, rest, second) == AfterTransfer(a, h, first + second)
            && rest - Paid(reduced, rest, second, |a|) == h - Paid(a, h, first + second, |a|)
            && forall j :: 0 <= j < |a| && j in second ==> Payout(reduced, rest, j) == Payout(a, h, j)
  {
    var reduced := AfterTransfer(a, h, first);
    var rest := h - Paid(a, h, first, |a|);
    PaidFromSurplus(a, h, first, 0, |a|);
    forall j | 0 <= j < |a|
      ensures reduced[j].amount >= 0
      ensures j in second ==> Payout(reduced, rest, j) == Payout(a, h, j)
    {
      PayoutStep(a, h, j);
      if j in second {
        PayoutIsUndisturbed(a, h, first, j);
      }
    }
    PaidUnion(a, h, first, second, reduced, rest, |a|);
  }

  ghost function Elements(s: seq<nat>): set<nat> {
    set i | i in s
  }

  lemma PositionsOfIncreasing(indices: seq<nat>, n: nat)
    requires StrictlyIncreasing(indices) && indices != []
    ensures Positions(indices, n) == set i | i in Elements(indices) && i < n
  {
    forall i: nat ensures Chosen(indices, i) <==> i in Elements(indices) {
      IncreasingListIsHonoured(indices, i);
    }
  }

  /** For strictly increasing lists without common indices, paying the first list and then the
      second is paying the merged list, so the order of the two does not matter. */
  lemma TransferListsCommute(a: seq<Allocation>, h: nat, first: seq<nat>, second: seq<nat>, merged: seq<nat>)
    requires NonNegative(a) && first != [] && second != []
    requires StrictlyIncreasing(first) && StrictlyIncreasing(second) && StrictlyIncreasing(merged)
    requires Elements(first) !! Elements(second) && Elements(merged) == Elements(first) + Elements(second)
    ensures var s1, s2, s := Positions(first, |a|), Positions(second, |a|), Positions(merged, |a|);
            var rest := h - Paid(a, h, s1, |a|);
            && AfterTransfer(AfterTransfer(a, h, s1), rest, s2) == AfterTransfer(a, h, s)
            && rest - Paid(AfterTransfer(a, h, s1), rest, s2, |a|) == h - Paid(a, h, s, |a|)
            && forall j :: 0 <= j < |a| && j in s2 ==> Payout(AfterTransfer(a, h, s1), rest, j) == Payout(a, h, j)
  {
    assert first[0] in Elements(merged);
    var s1, s2, s := Positions(first, |a|), Positions(second, |a|), Positions(merged, |a|);
    assert s == s1 + s2 && s1 !! s2 by {
      PositionsOfIncreasing(first, |a|);
      PositionsOfIncreasing(second, |a|);
      PositionsOfIncreasing(merged, |a|);
    }
    TransferIsPathIndependent(a, h, s1, s2);
  }

  /** The positions that the Go form pays, which stays at its first listed index. */
  ghost function GoPositions(indices: seq<nat>, n: nat): set<nat> {
    set i: nat | 0 <= i < n && PaysFirstListed(indices, i)
  }

  lemma {:induction false} NothingMatchedBefore(indices: seq<nat>, i: nat)
    requires indices != [] && i <= indices[0]
    ensures Matched(indices, i) == 0
  {
    if i > 0 {
      NothingMatchedBefore(indices, i - 1);
    }
  }

  /** This form pays all that the Go form pays. */
  lemma FirstListedIsChosen(indices: seq<nat>, n: nat)
    ensures GoPositions(indices, n) <= Positions(indices, n)
  {
    forall i | i in GoPositions(indices, n) ensures i in Positions(indices, n) {
      if indices != [] {
        NothingMatchedBefore(indices, i);
      }
    }
  }

  /** Transfers of two sets of positions leave the same exactly when what only one of them names would
      be paid nothing. */
  lemma SameAfterTransferExactlyWhen(a: seq<Allocation>, h: nat, fewer: set<nat>, more: set<nat>)
    requires NonNegative(a) && fewer <= more
    ensures AfterTransfer(a, h, fewer) == AfterTransfer(a, h, more)
       <==> forall i :: 0 <= i < |a| && i in more && i !in fewer ==> Payout(a, h, i) == 0
  {
    var x, y := AfterTransfer(a, h, fewer), AfterTransfer(a, h, more);
    forall i | 0 <= i < |a| ensures x[i] == y[i] <==> (i in more && i !in fewer ==> Payout(a, h, i) == 0) {
    }
    if forall i :: 0 <= i < |a| && i in more && i !in fewer ==> Payout(a, h, i) == 0 {
      assert forall i :: 0 <= i < |a| ==> x[i] == y[i];
    }
  }

  /** For any index list the two forms leave the same allocations exactly when every position this form
      pays, other than the first listed one, would be paid nothing. For a strictly increasing list these
      are the listed positions after the first. */
  lemma GoTransferAgreesExactlyWhen(a: seq<Allocation>, h: nat, indices: seq<nat>)
    requires NonNegative(a)
    ensures GoPositions(indices, |a|) <= Positions(indices, |a|)
    ensures AfterTransfer(a, h, GoPositions(indices, |a|)) == AfterTransfer(a, h, Positions(indices, |a|))
       <==> forall i :: 0 <= i < |a| && i in Positions(indices, |a|) && !PaysFirstListed(indices, i) ==>
             Payout(a, h, i) == 0
    ensures StrictlyIncreasing(indices) ==> forall i :: 0 <= i < |a| ==>
              (i in Positions(indices, |a|) && !PaysFirstListed(indices, i) <==> indices != [] && i in indices[1..])
  {
    FirstListedIsChosen(indices, |a|);
    SameAfterTransferExactlyWhen(a, h, GoPositions(indices, |a|), Positions(indices, |a|));
    if StrictlyIncreasing(indices) && indices != [] {
      forall i | 0 <= i < |a|
        ensures i in Positions(indices, |a|) && !PaysFirstListed(indices, i) <==> i in indices[1..]
      {
        IncreasingListIsHonoured(indices, i);
        LaterListed(indices, i);
      }
    }
  }

  lemma LaterListed(indices: seq<nat>, i: nat)
    requires StrictlyIncreasing(indices) && indices != []
    ensures i in indices && i != indices[0] <==> i in indices[1..]
  {
    if i in indices[1..] {
      var k :| 0 <= k < |indices| - 1 && indices[1..][k] == i;
      assert indices[0] < indices[k + 1];
    }
  }

  /** Two listed positions with funds for both: the Go form leaves the second one unpaid. */
  lemma GoTransferDiffers()
    ensures var a := [Allocation(1, 5, NormalAllocation, []), Allocation(2, 5, NormalAllocation, [])];
            AfterTransfer(a, 10, GoPositions([0, 1], |a|)) != AfterTransfer(a, 10, Positions([0, 1], |a|))
  {
    var a := [Allocation(1, 5, NormalAllocation, []), Allocation(2, 5, NormalAllocation, [])];
    GoTransferAgreesExactlyWhen(a, 10, [0, 1]);
    assert [0, 1][1..] == [1];
    assert Reserved(a, 0) == 0;
    assert Reserved(a, 1) == 5;
    assert Payout(a, 10, 1) == 5;
  }
}

/** When a participant that deposits all it is allocated, on top of its safety threshold, can get it
    all back. */
module DepositSafety {
  import opened Types
  import opened Outcomes

  /** What holdings h pay to `dest` in the first k positions. */
  function PaidTo(a: seq<Allocation>, dest: Destination, h: int, k: nat): int
    requires k <= |a|
  {
    if k == 0 then 0
    else PaidTo(a, dest, h, k - 1) + if a[k - 1].destination == dest then Payout(a, h, k - 1) else 0
  }

  predicate PositiveFor(x: Allocation, dest: Destination) {
    x.destination == dest && x.amount > 0
  }

  /** From its first allocation to its last positive one, `dest` shares the list with nobody. */
  ghost predicate Unbroken(a: seq<Allocation>, dest: Destination) {
    forall i, j :: FirstFor(a, dest) <= i < j < |a| && PositiveFor(a[j], dest) && a[i].destination != dest ==>
      a[i].amount <= 0
  }

  lemma {:induction false} AllocatedMonotone(a: seq<Allocation>, dest: Destination, j: nat, k: nat)
    requires NonNegative(a) && j <= k <= |a|
    ensures 0 <= AllocatedTo(a, dest, j) <= AllocatedTo(a, dest, k)
    ensures k <= FirstFor(a, dest) ==> AllocatedTo(a, dest, k) == 0
    decreases k
  {
    if j < k {
      AllocatedMonotone(a, dest, j, k - 1);
    } else if k > 0 {
      AllocatedMonotone(a, dest, k - 1, k - 1);
    }
  }

  /** Beyond the first allocation for `dest`, its own are reserved, and what others have there. */
  lemma {:induction false} ReservedCoversAllocated(a: seq<Allocation>, dest: Destination, i: nat, k: nat)
    requires NonNegative(a) && FirstFor(a, dest) <= k <= |a|
    ensures Reserved(a, k) >= Reserved(a, FirstFor(a, dest)) + AllocatedTo(a, dest, k)
    ensures FirstFor(a, dest) <= i < k && a[i].destination != dest ==>
              Reserved(a, k) >= Reserved(a, FirstFor(a, dest)) + AllocatedTo(a, dest, k) + a[i].amount
  {
    AllocatedMonotone(a, dest, k, k);
    if k > FirstFor(a, dest) {
      ReservedCoversAllocated(a, dest, i, k - 1);
    }
  }

  /** If the allocations are unbroken, nothing else is reserved up to a positive one. */
  lemma {:induction false} UnbrokenReserved(a: seq<Allocation>, dest: Destination, k: nat, j: nat)
    requires NonNegative(a) && Unbroken(a, dest) && FirstFor(a, dest) <= k <= j < |a|
    requires PositiveFor(a[j], dest)
    ensures Reserved(a, k) == Reserved(a, FirstFor(a, dest)) + AllocatedTo(a, dest, k)
    decreases k
  {
    AllocatedMonotone(a, dest, k, k);
    if k > FirstFor(a, dest) {
      UnbrokenReserved(a, dest, k - 1, j);
      assert a[k - 1].destination != dest ==> a[k - 1].amount <= 0;
    }
  }

  /** Nobody is paid more than allocated, and less only where some position is. */
  lemma {:induction false} PaidAtMostAllocated(a: seq<Allocation>, dest: Destination, h: int, j: nat, k: nat)
    requires NonNegative(a) && k <= |a|
    ensures PaidTo(a, dest, h, k) <= AllocatedTo(a, dest, k)
    ensures j < k && a[j].destination == dest && Payout(a, h, j) < a[j].amount ==>
              PaidTo(a, dest, h, k) < AllocatedTo(a, dest, k)
  {
    if k > 0 {
      PaidAtMostAllocated(a, dest, h, j, k - 1);
    }
  }

  /** More holdings pay nobody less. */
  lemma {:induction false} PaidToMonotone(a: seq<Allocation>, dest: Destination, h: int, h': int, k: nat)
    requires h <= h' && k <= |a|
    ensures PaidTo(a, dest, h, k) <= PaidTo(a, dest, h', k)
  {
    if k > 0 {
      PaidToMonotone(a, dest, h, h', k - 1);
    }
  }

  lemma {:induction false} UnbrokenIsPaid(a: seq<Allocation>, dest: Destination, h: int, k: nat)
    requires NonNegative(a) && Unbroken(a, dest) && k <= |a|
    requires h == Reserved(a, FirstFor(a, dest)) + AllocatedTo(a, dest, |a|)
    ensures PaidTo(a, dest, h, k) == AllocatedTo(a, dest, k)
  {
    if k > 0 {
      UnbrokenIsPaid(a, dest, h, k - 1);
      if PositiveFor(a[k - 1], dest) {
        UnbrokenReserved(a, dest, k - 1, k - 1);
        AllocatedMonotone(a, dest, k, |a|);
      }
    }
  }

  /** If the allocations are broken, the last positive one is not paid in full. */
  lemma {:induction false} BrokenIsShort(a: seq<Allocation>, dest: Destination, h: int, i: nat, j: nat, k: nat)
    returns (m: nat)
    requires NonNegative(a) && FirstFor(a, dest) <= i < j < k <= |a|
    requires a[i].destination != dest && a[i].amount > 0 && PositiveFor(a[j], dest)
    requires h == Reserved(a, FirstFor(a, dest)) + AllocatedTo(a, dest, k)
    ensures m < k && a[m].destination == dest && Payout(a, h, m) < a[m].amount
  {
    if PositiveFor(a[k - 1], dest) {
      m := k - 1;
      ReservedCoversAllocated(a, dest, i, k - 1);
    } else {
      m := BrokenIsShort(a, dest, h, i, j, k - 1);
    }
  }

  /** Whoever fills up the holdings from its threshold by all it is allocated gets it all back
      exactly when its allocations are unbroken: the threshold stops at the first of them. */
  lemma DepositRecoverableExactlyWhen(a: seq<Allocation>, dest: Destination)
    requires NonNegative(a)
    ensures var due := AllocatedTo(a, dest, |a|);
            PaidTo(a, dest, Reserved(a, FirstFor(a, dest)) + due, |a|) == due <==> Unbroken(a, dest)
  {
    var h := Reserved(a, FirstFor(a, dest)) + AllocatedTo(a, dest, |a|);
    if Unbroken(a, dest) {
      UnbrokenIsPaid(a, dest, h, |a|);
    } else {
      var i, j :| FirstFor(a, dest) <= i < j < |a| && PositiveFor(a[j], dest)
                  && a[i].destination != dest && a[i].amount > 0;
      var m := BrokenIsShort(a, dest, h, i, j, |a|);
      PaidAtMostAllocated(a, dest, h, m, |a|);
    }
  }

  /** If the allocations are unbroken, what is allocated takes the threshold to another prefix sum. */
  lemma {:induction false} UnbrokenEndsAt(a: seq<Allocation>, dest: Destination, k: nat) returns (e: nat)
    requires NonNegative(a) && Unbroken(a, dest) && FirstFor(a, dest) <= k <= |a|
    ensures e <= k && Reserved(a, e) == Reserved(a, FirstFor(a, dest)) + AllocatedTo(a, dest, k)
  {
    e := k;
    AllocatedMonotone(a, dest, k, k);
    if k > FirstFor(a, dest) {
      if PositiveFor(a[k - 1], dest) {
        UnbrokenReserved(a, dest, k - 1, k - 1);
      } else {
        e := UnbrokenEndsAt(a, dest, k - 1);
      }
    }
  }

  /** Nothing more is allocated where no position is positive. */
  lemma {:induction false} NothingAllocatedAfter(a: seq<Allocation>, dest: Destination, j: nat, k: nat)
    requires NonNegative(a) && j <= k <= |a|
    requires forall i :: j <= i < k && a[i].destination == dest ==> a[i].amount == 0
    ensures AllocatedTo(a, dest, k) == AllocatedTo(a, dest, j)
    decreases k
  {
    if j < k {
      NothingAllocatedAfter(a, dest, j, k - 1);
    }
  }

  lemma {:induction false} SomewherePositive(a: seq<Allocation>, dest: Destination, k: nat) returns (i: nat)
    requires NonNegative(a) && k <= |a| && AllocatedTo(a, dest, k) > 0
    ensures FirstFor(a, dest) <= i < k && PositiveFor(a[i], dest)
  {
    if PositiveFor(a[k - 1], dest) {
      i := k - 1;
    } else {
      i := SomewherePositive(a, dest, k - 1);
    }
  }

  /** Two destinations with unbroken allocations are served one after the other. */
  lemma UnbrokenInOrder(a: seq<Allocation>, first: Destination, second: Destination)
    requires NonNegative(a) && Unbroken(a, first) && Unbroken(a, second)
    requires AllocatedTo(a, first, |a|) > 0 && AllocatedTo(a, second, |a|) > 0
    requires FirstFor(a, first) < FirstFor(a, second)
    ensures Reserved(a, FirstFor(a, first)) + AllocatedTo(a, first, |a|) <= Reserved(a, FirstFor(a, second))
  {
    var m := SomewherePositive(a, second, |a|);
    var f := FirstFor(a, second);
    assert a[m].destination != first;
    forall i | f <= i < |a| && a[i].destination == first ensures a[i].amount == 0 {
      if i < m {
        assert PositiveFor(a[m], second);
      } else {
        assert PositiveFor(a[i], first) || a[i].amount == 0;
      }
    }
    NothingAllocatedAfter(a, first, f, |a|);
    ReservedCoversAllocated(a, first, 0, f);
  }
}

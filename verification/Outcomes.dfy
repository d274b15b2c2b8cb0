/** Prioritised allocations and the arithmetic that pays them out. */
module Outcomes {
  import opened Types

  datatype AllocationType = NormalAllocation | GuaranteeAllocation

  /** `metadata` is the list of 32-byte words that the metadata bytes hold. */
  datatype Allocation = Allocation(
    destination: Destination,
    amount: int,
    allocationType: AllocationType,
    metadata: seq<Destination>
  )

  datatype SingleAssetExit = SingleAssetExit(asset: Address, allocations: seq<Allocation>)

  /** The entry of a freshly made slice that has not been written. */
  const ZeroAllocation := Allocation(0, 0, NormalAllocation, [])

  /** Amounts stand for Solidity's uint256. */
  ghost predicate NonNegative(a: seq<Allocation>) {
    forall i :: 0 <= i < |a| ==> a[i].amount >= 0
  }

  /** What the allocations before position k reserve. */
  function Reserved(a: seq<Allocation>, k: nat): int
    requires k <= |a|
  {
    if k == 0 then 0 else Reserved(a, k - 1) + a[k - 1].amount
  }

  lemma {:induction false} ReservedMonotone(a: seq<Allocation>, j: nat, k: nat)
    requires NonNegative(a) && j <= k <= |a|
    ensures 0 <= Reserved(a, j) <= Reserved(a, k)
    decreases k
  {
    if j < k {
      ReservedMonotone(a, j, k - 1);
    } else if k > 0 {
      ReservedMonotone(a, k - 1, k - 1);
    }
  }

  /** The reservation depends only on the amounts before k. */
  lemma {:induction false} ReservedSame(a: seq<Allocation>, b: seq<Allocation>, k: nat)
    requires k <= |a| && k <= |b|
    requires forall i :: 0 <= i < k ==> a[i].amount == b[i].amount
    ensures Reserved(a, k) == Reserved(b, k)
  {
    if k > 0 {
      ReservedSame(a, b, k - 1);
    }
  }

  method Total(a: seq<Allocation>) returns (total: int)
    ensures total == Reserved(a, |a|)
  {
    total := 0;
    for i := 0 to |a|
      invariant total == Reserved(a, i)
    {
      total := total + a[i].amount;
    }
  }

  /** What the first k allocations give to `dest`. */
  function AllocatedTo(a: seq<Allocation>, dest: Destination, k: nat): int
    requires k <= |a|
  {
    if k == 0 then 0
    else AllocatedTo(a, dest, k - 1) + if a[k - 1].destination == dest then a[k - 1].amount else 0
  }

  method TotalFor(a: seq<Allocation>, dest: Destination) returns (total: int)
    ensures total == AllocatedTo(a, dest, |a|)
  {
    total := 0;
    for i := 0 to |a|
      invariant total == AllocatedTo(a, dest, i)
    {
      if a[i].destination == dest {
        total := total + a[i].amount;
      }
    }
  }

  /** A destination that one allocation names is owed exactly that allocation. */
  lemma {:induction false} AllocatedToOnce(a: seq<Allocation>, dest: Destination, p: nat, k: nat)
    requires p < |a| && k <= |a| && a[p].destination == dest
    requires forall i :: 0 <= i < |a| && a[i].destination == dest ==> i == p
    ensures AllocatedTo(a, dest, k) == if p < k then a[p].amount else 0
  {
    if k > 0 {
      AllocatedToOnce(a, dest, p, k - 1);
    }
  }

  // ------------------------------------------------------------------
  // Paying out in priority order
  // ------------------------------------------------------------------

  /** What holdings h leave for position i once every earlier allocation is reserved. */
  function SurplusAt(a: seq<Allocation>, h: int, i: nat): int
    requires i <= |a|
  {
    Max(0, h - Reserved(a, i))
  }

  /** What holdings h can pay position i: never more than its amount, and only from what
      the earlier positions leave over. */
  function Payout(a: seq<Allocation>, h: int, i: nat): int
    requires i < |a|
  {
    Min(a[i].amount, SurplusAt(a, h, i))
  }

  lemma PayoutStep(a: seq<Allocation>, h: int, i: nat)
    requires NonNegative(a) && i < |a|
    ensures 0 <= Payout(a, h, i) <= a[i].amount
    ensures SurplusAt(a, h, i + 1) == SurplusAt(a, h, i) - Payout(a, h, i)
  {
    ReservedMonotone(a, i, i + 1);
  }

  /** The position paid by the Go form: it never moves on from the first listed index. */
  predicate PaysFirstListed(indices: seq<nat>, i: nat) {
    indices == [] || indices[0] == i
  }

  method ComputeTransferGo(h: nat, a: seq<Allocation>, indices: seq<nat>)
    returns (newAllocations: seq<Allocation>, exitAllocations: seq<Allocation>)
    requires NonNegative(a)
    ensures |newAllocations| == |exitAllocations| == |a|
    ensures forall i :: 0 <= i < |a| ==>
              newAllocations[i]
              == a[i].(amount := a[i].amount - (if PaysFirstListed(indices, i) then Payout(a, h, i) else 0))
    ensures forall i :: 0 <= i < |a| ==>
              exitAllocations[i]
              == if PaysFirstListed(indices, i) then a[i].(amount := Payout(a, h, i)) else ZeroAllocation
  {
    var k := 0;
    var surplus: int := h;
    newAllocations := [];
    exitAllocations := [];
    for i := 0 to |a|
      invariant surplus == SurplusAt(a, h, i)
      invariant k == 0 && |newAllocations| == |exitAllocations| == i
      invariant forall n :: 0 <= n < i ==>
                  newAllocations[n]
                  == a[n].(amount := a[n].amount - (if PaysFirstListed(indices, n) then Payout(a, h, n) else 0))
      invariant forall n :: 0 <= n < i ==>
                  exitAllocations[n]
                  == if PaysFirstListed(indices, n) then a[n].(amount := Payout(a, h, n)) else ZeroAllocation
    {
      PayoutStep(a, h, i);
      var affords := Min(a[i].amount, surplus);
      if |indices| == 0 || (k < |indices| && indices[k] == i) {
        newAllocations := newAllocations + [a[i].(amount := a[i].amount - affords)];
        exitAllocations := exitAllocations + [a[i].(amount := affords)];
      } else {
        newAllocations := newAllocations + [a[i]];
        exitAllocations := exitAllocations + [ZeroAllocation];
      }
      surplus := surplus - affords;
    }
  }

  // ------------------------------------------------------------------
  // Affords
  // ------------------------------------------------------------------

  /** m is the first position that holds `given`. */
  ghost predicate FirstMatch(a: seq<Allocation>, given: Allocation, m: nat) {
    m < |a| && a[m] == given && forall i :: 0 <= i < m ==> a[i] != given
  }

  /** What the loop decides about a first match at m. It gives up as soon as nothing is left,
      even when `given` itself is for nothing. */
  ghost predicate Affordable(a: seq<Allocation>, given: Allocation, funding: int, m: nat)
    requires m < |a|
  {
    funding - Reserved(a, m) >= given.amount && (m > 0 ==> funding > Reserved(a, m))
  }

  method Affords(a: seq<Allocation>, given: Allocation, funding: nat) returns (r: bool)
    requires NonNegative(a)
    ensures r <==> exists m :: FirstMatch(a, given, m) && Affordable(a, given, funding, m)
  {
    var surplus: int := funding;
    var i := 0;
    while i < |a|
      invariant 0 <= i <= |a| && surplus == funding - Reserved(a, i)
      invariant i > 0 ==> surplus > 0
      invariant forall n :: 0 <= n < i ==> a[n] != given
    {
      if a[i] == given {
        assert FirstMatch(a, given, i);
        return surplus >= given.amount;
      }
      surplus := surplus - a[i].amount;
      i := i + 1;
      if surplus <= 0 {
        forall m | FirstMatch(a, given, m) ensures !Affordable(a, given, funding, m) {
          assert i <= m;
          ReservedMonotone(a, i, m);
        }
        return false;
      }
    }
    return false;
  }

  /** Being affordable is being paid in full by a transfer of everything, except that an
      allocation of nothing must also be first in line or find something left over. */
  lemma AffordsIsPaidInFull(a: seq<Allocation>, given: Allocation, funding: nat, m: nat)
    requires NonNegative(a) && FirstMatch(a, given, m)
    ensures Affordable(a, given, funding, m)
       <==> Payout(a, funding, m) == given.amount && (given.amount == 0 && m > 0 ==> funding > Reserved(a, m))
  {
    ReservedMonotone(a, 0, m);
  }

  /** An allocation of nothing behind one that takes all is paid in full but not affordable. */
  lemma PaidInFullButNotAffordable()
    ensures var given := Allocation(2, 0, NormalAllocation, []);
            var a := [Allocation(1, 5, NormalAllocation, []), given];
            FirstMatch(a, given, 1) && Payout(a, 5, 1) == given.amount && !Affordable(a, given, 5, 1)
  {
    var given := Allocation(2, 0, NormalAllocation, []);
    var a := [Allocation(1, 5, NormalAllocation, []), given];
    assert Reserved(a, 0) == 0;
    assert Reserved(a, 1) == 5;
  }

  // ------------------------------------------------------------------
  // Deposit safety
  // ------------------------------------------------------------------

  /** The first position that pays `interest`, or the end of the list. */
  function FirstFor(a: seq<Allocation>, interest: Destination): (k: nat)
    ensures k <= |a|
    ensures forall i :: 0 <= i < k ==> a[i].destination != interest
    ensures k < |a| ==> a[k].destination == interest
  {
    if a == [] then 0
    else if a[0].destination == interest then 0
    else 1 + FirstFor(a[1..], interest)
  }

  lemma FirstForUnique(a: seq<Allocation>, interest: Destination, k: nat)
    requires k < |a| && a[k].destination == interest
    requires forall i :: 0 <= i < k ==> a[i].destination != interest
    ensures FirstFor(a, interest) == k
  {
  }

  method DepositSafetyThreshold(a: seq<Allocation>, interest: Destination) returns (sum: int)
    ensures sum == Reserved(a, FirstFor(a, interest))
  {
    sum := 0;
    for i := 0 to |a|
      invariant sum == Reserved(a, i)
      invariant forall n :: 0 <= n < i ==> a[n].destination != interest
    {
      if a[i].destination == interest {
        FirstForUnique(a, interest, i);
        return;
      }
      sum := sum + a[i].amount;
    }
    assert FirstFor(a, interest) == |a|;
  }

  /** The threshold is exact. Every deposit made at or above it can be recovered, in that a later
      transfer of everything pays the depositor the smaller of its allocation and its deposit;
      below it some deposit cannot, unless the depositor is allocated nothing. */
  lemma DepositSafetyIsExact(a: seq<Allocation>, interest: Destination, held: nat)
    requires NonNegative(a) && FirstFor(a, interest) < |a|
    ensures var k := FirstFor(a, interest);
            held >= Reserved(a, k) || a[k].amount == 0
            <==> forall deposit: nat :: Payout(a, held + deposit, k) >= Min(a[k].amount, deposit)
  {
    var k := FirstFor(a, interest);
    if held < Reserved(a, k) && a[k].amount > 0 {
      assert Payout(a, held + 1, k) < Min(a[k].amount, 1);
    }
  }

  // ------------------------------------------------------------------
  // Diverting to a guarantee
  // ------------------------------------------------------------------

  datatype DivertError = DebteesNotDistinct | DivertInsufficientFunds

  /** An allocation after the two debtees have paid. */
  function Debited(x: Allocation, left: Destination, right: Destination, leftAmount: int,
                   rightAmount: int): Allocation {
    if x.destination == left then x.(amount := x.amount - leftAmount)
    else if x.destination == right then x.(amount := x.amount - rightAmount)
    else x
  }

  method DivertToGuarantee(a: seq<Allocation>, left: Destination, right: Destination,
                           leftAmount: int, rightAmount: int, target: Destination)
    returns (r: Result<seq<Allocation>, DivertError>)
    ensures left == right <==> r == Err(DebteesNotDistinct)
    ensures left != right ==>
              (r.Ok? <==> forall i :: 0 <= i < |a| ==> Debited(a[i], left, right, leftAmount, rightAmount).amount >= 0)
    ensures r.Ok? ==>
              && |r.value| == |a| + 1
              && (forall i :: 0 <= i < |a| ==> r.value[i] == Debited(a[i], left, right, leftAmount, rightAmount))
              && r.value[|a|] == Allocation(target, leftAmount + rightAmount, GuaranteeAllocation, [left, right])
  {
    if left == right {
      return Err(DebteesNotDistinct);
    }
    var newAllocations := [];
    for i := 0 to |a|
      invariant |newAllocations| == i
      invariant forall n :: 0 <= n < i ==>
                  newAllocations[n] == Debited(a[n], left, right, leftAmount, rightAmount)
                      && newAllocations[n].amount >= 0
    {
      var x := Debited(a[i], left, right, leftAmount, rightAmount);
      newAllocations := newAllocations + [x];
      if 0 > x.amount {
        return Err(DivertInsufficientFunds);
      }
    }
    return Ok(newAllocations + [Allocation(target, leftAmount + rightAmount, GuaranteeAllocation, [left, right])]);
  }
}

/** The effects of the on-chain `claim` operation, which pays the beneficiaries of a guarantee
    out of the allocations of the channel it targets. */
module Claims {
  import opened Types
  import opened Outcomes

  datatype ClaimError = NotAGuarantee

  datatype ClaimEffects = ClaimEffects(
    newSource: seq<Allocation>,
    newTarget: seq<Allocation>,
    exits: seq<Allocation>,
    totalPayouts: int
  )

  /** The most a guarantee at position `index` can pay: its own amount, out of what the earlier
      source entries leave of the holdings. */
  function GuaranteeShare(source: seq<Allocation>, h: int, index: nat): int
    requires index < |source|
  {
    Min(SurplusAt(source, h, index), source[index].amount)
  }

  /** The positions of the first target allocations that pay the destinations, |target| for none. */
  ghost function Beneficiaries(dests: seq<Destination>, target: seq<Allocation>): (at: seq<nat>)
    ensures |at| == |dests|
    ensures forall j :: 0 <= j < |dests| ==> at[j] == FirstFor(target, dests[j])
  {
    seq(|dests|, j requires 0 <= j < |dests| => FirstFor(target, dests[j]))
  }

  /** The list lets position i be paid after k payments: it is empty or i is next on it. */
  predicate Allowed(indices: seq<nat>, k: nat, i: nat) {
    indices == [] || (k < |indices| && indices[k] == i)
  }

  /** How many of the first n beneficiaries the list lets be paid. */
  ghost function Used(indices: seq<nat>, at: seq<nat>, size: nat, n: nat): nat
    requires n <= |at|
  {
    if n == 0 then 0
    else
      var k := Used(indices, at, size, n - 1);
      if at[n - 1] < size && Allowed(indices, k, at[n - 1]) then k + 1 else k
  }

  /** The j-th beneficiary exists and the list lets it be paid. */
  ghost predicate Settles(indices: seq<nat>, at: seq<nat>, size: nat, j: nat)
    requires j < |at|
  {
    at[j] < size && Allowed(indices, Used(indices, at, size, j), at[j])
  }

  /** One of the first n beneficiaries has had position i paid. */
  ghost predicate SettledBefore(indices: seq<nat>, at: seq<nat>, size: nat, n: nat, i: nat)
    requires n <= |at|
  {
    exists j :: 0 <= j < n && at[j] == i && Settles(indices, at, size, j)
  }

  /** The j-th beneficiary exists and has not been paid before. */
  ghost predicate Open(indices: seq<nat>, at: seq<nat>, size: nat, j: nat)
    requires j < |at|
  {
    at[j] < size && !SettledBefore(indices, at, size, j, at[j])
  }

  /** What is set aside for the first n beneficiaries. An allocation that the list passes over is set
      aside again when its destination comes again. */
  ghost function Owed(indices: seq<nat>, at: seq<nat>, target: seq<Allocation>, n: nat): int
    requires n <= |at|
  {
    if n == 0 then 0
    else Owed(indices, at, target, n - 1) + if Open(indices, at, |target|, n - 1) then target[at[n - 1]].amount else 0
  }

  /** With an empty list each target allocation is set aside once. */
  lemma OpenIsFirst(at: seq<nat>, size: nat, j: nat)
    requires j < |at|
    ensures Open([], at, size, j) <==> at[j] < size && forall n :: 0 <= n < j ==> at[n] != at[j]
  {
    assert forall n :: 0 <= n < j ==> (Settles([], at, size, n) <==> at[n] < size);
  }

  /** What the j-th beneficiary is paid from a share of `share`, if it is open and settles. */
  ghost function ClaimPayout(share: int, indices: seq<nat>, at: seq<nat>, target: seq<Allocation>, j: nat): int
    requires j < |at| && at[j] < |target|
  {
    Min(target[at[j]].amount, Max(0, share - Owed(indices, at, target, j)))
  }

  /** Each target allocation is split between what is kept and what leaves. */
  ghost predicate Split(target: seq<Allocation>, newTarget: seq<Allocation>, exits: seq<Allocation>) {
    && |newTarget| == |exits| == |target|
    && forall i :: 0 <= i < |target| ==> SplitAt(target[i], newTarget[i], exits[i])
  }

  ghost predicate SplitAt(whole: Allocation, kept: Allocation, exit: Allocation) {
    && exit == whole.(amount := exit.amount)
    && kept == whole.(amount := whole.amount - exit.amount)
    && 0 <= exit.amount <= whole.amount
  }

  /** Only beneficiaries are paid, and only if the list names them. */
  ghost predicate PaysBeneficiaries(at: seq<nat>, indices: seq<nat>, exits: seq<Allocation>) {
    forall i :: 0 <= i < |exits| && exits[i].amount != 0 ==> i in at && (indices == [] || i in indices)
  }

  /** The j-th beneficiary has got what it is due, if it is the first to settle its position. */
  ghost predicate PaidAsDue(share: int, at: seq<nat>, indices: seq<nat>,
                            target: seq<Allocation>, exits: seq<Allocation>, j: nat)
    requires j < |at| && |exits| == |target|
  {
    Open(indices, at, |target|, j) && Settles(indices, at, |target|, j) ==>
      exits[at[j]].amount == ClaimPayout(share, indices, at, target, j)
  }

  /** Position i has got nothing unless one of the first n beneficiaries has settled it. */
  ghost predicate UnpaidUnlessSettled(at: seq<nat>, n: nat, indices: seq<nat>, exits: seq<Allocation>, i: nat)
    requires n <= |at| && i < |exits|
  {
    SettledBefore(indices, at, |exits|, n, i) || exits[i].amount == 0
  }

  /** The payout of every position after the first n beneficiaries: that of the beneficiary that
      settles it first, or nothing. */
  ghost predicate PaysInOrder(share: int, at: seq<nat>, n: nat, indices: seq<nat>,
                              target: seq<Allocation>, exits: seq<Allocation>)
    requires n <= |at| && |exits| == |target|
  {
    && (forall j :: 0 <= j < n ==> PaidAsDue(share, at, indices, target, exits, j))
    && (forall i :: 0 <= i < |exits| ==> UnpaidUnlessSettled(at, n, indices, exits, i))
  }

  lemma OnlyBeneficiaries(share: int, at: seq<nat>, indices: seq<nat>, target: seq<Allocation>, exits: seq<Allocation>)
    requires |exits| == |target| && PaysInOrder(share, at, |at|, indices, target, exits)
    ensures PaysBeneficiaries(at, indices, exits)
  {
    forall i | 0 <= i < |exits| && exits[i].amount != 0 ensures i in at && (indices == [] || i in indices) {
      assert UnpaidUnlessSettled(at, |at|, indices, exits, i);
      var j :| 0 <= j < |at| && at[j] == i && Settles(indices, at, |target|, j);
    }
  }

  lemma {:induction false} ReservedUpdate(a: seq<Allocation>, i: nat, x: Allocation, n: nat)
    requires i < |a| && n <= |a|
    ensures Reserved(a[i := x], n) == Reserved(a, n) + if i < n then x.amount - a[i].amount else 0
  {
    if n > 0 {
      ReservedUpdate(a, i, x, n - 1);
    }
  }

  lemma {:induction false} ReservedZero(a: seq<Allocation>, n: nat)
    requires n <= |a| && forall i :: 0 <= i < |a| ==> a[i].amount == 0
    ensures Reserved(a, n) == 0
  {
    if n > 0 {
      ReservedZero(a, n - 1);
    }
  }

  lemma {:induction false} OwedMonotone(indices: seq<nat>, at: seq<nat>, target: seq<Allocation>, j: nat, n: nat)
    requires NonNegative(target) && j <= n <= |at|
    ensures Owed(indices, at, target, j) <= Owed(indices, at, target, n)
    decreases n
  {
    if j < n {
      OwedMonotone(indices, at, target, j, n - 1);
    }
  }

  /** What the loop over the beneficiaries carries along. */
  datatype Progress = Progress(
    newTarget: seq<Allocation>,
    exits: seq<Allocation>,
    totalPayouts: int,
    surplus: int,
    k: nat
  )

  /** Paying the target allocation at position i. The surplus falls by what it could take, whether
      or not the index list lets it be paid. */
  function PayAt(p: Progress, i: nat, indices: seq<nat>): Progress
    requires i < |p.newTarget| == |p.exits|
  {
    var affords := Min(p.newTarget[i].amount, p.surplus);
    if Allowed(indices, p.k, i) then
      Progress(
        p.newTarget[i := p.newTarget[i].(amount := p.newTarget[i].amount - affords)],
        p.exits[i := p.exits[i].(amount := p.exits[i].amount + affords)],
        p.totalPayouts + affords, p.surplus - affords, p.k + 1)
    else
      p.(surplus := p.surplus - affords)
  }

  /** The money in play: every amount is split, and what leaves comes out of the share. */
  ghost predicate Conserving(share: int, indices: seq<nat>, target: seq<Allocation>, p: Progress) {
    && Split(target, p.newTarget, p.exits)
    && p.totalPayouts == Reserved(p.exits, |p.exits|)
    && 0 <= p.surplus && 0 <= p.totalPayouts && p.totalPayouts + p.surplus <= share
    && (indices == [] ==> p.totalPayouts + p.surplus == share)
  }

  ghost predicate InOrder(share: int, at: seq<nat>, j: nat, indices: seq<nat>, target: seq<Allocation>, p: Progress)
    requires j <= |at|
  {
    && |p.exits| == |target|
    && p.surplus == Max(0, share - Owed(indices, at, target, j))
    && p.k == Used(indices, at, |target|, j)
    && PaysInOrder(share, at, j, indices, target, p.exits)
  }

  lemma PayAtConserves(share: int, indices: seq<nat>, target: seq<Allocation>, p: Progress, i: nat)
    requires i < |target| && Conserving(share, indices, target, p)
    ensures Conserving(share, indices, target, PayAt(p, i, indices))
  {
    var q := PayAt(p, i, indices);
    assert SplitAt(target[i], p.newTarget[i], p.exits[i]);
    assert SplitAt(target[i], q.newTarget[i], q.exits[i]);
    assert q.totalPayouts == Reserved(q.exits, |q.exits|) by {
      ReservedUpdate(p.exits, i, q.exits[i], |p.exits|);
      assert q.exits == p.exits[i := q.exits[i]];
    }
  }

  lemma FirstSettled(indices: seq<nat>, at: seq<nat>, size: nat, j: nat, i: nat) returns (n: nat)
    requires j <= |at| && SettledBefore(indices, at, size, j, i)
    ensures n < j && at[n] == i && Settles(indices, at, size, n) && Open(indices, at, size, n)
    decreases j
  {
    n :| 0 <= n < j && at[n] == i && Settles(indices, at, size, n);
    if SettledBefore(indices, at, size, n, i) {
      n := FirstSettled(indices, at, size, n, i);
    }
  }

  /** A beneficiary that has been paid takes nothing more: its match is used up or the surplus is. */
  lemma SettledTakesNothing(share: int, at: seq<nat>, j: nat, indices: seq<nat>, target: seq<Allocation>, p: Progress)
    requires j < |at| && at[j] < |target| && NonNegative(target)
    requires Split(target, p.newTarget, p.exits) && InOrder(share, at, j, indices, target, p)
    requires !Open(indices, at, |target|, j)
    ensures Min(p.newTarget[at[j]].amount, p.surplus) == 0
  {
    var n := FirstSettled(indices, at, |target|, j, at[j]);
    assert SplitAt(target[at[n]], p.newTarget[at[n]], p.exits[at[n]]);
    assert PaidAsDue(share, at, indices, target, p.exits, n);
    OwedMonotone(indices, at, target, n + 1, j);
  }

  lemma SettledNext(indices: seq<nat>, at: seq<nat>, size: nat, j: nat, i: nat)
    requires j < |at|
    ensures SettledBefore(indices, at, size, j + 1, i)
       <==> SettledBefore(indices, at, size, j, i) || (at[j] == i && Settles(indices, at, size, j))
  {
  }

  lemma OpenTakesItsShare(share: int, at: seq<nat>, j: nat, indices: seq<nat>, target: seq<Allocation>, p: Progress)
    requires j < |at| && NonNegative(target) && Open(indices, at, |target|, j)
    requires Split(target, p.newTarget, p.exits) && InOrder(share, at, j, indices, target, p)
    ensures InOrder(share, at, j + 1, indices, target, PayAt(p, at[j], indices))
  {
    var q := PayAt(p, at[j], indices);
    assert SplitAt(target[at[j]], p.newTarget[at[j]], p.exits[at[j]]);
    assert UnpaidUnlessSettled(at, j, indices, p.exits, at[j]);
    forall n | 0 <= n < j ensures PaidAsDue(share, at, indices, target, q.exits, n) {
      assert PaidAsDue(share, at, indices, target, p.exits, n);
    }
    assert PaidAsDue(share, at, indices, target, q.exits, j);
    var next := j + 1;
    forall i | 0 <= i < |q.exits| ensures UnpaidUnlessSettled(at, next, indices, q.exits, i) {
      assert UnpaidUnlessSettled(at, j, indices, p.exits, i);
      SettledNext(indices, at, |target|, j, i);
    }
  }

  lemma PayAtKeepsOrder(share: int, at: seq<nat>, j: nat, indices: seq<nat>, target: seq<Allocation>, p: Progress)
    requires j < |at| && at[j] < |target| && NonNegative(target)
    requires Split(target, p.newTarget, p.exits) && InOrder(share, at, j, indices, target, p)
    ensures InOrder(share, at, j + 1, indices, target, PayAt(p, at[j], indices))
  {
    if Open(indices, at, |target|, j) {
      OpenTakesItsShare(share, at, j, indices, target, p);
    } else {
      SettledTakesNothing(share, at, j, indices, target, p);
      assert PayAt(p, at[j], indices).exits == p.exits;
      NoneLeftOut(share, at, j, indices, target, p.exits);
    }
  }

  lemma NoneLeftOut(share: int, at: seq<nat>, j: nat, indices: seq<nat>, target: seq<Allocation>,
                    exits: seq<Allocation>)
    requires j < |at| && |exits| == |target| && PaysInOrder(share, at, j, indices, target, exits)
    requires !Open(indices, at, |target|, j)
    ensures PaysInOrder(share, at, j + 1, indices, target, exits)
  {
    var next := j + 1;
    forall i | 0 <= i < |exits| ensures UnpaidUnlessSettled(at, next, indices, exits, i) {
      assert UnpaidUnlessSettled(at, j, indices, exits, i);
      SettledNext(indices, at, |target|, j, i);
    }
  }

  lemma SettledLater(indices: seq<nat>, at: seq<nat>, size: nat, j: nat, n: nat, i: nat)
    requires j <= n <= |at| && SettledBefore(indices, at, size, j, i)
    ensures SettledBefore(indices, at, size, n, i)
  {
  }

  /** Once the surplus is used up the remaining beneficiaries are owed nothing from this share. */
  lemma ExhaustedIsFinal(share: int, at: seq<nat>, j: nat, indices: seq<nat>, target: seq<Allocation>, p: Progress)
    requires j <= |at| && NonNegative(target) && InOrder(share, at, j, indices, target, p)
    requires j == |at| || p.surplus == 0
    ensures PaysInOrder(share, at, |at|, indices, target, p.exits)
    ensures p.surplus == Max(0, share - Owed(indices, at, target, |at|))
  {
    OwedMonotone(indices, at, target, j, |at|);
    forall n | j <= n < |at| ensures PaidAsDue(share, at, indices, target, p.exits, n) {
      NothingDueLater(share, at, j, n, indices, target, p);
    }
    forall i | 0 <= i < |p.exits| ensures UnpaidUnlessSettled(at, |at|, indices, p.exits, i) {
      assert UnpaidUnlessSettled(at, j, indices, p.exits, i);
      if SettledBefore(indices, at, |target|, j, i) {
        SettledLater(indices, at, |target|, j, |at|, i);
      }
    }
  }

  lemma NothingDueLater(share: int, at: seq<nat>, j: nat, n: nat, indices: seq<nat>, target: seq<Allocation>,
                        p: Progress)
    requires j <= n < |at| && NonNegative(target) && InOrder(share, at, j, indices, target, p) && p.surplus == 0
    ensures PaidAsDue(share, at, indices, target, p.exits, n)
  {
    OwedMonotone(indices, at, target, j, n);
    if Open(indices, at, |target|, n) {
      assert UnpaidUnlessSettled(at, j, indices, p.exits, at[n]);
      if SettledBefore(indices, at, |target|, j, at[n]) {
        SettledLater(indices, at, |target|, j, n, at[n]);
        assert false;
      }
    }
  }

  /** What is left over of the holdings once the source entries before `index` are reserved. */
  method SourceSurplus(h: nat, source: seq<Allocation>, index: nat) returns (surplus: int)
    requires NonNegative(source) && index <= |source|
    ensures surplus == SurplusAt(source, h, index)
  {
    surplus := h;
    var i := 0;
    while i < index
      invariant 0 <= i <= index && surplus == SurplusAt(source, h, i)
    {
      if surplus == 0 {
        ReservedMonotone(source, i, index);
        break;
      }
      PayoutStep(source, h, i);
      surplus := surplus - Min(source[i].amount, surplus);
      i := i + 1;
    }
  }

  /** The search for the first allocation that pays `dest`. */
  method FindFirst(a: seq<Allocation>, dest: Destination) returns (i: nat)
    ensures i == FirstFor(a, dest)
  {
    i := 0;
    while i < |a| && a[i].destination != dest
      invariant i <= |a|
      invariant forall n :: 0 <= n < i ==> a[n].destination != dest
    {
      i := i + 1;
    }
    if i < |a| {
      FirstForUnique(a, dest, i);
    }
  }

  lemma FirstForKept(target: seq<Allocation>, newTarget: seq<Allocation>, exits: seq<Allocation>, dest: Destination)
    requires Split(target, newTarget, exits)
    ensures FirstFor(target, dest) == FirstFor(newTarget, dest)
  {
    forall i | 0 <= i < |target| ensures target[i].destination == newTarget[i].destination {
      assert SplitAt(target[i], newTarget[i], exits[i]);
    }
    var k := FirstFor(target, dest);
    if k < |target| {
      FirstForUnique(newTarget, dest, k);
    }
  }

  lemma NothingTaken(share: int, at: seq<nat>, j: nat, indices: seq<nat>, target: seq<Allocation>, p: Progress)
    requires j < |at| && at[j] >= |target| && InOrder(share, at, j, indices, target, p)
    ensures InOrder(share, at, j + 1, indices, target, p)
  {
    NoneLeftOut(share, at, j, indices, target, p.exits);
  }

  /** Everything known after the first j beneficiaries. */
  ghost predicate ClaimedSoFar(share: int, at: seq<nat>, j: nat, indices: seq<nat>, target: seq<Allocation>,
                               p: Progress)
    requires j <= |at|
  {
    Conserving(share, indices, target, p) && InOrder(share, at, j, indices, target, p)
  }

  /** Everything known at the end. */
  ghost predicate Claimed(share: int, at: seq<nat>, indices: seq<nat>, target: seq<Allocation>, p: Progress) {
    && Conserving(share, indices, target, p)
    && PaysBeneficiaries(at, indices, p.exits)
    && PaysInOrder(share, at, |at|, indices, target, p.exits)
    && p.surplus == Max(0, share - Owed(indices, at, target, |at|))
  }

  lemma ClaimStep(share: int, at: seq<nat>, j: nat, indices: seq<nat>, target: seq<Allocation>, p: Progress,
                  q: Progress)
    requires j < |at| && NonNegative(target) && ClaimedSoFar(share, at, j, indices, target, p)
    requires q == if at[j] < |target| then PayAt(p, at[j], indices) else p
    ensures ClaimedSoFar(share, at, j + 1, indices, target, q)
  {
    if at[j] < |target| {
      PayAtConserves(share, indices, target, p, at[j]);
      PayAtKeepsOrder(share, at, j, indices, target, p);
    } else {
      NothingTaken(share, at, j, indices, target, p);
    }
  }

  lemma ClaimEnd(share: int, at: seq<nat>, j: nat, indices: seq<nat>, target: seq<Allocation>, p: Progress)
    requires j <= |at| && NonNegative(target) && ClaimedSoFar(share, at, j, indices, target, p)
    requires j == |at| || p.surplus == 0
    ensures Claimed(share, at, indices, target, p)
  {
    ExhaustedIsFinal(share, at, j, indices, target, p);
    OnlyBeneficiaries(share, at, indices, target, p.exits);
  }

  /** One turn of the loop: the first target allocation for the destination, if there is one, is paid. */
  method PayNext(dest: Destination, indices: seq<nat>, p: Progress, ghost share: int, ghost at: seq<nat>, ghost j: nat,
                 ghost target: seq<Allocation>)
    returns (q: Progress)
    requires j < |at| && NonNegative(target) && at[j] == FirstFor(target, dest)
    requires ClaimedSoFar(share, at, j, indices, target, p)
    ensures ClaimedSoFar(share, at, j + 1, indices, target, q)
  {
    var i := FindFirst(p.newTarget, dest);
    FirstForKept(target, p.newTarget, p.exits, dest);
    q := p;
    if i < |p.newTarget| {
      q := PayAt(p, i, indices);
    }
    ClaimStep(share, at, j, indices, target, p, q);
  }

  /** The loop over the beneficiaries of the guarantee, with `share` to hand out. */
  method PayBeneficiaries(dests: seq<Destination>, target: seq<Allocation>, indices: seq<nat>, share: int)
    returns (p: Progress)
    requires NonNegative(target) && share >= 0
    ensures Claimed(share, Beneficiaries(dests, target), indices, target, p)
  {
    p := NothingPaid(target, share);
    ghost var at := Beneficiaries(dests, target);
    var j := 0;
    while j < |dests| && p.surplus != 0
      invariant 0 <= j <= |dests|
      invariant ClaimedSoFar(share, at, j, indices, target, p)
    {
      p := PayNext(dests[j], indices, p, share, at, j, target);
      j := j + 1;
    }
    ClaimEnd(share, at, j, indices, target, p);
  }

  function Blank(a: Allocation): Allocation {
    a.(amount := 0)
  }

  method NothingPaid(target: seq<Allocation>, share: int) returns (p: Progress)
    requires NonNegative(target) && share >= 0
    ensures p.newTarget == target && p.surplus == share && p.k == 0
    ensures forall indices :: Conserving(share, indices, target, p)
    ensures forall i :: 0 <= i < |p.exits| ==> p.exits[i].amount == 0
  {
    var zeros := seq(|target|, i requires 0 <= i < |target| => Blank(target[i]));
    ReservedZero(zeros, |zeros|);
    p := Progress(target, zeros, 0, share, 0);
    forall i | 0 <= i < |target| ensures SplitAt(target[i], target[i], zeros[i]) {
      assert zeros[i] == Blank(target[i]);
    }
  }

  method ComputeClaim(h: nat, source: seq<Allocation>, target: seq<Allocation>, index: nat, indices: seq<nat>)
    returns (r: Result<ClaimEffects, ClaimError>)
    requires NonNegative(source) && NonNegative(target) && index < |source|
    ensures r.Ok? <==> source[index].allocationType == GuaranteeAllocation
    ensures r.Ok? ==> ClaimIs(h, source, target, index, indices, r.value)
  {
    var sourceSurplus := SourceSurplus(h, source, index);
    var targetSurplus := Min(sourceSurplus, source[index].amount);
    if source[index].allocationType != GuaranteeAllocation {
      return Err(NotAGuarantee);
    }
    var p := PayBeneficiaries(source[index].metadata, target, indices, targetSurplus);
    var newSource := source[index := source[index].(amount := source[index].amount - p.totalPayouts)];
    ClaimedIs(h, source, target, index, indices, p, newSource);
    r := Ok(ClaimEffects(newSource, p.newTarget, p.exits, p.totalPayouts));
  }

  ghost predicate ClaimIs(h: int, source: seq<Allocation>, target: seq<Allocation>, index: nat, indices: seq<nat>,
                          e: ClaimEffects)
    requires index < |source|
  {
    var share := GuaranteeShare(source, h, index);
    var at := Beneficiaries(source[index].metadata, target);
    // Nothing is created or lost: the guarantee pays exactly what leaves, and nobody else does.
    && Split(target, e.newTarget, e.exits)
    && e.totalPayouts == Reserved(e.exits, |e.exits|)
    && e.newSource == source[index := source[index].(amount := source[index].amount - e.totalPayouts)]
    // Earlier source entries come first, and no amount goes below zero.
    && 0 <= e.totalPayouts <= share
    // Who is paid, and how much.
    && PaysBeneficiaries(at, indices, e.exits)
    && PaysInOrder(share, at, |at|, indices, target, e.exits)
    && (indices == [] ==> e.totalPayouts == Min(share, Owed([], at, target, |at|)))
  }

  lemma ClaimedIs(h: int, source: seq<Allocation>, target: seq<Allocation>, index: nat, indices: seq<nat>, p: Progress,
                  newSource: seq<Allocation>)
    requires index < |source|
    requires Claimed(GuaranteeShare(source, h, index), Beneficiaries(source[index].metadata, target), indices, target,
                     p)
    requires newSource == source[index := source[index].(amount := source[index].amount - p.totalPayouts)]
    ensures ClaimIs(h, source, target, index, indices, ClaimEffects(newSource, p.newTarget, p.exits, p.totalPayouts))
  {
  }

  /** What a claim leaves of the holdings still covers every earlier source entry; it takes nothing if
      those are not covered before. And a guarantee that the holdings cover is paid out in full, if its
      beneficiaries are owed that much and none is passed over. */
  lemma ClaimRespectsPriority(h: int, source: seq<Allocation>, target: seq<Allocation>, index: nat, indices: seq<nat>,
                              e: ClaimEffects)
    requires NonNegative(source) && index < |source| && ClaimIs(h, source, target, index, indices, e)
    ensures h >= Reserved(source, index) ==> h - e.totalPayouts >= Reserved(source, index)
    ensures h < Reserved(source, index) ==> e.totalPayouts == 0
    ensures e.totalPayouts <= source[index].amount
    ensures var owed := Owed([], Beneficiaries(source[index].metadata, target), target, |source[index].metadata|);
            indices == [] && h >= Reserved(source, index + 1) && owed >= source[index].amount ==>
              e.totalPayouts == source[index].amount
  {
  }
}

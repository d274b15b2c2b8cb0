/** The list of allocations that stands for a ledger outcome in a signed state. */
module LedgerEncoding {
  import opened Types
  import opened Outcomes
  import opened States
  import opened LedgerVars
  import opened SortedLists

  // ------------------------------------------------------------------
  // The outcome as an exit
  // ------------------------------------------------------------------

  function BalanceAllocation(b: Balance): Allocation {
    Allocation(b.destination, b.amount, NormalAllocation, [])
  }

  function GuaranteeAllocationOf(g: Guarantee): Allocation {
    Allocation(g.target, g.amount, GuaranteeAllocation, [g.left, g.right])
  }

  function GuaranteeAllocations(m: map<Destination, Guarantee>, keys: seq<Destination>): seq<Allocation>
    requires forall i :: 0 <= i < |keys| ==> keys[i] in m
  {
    seq(|keys|, i requires 0 <= i < |keys| => GuaranteeAllocationOf(m[keys[i]]))
  }

  /** Leader, follower, then the guarantees by ascending target. */
  function AsExit(o: LedgerOutcome): SingleAssetExit {
    SortedKeysAscend(o.guarantees.Keys);
    SingleAssetExit(
      o.asset,
      [BalanceAllocation(o.leader), BalanceAllocation(o.follower)]
      + GuaranteeAllocations(o.guarantees, SortedKeys(o.guarantees.Keys)))
  }

  function AsState(v: Vars, fp: FixedPart): State {
    State(fp, [AsExit(v.outcome)], v.turnNum, false)
  }

  /** The order in which the map yields its keys makes no difference to the exit. */
  method AsOutcome(o: LedgerOutcome) returns (exit: SingleAssetExit)
    ensures exit == AsExit(o)
  {
    var keys := [];
    var remaining := o.guarantees.Keys;
    while remaining != {}
      invariant remaining <= o.guarantees.Keys
      invariant forall k :: k in keys <==> k in o.guarantees.Keys && k !in remaining
      invariant forall i, j :: 0 <= i < j < |keys| ==> keys[i] != keys[j]
      decreases remaining
    {
      var k :| k in remaining;
      keys := keys + [k];
      remaining := remaining - {k};
    }
    keys := SortKeys(keys);
    SortedKeysAscend(o.guarantees.Keys);
    AscendingIsUnique(keys, SortedKeys(o.guarantees.Keys));
    var allocations := [BalanceAllocation(o.leader), BalanceAllocation(o.follower)];
    for i := 0 to |keys|
      invariant allocations == [BalanceAllocation(o.leader), BalanceAllocation(o.follower)]
                               + GuaranteeAllocations(o.guarantees, keys)[..i]
    {
      allocations := allocations + [GuaranteeAllocationOf(o.guarantees[keys[i]])];
    }
    exit := SingleAssetExit(o.asset, allocations);
  }

  /** An allocation that stands for a guarantee, with its parties as metadata. */
  ghost predicate Encodes(a: Allocation, g: Guarantee) {
    && a.allocationType == GuaranteeAllocation && a.destination == g.target && a.amount == g.amount
    && a.metadata == [g.left, g.right]
  }

  /** The allocations after the first two stand for the guarantees, in the order of the keys. */
  lemma ExitEntries(o: LedgerOutcome, keys: seq<Destination>)
    requires WellKeyed(o) && keys == SortedKeys(o.guarantees.Keys)
    ensures Ascending(keys) && (forall t :: t in keys <==> t in o.guarantees)
    ensures |AsExit(o).allocations| == 2 + |keys|
    ensures forall k :: 0 <= k < |keys| ==> Encodes(AsExit(o).allocations[2 + k], o.guarantees[keys[k]])
  {
    SortedKeysAscend(o.guarantees.Keys);
    var gs := GuaranteeAllocations(o.guarantees, keys);
    assert AsExit(o).allocations == [BalanceAllocation(o.leader), BalanceAllocation(o.follower)] + gs;
    forall k | 0 <= k < |keys| ensures Encodes(AsExit(o).allocations[2 + k], o.guarantees[keys[k]]) {
      assert AsExit(o).allocations[2 + k] == gs[k];
    }
  }

  /** The layout of the exit: the leader's balance, the follower's, and the guarantees by ascending
      target. */
  lemma ExitLayout(o: LedgerOutcome)
    requires WellKeyed(o)
    ensures var a := AsExit(o).allocations;
            && AsExit(o).asset == o.asset && |a| >= 2
            && a[0] == Allocation(o.leader.destination, o.leader.amount, NormalAllocation, [])
            && a[1] == Allocation(o.follower.destination, o.follower.amount, NormalAllocation, [])
            && (forall i :: 2 <= i < |a| ==>
                  a[i].destination in o.guarantees && Encodes(a[i], o.guarantees[a[i].destination]))
            && forall i, j :: 2 <= i < j < |a| ==> a[i].destination < a[j].destination
  {
    var keys, a := SortedKeys(o.guarantees.Keys), AsExit(o).allocations;
    ExitEntries(o, keys);
    forall i | 2 <= i < |a| ensures a[i].destination == keys[i - 2] && Encodes(a[i], o.guarantees[keys[i - 2]]) {
      assert Encodes(a[2 + (i - 2)], o.guarantees[keys[i - 2]]);
    }
  }

  /** And every guarantee is there. */
  lemma EveryGuaranteeListed(o: LedgerOutcome, t: Destination) returns (i: nat)
    requires WellKeyed(o) && t in o.guarantees
    ensures 2 <= i < |AsExit(o).allocations| && Encodes(AsExit(o).allocations[i], o.guarantees[t])
  {
    var keys := SortedKeys(o.guarantees.Keys);
    ExitEntries(o, keys);
    var k :| 0 <= k < |keys| && keys[k] == t;
    i := 2 + k;
  }

  // ------------------------------------------------------------------
  // Reading an exit back
  // ------------------------------------------------------------------

  datatype ExitError = UndecodableMetadata

  /** The two parties of a guarantee; metadata shorter than two words cannot be decoded. */
  function DecodeGuarantee(a: Allocation): Result<Guarantee, ExitError> {
    if |a.metadata| < 2 then Err(UndecodableMetadata)
    else Ok(Guarantee(a.amount, a.destination, a.metadata[0], a.metadata[1]))
  }

  /** The guarantees among the first n allocations; a later one replaces one with the same target. */
  function GuaranteesAmong(a: seq<Allocation>, n: nat): Result<map<Destination, Guarantee>, ExitError>
    requires n <= |a|
  {
    if n == 0 then Ok(map[])
    else
      match GuaranteesAmong(a, n - 1)
      case Err(e) => Err(e)
      case Ok(m) =>
        if a[n - 1].allocationType != GuaranteeAllocation then Ok(m)
        else
          match DecodeGuarantee(a[n - 1])
          case Err(e) => Err(e)
          case Ok(g) => Ok(m[a[n - 1].destination := g])
  }

  function OutcomeOf(e: SingleAssetExit): Result<LedgerOutcome, ExitError>
    requires |e.allocations| >= 2
  {
    match GuaranteesAmong(e.allocations, |e.allocations|)
    case Err(err) => Err(err)
    case Ok(m) =>
      var a := e.allocations;
      Ok(LedgerOutcome(e.asset, Balance(a[0].destination, a[0].amount), Balance(a[1].destination, a[1].amount), m))
  }

  lemma {:induction false} UndecodableStays(a: seq<Allocation>, i: nat, n: nat)
    requires i <= n <= |a| && GuaranteesAmong(a, i).Err?
    ensures GuaranteesAmong(a, n) == GuaranteesAmong(a, i)
    decreases n
  {
    if i < n {
      UndecodableStays(a, i, n - 1);
    }
  }

  method FromExit(e: SingleAssetExit) returns (r: Result<LedgerOutcome, ExitError>)
    requires |e.allocations| >= 2
    ensures r == OutcomeOf(e)
  {
    var a := e.allocations;
    var leader := Balance(a[0].destination, a[0].amount);
    var follower := Balance(a[1].destination, a[1].amount);
    var guarantees: map<Destination, Guarantee> := map[];
    for i := 0 to |a|
      invariant GuaranteesAmong(a, i) == Ok(guarantees)
    {
      if a[i].allocationType == GuaranteeAllocation {
        if |a[i].metadata| < 2 {
          assert GuaranteesAmong(a, i + 1).Err?;
          UndecodableStays(a, i + 1, |a|);
          return Err(UndecodableMetadata);
        }
        guarantees := guarantees[a[i].destination :=
          Guarantee(a[i].amount, a[i].destination, a[i].metadata[0], a[i].metadata[1])];
      }
    }
    return Ok(LedgerOutcome(e.asset, leader, follower, guarantees));
  }

  predicate IsGuaranteeFor(a: Allocation, t: Destination) {
    a.allocationType == GuaranteeAllocation && a.destination == t
  }

  /** The last of the first n allocations that is a guarantee for the target, if any. */
  function LastFor(a: seq<Allocation>, t: Destination, n: nat): (r: Option<nat>)
    requires n <= |a|
    ensures r.None? ==> forall i :: 0 <= i < n ==> !IsGuaranteeFor(a[i], t)
    ensures r.Some? ==> r.value < n && IsGuaranteeFor(a[r.value], t)
    ensures r.Some? ==> forall i :: r.value < i < n ==> !IsGuaranteeFor(a[i], t)
  {
    if n == 0 then None
    else if IsGuaranteeFor(a[n - 1], t) then Some(n - 1)
    else LastFor(a, t, n - 1)
  }

  lemma {:induction false} DecodableExactlyWhen(a: seq<Allocation>, n: nat)
    requires n <= |a|
    ensures GuaranteesAmong(a, n).Ok?
       <==> forall i :: 0 <= i < n && a[i].allocationType == GuaranteeAllocation ==> |a[i].metadata| >= 2
  {
    if n > 0 {
      DecodableExactlyWhen(a, n - 1);
    }
  }

  lemma {:induction false} LastCounts(a: seq<Allocation>, t: Destination, n: nat)
    requires n <= |a| && GuaranteesAmong(a, n).Ok?
    ensures var m := GuaranteesAmong(a, n).value;
            match LastFor(a, t, n)
            case None => t !in m
            case Some(i) =>
              && t in m && |a[i].metadata| >= 2
              && m[t] == Guarantee(a[i].amount, t, a[i].metadata[0], a[i].metadata[1])
  {
    if n > 0 {
      LastCounts(a, t, n - 1);
    }
  }

  /** An exit can be read exactly when every guarantee in it names two parties. The first allocation is
      the leader's, the second the follower's, and for each target the last guarantee counts. */
  lemma ReadExactlyWhen(e: SingleAssetExit, t: Destination)
    requires |e.allocations| >= 2
    ensures var a := e.allocations;
            OutcomeOf(e).Ok?
            <==> forall i :: 0 <= i < |a| && a[i].allocationType == GuaranteeAllocation ==> |a[i].metadata| >= 2
    ensures OutcomeOf(e).Ok? ==>
              var a, o := e.allocations, OutcomeOf(e).value;
              && o.asset == e.asset
              && o.leader == Balance(a[0].destination, a[0].amount)
              && o.follower == Balance(a[1].destination, a[1].amount)
              && match LastFor(a, t, |a|)
                 case None => t !in o.guarantees
                 case Some(i) =>
                   && t in o.guarantees && |a[i].metadata| >= 2
                   && o.guarantees[t] == Guarantee(a[i].amount, t, a[i].metadata[0], a[i].metadata[1])
  {
    DecodableExactlyWhen(e.allocations, |e.allocations|);
    if OutcomeOf(e).Ok? {
      LastCounts(e.allocations, t, |e.allocations|);
    }
  }

  lemma {:induction false} GuaranteesReadBack(o: LedgerOutcome, keys: seq<Destination>, n: nat)
    requires WellKeyed(o) && Ascending(keys) && (forall i :: 0 <= i < |keys| ==> keys[i] in o.guarantees)
    requires n <= |keys|
    ensures var a := [BalanceAllocation(o.leader), BalanceAllocation(o.follower)]
                     + GuaranteeAllocations(o.guarantees, keys);
            && |a| == 2 + |keys|
            && GuaranteesAmong(a, 2 + n).Ok?
            && var m := GuaranteesAmong(a, 2 + n).value;
               && (forall t :: t in m <==> t in keys[..n])
               && (forall t :: t in m ==> t in o.guarantees && m[t] == o.guarantees[t])
  {
    var a := [BalanceAllocation(o.leader), BalanceAllocation(o.follower)] + GuaranteeAllocations(o.guarantees, keys);
    if n == 0 {
      assert GuaranteesAmong(a, 1) == Ok(map[]);
    } else {
      GuaranteesReadBack(o, keys, n - 1);
      assert a[n + 1] == GuaranteeAllocationOf(o.guarantees[keys[n - 1]]);
      assert keys[..n] == keys[..n - 1] + [keys[n - 1]];
    }
  }

  lemma SameGuarantees(m: map<Destination, Guarantee>, gs: map<Destination, Guarantee>, keys: seq<Destination>)
    requires forall t :: t in m <==> t in keys
    requires forall t :: t in gs <==> t in keys
    requires forall t :: t in m ==> t in gs && m[t] == gs[t]
    ensures m == gs
  {
  }

  /** Reading back the exit of a ledger outcome gives the outcome. */
  lemma ExitRoundTrip(o: LedgerOutcome)
    requires WellKeyed(o)
    ensures |AsExit(o).allocations| >= 2 && OutcomeOf(AsExit(o)) == Ok(o)
  {
    var keys, a := SortedKeys(o.guarantees.Keys), AsExit(o).allocations;
    SortedKeysAscend(o.guarantees.Keys);
    assert keys[..|keys|] == keys;
    GuaranteesReadBack(o, keys, |keys|);
    assert a == [BalanceAllocation(o.leader), BalanceAllocation(o.follower)] + GuaranteeAllocations(o.guarantees, keys);
    SameGuarantees(GuaranteesAmong(a, |a|).value, o.guarantees, keys);
  }

  /** A signature that recovers on two ledger states shows that the states, and with them the
      turn numbers, balances and guarantees, are the same. */
  lemma SignaturePinsVars(v: Vars, w: Vars, fp: FixedPart, fq: FixedPart, sig: Signature)
    requires WellKeyed(v.outcome) && WellKeyed(w.outcome)
    requires RecoverSigner(AsState(v, fp), sig).Ok? && RecoverSigner(AsState(w, fq), sig).Ok?
    ensures v == w && fp == fq
  {
    assert AsState(v, fp) == AsState(w, fq);
    ExitRoundTrip(v.outcome);
    ExitRoundTrip(w.outcome);
  }

  lemma AsStateInjective(v: Vars, w: Vars, fp: FixedPart)
    requires WellKeyed(v.outcome) && WellKeyed(w.outcome) && AsState(v, fp) == AsState(w, fp)
    ensures v == w
  {
    SignaturePinsVars(v, w, fp, fp, Sign(AsState(v, fp), 0));
  }

  // ------------------------------------------------------------------
  // Adding a guarantee refines diverting to a guarantee
  // ------------------------------------------------------------------

  /** A ledger whose parties differ and whose guarantees target neither of them. */
  ghost predicate ProperTargets(o: LedgerOutcome) {
    && o.leader.destination != o.follower.destination
    && o.leader.destination !in o.guarantees && o.follower.destination !in o.guarantees
  }

  /** With the leader on the left and the follower on the right, `Add` succeeds
      exactly when diverting on the allocation list does and neither party is to be paid for it. */
  lemma AddSucceedsExactlyWhenDivertDoes(v: Vars, g: Guarantee, leftDeposit: int)
    requires WellKeyed(v.outcome) && Solvent(v.outcome) && ProperTargets(v.outcome)
    requires g.target !in v.outcome.guarantees
    requires g.left == v.outcome.leader.destination && g.right == v.outcome.follower.destination
    ensures var a := AsExit(v.outcome).allocations;
            ApplyAdd(v, g, leftDeposit).Ok?
            <==> leftDeposit <= g.amount
                 && forall i :: 0 <= i < |a| ==>
                       Debited(a[i], g.left, g.right, leftDeposit, RightDeposit(g, leftDeposit)).amount >= 0
  {
    var o := v.outcome;
    var a := AsExit(o).allocations;
    assert a[0] == BalanceAllocation(o.leader) && a[1] == BalanceAllocation(o.follower);
    forall i | 2 <= i < |a|
      ensures Debited(a[i], g.left, g.right, leftDeposit, RightDeposit(g, leftDeposit)) == a[i] && a[i].amount >= 0
    {
      GuaranteeEntry(o, i);
    }
  }

  lemma AllocationsWithNewKey(m: map<Destination, Guarantee>, g: Guarantee, keys: seq<Destination>, p: nat)
    requires g.target !in m && p <= |keys| && forall i :: 0 <= i < |keys| ==> keys[i] in m
    ensures var placed := keys[..p] + [g.target] + keys[p..];
            var before := GuaranteeAllocations(m, keys);
            && (forall i :: 0 <= i < |placed| ==> placed[i] in m[g.target := g])
            && |before| == |keys|
            && GuaranteeAllocations(m[g.target := g], placed) == before[..p] + [GuaranteeAllocationOf(g)] + before[p..]
  {
    var placed := keys[..p] + [g.target] + keys[p..];
    var m' := m[g.target := g];
    forall i | 0 <= i < |placed|
      ensures placed[i] in m'
    {
      if i != p {
        assert placed[i] == keys[if i < p then i else i - 1];
      }
    }
    var before := GuaranteeAllocations(m, keys);
    var after := before[..p] + [GuaranteeAllocationOf(g)] + before[p..];
    forall i | 0 <= i < |placed|
      ensures GuaranteeAllocations(m', placed)[i] == after[i]
    {
      if i != p {
        var k := if i < p then i else i - 1;
        assert placed[i] == keys[k];
        assert after[i] == before[k];
      }
    }
  }

  /** The outcome after adding: the new guarantee takes its place among the others. */
  lemma ExitAfterAdd(o: LedgerOutcome, o': LedgerOutcome, g: Guarantee) returns (p: nat)
    requires g.target !in o.guarantees && o'.guarantees == o.guarantees[g.target := g]
    ensures 2 + p <= |AsExit(o).allocations|
    ensures var rest := AsExit(o).allocations[2..];
            AsExit(o').allocations == [BalanceAllocation(o'.leader), BalanceAllocation(o'.follower)]
                                      + (rest[..p] + [GuaranteeAllocationOf(g)] + rest[p..])
  {
    SortedKeysAscend(o.guarantees.Keys);
    assert o'.guarantees.Keys == o.guarantees.Keys + {g.target};
    p := SortedKeysInsert(o.guarantees.Keys, g.target);
    AllocationsWithNewKey(o.guarantees, g, SortedKeys(o.guarantees.Keys), p);
    assert AsExit(o).allocations[2..] == GuaranteeAllocations(o.guarantees, SortedKeys(o.guarantees.Keys));
  }

  lemma MovedLast<T>(front: seq<T>, rest: seq<T>, p: nat, x: T, a: seq<T>, b: seq<T>)
    requires p <= |rest| && a == front + (rest[..p] + [x] + rest[p..]) && b == front + rest + [x]
    ensures multiset(a) == multiset(b)
  {
    assert rest == rest[..p] + rest[p..];
  }

  /** What diverting on the allocation list gives when it succeeds. */
  ghost predicate IsDiverted(a: seq<Allocation>, g: Guarantee, leftDeposit: int, diverted: seq<Allocation>) {
    && |diverted| == |a| + 1
    && (forall i :: 0 <= i < |a| ==>
          diverted[i] == Debited(a[i], g.left, g.right, leftDeposit, RightDeposit(g, leftDeposit)))
    && diverted[|a|] == Allocation(g.target, leftDeposit + RightDeposit(g, leftDeposit), GuaranteeAllocation,
                                   [g.left, g.right])
  }

  lemma DivertedShape(o: LedgerOutcome, g: Guarantee, leftDeposit: int, diverted: seq<Allocation>)
    requires WellKeyed(o) && ProperTargets(o)
    requires g.left == o.leader.destination && g.right == o.follower.destination
    requires IsDiverted(AsExit(o).allocations, g, leftDeposit, diverted)
    ensures diverted == [BalanceAllocation(o.leader.(amount := o.leader.amount - leftDeposit)),
                         BalanceAllocation(o.follower.(amount := o.follower.amount - RightDeposit(g, leftDeposit)))]
                        + AsExit(o).allocations[2..] + [GuaranteeAllocationOf(g)]
  {
    var a := AsExit(o).allocations;
    forall i | 2 <= i < |a| ensures diverted[i] == a[i] {
      GuaranteeEntry(o, i);
    }
  }

  /** The allocations that `Add` leaves are those that diverting leaves, in another order: diverting
      puts the new guarantee last. */
  lemma AddRefinesDivert(v: Vars, g: Guarantee, leftDeposit: int, diverted: seq<Allocation>)
    requires WellKeyed(v.outcome) && ProperTargets(v.outcome)
    requires g.left == v.outcome.leader.destination && g.right == v.outcome.follower.destination
    requires ApplyAdd(v, g, leftDeposit).Ok? && IsDiverted(AsExit(v.outcome).allocations, g, leftDeposit, diverted)
    ensures multiset(AsExit(ApplyAdd(v, g, leftDeposit).value.outcome).allocations) == multiset(diverted)
  {
    var o' := ApplyAdd(v, g, leftDeposit).value.outcome;
    DivertedShape(v.outcome, g, leftDeposit, diverted);
    var p := ExitAfterAdd(v.outcome, o', g);
    MovedLast([BalanceAllocation(o'.leader), BalanceAllocation(o'.follower)], AsExit(v.outcome).allocations[2..], p,
              GuaranteeAllocationOf(g), AsExit(o').allocations, diverted);
  }

  /** Entries after the first two are guarantees of the ledger. */
  lemma GuaranteeEntry(o: LedgerOutcome, i: nat)
    requires WellKeyed(o) && 2 <= i < |AsExit(o).allocations|
    ensures var a := AsExit(o).allocations[i];
            a.destination in o.guarantees && a.amount == o.guarantees[a.destination].amount
  {
    var keys := SortedKeys(o.guarantees.Keys);
    SortedKeysAscend(o.guarantees.Keys);
    assert AsExit(o).allocations[i] == GuaranteeAllocationOf(o.guarantees[keys[i - 2]]);
  }
}

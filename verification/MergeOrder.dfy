/** When merging signatures does not depend on the order in which a map is gone through. */
module MergeOrder {
  import opened Types
  import opened States
  import opened Channels

  /** The index under which a signature is stored. */
  function Slot(s: State, sig: Signature): nat {
    IndexOf(s.fixed.participants, sig.signer)
  }

  /** Entry k is stored already, or it is by a participant who has no signature yet and whose index is
      k itself or no key of the other map. */
  ghost predicate EntryFits(ss: SignedState, sigs: map<nat, Signature>, k: nat)
    requires k in sigs
  {
    if k in ss.sigs then ss.sigs[k] == sigs[k]
    else
      var j := Slot(ss.state, sigs[k]);
      && RecoverSigner(ss.state, sigs[k]).Ok? && j < |ss.state.fixed.participants|
      && j !in ss.sigs && (j == k || j !in sigs)
  }

  ghost predicate SlotsDiffer(ss: SignedState, sigs: map<nat, Signature>) {
    forall k, k' :: k in sigs && k' in sigs && k != k' && k !in ss.sigs && k' !in ss.sigs ==>
      Slot(ss.state, sigs[k]) != Slot(ss.state, sigs[k'])
  }

  ghost predicate Fits(ss: SignedState, sigs: map<nat, Signature>) {
    (forall k :: k in sigs ==> EntryFits(ss, sigs, k)) && SlotsDiffer(ss, sigs)
  }

  // ------------------------------------------------------------------
  // What fits merges in every order
  // ------------------------------------------------------------------

  ghost predicate FilledBy(ss: SignedState, sigs: map<nat, Signature>, order: seq<nat>, n: nat, i: nat)
    requires n <= |order|
  {
    exists m :: 0 <= m < n && order[m] in sigs && order[m] !in ss.sigs && Slot(ss.state, sigs[order[m]]) == i
  }

  ghost predicate Occupied(ss: SignedState, sigs: map<nat, Signature>, order: seq<nat>, n: nat,
                           taken: map<nat, Signature>, i: nat)
    requires n <= |order|
  {
    && (i in taken <==> i in ss.sigs || FilledBy(ss, sigs, order, n, i))
    && (i in ss.sigs ==> i in taken && taken[i] == ss.sigs[i])
  }

  /** The first n entries have filled their slots and nothing else. */
  ghost predicate Filled(ss: SignedState, sigs: map<nat, Signature>, order: seq<nat>, n: nat, m: Merged)
    requires n <= |order|
  {
    && m.failed == None && m.result.state == ss.state
    && forall i :: Occupied(ss, sigs, order, n, m.result.sigs, i)
  }

  lemma NotFilledYet(ss: SignedState, sigs: map<nat, Signature>, order: seq<nat>, n: nat)
    requires Fits(ss, sigs) && IsOrder(order, sigs) && n < |order| && order[n] !in ss.sigs
    ensures order[n] in sigs
    ensures !FilledBy(ss, sigs, order, n, order[n]) && !FilledBy(ss, sigs, order, n, Slot(ss.state, sigs[order[n]]))
  {
    var k := order[n];
    assert k in order;
    forall m | 0 <= m < n && order[m] in sigs && order[m] !in ss.sigs
      ensures Slot(ss.state, sigs[order[m]]) != k && Slot(ss.state, sigs[order[m]]) != Slot(ss.state, sigs[k])
    {
      assert order[m] != k;
      assert EntryFits(ss, sigs, order[m]);
    }
  }

  lemma FilledNext(ss: SignedState, sigs: map<nat, Signature>, order: seq<nat>, n: nat, i: nat)
    requires n < |order| && order[n] in sigs
    ensures FilledBy(ss, sigs, order, n + 1, i)
       <==> FilledBy(ss, sigs, order, n, i) || (order[n] !in ss.sigs && Slot(ss.state, sigs[order[n]]) == i)
  {
  }

  lemma FillOneMore(ss: SignedState, sigs: map<nat, Signature>, order: seq<nat>, n: nat, m: Merged, m': Merged,
                    next: nat)
    requires Fits(ss, sigs) && IsOrder(order, sigs) && n < |order| && Filled(ss, sigs, order, n, m) && next == n + 1
    requires order[n] in sigs && m' == MergeEntry(m.result, order[n], sigs[order[n]])
    ensures Filled(ss, sigs, order, next, m')
  {
    var k, j := order[n], Slot(ss.state, sigs[order[n]]);
    assert EntryFits(ss, sigs, k);
    assert Occupied(ss, sigs, order, n, m.result.sigs, k) && Occupied(ss, sigs, order, n, m.result.sigs, j);
    if k !in ss.sigs {
      NotFilledYet(ss, sigs, order, n);
      assert m' == Merged(m.result.(sigs := m.result.sigs[j := sigs[k]]), None);
    }
    forall i: nat ensures Occupied(ss, sigs, order, next, m'.result.sigs, i) {
      assert Occupied(ss, sigs, order, n, m.result.sigs, i);
      FilledNext(ss, sigs, order, n, i);
    }
  }

  lemma MergeFirstStep(ss: SignedState, sigs: map<nat, Signature>, order: seq<nat>, n: nat)
    requires n < |order| && order[n] in sigs && MergeFirst(ss, sigs, order, n).failed == None
    ensures MergeFirst(ss, sigs, order, n + 1)
            == MergeEntry(MergeFirst(ss, sigs, order, n).result, order[n], sigs[order[n]])
  {
  }

  lemma {:induction false} FitsMerges(ss: SignedState, sigs: map<nat, Signature>, order: seq<nat>, n: nat)
    requires Fits(ss, sigs) && IsOrder(order, sigs) && n <= |order|
    ensures Filled(ss, sigs, order, n, MergeFirst(ss, sigs, order, n))
  {
    if n > 0 {
      FitsMerges(ss, sigs, order, n - 1);
      assert order[n - 1] in order;
      MergeFirstStep(ss, sigs, order, n - 1);
      FillOneMore(ss, sigs, order, n - 1, MergeFirst(ss, sigs, order, n - 1), MergeFirst(ss, sigs, order, n), n);
    }
  }

  // ------------------------------------------------------------------
  // What does not fit fails in some order
  // ------------------------------------------------------------------

  lemma StartFails(ss: SignedState, sigs: map<nat, Signature>, start: seq<nat>) returns (order: seq<nat>)
    requires (forall i :: 0 <= i < |start| ==> start[i] in sigs)
    requires (forall i, j :: 0 <= i < j < |start| ==> start[i] != start[j])
    requires MergeFirst(ss, sigs, start, |start|).failed.Some?
    ensures IsOrder(order, sigs) && MergeFirst(ss, sigs, order, |order|).failed.Some?
  {
    var remaining := set k | k in sigs.Keys && k !in start;
    order := SomeOrder(sigs, start, remaining);
    FailedAnyway(ss, sigs, start, order);
  }

  /** It cannot even be merged first. */
  ghost predicate Misfit(ss: SignedState, sigs: map<nat, Signature>, k: nat)
    requires k in sigs
  {
    MergeEntry(ss, k, sigs[k]).failed.Some?
  }

  lemma FirstFails(ss: SignedState, sigs: map<nat, Signature>, k: nat) returns (order: seq<nat>)
    requires k in sigs && Misfit(ss, sigs, k)
    ensures IsOrder(order, sigs) && MergeFirst(ss, sigs, order, |order|).failed.Some?
  {
    assert MergeFirst(ss, sigs, [k], 0) == Merged(ss, None);
    order := StartFails(ss, sigs, [k]);
  }

  lemma SecondFails(ss: SignedState, sigs: map<nat, Signature>, k: nat, k': nat) returns (order: seq<nat>)
    requires k in sigs && k' in sigs && k != k' && !Misfit(ss, sigs, k)
    requires MergeEntry(MergeEntry(ss, k, sigs[k]).result, k', sigs[k']).failed.Some?
    ensures IsOrder(order, sigs) && MergeFirst(ss, sigs, order, |order|).failed.Some?
  {
    assert MergeFirst(ss, sigs, [k, k'], 0) == Merged(ss, None);
    assert MergeFirst(ss, sigs, [k, k'], 1) == MergeEntry(ss, k, sigs[k]);
    order := StartFails(ss, sigs, [k, k']);
  }

  /** Two new entries that go to the same slot, or one to the key of the other. */
  ghost predicate Clash(ss: SignedState, sigs: map<nat, Signature>, k: nat, k': nat) {
    && k in sigs && k' in sigs && k != k' && k !in ss.sigs && k' !in ss.sigs
    && (Slot(ss.state, sigs[k]) == Slot(ss.state, sigs[k']) || Slot(ss.state, sigs[k]) == k')
  }

  lemma ClashFails(ss: SignedState, sigs: map<nat, Signature>, k: nat, k': nat) returns (order: seq<nat>)
    requires Clash(ss, sigs, k, k') && !Misfit(ss, sigs, k) && !Misfit(ss, sigs, k')
    ensures IsOrder(order, sigs) && MergeFirst(ss, sigs, order, |order|).failed.Some?
  {
    var j, j' := Slot(ss.state, sigs[k]), Slot(ss.state, sigs[k']);
    if j == j' && k == j {
      order := SecondFails(ss, sigs, k, k');
    } else if j == j' {
      order := SecondFails(ss, sigs, k', k);
    } else {
      order := SecondFails(ss, sigs, k, k');
    }
  }

  lemma SomeMisfitOrClash(ss: SignedState, sigs: map<nat, Signature>)
    requires !Fits(ss, sigs)
    ensures (exists k :: k in sigs && Misfit(ss, sigs, k)) || (exists k, k' :: Clash(ss, sigs, k, k'))
  {
    if k :| k in sigs && !EntryFits(ss, sigs, k) {
      if !Misfit(ss, sigs, k) {
        assert Clash(ss, sigs, k, Slot(ss.state, sigs[k]));
      }
    } else {
      var k, k' :| k in sigs && k' in sigs && k != k' && k !in ss.sigs && k' !in ss.sigs
                   && Slot(ss.state, sigs[k]) == Slot(ss.state, sigs[k']);
      assert Clash(ss, sigs, k, k');
    }
  }

  /** A merge succeeds whatever order the map is gone through in if and only if the states are the same
      and every entry fits. */
  lemma MergeSucceedsInEveryOrderExactlyWhen(ss: SignedState, other: SignedState)
    ensures (forall order :: IsOrder(order, other.sigs) ==> MergeInto(ss, other, order).failed == None)
       <==> other.state == ss.state && Fits(ss, other.sigs)
  {
    if other.state != ss.state {
      assert LeavesRemaining([], other.sigs.Keys, other.sigs);
      var order := SomeOrder(other.sigs, [], other.sigs.Keys);
      assert MergeInto(ss, other, order).failed != None;
    } else if Fits(ss, other.sigs) {
      forall order | IsOrder(order, other.sigs) ensures MergeInto(ss, other, order).failed == None {
        FitsMerges(ss, other.sigs, order, |order|);
      }
    } else {
      SomeMisfitOrClash(ss, other.sigs);
      var order;
      if k :| k in other.sigs && Misfit(ss, other.sigs, k) {
        order := FirstFails(ss, other.sigs, k);
      } else {
        var k, k' :| Clash(ss, other.sigs, k, k');
        order := ClashFails(ss, other.sigs, k, k');
      }
      assert MergeInto(ss, other, order).failed != None;
    }
  }
}

/** What any sequence of signed states added to a channel leaves of its signatures and of the state it
    calls its latest supported one. */
module ChannelSupport {
  import opened Types
  import opened States
  import opened Channels

  datatype Addition = Addition(ss: SignedState, order: seq<nat>)

  function AddAll(c: Channel, adds: seq<Addition>): Channel
    decreases |adds|
  {
    if adds == [] then c
    else
      var last := adds[|adds| - 1];
      AddSignedStateTo(AddAll(c, adds[..|adds| - 1]), last.ss, last.order).0
  }

  /** The two setup states are kept as they were, with genuine signatures only. */
  ghost predicate SetupGenuine(c: Channel, s: State) {
    && PreFundTurnNum in c.signedStates && PostFundTurnNum in c.signedStates
    && c.signedStates[PreFundTurnNum].state == s
    && c.signedStates[PostFundTurnNum].state == s.(turnNum := PostFundTurnNum)
    && Genuine(c.signedStates[PreFundTurnNum]) && Genuine(c.signedStates[PostFundTurnNum])
  }

  lemma AddKeepsSetup(c: Channel, s: State, a: Addition)
    requires SetupGenuine(c, s)
    ensures SetupGenuine(AddSignedStateTo(c, a.ss, a.order).0, s)
  {
    var t := a.ss.state.turnNum;
    if t in c.signedStates && (t == PreFundTurnNum || t == PostFundTurnNum) {
      MergeKeepsGenuine(c.signedStates[t], a.ss.sigs, a.order, |a.order|);
    }
  }

  /** Signatures are stored under participant indices. */
  ghost predicate Keyed(ss: SignedState) {
    forall i :: i in ss.sigs ==> i < |ss.state.fixed.participants|
  }

  /** The signed state the channel calls its latest supported one has as many signatures as there are
      participants, and every stored signed state is keyed by participant indices. */
  ghost predicate SupportIsFull(c: Channel) {
    && (forall t :: t in c.signedStates ==> Keyed(c.signedStates[t]))
    && (c.latestSupported != MaxTurnNum ==>
          c.latestSupported in c.signedStates && HasAllSignatures(c.signedStates[c.latestSupported]))
  }

  lemma {:induction false} MergeKeepsKeyed(ss: SignedState, sigs: map<nat, Signature>, order: seq<nat>, n: nat)
    requires n <= |order| && Keyed(ss)
    ensures var r := MergeFirst(ss, sigs, order, n).result;
            Keyed(r) && r.state == ss.state && (HasAllSignatures(ss) ==> r == ss)
  {
    if n > 0 {
      MergeKeepsKeyed(ss, sigs, order, n - 1);
      if HasAllSignatures(ss) {
        assert |ss.sigs.Keys| == |ss.sigs|;
        FullSet(ss.sigs.Keys, |ss.state.fixed.participants|);
      }
    }
  }

  /** Once a state is supported the channel only moves on to later supported states. */
  ghost predicate SupportAdvances(c: Channel, c': Channel) {
    c.latestSupported == MaxTurnNum || c.latestSupported <= c'.latestSupported < MaxTurnNum
  }

  lemma AddAdvances(c: Channel, a: Addition)
    requires c.latestSupported <= MaxTurnNum && a.ss.state.turnNum < MaxTurnNum
    ensures var c' := AddSignedStateTo(c, a.ss, a.order).0;
            SupportAdvances(c, c') && c'.latestSupported <= MaxTurnNum
  {
  }

  lemma AddKeepsSupport(c: Channel, a: Addition)
    requires SupportIsFull(c) && Keyed(a.ss)
    ensures SupportIsFull(AddSignedStateTo(c, a.ss, a.order).0)
  {
    var t := a.ss.state.turnNum;
    if t in c.signedStates {
      assert Keyed(c.signedStates[t]);
      MergeKeepsKeyed(c.signedStates[t], a.ss.sigs, a.order, |a.order|);
    }
  }

  /** Over any sequence of additions to a new channel the two setup states keep only genuine
      signatures; the latest supported turn, once set, never goes back; and if what is added is
      keyed by participant indices, the latest supported state has all its signatures. */
  lemma {:induction false} EveryAdditionKeeps(s: State, myIndex: nat, adds: seq<Addition>, i: nat)
    requires s.turnNum == PreFundTurnNum && i <= |adds|
    requires forall k :: 0 <= k < |adds| ==> adds[k].ss.state.turnNum < MaxTurnNum
    ensures var c := AddAll(NewChannel(s, myIndex), adds);
            && SetupGenuine(c, s) && c.latestSupported <= MaxTurnNum
            && SupportAdvances(AddAll(NewChannel(s, myIndex), adds[..i]), c)
            && ((forall k :: 0 <= k < |adds| ==> Keyed(adds[k].ss)) ==> SupportIsFull(c))
    decreases |adds|
  {
    if adds == [] {
    } else {
      var front, last := adds[..|adds| - 1], adds[|adds| - 1];
      EveryAdditionKeeps(s, myIndex, front, if i < |adds| then i else i - 1);
      var c := AddAll(NewChannel(s, myIndex), front);
      AddKeepsSetup(c, s, last);
      AddAdvances(c, last);
      if forall k :: 0 <= k < |adds| ==> Keyed(adds[k].ss) {
        assert forall k :: 0 <= k < |front| ==> Keyed(front[k].ss);
        AddKeepsSupport(c, last);
      }
      if i < |adds| {
        assert front[..i] == adds[..i];
      } else {
        assert adds[..i] == adds;
      }
    }
  }

  // ------------------------------------------------------------------
  // What one addition does
  // ------------------------------------------------------------------

  /** The state is one of this channel, and not older than the latest supported one. */
  predicate InScope(c: Channel, s: State) {
    && s.fixed.channelId == c.fixed.channelId
    && (c.latestSupported == MaxTurnNum || c.latestSupported <= s.turnNum)
  }

  /** A state of another channel or an older one changes nothing and is not taken. */
  lemma OutOfScopeChangesNothing(c: Channel, a: Addition)
    requires !InScope(c, a.ss.state)
    ensures AddSignedStateTo(c, a.ss, a.order) == (c, false)
  {
  }

  /** A state is taken exactly when it is in scope and can be merged with what is stored for its turn.
      Nothing but what is stored for that turn changes; and the turn becomes the latest supported one
      exactly when the state is taken and then has all its signatures. */
  lemma TakenExactlyWhen(c: Channel, a: Addition)
    ensures var t, (c', taken) := a.ss.state.turnNum, AddSignedStateTo(c, a.ss, a.order);
            && (taken <==> InScope(c, a.ss.state)
                           && (t in c.signedStates ==> MergeInto(c.signedStates[t], a.ss, a.order).failed == None))
            && (taken ==> t in c'.signedStates && (t !in c.signedStates ==> c'.signedStates[t] == a.ss))
            && c' == c.(signedStates := c'.signedStates, latestSupported := c'.latestSupported)
            && (forall u :: u != t ==> (u in c'.signedStates <==> u in c.signedStates))
            && (forall u :: u != t && u in c.signedStates ==> c'.signedStates[u] == c.signedStates[u])
            && c'.latestSupported
               == if taken && HasAllSignatures(c'.signedStates[t]) then t else c.latestSupported
  {
  }

  /** Each state is stored under its own turn, and all are states of this channel. */
  ghost predicate StoresOwn(c: Channel) {
    forall t :: t in c.signedStates ==>
      c.signedStates[t].state.turnNum == t && c.signedStates[t].state.fixed.channelId == c.fixed.channelId
  }

  lemma {:induction false} EveryStoredStateIsOwn(s: State, myIndex: nat, adds: seq<Addition>)
    requires s.turnNum == PreFundTurnNum
    ensures var c := AddAll(NewChannel(s, myIndex), adds);
            && c.fixed == s.fixed && c.myIndex == myIndex && StoresOwn(c)
            && (c.latestSupported != MaxTurnNum ==> c.latestSupported in c.signedStates)
    decreases |adds|
  {
    if adds != [] {
      var front, last := adds[..|adds| - 1], adds[|adds| - 1];
      EveryStoredStateIsOwn(s, myIndex, front);
      AddStoresOwn(AddAll(NewChannel(s, myIndex), front), last);
    }
  }

  lemma AddStoresOwn(c: Channel, a: Addition)
    requires StoresOwn(c) && (c.latestSupported != MaxTurnNum ==> c.latestSupported in c.signedStates)
    ensures var c' := AddSignedStateTo(c, a.ss, a.order).0;
            StoresOwn(c') && (c'.latestSupported != MaxTurnNum ==> c'.latestSupported in c'.signedStates)
  {
    TakenExactlyWhen(c, a);
    var t := a.ss.state.turnNum;
    if t in c.signedStates {
      MergeKeepsState(c.signedStates[t], a.ss.sigs, a.order, |a.order|);
    }
  }

  lemma {:induction false} MergeKeepsState(ss: SignedState, sigs: map<nat, Signature>, order: seq<nat>, n: nat)
    requires n <= |order|
    ensures MergeFirst(ss, sigs, order, n).result.state == ss.state
  {
    if n > 0 {
      MergeKeepsState(ss, sigs, order, n - 1);
    }
  }

  // ------------------------------------------------------------------
  // Who has signed the latest supported state
  // ------------------------------------------------------------------

  /** What was stored for turn t when something first was, if anything has been. */
  function FirstStored(c: Channel, adds: seq<Addition>, t: nat): Option<SignedState>
    decreases |adds|
  {
    if adds == [] then
      if t in c.signedStates then Some(c.signedStates[t]) else None
    else
      var front := adds[..|adds| - 1];
      if t in AddAll(c, front).signedStates then FirstStored(c, front, t)
      else if t in AddAll(c, adds).signedStates then Some(adds[|adds| - 1].ss)
      else None
  }

  /** Every participant has signed, and nobody else. */
  ghost predicate SignedByAll(ss: SignedState) {
    && (forall i :: i in ss.sigs <==> 0 <= i < |ss.state.fixed.participants|)
    && Genuine(ss)
  }

  lemma FullAndGenuine(ss: SignedState)
    ensures SignedByAll(ss) <==> Genuine(ss) && HasAllSignatures(ss)
  {
    var n := |ss.state.fixed.participants|;
    assert |ss.sigs.Keys| == |ss.sigs|;
    if Genuine(ss) {
      FullSet(ss.sigs.Keys, n);
      if forall i :: i in ss.sigs <==> 0 <= i < n {
        EveryIndex(ss.sigs.Keys, n);
      }
    }
  }

  lemma {:induction false} EveryIndex(s: set<nat>, n: nat)
    requires forall i :: i in s <==> 0 <= i < n
    ensures |s| == n
  {
    if n == 0 {
      assert s == {};
    } else {
      EveryIndex(s - {n - 1}, n - 1);
    }
  }

  /** Merging neither makes a state genuine nor spoils one. */
  lemma {:induction false} MergeGenuineExactlyWhen(ss: SignedState, sigs: map<nat, Signature>, order: seq<nat>, n: nat)
    requires n <= |order|
    ensures var r := MergeFirst(ss, sigs, order, n).result;
            && r.state == ss.state && ss.sigs.Keys <= r.sigs.Keys
            && (forall i :: i in ss.sigs ==> r.sigs[i] == ss.sigs[i])
            && (Genuine(r) <==> Genuine(ss))
  {
    if n > 0 {
      MergeGenuineExactlyWhen(ss, sigs, order, n - 1);
      if Genuine(ss) {
        MergeKeepsGenuine(ss, sigs, order, n);
      }
    }
  }

  /** One addition stores its state for a turn that has none, and spoils nothing that is stored. */
  lemma StoredAfter(c: Channel, a: Addition, t: nat)
    ensures var c' := AddSignedStateTo(c, a.ss, a.order).0;
            && (t in c.signedStates ==>
                  t in c'.signedStates && (Genuine(c'.signedStates[t]) <==> Genuine(c.signedStates[t])))
            && (t !in c.signedStates && t in c'.signedStates ==> c'.signedStates[t] == a.ss)
  {
    if t in c.signedStates {
      MergeGenuineExactlyWhen(c.signedStates[t], a.ss.sigs, a.order, |a.order|);
    }
  }

  /** What is stored for a turn is genuine if and only if what was stored first is. */
  lemma {:induction false} GenuineSinceFirst(c: Channel, adds: seq<Addition>, t: nat)
    ensures var c' := AddAll(c, adds);
            t in c'.signedStates ==>
              FirstStored(c, adds, t).Some? && (Genuine(c'.signedStates[t]) <==> Genuine(FirstStored(c, adds, t).value))
    decreases |adds|
  {
    if adds != [] {
      GenuineSinceFirst(c, adds[..|adds| - 1], t);
      StoredAfter(AddAll(c, adds[..|adds| - 1]), adds[|adds| - 1], t);
    }
  }

  /** A genuine state that the channel calls supported has all its signatures. */
  ghost predicate GenuineSupportIsFull(c: Channel) {
    c.latestSupported != MaxTurnNum ==>
      && c.latestSupported in c.signedStates
      && (Genuine(c.signedStates[c.latestSupported]) ==> HasAllSignatures(c.signedStates[c.latestSupported]))
  }

  lemma FullStaysWhenGenuine(ss: SignedState, other: SignedState, order: seq<nat>)
    requires Genuine(MergeInto(ss, other, order).result) && (Genuine(ss) ==> HasAllSignatures(ss))
    ensures MergeInto(ss, other, order).result == ss
  {
    MergeGenuineExactlyWhen(ss, other.sigs, order, |order|);
    MergeKeepsKeyed(ss, other.sigs, order, |order|);
  }

  lemma AddKeepsGenuineSupport(c: Channel, a: Addition)
    requires GenuineSupportIsFull(c)
    ensures GenuineSupportIsFull(AddSignedStateTo(c, a.ss, a.order).0)
  {
    var c', t := AddSignedStateTo(c, a.ss, a.order).0, a.ss.state.turnNum;
    if c.latestSupported != MaxTurnNum && c'.latestSupported == c.latestSupported == t {
      if Genuine(MergeInto(c.signedStates[t], a.ss, a.order).result) {
        FullStaysWhenGenuine(c.signedStates[t], a.ss, a.order);
      }
    }
  }

  lemma {:induction false} AdditionsKeepGenuineSupport(c: Channel, adds: seq<Addition>)
    requires GenuineSupportIsFull(c)
    ensures GenuineSupportIsFull(AddAll(c, adds))
    decreases |adds|
  {
    if adds != [] {
      AdditionsKeepGenuineSupport(c, adds[..|adds| - 1]);
      AddKeepsGenuineSupport(AddAll(c, adds[..|adds| - 1]), adds[|adds| - 1]);
    }
  }

  /** Over any sequence of additions to a new channel, the latest supported state is signed by all its
      participants and nobody else if and only if what was first stored for its turn was genuine. The
      two setup turns start out empty, which is genuine; for later turns the first signed state to
      arrive is stored unchecked. */
  lemma SupportedBySignaturesExactlyWhen(s: State, myIndex: nat, adds: seq<Addition>)
    requires s.turnNum == PreFundTurnNum
    ensures var c, start := AddAll(NewChannel(s, myIndex), adds), NewChannel(s, myIndex);
            c.latestSupported != MaxTurnNum ==>
              && c.latestSupported in c.signedStates && FirstStored(start, adds, c.latestSupported).Some?
              && (SignedByAll(c.signedStates[c.latestSupported])
                  <==> Genuine(FirstStored(start, adds, c.latestSupported).value))
              && (c.latestSupported in {PreFundTurnNum, PostFundTurnNum} ==>
                    SignedByAll(c.signedStates[c.latestSupported]))
  {
    var start := NewChannel(s, myIndex);
    var c := AddAll(start, adds);
    AdditionsKeepGenuineSupport(start, adds);
    GenuineSinceFirst(start, adds, c.latestSupported);
    if c.latestSupported != MaxTurnNum {
      FullAndGenuine(c.signedStates[c.latestSupported]);
      if c.latestSupported in start.signedStates {
        FirstStoredFromStart(start, adds, c.latestSupported);
      }
    }
  }

  lemma {:induction false} FirstStoredFromStart(c: Channel, adds: seq<Addition>, t: nat)
    requires t in c.signedStates
    ensures t in AddAll(c, adds).signedStates && FirstStored(c, adds, t) == Some(c.signedStates[t])
    decreases |adds|
  {
    if adds != [] {
      FirstStoredFromStart(c, adds[..|adds| - 1], t);
    }
  }

  /** A state for turn 2 of a channel between 1 and 2 with two signatures, both by 9, becomes the latest
      supported one. */
  lemma OutsiderSupportsState()
    ensures var s := State(FixedPart(ChannelIdFrom(7), [1, 2]), [], PreFundTurnNum, false);
            var later := s.(turnNum := 2);
            var forged := SignedState(later, map[0 := Sign(later, 9), 1 := Sign(later, 9)]);
            var c := AddAll(NewChannel(s, 0), [Addition(forged, [0, 1])]);
            && Keyed(forged) && IsOrder([0, 1], forged.sigs)
            && c.latestSupported == 2 && 2 in c.signedStates && c.signedStates[2] == forged && !SignedByAll(forged)
  {
    var s := State(FixedPart(ChannelIdFrom(7), [1, 2]), [], PreFundTurnNum, false);
    var later := s.(turnNum := 2);
    var forged := SignedState(later, map[0 := Sign(later, 9), 1 := Sign(later, 9)]);
    var adds := [Addition(forged, [0, 1])];
    assert adds[..0] == [];
    assert AddAll(NewChannel(s, 0), []) == NewChannel(s, 0);
  }

  /** A full set of signatures stays full under every merge exactly when it is keyed by participant
      indices; otherwise some participant's own signature makes the count overshoot. */
  lemma FullStaysFullExactlyWhen(ss: SignedState)
    requires DistinctParticipants(ss.state.fixed.participants) && HasAllSignatures(ss)
    ensures Keyed(ss)
       <==> forall other: SignedState, order: seq<nat> :: IsOrder(order, other.sigs) ==>
             HasAllSignatures(MergeInto(ss, other, order).result)
  {
    if Keyed(ss) {
      forall other: SignedState, order: seq<nat> ensures HasAllSignatures(MergeInto(ss, other, order).result) {
        MergeKeepsKeyed(ss, other.sigs, order, |order|);
      }
    } else {
      var i := MissingIndex(ss);
      var participants := ss.state.fixed.participants;
      var sig := Sign(ss.state, participants[i]);
      IndexOfParticipant(participants, i);
      var other := SignedState(ss.state, map[i := sig]);
      assert IsOrder([i], other.sigs);
      assert MergeFirst(ss, other.sigs, [i], 0) == Merged(ss, None);
      var r := MergeInto(ss, other, [i]).result;
      assert r == ss.(sigs := ss.sigs[i := sig]);
      assert r.sigs.Keys == ss.sigs.Keys + {i};
      assert |r.sigs| == |r.sigs.Keys| == |ss.sigs.Keys| + 1;
    }
  }

  /** A state for turn 2 of a channel between 1 and 2 with two signatures by 1, one of them under a foreign
      key, becomes the latest supported one; the signature of 2 then makes three of two. */
  lemma SupportOvershoots()
    ensures var s := State(FixedPart(ChannelIdFrom(7), [1, 2]), [], PreFundTurnNum, false);
            var later := s.(turnNum := 2);
            var odd := SignedState(later, map[0 := Sign(later, 1), 5 := Sign(later, 1)]);
            var c := AddSignedStateTo(NewChannel(s, 0), odd, [0, 5]).0;
            var c' := AddSignedStateTo(c, SignedState(later, map[1 := Sign(later, 2)]), [1]).0;
            && IsOrder([0, 5], odd.sigs) && c.latestSupported == c'.latestSupported == 2
            && 2 in c.signedStates && HasAllSignatures(c.signedStates[2])
            && 2 in c'.signedStates && !HasAllSignatures(c'.signedStates[2])
  {
    var s := State(FixedPart(ChannelIdFrom(7), [1, 2]), [], PreFundTurnNum, false);
    var later := s.(turnNum := 2);
    var odd := SignedState(later, map[0 := Sign(later, 1), 5 := Sign(later, 1)]);
    var second := SignedState(later, map[1 := Sign(later, 2)]);
    assert IndexOf([1, 2], 2) == 1 by {
      IndexFromIs([1, 2], 2, 0);
    }
    assert MergeFirst(odd, second.sigs, [1], 0) == Merged(odd, None);
    assert MergeInto(odd, second, [1]) == Merged(SignedState(later, odd.sigs[1 := Sign(later, 2)]), None);
    assert |odd.sigs[1 := Sign(later, 2)]| == 3;
  }

  lemma MissingIndex(ss: SignedState) returns (i: nat)
    requires HasAllSignatures(ss) && !Keyed(ss)
    ensures i < |ss.state.fixed.participants| && i !in ss.sigs
  {
    var foreign :| foreign in ss.sigs && foreign >= |ss.state.fixed.participants|;
    i := FirstMissing(ss.sigs.Keys - {foreign}, |ss.state.fixed.participants|);
  }

  /** A set with fewer than n elements misses a number below n. */
  lemma {:induction false} FirstMissing(s: set<nat>, n: nat) returns (i: nat)
    requires |s| < n
    ensures i < n && i !in s
  {
    i := n - 1;
    if n - 1 in s {
      i := FirstMissing(s - {n - 1}, n - 1);
    }
  }
}

/** Signed states and the channel that collects them. */
module Channels {
  import opened Types
  import opened States

  const PreFundTurnNum: nat := 0
  const PostFundTurnNum: nat := 1

  /** Reserved: no state is supported yet. */
  const MaxTurnNum: nat := 0xFFFF_FFFF_FFFF_FFFF

  /** A state and the signatures on it, by participant index. */
  datatype SignedState = SignedState(state: State, sigs: map<nat, Signature>)

  datatype SignedStateError =
    | CannotRecover
    | AlreadySigned
    | NotAParticipant
    | DistinctStates
    | ConflictingSignatures

  /** The first index from k on at which `a` stands, or the length of the list. */
  function IndexFrom(participants: seq<Address>, a: Address, k: nat): (i: nat)
    requires k <= |participants|
    ensures k <= i <= |participants|
    decreases |participants| - k
  {
    if k == |participants| || participants[k] == a then k else IndexFrom(participants, a, k + 1)
  }

  function IndexOf(participants: seq<Address>, a: Address): (i: nat)
    ensures i <= |participants|
  {
    IndexFrom(participants, a, 0)
  }

  lemma {:induction false} IndexFromIs(participants: seq<Address>, a: Address, k: nat)
    requires k <= |participants|
    ensures var i := IndexFrom(participants, a, k);
            && (i < |participants| ==> participants[i] == a)
            && forall j :: k <= j < i ==> participants[j] != a
    decreases |participants| - k
  {
    if k < |participants| && participants[k] != a {
      IndexFromIs(participants, a, k + 1);
    }
  }

  ghost predicate DistinctParticipants(participants: seq<Address>) {
    forall i, j :: 0 <= i < j < |participants| ==> participants[i] != participants[j]
  }

  lemma IndexOfParticipant(participants: seq<Address>, i: nat)
    requires DistinctParticipants(participants) && i < |participants|
    ensures IndexOf(participants, participants[i]) == i
  {
    IndexFromIs(participants, participants[i], 0);
  }

  /** A signature is stored under the index of its signer, once. */
  function AddSignatureTo(ss: SignedState, sig: Signature): Result<SignedState, SignedStateError> {
    match RecoverSigner(ss.state, sig)
    case Err(_) => Err(CannotRecover)
    case Ok(signer) =>
      var participants := ss.state.fixed.participants;
      var i := IndexOf(participants, signer);
      if i == |participants| then Err(NotAParticipant)
      else if i in ss.sigs then Err(AlreadySigned)
      else Ok(ss.(sigs := ss.sigs[i := sig]))
  }

  /** Participant i is the first with the address of the one that has signed. */
  ghost predicate IsSigner(s: State, sig: Signature, i: nat) {
    && i < |s.fixed.participants| && SignedBy(s, sig, s.fixed.participants[i])
    && forall j :: 0 <= j < i ==> s.fixed.participants[j] != s.fixed.participants[i]
  }

  method AddSignature(ss: SignedState, sig: Signature) returns (r: Result<SignedState, SignedStateError>)
    ensures r == AddSignatureTo(ss, sig)
    ensures forall i :: IsSigner(ss.state, sig, i) ==>
              r == if i in ss.sigs then Err(AlreadySigned) else Ok(ss.(sigs := ss.sigs[i := sig]))
    ensures (forall i :: !IsSigner(ss.state, sig, i)) ==>
              r == Err(if RecoverSigner(ss.state, sig).Err? then CannotRecover else NotAParticipant)
  {
    var signer := RecoverSigner(ss.state, sig);
    if signer.Err? {
      return Err(CannotRecover);
    }
    var participants := ss.state.fixed.participants;
    for i := 0 to |participants|
      invariant IndexFrom(participants, signer.value, 0) == IndexFrom(participants, signer.value, i)
      invariant forall j :: 0 <= j < i ==> participants[j] != signer.value
    {
      if participants[i] == signer.value {
        assert IsSigner(ss.state, sig, i);
        if i in ss.sigs {
          return Err(AlreadySigned);
        }
        return Ok(ss.(sigs := ss.sigs[i := sig]));
      }
    }
    return Err(NotAParticipant);
  }

  predicate HasAllSignatures(ss: SignedState) {
    |ss.sigs| == |ss.state.fixed.participants|
  }

  /** A set of n numbers below n has them all. */
  lemma {:induction false} FullSet(s: set<nat>, n: nat)
    requires forall i :: i in s ==> i < n
    ensures |s| <= n
    ensures |s| == n ==> forall i :: 0 <= i < n ==> i in s
  {
    if n > 0 {
      var rest := s - {n - 1};
      FullSet(rest, n - 1);
      if n - 1 in s {
        assert s == rest + {n - 1};
      } else {
        assert rest == s;
      }
    } else {
      assert s == {};
    }
  }

  // ------------------------------------------------------------------
  // Merging
  // ------------------------------------------------------------------

  /** What a merge leaves. A merge that fails keeps the signatures it added before it failed. */
  datatype Merged = Merged(result: SignedState, failed: Option<SignedStateError>)

  function MergeEntry(ss: SignedState, i: nat, sig: Signature): Merged {
    if i in ss.sigs then
      if ss.sigs[i] == sig then Merged(ss, None) else Merged(ss, Some(ConflictingSignatures))
    else
      match AddSignatureTo(ss, sig)
      case Err(e) => Merged(ss, Some(e))
      case Ok(added) => Merged(added, None)
  }

  /** `order` is the order in which the map of signatures is gone through. */
  ghost predicate IsOrder(order: seq<nat>, sigs: map<nat, Signature>) {
    && (forall i :: i in order <==> i in sigs)
    && forall i, j :: 0 <= i < j < |order| ==> order[i] != order[j]
  }

  /** The merge after the first n entries. */
  function MergeFirst(ss: SignedState, sigs: map<nat, Signature>, order: seq<nat>, n: nat): Merged
    requires n <= |order|
  {
    if n == 0 then Merged(ss, None)
    else
      var m := MergeFirst(ss, sigs, order, n - 1);
      if m.failed.Some? || order[n - 1] !in sigs then m
      else MergeEntry(m.result, order[n - 1], sigs[order[n - 1]])
  }

  function MergeInto(ss: SignedState, other: SignedState, order: seq<nat>): Merged {
    if ss.state != other.state then Merged(ss, Some(DistinctStates))
    else MergeFirst(ss, other.sigs, order, |order|)
  }

  lemma {:induction false} MergeFailureStays(ss: SignedState, sigs: map<nat, Signature>, order: seq<nat>, i: nat,
                                             n: nat)
    requires i <= n <= |order| && MergeFirst(ss, sigs, order, i).failed.Some?
    ensures MergeFirst(ss, sigs, order, n) == MergeFirst(ss, sigs, order, i)
    decreases n
  {
    if i < n {
      MergeFailureStays(ss, sigs, order, i, n - 1);
    }
  }

  lemma {:induction false} MergePrefix(ss: SignedState, sigs: map<nat, Signature>, order: seq<nat>, order': seq<nat>,
                                       n: nat)
    requires n <= |order| && n <= |order'| && order[..n] == order'[..n]
    ensures MergeFirst(ss, sigs, order, n) == MergeFirst(ss, sigs, order', n)
  {
    if n > 0 {
      assert order[..n - 1] == order[..n][..n - 1] && order'[..n - 1] == order'[..n][..n - 1];
      assert order[n - 1] == order[..n][n - 1] == order'[n - 1];
      MergePrefix(ss, sigs, order, order', n - 1);
    }
  }

  lemma MergeOneMore(ss: SignedState, sigs: map<nat, Signature>, order: seq<nat>, i: nat)
    requires i in sigs && MergeFirst(ss, sigs, order, |order|).failed == None
    ensures MergeFirst(ss, sigs, order + [i], |order| + 1)
         == MergeEntry(MergeFirst(ss, sigs, order, |order|).result, i, sigs[i])
  {
    assert (order + [i])[..|order|] == order[..|order|];
    MergePrefix(ss, sigs, order, order + [i], |order|);
  }

  lemma FailedAnyway(ss: SignedState, sigs: map<nat, Signature>, start: seq<nat>, order: seq<nat>)
    requires start <= order && MergeFirst(ss, sigs, start, |start|).failed.Some?
    ensures MergeFirst(ss, sigs, order, |order|) == MergeFirst(ss, sigs, start, |start|)
  {
    MergePrefix(ss, sigs, start, order, |start|);
    MergeFailureStays(ss, sigs, order, |start|, |order|);
  }

  /** A start of an order that leaves `remaining` to be gone through. */
  ghost predicate LeavesRemaining(order: seq<nat>, remaining: set<nat>, sigs: map<nat, Signature>) {
    && remaining <= sigs.Keys
    && (forall i :: i in order <==> i in sigs && i !in remaining)
    && forall i, j :: 0 <= i < j < |order| ==> order[i] != order[j]
  }

  lemma TakeNext(order: seq<nat>, remaining: set<nat>, sigs: map<nat, Signature>, i: nat)
    requires LeavesRemaining(order, remaining, sigs) && i in remaining
    ensures LeavesRemaining(order + [i], remaining - {i}, sigs)
  {
  }

  /** Goes through the other signatures in some order, and stops at the first that does not fit. */
  method Merge(ss: SignedState, other: SignedState) returns (m: Merged, ghost order: seq<nat>)
    ensures IsOrder(order, other.sigs) && m == MergeInto(ss, other, order)
  {
    if ss.state != other.state {
      order := SomeOrder(other.sigs, [], other.sigs.Keys);
      return Merged(ss, Some(DistinctStates)), order;
    }
    order := [];
    m := Merged(ss, None);
    var remaining := other.sigs.Keys;
    while remaining != {}
      invariant LeavesRemaining(order, remaining, other.sigs)
      invariant m == MergeFirst(ss, other.sigs, order, |order|) && m.failed == None
      decreases remaining
    {
      var i :| i in remaining;
      MergeOneMore(ss, other.sigs, order, i);
      TakeNext(order, remaining, other.sigs, i);
      m := MergeEntry(m.result, i, other.sigs[i]);
      order := order + [i];
      remaining := remaining - {i};
      if m.failed.Some? {
        ghost var start := order;
        order := SomeOrder(other.sigs, start, remaining);
        FailedAnyway(ss, other.sigs, start, order);
        return;
      }
    }
  }

  /** Any start of an order can be completed. */
  lemma {:induction false} SomeOrder(sigs: map<nat, Signature>, start: seq<nat>, remaining: set<nat>)
    returns (order: seq<nat>)
    requires LeavesRemaining(start, remaining, sigs)
    ensures start <= order && IsOrder(order, sigs)
    decreases remaining
  {
    order := start;
    if remaining != {} {
      var i :| i in remaining;
      TakeNext(start, remaining, sigs, i);
      order := SomeOrder(sigs, start + [i], remaining - {i});
    }
  }

  /** Signatures under the indices of their signers. */
  ghost predicate Genuine(ss: SignedState) {
    forall i :: i in ss.sigs ==>
      i < |ss.state.fixed.participants| && SignedBy(ss.state, ss.sigs[i], ss.state.fixed.participants[i])
  }

  lemma AddSignatureKeepsGenuine(ss: SignedState, sig: Signature)
    requires Genuine(ss) && AddSignatureTo(ss, sig).Ok?
    ensures Genuine(AddSignatureTo(ss, sig).value)
  {
    IndexFromIs(ss.state.fixed.participants, sig.signer, 0);
  }

  /** Whatever is merged in, in whatever order, and whether or not it succeeds: signatures stay with
      their signers, none is lost or replaced. */
  lemma {:induction false} MergeKeepsGenuine(ss: SignedState, sigs: map<nat, Signature>, order: seq<nat>, n: nat)
    requires n <= |order| && Genuine(ss)
    ensures var r := MergeFirst(ss, sigs, order, n).result;
            && Genuine(r) && r.state == ss.state
            && forall i :: i in ss.sigs ==> i in r.sigs && r.sigs[i] == ss.sigs[i]
  {
    if n > 0 {
      MergeKeepsGenuine(ss, sigs, order, n - 1);
      var m := MergeFirst(ss, sigs, order, n - 1).result;
      if order[n - 1] in sigs && AddSignatureTo(m, sigs[order[n - 1]]).Ok? {
        AddSignatureKeepsGenuine(m, sigs[order[n - 1]]);
      }
    }
  }

  /** Merging in the signature of participant i. */
  lemma MergeGenuineEntry(ss: SignedState, i: nat, sig: Signature)
    requires Genuine(ss) && DistinctParticipants(ss.state.fixed.participants)
    requires i < |ss.state.fixed.participants| && SignedBy(ss.state, sig, ss.state.fixed.participants[i])
    ensures MergeEntry(ss, i, sig) == Merged(ss.(sigs := ss.sigs[i := sig]), None)
    ensures Genuine(ss.(sigs := ss.sigs[i := sig]))
  {
    IndexOfParticipant(ss.state.fixed.participants, i);
    if i in ss.sigs {
      assert ss.sigs[i := sig] == ss.sigs;
    }
  }

  /** The union of the signatures of ss and those of the first n entries. */
  ghost predicate UnionSoFar(ss: SignedState, order: seq<nat>, n: nat, m: Merged)
    requires n <= |order|
  {
    && m.failed == None && m.result.state == ss.state && Genuine(m.result)
    && forall i :: i in m.result.sigs <==> i in ss.sigs || i in order[..n]
  }

  lemma UnionStep(ss: SignedState, order: seq<nat>, n: nat, sig: Signature, m: Merged)
    requires n < |order| && UnionSoFar(ss, order, n, m) && DistinctParticipants(ss.state.fixed.participants)
    requires order[n] < |ss.state.fixed.participants| && SignedBy(ss.state, sig, ss.state.fixed.participants[order[n]])
    ensures UnionSoFar(ss, order, n + 1, MergeEntry(m.result, order[n], sig))
  {
    MergeGenuineEntry(m.result, order[n], sig);
    assert order[..n + 1] == order[..n] + [order[n]];
  }

  lemma {:induction false} MergeGenuine(ss: SignedState, other: SignedState, order: seq<nat>, n: nat)
    requires n <= |order| && Genuine(ss) && Genuine(other) && other.state == ss.state
    requires DistinctParticipants(ss.state.fixed.participants)
             && forall k :: 0 <= k < |order| ==> order[k] in other.sigs
    ensures UnionSoFar(ss, order, n, MergeFirst(ss, other.sigs, order, n))
  {
    if n > 0 {
      MergeGenuine(ss, other, order, n - 1);
      var m, sig := MergeFirst(ss, other.sigs, order, n - 1), other.sigs[order[n - 1]];
      UnionStep(ss, order, n - 1, sig, m);
      assert MergeFirst(ss, other.sigs, order, n) == MergeEntry(m.result, order[n - 1], sig);
    }
  }

  /** Merging genuine signatures of the same state by distinct participants succeeds and is their
      union, whatever the order. */
  lemma MergeGenuineIsUnion(ss: SignedState, other: SignedState, order: seq<nat>)
    requires Genuine(ss) && Genuine(other) && other.state == ss.state
    requires DistinctParticipants(ss.state.fixed.participants) && IsOrder(order, other.sigs)
    ensures MergeInto(ss, other, order) == Merged(ss.(sigs := ss.sigs + other.sigs), None)
  {
    MergeGenuine(ss, other, order, |order|);
    assert order[..|order|] == order;
    GenuineDetermined(MergeInto(ss, other, order).result, ss.(sigs := ss.sigs + other.sigs));
  }

  lemma GenuineDetermined(a: SignedState, b: SignedState)
    requires Genuine(a) && Genuine(b) && a.state == b.state && a.sigs.Keys == b.sigs.Keys
    ensures a == b
  {
    assert forall i :: i in a.sigs ==> a.sigs[i] == b.sigs[i];
    assert a.sigs == b.sigs;
  }

  /** With two entries by the same signer, one of them under a foreign index, success depends on the
      order in which the map happens to be gone through. */
  lemma MergeDependsOnOrder()
    ensures var s := State(FixedPart(ChannelIdFrom(7), [1, 2]), [], 0, false);
            var other := map[0 := Sign(s, 1), 1 := Sign(s, 1)];
            && IsOrder([0, 1], other) && IsOrder([1, 0], other)
            && MergeInto(SignedState(s, map[]), SignedState(s, other), [0, 1]).failed == Some(AlreadySigned)
            && MergeInto(SignedState(s, map[]), SignedState(s, other), [1, 0]).failed == None
  {
    var s := State(FixedPart(ChannelIdFrom(7), [1, 2]), [], 0, false);
    var sigs := map[0 := Sign(s, 1), 1 := Sign(s, 1)];
    var ss := SignedState(s, map[]);
    assert IndexOf([1, 2], 1) == 0;
    assert MergeFirst(ss, sigs, [0, 1], 1) == Merged(SignedState(s, map[0 := Sign(s, 1)]), None);
    assert MergeFirst(ss, sigs, [1, 0], 1) == Merged(SignedState(s, map[0 := Sign(s, 1)]), None);
  }

  // ------------------------------------------------------------------
  // The channel
  // ------------------------------------------------------------------

  /** `onChainFunding` is what the chain was last seen to hold for the channel, of its one asset. */
  datatype Channel = Channel(
    fixed: FixedPart,
    myIndex: nat,
    onChainFunding: int,
    signedStates: map<nat, SignedState>,
    latestSupported: nat
  )

  function NewChannel(s: State, myIndex: nat): Channel {
    Channel(s.fixed, myIndex, 0,
            map[PreFundTurnNum := SignedState(s, map[]),
                PostFundTurnNum := SignedState(s.(turnNum := PostFundTurnNum), map[])],
            MaxTurnNum)
  }

  /** The second component tells whether the state was taken. A failed merge still leaves the
      signatures it added before it failed. */
  function AddSignedStateTo(c: Channel, ss: SignedState, order: seq<nat>): (r: (Channel, bool))
    ensures c.signedStates.Keys <= r.0.signedStates.Keys
  {
    var t := ss.state.turnNum;
    if ss.state.fixed.channelId != c.fixed.channelId then (c, false)
    else if c.latestSupported != MaxTurnNum && t < c.latestSupported then (c, false)
    else
      var m := if t in c.signedStates then MergeInto(c.signedStates[t], ss, order) else Merged(ss, None);
      var c' := c.(signedStates := c.signedStates[t := m.result]);
      if m.failed.Some? then (c', false)
      else (if HasAllSignatures(m.result) then c'.(latestSupported := t) else c', true)
  }

  class ChannelObject {
    const fixed: FixedPart
    const myIndex: nat
    var onChainFunding: int
    var signedStates: map<nat, SignedState>
    var latestSupported: nat

    /** A new channel is refused if its id is that of an address. */
    static method New(s: State, myIndex: nat) returns (r: Option<ChannelObject>)
      ensures r.Some? <==> !IsExternal(s.fixed.channelId)
      ensures r.Some? ==> fresh(r.value) && r.value.Value() == NewChannel(s, myIndex)
    {
      if IsExternal(s.fixed.channelId) {
        return None;
      }
      var c := new ChannelObject(s, myIndex);
      return Some(c);
    }

    constructor (s: State, myIndex: nat)
      ensures Value() == NewChannel(s, myIndex)
    {
      this.fixed := s.fixed;
      this.myIndex := myIndex;
      this.onChainFunding := 0;
      this.latestSupported := MaxTurnNum;
      var pre := SignedState(s, map[]);
      var post := SignedState(s.(turnNum := PostFundTurnNum), map[]);
      this.signedStates := map[PreFundTurnNum := pre, PostFundTurnNum := post];
    }

    function Value(): Channel
      reads this
    {
      Channel(fixed, myIndex, onChainFunding, signedStates, latestSupported)
    }

    method AddSignedState(ss: SignedState) returns (taken: bool, ghost order: seq<nat>)
      modifies this`signedStates, this`latestSupported
      ensures IsOrder(order, ss.sigs) && (Value(), taken) == AddSignedStateTo(old(Value()), ss, order)
    {
      order := SomeOrder(ss.sigs, [], ss.sigs.Keys);
      var s := ss.state;
      if s.fixed.channelId != fixed.channelId {
        return false, order;
      }
      if latestSupported != MaxTurnNum && s.turnNum < latestSupported {
        return false, order;
      }
      if s.turnNum !in signedStates {
        signedStates := signedStates[s.turnNum := ss];
      } else {
        var m;
        m, order := Merge(signedStates[s.turnNum], ss);
        signedStates := signedStates[s.turnNum := m.result];
        if m.failed.Some? {
          return false, order;
        }
      }
      if HasAllSignatures(signedStates[s.turnNum]) {
        latestSupported := s.turnNum;
      }
      return true, order;
    }
  }
}

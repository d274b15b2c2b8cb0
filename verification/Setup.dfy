/** The two rounds of signatures that open a channel, as honest participants go through them. */
module Setup {
  import opened Types
  import opened States
  import opened Channels

  datatype Panic = CouldNotAddOwnSignature | CouldNotAddSignedState

  /** The state signed with `key`, added to the channel; the program panics if that is refused. The
      new signed state holds one signature, so there is one order to merge it in. */
  function SignAndAddState(c: Channel, s: State, key: Address): (r: Result<(Channel, SignedState), Panic>)
    ensures r.Ok? ==> c.signedStates.Keys <= r.value.0.signedStates.Keys
  {
    match AddSignatureTo(SignedState(s, map[]), Sign(s, key))
    case Err(_) => Err(CouldNotAddOwnSignature)
    case Ok(ss) =>
      var (c', taken) := AddSignedStateTo(c, ss, [IndexOf(s.fixed.participants, key)]);
      if taken then Ok((c', ss)) else Err(CouldNotAddSignedState)
  }

  predicate SignedByMe(c: Channel, turn: nat) {
    turn in c.signedStates && c.myIndex in c.signedStates[turn].sigs
  }

  predicate Complete(c: Channel, turn: nat) {
    turn in c.signedStates && HasAllSignatures(c.signedStates[turn])
  }

  /** Signs the setup state of the given turn unless that has been done; the new signed state, if
      there is one, is to be sent to the other participants. */
  function SignIfNeeded(c: Channel, turn: nat, key: Address): (r: Result<(Channel, Option<SignedState>), Panic>)
    requires turn in c.signedStates
    ensures r.Ok? ==> c.signedStates.Keys <= r.value.0.signedStates.Keys
  {
    if SignedByMe(c, turn) then Ok((c, None))
    else
      match SignAndAddState(c, c.signedStates[turn].state, key)
      case Err(p) => Err(p)
      case Ok((c', ss)) => Ok((c', Some(ss)))
  }

  // ------------------------------------------------------------------
  // Channels of honest participants
  // ------------------------------------------------------------------

  function SetupState(s: State, turn: nat): State {
    s.(turnNum := turn)
  }

  /** The signatures of the participants in `who`. */
  function SigsOf(s: State, who: set<nat>): map<nat, Signature>
    requires forall i :: i in who ==> i < |s.fixed.participants|
  {
    map i | i in who :: Sign(s, s.fixed.participants[i])
  }

  /** A signed state carrying the signature of participant i alone. */
  function OneSignature(s: State, i: nat): SignedState
    requires i < |s.fixed.participants|
  {
    SignedState(s, map[i := Sign(s, s.fixed.participants[i])])
  }

  /** A prefund state, and who has signed it and the postfund state. */
  ghost predicate Opening(s: State, pre: set<nat>, post: set<nat>) {
    && s.turnNum == PreFundTurnNum
    && |s.fixed.participants| > 0 && DistinctParticipants(s.fixed.participants)
    && (forall i :: i in pre ==> i < |s.fixed.participants|)
    && (forall i :: i in post ==> i < |s.fixed.participants|)
    && (|post| == |s.fixed.participants| ==> |pre| == |s.fixed.participants|)
  }

  ghost function SetupStates(s: State, pre: set<nat>, post: set<nat>): map<nat, SignedState>
    requires Opening(s, pre, post)
  {
    map[PreFundTurnNum := SignedState(s, SigsOf(s, pre)),
        PostFundTurnNum := SignedState(SetupState(s, PostFundTurnNum), SigsOf(SetupState(s, PostFundTurnNum), post))]
  }

  lemma SetupStatesUpdated(s: State, pre: set<nat>, post: set<nat>, pre': set<nat>, post': set<nat>)
    requires Opening(s, pre, post) && Opening(s, pre', post')
    ensures pre' == pre ==>
              SetupStates(s, pre, post)[PostFundTurnNum := SetupStates(s, pre', post')[PostFundTurnNum]]
                  == SetupStates(s, pre', post')
    ensures post' == post ==>
              SetupStates(s, pre, post)[PreFundTurnNum := SetupStates(s, pre', post')[PreFundTurnNum]]
                  == SetupStates(s, pre', post')
  {
  }

  /** The channel of a participant that has seen exactly these signatures. */
  ghost function SetupChannel(s: State, me: nat, held: int, pre: set<nat>, post: set<nat>): Channel
    requires Opening(s, pre, post)
  {
    var n := |s.fixed.participants|;
    Channel(s.fixed, me, held, SetupStates(s, pre, post),
            if |post| == n then PostFundTurnNum else if |pre| == n then PreFundTurnNum else MaxTurnNum)
  }

  lemma SetupStart(s: State, me: nat)
    requires Opening(s, {}, {})
    ensures NewChannel(s, me) == SetupChannel(s, me, 0, {}, {})
  {
    assert SigsOf(s, {}) == map[];
    assert SigsOf(SetupState(s, PostFundTurnNum), {}) == map[];
  }

  lemma SigsCount(s: State, who: set<nat>)
    requires forall i :: i in who ==> i < |s.fixed.participants|
    ensures SigsOf(s, who).Keys == who && |SigsOf(s, who)| == |who|
  {
    assert SigsOf(s, who).Keys == who;
    assert |SigsOf(s, who)| == |SigsOf(s, who).Keys|;
  }

  /** Merging in one more honest signature. */
  lemma MergeOneSignature(s: State, who: set<nat>, i: nat)
    requires DistinctParticipants(s.fixed.participants) && i < |s.fixed.participants|
    requires forall k :: k in who ==> k < |s.fixed.participants|
    ensures MergeInto(SignedState(s, SigsOf(s, who)), OneSignature(s, i), [i])
         == Merged(SignedState(s, SigsOf(s, who + {i})), None)
  {
    var ss, one := SignedState(s, SigsOf(s, who)), OneSignature(s, i);
    MergeGenuineEntry(ss, i, one.sigs[i]);
    assert MergeFirst(ss, one.sigs, [i], 0) == Merged(ss, None);
    assert ss.sigs[i := one.sigs[i]] == SigsOf(s, who + {i});
  }

  lemma {:induction false} OrderLength(order: seq<nat>, keys: set<nat>)
    requires forall i :: i in order <==> i in keys
    requires forall i, j :: 0 <= i < j < |order| ==> order[i] != order[j]
    ensures |order| == |keys|
  {
    if order == [] {
      assert keys == {};
    } else {
      var x, rest := order[|order| - 1], order[..|order| - 1];
      assert order == rest + [x];
      OrderLength(rest, keys - {x});
    }
  }

  /** A single signature can be gone through in one order only. */
  lemma SingleOrder(order: seq<nat>, s: State, i: nat)
    requires i < |s.fixed.participants| && IsOrder(order, OneSignature(s, i).sigs)
    ensures order == [i]
  {
    OrderLength(order, {i});
    assert order[0] in order;
  }

  lemma FullMeansAll(who: set<nat>, n: nat, i: nat)
    requires (forall k :: k in who ==> k < n) && |who| == n && i < n
    ensures i in who
  {
    FullSet(who, n);
  }

  lemma AlreadyFull(who: set<nat>, n: nat, i: nat)
    requires (forall k :: k in who ==> k < n) && i < n
    ensures |who| == n ==> |who + {i}| == n
  {
    if |who| == n {
      FullMeansAll(who, n, i);
      assert who + {i} == who;
    }
  }

  lemma TakePreSignature(s: State, me: nat, held: int, pre: set<nat>, post: set<nat>, i: nat)
    requires Opening(s, pre, post) && Opening(s, pre + {i}, post) && |post| < |s.fixed.participants|
    requires i < |s.fixed.participants|
    requires |pre| == |s.fixed.participants| ==> pre + {i} == pre
    ensures AddSignedStateTo(SetupChannel(s, me, held, pre, post), OneSignature(s, i), [i])
         == (SetupChannel(s, me, held, pre + {i}, post), true)
  {
    var c, c' := SetupChannel(s, me, held, pre, post), SetupChannel(s, me, held, pre + {i}, post);
    var merged := SignedState(s, SigsOf(s, pre + {i}));
    assert MergeInto(c.signedStates[PreFundTurnNum], OneSignature(s, i), [i]) == Merged(merged, None) by {
      MergeOneSignature(s, pre, i);
    }
    assert HasAllSignatures(merged) <==> |pre + {i}| == |s.fixed.participants| by {
      SigsCount(s, pre + {i});
    }
    SetupStatesUpdated(s, pre, post, pre + {i}, post);
  }

  /** Adding participant i's prefund signature. Once all postfund signatures are there the prefund
      ones are too, and the addition is refused as stale. */
  lemma AddPreSignature(s: State, me: nat, held: int, pre: set<nat>, post: set<nat>, i: nat)
    requires Opening(s, pre, post) && i < |s.fixed.participants|
    ensures Opening(s, pre + {i}, post)
    ensures AddSignedStateTo(SetupChannel(s, me, held, pre, post), OneSignature(s, i), [i])
         == (SetupChannel(s, me, held, pre + {i}, post), |post| < |s.fixed.participants|)
  {
    FullSet(post, |s.fixed.participants|);
    FullSet(pre, |s.fixed.participants|);
    if |pre| == |s.fixed.participants| {
      assert pre + {i} == pre;
    }
    if |post| < |s.fixed.participants| {
      TakePreSignature(s, me, held, pre, post, i);
    }
  }

  /** Adding participant i's postfund signature. */
  lemma AddPostSignature(s: State, me: nat, held: int, pre: set<nat>, post: set<nat>, i: nat)
    requires Opening(s, pre, post) && Opening(s, pre, post + {i})
    ensures i < |s.fixed.participants|
    ensures AddSignedStateTo(SetupChannel(s, me, held, pre, post), OneSignature(SetupState(s, PostFundTurnNum), i), [i])
         == (SetupChannel(s, me, held, pre, post + {i}), true)
  {
    assert i in post + {i};
    var n, after := |s.fixed.participants|, SetupState(s, PostFundTurnNum);
    FullSet(post, n);
    var c, c' := SetupChannel(s, me, held, pre, post), SetupChannel(s, me, held, pre, post + {i});
    MergeOneSignature(after, post, i);
    SigsCount(after, post + {i});
    if |post| == n {
      assert post + {i} == post;
    }
    SetupStatesUpdated(s, pre, post, pre, post + {i});
  }

  lemma SetupQueries(s: State, me: nat, held: int, pre: set<nat>, post: set<nat>)
    requires Opening(s, pre, post)
    ensures var c := SetupChannel(s, me, held, pre, post);
            && PreFundTurnNum in c.signedStates && PostFundTurnNum in c.signedStates
            && c.signedStates[PreFundTurnNum].state == s
            && c.signedStates[PostFundTurnNum].state == SetupState(s, PostFundTurnNum)
            && (SignedByMe(c, PreFundTurnNum) <==> me in pre)
            && (SignedByMe(c, PostFundTurnNum) <==> me in post)
            && (Complete(c, PreFundTurnNum) <==> |pre| == |s.fixed.participants|)
            && (Complete(c, PostFundTurnNum) <==> |post| == |s.fixed.participants|)
  {
    SigsCount(s, pre);
    SigsCount(SetupState(s, PostFundTurnNum), post);
  }

  lemma OwnSignature(s: State, me: nat)
    requires DistinctParticipants(s.fixed.participants) && me < |s.fixed.participants|
    ensures AddSignatureTo(SignedState(s, map[]), Sign(s, s.fixed.participants[me])) == Ok(OneSignature(s, me))
    ensures IndexOf(s.fixed.participants, s.fixed.participants[me]) == me
  {
    IndexOfParticipant(s.fixed.participants, me);
  }

  /** An honest participant can always sign the prefund state: neither panic is reachable. */
  lemma SignPre(s: State, me: nat, held: int, pre: set<nat>, post: set<nat>)
    requires Opening(s, pre, post) && me < |s.fixed.participants|
    ensures Opening(s, pre + {me}, post)
    ensures var c := SetupChannel(s, me, held, pre, post);
            && PreFundTurnNum in c.signedStates
            && SignIfNeeded(c, PreFundTurnNum, s.fixed.participants[me])
               == Ok((SetupChannel(s, me, held, pre + {me}, post),
                      if me in pre then None else Some(OneSignature(s, me))))
  {
    SetupQueries(s, me, held, pre, post);
    AddPreSignature(s, me, held, pre, post, me);
    if me in pre {
      assert pre + {me} == pre;
    } else {
      OwnSignature(s, me);
      FullSet(post, |s.fixed.participants|);
      FullSet(pre, |s.fixed.participants|);
    }
  }

  /** Nor for the postfund state, once the prefund state is complete. */
  lemma SignPost(s: State, me: nat, held: int, pre: set<nat>, post: set<nat>)
    requires Opening(s, pre, post) && me < |s.fixed.participants| && |pre| == |s.fixed.participants|
    ensures Opening(s, pre, post + {me})
    ensures var c := SetupChannel(s, me, held, pre, post);
            && PostFundTurnNum in c.signedStates
            && SignIfNeeded(c, PostFundTurnNum, s.fixed.participants[me])
               == Ok((SetupChannel(s, me, held, pre, post + {me}),
                      if me in post then None else Some(OneSignature(SetupState(s, PostFundTurnNum), me))))
  {
    SetupQueries(s, me, held, pre, post);
    AddPostSignature(s, me, held, pre, post, me);
    if me in post {
      assert post + {me} == post;
    } else {
      OwnSignature(SetupState(s, PostFundTurnNum), me);
    }
  }
}

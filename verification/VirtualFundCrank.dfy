/** Cranking a virtual fund objective twice in a row does nothing more. */
module VirtualFundCrank {
  import opened Types
  import opened States
  import opened Consensus
  import opened Channels
  import opened Setup
  import opened Messages
  import opened VirtualFund

  /** The objective of an honest participant that has seen these signatures on the setup states. */
  ghost predicate Honest(o: Objective, s: State, pre: set<nat>, post: set<nat>) {
    && WellConnected(o)
    && |s.fixed.participants| == 3 && o.myRole < 3
    && Opening(s, pre, post)
    && o.v == SetupChannel(s, o.myRole, 0, pre, post)
    && (o.toMyLeft.Some? ==> Valid(o.toMyLeft.value.ledger))
    && (o.toMyRight.Some? ==> Valid(o.toMyRight.value.ledger))
  }

  /** There is nothing to do on a ledger until something arrives: it is funded, or its leader has
      proposed the guarantee, or its follower does not find it next in the queue. */
  ghost predicate UpToDate(c: Connection) {
    || Funded(c)
    || (c.ledger.role == Leader && IsProposed(c.ledger, ExpectedGuarantee(c.info)) == Ok(true))
    || (c.ledger.role == Follower && IsProposedNext(c.ledger, ExpectedGuarantee(c.info)) != Ok(true))
  }

  ghost predicate SideUpToDate(c: Option<Connection>) {
    c.Some? ==> UpToDate(c.value)
  }

  /** Working on a ledger leaves nothing to do, and finds nothing to do when it is tried again. */
  lemma UpdateLedgerTwice(c: Connection, key: Address)
    requires Valid(c.ledger) && !Funded(c) && UpdateLedger(c, key).Ok?
    ensures var c' := UpdateLedger(c, key).value.0;
            && Valid(c'.ledger) && c'.info == c.info && UpToDate(c')
            && (Funded(c') || UpdateLedger(c', key) == Ok((c', [])))
  {
    var l, g := c.ledger, ExpectedGuarantee(c.info);
    var c' := UpdateLedger(c, key).value.0;
    if l.role == Leader && IsProposed(l, g) == Ok(false) {
      ProposeKeeps(l, ExpectedProposal(c), key);
      assert IsProposed(c'.ledger, g) == Ok(true);
    } else if l.role == Follower && IsProposedNext(l, g) == Ok(true) {
      SignNextKeeps(l, ExpectedProposal(c), key);
      assert Funded(c');
    }
  }

  lemma FundSideTwice(c: Option<Connection>, key: Address)
    requires c.Some? ==> Valid(c.value.ledger)
    requires FundSide(c, key).Ok?
    ensures var c' := FundSide(c, key).value.0;
            && (c'.Some? <==> c.Some?) && (c'.Some? ==> Valid(c'.value.ledger)) && SideUpToDate(c')
            && FundSide(c', key) == Ok((c', []))
  {
    if c.Some? && !Funded(c.value) {
      UpdateLedgerTwice(c.value, key);
    }
  }

  lemma CrankFundingTwice(o: Objective, key: Address)
    requires WellConnected(o)
    requires (o.toMyLeft.Some? ==> Valid(o.toMyLeft.value.ledger))
             && (o.toMyRight.Some? ==> Valid(o.toMyRight.value.ledger))
    requires CrankFunding(o, key).Ok?
    ensures var o' := CrankFunding(o, key).value.0;
            CrankFunding(o', key) == Ok((o', []))
  {
    FundSideTwice(o.toMyLeft, key);
    FundSideTwice(o.toMyRight, key);
  }

  lemma CrankFundingKeepsValid(o: Objective, key: Address)
    requires WellConnected(o)
    requires (o.toMyLeft.Some? ==> Valid(o.toMyLeft.value.ledger))
             && (o.toMyRight.Some? ==> Valid(o.toMyRight.value.ledger))
    requires CrankFunding(o, key).Ok?
    ensures var o' := CrankFunding(o, key).value.0;
            && o'.myRole == o.myRole
            && (o'.toMyLeft.Some? ==> Valid(o'.toMyLeft.value.ledger))
            && (o'.toMyRight.Some? ==> Valid(o'.toMyRight.value.ledger))
            && SideUpToDate(o'.toMyLeft) && SideUpToDate(o'.toMyRight)
  {
    FundSideTwice(o.toMyLeft, key);
    FundSideTwice(o.toMyRight, key);
  }

  /** The messages with which participant `me` announces its signature, unless it has. */
  function Announce(s: State, who: set<nat>, me: nat): seq<Message>
    requires me < |s.fixed.participants|
  {
    if me in who then [] else ToOthers(OneSignature(s, me), me)
  }

  /** The objective with its channel as it is when these signatures have been seen. */
  ghost function Seen(o: Objective, s: State, pre: set<nat>, post: set<nat>): Objective
    requires Opening(s, pre, post)
  {
    o.(v := SetupChannel(s, o.myRole, 0, pre, post))
  }

  /** What cranking amounts to for an honest participant, in terms of who has signed. */
  ghost function HonestCrank(o: Objective, s: State, pre: set<nat>, post: set<nat>): Cranked
    requires Honest(o, s, pre, post) && Opening(s, pre + {o.myRole}, post)
    requires |pre + {o.myRole}| == 3 ==> Opening(s, pre + {o.myRole}, post + {o.myRole})
  {
    var me := o.myRole;
    var key, ms := s.fixed.participants[me], Announce(s, pre, me);
    if |pre + {me}| != 3 then Cranked(Seen(o, s, pre + {me}, post), ms, ForCompletePrefund, None)
    else HonestFromFunding(Seen(o, s, pre + {me}, post), s, pre + {me}, post, o, ms)
  }

  ghost function HonestFromFunding(updated: Objective, s: State, pre: set<nat>, post: set<nat>, o: Objective,
                                   ms: seq<Message>): Cranked
    requires WellConnected(updated) && updated.myRole < |s.fixed.participants|
    requires Opening(s, pre, post + {updated.myRole})
  {
    var me := updated.myRole;
    match CrankFunding(updated, s.fixed.participants[me])
    case Err(e) => Cranked(o, [], ForNothing, Some(e))
    case Ok((o1, ms1)) =>
      if !FundingComplete(o1) then Cranked(o1, ms + ms1, ForCompleteFunding, None)
      else
        var ms2 := Announce(SetupState(s, PostFundTurnNum), post, me);
        var o2 := o1.(v := SetupChannel(s, me, 0, pre, post + {me}));
        if |post + {me}| != 3 then Cranked(o2, ms + ms1 + ms2, ForCompletePostFund, None)
        else Cranked(o2.(status := Completed), ms + ms1 + ms2, ForNothing, None)
  }

  lemma PrefundStage(s: State, me: nat, pre: set<nat>, post: set<nat>)
    requires Opening(s, pre, post) && me < |s.fixed.participants|
    ensures Opening(s, pre + {me}, post)
    ensures var v := SetupChannel(s, me, 0, pre, post);
            var v' := SetupChannel(s, me, 0, pre + {me}, post);
            && PreFundTurnNum in v.signedStates && PostFundTurnNum in v.signedStates
            && (Complete(v', PreFundTurnNum) <==> |pre + {me}| == |s.fixed.participants|)
            && var r := SignIfNeeded(v, PreFundTurnNum, s.fixed.participants[me]);
               r.Ok? && r.value.0 == v' && MessagesFor(r.value.1, me) == Announce(s, pre, me)
  {
    SetupQueries(s, me, 0, pre, post);
    SignPre(s, me, 0, pre, post);
    SetupQueries(s, me, 0, pre + {me}, post);
  }

  lemma PostfundStage(o: Objective, s: State, pre: set<nat>, post: set<nat>)
    requires Opening(s, pre, post) && o.myRole < |s.fixed.participants| == |pre|
    requires o.v == SetupChannel(s, o.myRole, 0, pre, post)
    ensures Opening(s, pre, post + {o.myRole}) && PostFundTurnNum in o.v.signedStates
    ensures var o' := o.(v := SetupChannel(s, o.myRole, 0, pre, post + {o.myRole}));
            var ms := Announce(SetupState(s, PostFundTurnNum), post, o.myRole);
            CrankPostfund(o, s.fixed.participants[o.myRole])
            == if |post + {o.myRole}| != |s.fixed.participants| then Ok((o', ms, ForCompletePostFund))
               else Ok((o'.(status := Completed), ms, ForNothing))
  {
    SignPost(s, o.myRole, 0, pre, post);
    SetupQueries(s, o.myRole, 0, pre, post + {o.myRole});
  }

  lemma FromFundingShape(updated: Objective, s: State, pre: set<nat>, post: set<nat>, o: Objective, ms: seq<Message>)
    requires WellConnected(updated) && updated.myRole < |s.fixed.participants| == |pre| == 3
    requires Opening(s, pre, post) && updated.v == SetupChannel(s, updated.myRole, 0, pre, post)
    ensures Crankable(updated) && Opening(s, pre, post + {updated.myRole})
    ensures CrankFromFunding(updated, s.fixed.participants[updated.myRole], o, ms)
         == HonestFromFunding(updated, s, pre, post, o, ms)
  {
    PostfundStage(updated, s, pre, post);
    match CrankFunding(updated, s.fixed.participants[updated.myRole]) {
      case Err(_) =>
      case Ok((o1, _)) => PostfundStage(o1, s, pre, post);
    }
  }

  /** No panic is reachable for an honest participant, and the crank depends on the signatures seen
      only through who has signed. */
  lemma CrankShape(o: Objective, s: State, pre: set<nat>, post: set<nat>)
    requires Honest(o, s, pre, post) && o.status == Approved
    ensures Crankable(o) && Opening(s, pre + {o.myRole}, post)
    ensures |pre + {o.myRole}| == 3 ==> Opening(s, pre + {o.myRole}, post + {o.myRole})
    ensures Crank(o, s.fixed.participants[o.myRole]) == HonestCrank(o, s, pre, post)
  {
    PrefundStage(s, o.myRole, pre, post);
    if |pre + {o.myRole}| == 3 {
      FromFundingShape(Seen(o, s, pre + {o.myRole}, post), s, pre + {o.myRole}, post, o, Announce(s, pre, o.myRole));
    }
  }

  /** Cranking what a successful crank returned sends nothing and waits for the same thing, or finds
      the objective completed. */
  ghost predicate NothingMore(r: Cranked, key: Address) {
    && Crankable(r.objective)
    && Crank(r.objective, key)
       == if r.objective.status == Completed then Cranked(r.objective, [], ForNothing, Some(NotApproved))
          else Cranked(r.objective, [], r.waitingFor, None)
  }

  lemma CrankIsIdempotent(o: Objective, s: State, pre: set<nat>, post: set<nat>)
    requires Honest(o, s, pre, post) && o.status == Approved
    ensures Crankable(o)
    ensures var key := s.fixed.participants[o.myRole];
            Crank(o, key).failed == None ==> NothingMore(Crank(o, key), key)
  {
    var me, key := o.myRole, s.fixed.participants[o.myRole];
    CrankShape(o, s, pre, post);
    var r := Crank(o, key);
    assert pre + {me} + {me} == pre + {me} && post + {me} + {me} == post + {me};
    if |pre + {me}| != 3 {
      CrankShape(r.objective, s, pre + {me}, post);
    } else if r.failed == None {
      var o1 := CrankFunding(Seen(o, s, pre + {me}, post), key).value.0;
      CrankFundingTwice(Seen(o, s, pre + {me}, post), key);
      CrankFundingKeepsValid(Seen(o, s, pre + {me}, post), key);
      if !FundingComplete(o1) {
        CrankAgainWhileFunding(o1, s, pre + {me}, post);
      } else {
        CrankAgainAfterFunding(o1, s, pre + {me}, post + {me});
      }
    }
  }

  lemma CrankAgainWhileFunding(o: Objective, s: State, pre: set<nat>, post: set<nat>)
    requires Honest(o, s, pre, post) && o.status == Approved && o.myRole in pre && |pre| == 3
    requires CrankFunding(o, s.fixed.participants[o.myRole]) == Ok((o, [])) && !FundingComplete(o)
    ensures Crankable(o) && Crank(o, s.fixed.participants[o.myRole]) == Cranked(o, [], ForCompleteFunding, None)
  {
    assert pre + {o.myRole} == pre;
    CrankShape(o, s, pre, post);
  }

  lemma CrankAgainAfterFunding(o: Objective, s: State, pre: set<nat>, post: set<nat>)
    requires WellConnected(o) && o.myRole < 3 && |s.fixed.participants| == 3 && Opening(s, pre, post)
    requires o.status == Approved && o.myRole in pre && o.myRole in post && |pre| == 3
    requires (o.toMyLeft.Some? ==> Valid(o.toMyLeft.value.ledger))
             && (o.toMyRight.Some? ==> Valid(o.toMyRight.value.ledger))
    requires CrankFunding(o, s.fixed.participants[o.myRole]) == Ok((o, [])) && FundingComplete(o)
    ensures var o' := Seen(o, s, pre, post);
            && Crankable(o')
            && (|post| != 3 ==> Crank(o', s.fixed.participants[o.myRole]) == Cranked(o', [], ForCompletePostFund, None))
            && Crankable(o'.(status := Completed))
  {
    var o' := Seen(o, s, pre, post);
    assert pre + {o.myRole} == pre && post + {o.myRole} == post;
    CrankShape(o', s, pre, post);
  }

  /** What a crank that did not fail leaves behind: the participant has signed and done all it can,
      and waits for the first thing that is missing. */
  ghost predicate NothingUndone(r: Cranked) {
    var o := r.objective;
    var prefunded := Complete(o.v, PreFundTurnNum);
    var funded := prefunded && SideFunded(o.toMyLeft) && SideFunded(o.toMyRight);
    && SignedByMe(o.v, PreFundTurnNum)
    && (prefunded ==> SideUpToDate(o.toMyLeft) && SideUpToDate(o.toMyRight))
    && (funded ==> SignedByMe(o.v, PostFundTurnNum))
    && (o.status == Completed <==> funded && Complete(o.v, PostFundTurnNum))
    && r.waitingFor == if !prefunded then ForCompletePrefund
                       else if !funded then ForCompleteFunding
                       else if o.status != Completed then ForCompletePostFund else ForNothing
  }

  lemma FundingLeavesNothingUndone(updated: Objective, s: State, pre: set<nat>, post: set<nat>, o: Objective,
                                   ms: seq<Message>)
    requires Honest(updated, s, pre, post) && updated.status == Approved && updated.myRole in pre && |pre| == 3
    requires Opening(s, pre, post + {updated.myRole})
    ensures var r := HonestFromFunding(updated, s, pre, post, o, ms);
            r.failed == None ==> NothingUndone(r)
  {
    var me, key := updated.myRole, s.fixed.participants[updated.myRole];
    match CrankFunding(updated, key) {
      case Err(_) =>
      case Ok((o1, _)) =>
        CrankFundingKeepsValid(updated, key);
        if FundingComplete(o1) {
          SetupQueries(s, me, 0, pre, post + {me});
        } else {
          SetupQueries(s, me, 0, pre, post);
        }
    }
  }

  lemma CrankLeavesNothingUndone(o: Objective, s: State, pre: set<nat>, post: set<nat>)
    requires Honest(o, s, pre, post) && o.status == Approved
    ensures Crankable(o)
    ensures var r := Crank(o, s.fixed.participants[o.myRole]);
            r.failed == None ==> NothingUndone(r)
  {
    var me := o.myRole;
    CrankShape(o, s, pre, post);
    if |pre + {me}| == 3 {
      FundingLeavesNothingUndone(Seen(o, s, pre + {me}, post), s, pre + {me}, post, o, Announce(s, pre, me));
    } else {
      SetupQueries(s, me, 0, pre + {me}, post);
    }
  }
}

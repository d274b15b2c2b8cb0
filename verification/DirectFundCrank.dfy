/** Cranking a direct fund objective twice in a row does nothing more. */
module DirectFundCrank {
  import opened Types
  import opened States
  import opened Channels
  import opened Setup
  import opened Messages
  import opened VirtualFund
  import opened VirtualFundCrank
  import opened DirectFund

  /** The objective of an honest participant `me` that has seen these signatures. */
  ghost predicate HonestDirect(o: DirectObjective, s: State, me: nat, pre: set<nat>, post: set<nat>) {
    && Opening(s, pre, post) && me < |s.fixed.participants|
    && o.c == SetupChannel(s, me, o.c.onChainFunding, pre, post)
  }

  ghost function WithSeen(o: DirectObjective, s: State, me: nat, pre: set<nat>, post: set<nat>): DirectObjective
    requires Opening(s, pre, post)
  {
    o.(c := SetupChannel(s, me, o.c.onChainFunding, pre, post))
  }

  /** What cranking amounts to for an honest participant, in terms of who has signed. */
  ghost function HonestDirectCrank(o: DirectObjective, s: State, me: nat, pre: set<nat>, post: set<nat>): DirectCranked
    requires HonestDirect(o, s, me, pre, post) && Opening(s, pre + {me}, post)
    requires |pre + {me}| == |s.fixed.participants| ==> Opening(s, pre + {me}, post + {me})
  {
    var o1, ms := WithSeen(o, s, me, pre + {me}, post), Announce(s, pre, me);
    if |pre + {me}| != |s.fixed.participants| then DirectCranked(o1, ms, [], ForPrefund, None)
    else HonestDeposits(o1, s, me, pre + {me}, post, ms)
  }

  ghost function HonestDeposits(o: DirectObjective, s: State, me: nat, pre: set<nat>, post: set<nat>,
                                ms: seq<Message>): DirectCranked
    requires me < |s.fixed.participants| && Opening(s, pre, post + {me})
  {
    if FullyFunded(o) then
      var ms' := ms + Announce(SetupState(s, PostFundTurnNum), post, me);
      var o2 := WithSeen(o, s, me, pre, post + {me});
      if |post + {me}| != |s.fixed.participants| then DirectCranked(o2, ms', [], ForPostfund, None)
      else DirectCranked(o2.(status := Completed), ms', [], ForNothingMore, None)
    else if !SafeToDeposit(o) then DirectCranked(o, ms, [], ForMyTurn, None)
    else if AmountToDeposit(o) > 0 && !o.submitted
    then DirectCranked(o.(submitted := true), ms, [AmountToDeposit(o)], ForFunding, None)
    else DirectCranked(o, ms, [], ForFunding, None)
  }

  lemma DirectPrefundStage(o: DirectObjective, s: State, me: nat, pre: set<nat>, post: set<nat>)
    requires HonestDirect(o, s, me, pre, post)
    ensures DirectCrankable(o) && Opening(s, pre + {me}, post)
    ensures var c' := SetupChannel(s, me, o.c.onChainFunding, pre + {me}, post);
            && (Complete(c', PreFundTurnNum) <==> |pre + {me}| == |s.fixed.participants|)
            && var r := SignIfNeeded(o.c, PreFundTurnNum, s.fixed.participants[me]);
               r.Ok? && r.value.0 == c' && MessagesFor(r.value.1, me) == Announce(s, pre, me)
  {
    var held := o.c.onChainFunding;
    SetupQueries(s, me, held, pre, post);
    SignPre(s, me, held, pre, post);
    SetupQueries(s, me, held, pre + {me}, post);
  }

  lemma DirectPostfundStage(o: DirectObjective, s: State, me: nat, pre: set<nat>, post: set<nat>, ms: seq<Message>)
    requires HonestDirect(o, s, me, pre, post) && |pre| == |s.fixed.participants|
    ensures DirectCrankable(o) && Opening(s, pre, post + {me})
    ensures var o' := WithSeen(o, s, me, pre, post + {me});
            var ms' := ms + Announce(SetupState(s, PostFundTurnNum), post, me);
            CrankDirectPostfund(o, s.fixed.participants[me], ms)
            == if |post + {me}| != |s.fixed.participants| then DirectCranked(o', ms', [], ForPostfund, None)
               else DirectCranked(o'.(status := Completed), ms', [], ForNothingMore, None)
  {
    var held := o.c.onChainFunding;
    SetupQueries(s, me, held, pre, post);
    SignPost(s, me, held, pre, post);
    SetupQueries(s, me, held, pre, post + {me});
  }

  lemma DepositsShape(o: DirectObjective, s: State, me: nat, pre: set<nat>, post: set<nat>, ms: seq<Message>)
    requires HonestDirect(o, s, me, pre, post) && |pre| == |s.fixed.participants|
    ensures DirectCrankable(o) && Opening(s, pre, post + {me})
    ensures CrankDeposits(o, s.fixed.participants[me], ms) == HonestDeposits(o, s, me, pre, post, ms)
  {
    DirectPostfundStage(o, s, me, pre, post, ms);
  }

  /** No panic is reachable for an honest participant. */
  lemma DirectCrankShape(o: DirectObjective, s: State, me: nat, pre: set<nat>, post: set<nat>)
    requires HonestDirect(o, s, me, pre, post) && o.status == Approved
    ensures DirectCrankable(o) && Opening(s, pre + {me}, post)
    ensures |pre + {me}| == |s.fixed.participants| ==> Opening(s, pre + {me}, post + {me})
    ensures CrankDirect(o, s.fixed.participants[me]) == HonestDirectCrank(o, s, me, pre, post)
  {
    DirectPrefundStage(o, s, me, pre, post);
    if |pre + {me}| == |s.fixed.participants| {
      DepositsShape(WithSeen(o, s, me, pre + {me}, post), s, me, pre + {me}, post, Announce(s, pre, me));
    }
  }

  ghost predicate NothingMoreDirect(r: DirectCranked, key: Address) {
    && DirectCrankable(r.objective)
    && CrankDirect(r.objective, key)
       == if r.objective.status == Completed
          then DirectCranked(r.objective, [], [], ForNothingMore, Some(StatusNotApproved))
          else DirectCranked(r.objective, [], [], r.waitingFor, None)
  }

  /** A participant that has signed what it can and submitted what it can has nothing more to do. */
  lemma NothingToDo(o: DirectObjective, s: State, me: nat, pre: set<nat>, post: set<nat>)
    requires HonestDirect(o, s, me, pre, post) && o.status == Approved && me in pre
    requires |pre| == |s.fixed.participants| && FullyFunded(o) ==> me in post && |post| != |s.fixed.participants|
    requires |pre| == |s.fixed.participants| && !FullyFunded(o) && SafeToDeposit(o) ==>
               AmountToDeposit(o) <= 0 || o.submitted
    ensures DirectCrankable(o)
    ensures CrankDirect(o, s.fixed.participants[me])
         == DirectCranked(o, [], [],
              if |pre| != |s.fixed.participants| then ForPrefund
              else if FullyFunded(o) then ForPostfund else if !SafeToDeposit(o) then ForMyTurn else ForFunding, None)
  {
    assert pre + {me} == pre;
    DirectCrankShape(o, s, me, pre, post);
    if me in post {
      assert post + {me} == post;
    }
  }

  lemma NothingMoreAfter(o: DirectObjective, s: State, me: nat, pre: set<nat>, post: set<nat>, r: DirectCranked)
    requires HonestDirect(o, s, me, pre, post) && o.status == Approved && Opening(s, pre + {me}, post)
    requires |pre + {me}| == |s.fixed.participants| ==> Opening(s, pre + {me}, post + {me})
    requires r == HonestDirectCrank(o, s, me, pre, post)
    ensures NothingMoreDirect(r, s.fixed.participants[me])
  {
    var post' := if |pre + {me}| == |s.fixed.participants| && FullyFunded(o) then post + {me} else post;
    assert HonestDirect(r.objective, s, me, pre + {me}, post');
    if r.objective.status == Approved {
      NothingToDo(r.objective, s, me, pre + {me}, post');
    } else {
      DirectPrefundStage(r.objective, s, me, pre + {me}, post');
    }
  }

  /** Cranking what a crank returned sends nothing, submits nothing and waits for the same thing, or
      finds the objective completed. */
  lemma DirectCrankIsIdempotent(o: DirectObjective, s: State, me: nat, pre: set<nat>, post: set<nat>)
    requires HonestDirect(o, s, me, pre, post) && o.status == Approved
    ensures DirectCrankable(o)
    ensures NothingMoreDirect(CrankDirect(o, s.fixed.participants[me]), s.fixed.participants[me])
  {
    DirectCrankShape(o, s, me, pre, post);
    NothingMoreAfter(o, s, me, pre, post, CrankDirect(o, s.fixed.participants[me]));
  }

  /** What a crank leaves behind: the participant has signed all it can, has submitted a deposit if
      it is its turn and something is due, and waits for the first thing that is missing. */
  ghost predicate NothingUndone(r: DirectCranked) {
    var o, held := r.objective, r.objective.c.onChainFunding;
    var prefunded := Complete(o.c, PreFundTurnNum);
    var funded := prefunded && held >= o.fullyFunded;
    && SignedByMe(o.c, PreFundTurnNum)
    && (prefunded && !funded && o.safetyThreshold <= held < o.depositTarget ==> o.submitted)
    && (funded ==> SignedByMe(o.c, PostFundTurnNum))
    && (o.status == Completed <==> funded && Complete(o.c, PostFundTurnNum))
    && r.waitingFor == if !prefunded then ForPrefund
                       else if !funded then (if held >= o.safetyThreshold then ForFunding else ForMyTurn)
                       else if o.status != Completed then ForPostfund else ForNothingMore
  }

  lemma DepositsLeaveNothingUndone(o: DirectObjective, s: State, me: nat, pre: set<nat>, post: set<nat>,
                                   ms: seq<Message>, r: DirectCranked)
    requires HonestDirect(o, s, me, pre, post) && o.status == Approved && me in pre && |pre| == |s.fixed.participants|
    requires Opening(s, pre, post + {me}) && r == HonestDeposits(o, s, me, pre, post, ms)
    ensures r.failed == None && NothingUndone(r)
    ensures r.deposits == if r.objective.submitted == o.submitted then [] else [o.depositTarget - o.c.onChainFunding]
  {
    if FullyFunded(o) {
      SetupQueries(s, me, o.c.onChainFunding, pre, post + {me});
    } else {
      SetupQueries(s, me, o.c.onChainFunding, pre, post);
    }
  }

  lemma NothingUndoneBefore(o: DirectObjective, s: State, me: nat, pre: set<nat>, post: set<nat>, r: DirectCranked)
    requires HonestDirect(o, s, me, pre, post) && o.status == Approved && me in pre && |pre| != |s.fixed.participants|
    requires r == DirectCranked(o, r.messages, [], ForPrefund, None)
    ensures NothingUndone(r)
  {
    SetupQueries(s, me, o.c.onChainFunding, pre, post);
  }

  lemma NothingUndoneAfter(o: DirectObjective, s: State, me: nat, pre: set<nat>, post: set<nat>, r: DirectCranked)
    requires HonestDirect(o, s, me, pre, post) && o.status == Approved && Opening(s, pre + {me}, post)
    requires |pre + {me}| == |s.fixed.participants| ==> Opening(s, pre + {me}, post + {me})
    requires r == HonestDirectCrank(o, s, me, pre, post)
    ensures r.failed == None && NothingUndone(r)
    ensures r.deposits == if r.objective.submitted == o.submitted then [] else [o.depositTarget - o.c.onChainFunding]
  {
    var o1 := WithSeen(o, s, me, pre + {me}, post);
    if |pre + {me}| == |s.fixed.participants| {
      DepositsLeaveNothingUndone(o1, s, me, pre + {me}, post, Announce(s, pre, me), r);
    } else {
      NothingUndoneBefore(o1, s, me, pre + {me}, post, r);
    }
  }

  /** And it submits a deposit exactly when it marks one as submitted, of what is missing to its target. */
  lemma CrankLeavesNothingUndone(o: DirectObjective, s: State, me: nat, pre: set<nat>, post: set<nat>)
    requires HonestDirect(o, s, me, pre, post) && o.status == Approved
    ensures DirectCrankable(o)
    ensures var r := CrankDirect(o, s.fixed.participants[me]);
            && r.failed == None && NothingUndone(r)
            && r.deposits == if r.objective.submitted == o.submitted then [] else [o.depositTarget - o.c.onChainFunding]
  {
    DirectCrankShape(o, s, me, pre, post);
    NothingUndoneAfter(o, s, me, pre, post, CrankDirect(o, s.fixed.participants[me]));
  }
}

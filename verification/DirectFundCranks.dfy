/** Cranking keeps the invariant of direct funding. */
module DirectFundCranks {
  import opened Types
  import opened States
  import opened Channels
  import opened Setup
  import opened Messages
  import opened VirtualFund
  import opened VirtualFundCrank
  import opened DirectFund
  import opened DirectFundCrank
  import opened DirectFundWorld
  import opened DirectFundMoney
  import opened DirectFundSteps

  /** What a crank comes to, in terms of who has signed and of what is submitted. */
  ghost predicate CrankEffect(s: State, p: nat, o: DirectObjective, pre: set<nat>, post: set<nat>, r: DirectCranked,
                              post': set<nat>)
    requires p < |s.fixed.participants|
  {
    && r.failed == None
    && HonestDirect(r.objective, s, p, pre + {p}, post')
    && (r.objective.status == Completed ==> |post'| == |s.fixed.participants|)
    && (post' == post || (post' == post + {p} && |pre + {p}| == |s.fixed.participants| && FullyFunded(o)))
    && (forall x :: x in StatesIn(r.messages) ==>
          x.ss == OneSignature(s, p) || (x.ss == OneSignature(SetupState(s, PostFundTurnNum), p) && p in post'))
    && (if r.deposits == [] then SameStake(o, r.objective)
        else DepositIsDue(o) && r.deposits == [AmountToDeposit(o)] && SameStake(o.(submitted := true), r.objective))
  }

  lemma AnnounceCarries(s: State, who: set<nat>, me: nat)
    requires me < |s.fixed.participants|
    ensures forall x :: x in StatesIn(Announce(s, who, me)) ==> x.ss == OneSignature(s, me)
  {
    StateMessagesCarry(OneSignature(s, me), me);
  }

  /** A crank announces the party's own signatures and nothing else. */
  lemma CrankAnnounces(o: DirectObjective, s: State, p: nat, pre: set<nat>, post: set<nat>, x: Letter)
    requires HonestDirect(o, s, p, pre, post) && Opening(s, pre + {p}, post)
    requires |pre + {p}| == |s.fixed.participants| ==> Opening(s, pre + {p}, post + {p})
    requires x in StatesIn(HonestDirectCrank(o, s, p, pre, post).messages)
    ensures x.ss == OneSignature(s, p)
            || (x.ss == OneSignature(SetupState(s, PostFundTurnNum), p) && |pre + {p}| == |s.fixed.participants|
                && FullyFunded(o))
  {
    AnnounceCarries(s, pre, p);
    if |pre + {p}| == |s.fixed.participants| && FullyFunded(o) {
      AnnounceCarries(SetupState(s, PostFundTurnNum), post, p);
      JoinedMessages(Announce(s, pre, p), Announce(SetupState(s, PostFundTurnNum), post, p));
    }
  }

  lemma EffectOf(o: DirectObjective, s: State, p: nat, pre: set<nat>, post: set<nat>, r: DirectCranked, post': set<nat>)
    requires HonestDirect(o, s, p, pre, post) && o.status == Approved && Opening(s, pre + {p}, post)
    requires |pre + {p}| == |s.fixed.participants| ==> Opening(s, pre + {p}, post + {p})
    requires r == HonestDirectCrank(o, s, p, pre, post)
    requires post' == if |pre + {p}| == |s.fixed.participants| && FullyFunded(o) then post + {p} else post
    ensures CrankEffect(s, p, o, pre, post, r, post')
  {
    forall x | x in StatesIn(r.messages)
      ensures x.ss == OneSignature(s, p) || (x.ss == OneSignature(SetupState(s, PostFundTurnNum), p) && p in post')
    {
      CrankAnnounces(o, s, p, pre, post, x);
    }
  }

  lemma HonestEffect(o: DirectObjective, s: State, p: nat, pre: set<nat>, post: set<nat>) returns (post': set<nat>)
    requires HonestDirect(o, s, p, pre, post) && o.status == Approved
    ensures DirectCrankable(o) && CrankEffect(s, p, o, pre, post, CrankDirect(o, s.fixed.participants[p]), post')
  {
    DirectCrankShape(o, s, p, pre, post);
    post' := if |pre + {p}| == |s.fixed.participants| && FullyFunded(o) then post + {p} else post;
    EffectOf(o, s, p, pre, post, CrankDirect(o, s.fixed.participants[p]), post');
  }

  lemma CrankBeliefs(w: World, p: nat, pre: set<nat>, post: set<nat>, r: DirectCranked, post': set<nat>)
    requires Beliefs(w) && p < |w.parties| && CrankEffect(w.s, p, w.parties[p], pre, post, r, post')
    ensures Beliefs(AfterCrank(w, p, r))
  {
    var w' := AfterCrank(w, p, r);
    if r.deposits == [] {
      assert w.deposits + [] == w.deposits;
      SameBeliefs(w, w');
    } else {
      SubmitBeliefs(w, p);
      assert Submitted(p, r.deposits) == [Deposit(p, AmountToDeposit(w.parties[p]), false)];
      SameBeliefs(Submitting(w, p), w');
    }
  }

  lemma CrankMoney(w: World, p: nat, pre: set<nat>, post: set<nat>, r: DirectCranked, post': set<nat>)
    requires Beliefs(w) && MoneyInPlace(w) && p < |w.parties|
    requires CrankEffect(w.s, p, w.parties[p], pre, post, r, post')
    ensures MoneyInPlace(AfterCrank(w, p, r))
  {
    var w' := AfterCrank(w, p, r);
    if r.deposits == [] {
      assert w.deposits + [] == w.deposits;
      SameMoneyInPlace(w, w');
    } else {
      SubmitMoney(w, p);
      assert Submitted(p, r.deposits) == [Deposit(p, AmountToDeposit(w.parties[p]), false)];
      SameMoneyInPlace(Submitting(w, p), w');
    }
  }

  lemma CrankViews(w: World, c: Account, p: nat, r: DirectCranked, post': set<nat>, w': World, c': Account)
    requires Accounts(c, w) && p < |w.parties| && CrankEffect(w.s, p, w.parties[p], c.pre[p], c.post[p], r, post')
    requires w' == AfterCrank(w, p, r) && c' == Account(c.pre[p := c.pre[p] + {p}], c.post[p := post'])
    ensures Views(c', w')
  {
    assert PartySaw(w, c, p) && SignedWhenFunded(w, c, p) && SignedByOwner(c, p) && Believes(w, p);
    AlreadyFull(c.pre[p], |w.parties|, p);
    assert NewCirculated(w, w', c') by {
      forall x | x in w'.states && x !in w.states ensures Circulated(w', c', x.ss) {
        assert IsSetupSignature(w', c', x.ss, p);
      }
    }
    ViewsCarry(w, c, w', c', p);
  }

  lemma CrankStep(w: World, c: Account, p: nat) returns (c': Account)
    requires Accounts(c, w)
    ensures Accounts(c', NextWorld(w, CrankParty(p)))
  {
    c' := c;
    if p < |w.parties| && DirectCrankable(w.parties[p]) {
      var o, key := w.parties[p], w.s.fixed.participants[p];
      assert PartySaw(w, c, p);
      if o.status == Approved {
        var r := CrankDirect(o, key);
        var post' := HonestEffect(o, w.s, p, c.pre[p], c.post[p]);
        c' := Account(c.pre[p := c.pre[p] + {p}], c.post[p := post']);
        CrankBeliefs(w, p, c.pre[p], c.post[p], r, post');
        CrankViews(w, c, p, r, post', AfterCrank(w, p, r), c');
      } else {
        NothingCranked(w, p);
      }
    }
  }

  lemma CrankMoneyStep(w: World, c: Account, p: nat)
    requires Accounts(c, w) && MoneyInPlace(w)
    ensures MoneyInPlace(NextWorld(w, CrankParty(p)))
  {
    if p < |w.parties| && DirectCrankable(w.parties[p]) {
      assert PartySaw(w, c, p);
      if w.parties[p].status == Approved {
        var post' := HonestEffect(w.parties[p], w.s, p, c.pre[p], c.post[p]);
        CrankMoney(w, p, c.pre[p], c.post[p], CrankDirect(w.parties[p], w.s.fixed.participants[p]), post');
      } else {
        NothingCranked(w, p);
      }
    }
  }

  lemma NothingCranked(w: World, p: nat)
    requires Peopled(w) && p < |w.parties| && DirectCrankable(w.parties[p]) && w.parties[p].status != Approved
    ensures NextWorld(w, CrankParty(p)) == w
  {
    assert w.deposits + [] == w.deposits;
    assert w.states + StatesIn([]) == w.states;
    assert w.parties[p := w.parties[p]] == w.parties;
  }
}

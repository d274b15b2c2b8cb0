/** What participants of direct funding have seen of each other, and that approval, chain steps and
    the delivery of signatures keep it. */
module DirectFundSteps {
  import opened Channels
  import opened Setup
  import opened VirtualFund
  import opened DirectFund
  import opened DirectFundCrank
  import opened DirectFundWorld

  /** Who has seen whose signatures. */
  datatype Account = Account(pre: seq<set<nat>>, post: seq<set<nat>>)

  ghost predicate Covers(c: Account, w: World) {
    Fundable(w.s) && Peopled(w) && |c.pre| == |c.post| == |w.parties|
  }

  ghost predicate PartySaw(w: World, c: Account, k: nat)
    requires Covers(c, w) && k < |w.parties|
  {
    && HonestDirect(w.parties[k], w.s, k, c.pre[k], c.post[k])
    && (w.parties[k].status == Completed ==> |c.post[k]| == |w.parties|)
  }

  /** Whoever has signed the postfund state had all prefund signatures, and the channel was funded. */
  ghost predicate SignedWhenFunded(w: World, c: Account, k: nat)
    requires Covers(c, w) && k < |w.parties|
  {
    k in c.post[k] ==> |c.pre[k]| == |w.parties| && w.held >= Whole(w.s)
  }

  ghost predicate SignedByOwner(c: Account, k: nat)
    requires k < |c.post|
  {
    forall q :: q in c.post[k] ==> q < |c.post| && q in c.post[q]
  }

  ghost predicate IsSetupSignature(w: World, c: Account, ss: SignedState, i: nat)
    requires Covers(c, w) && i < |w.parties|
  {
    ss == OneSignature(w.s, i) || (ss == OneSignature(SetupState(w.s, PostFundTurnNum), i) && i in c.post[i])
  }

  ghost predicate Circulated(w: World, c: Account, ss: SignedState)
    requires Covers(c, w)
  {
    exists i :: 0 <= i < |w.parties| && IsSetupSignature(w, c, ss, i)
  }

  ghost predicate Views(c: Account, w: World) {
    && Covers(c, w)
    && (forall k :: 0 <= k < |w.parties| ==> PartySaw(w, c, k))
    && (forall k :: 0 <= k < |w.parties| ==> SignedWhenFunded(w, c, k))
    && (forall k :: 0 <= k < |w.parties| ==> SignedByOwner(c, k))
    && (forall x :: x in w.states ==> Circulated(w, c, x.ss))
  }

  ghost predicate Accounts(c: Account, w: World) {
    Beliefs(w) && Views(c, w)
  }

  /** Only party p's view may have changed, and no money was taken away. */
  ghost predicate OthersSame(w: World, c: Account, w': World, c': Account, p: nat) {
    && Covers(c, w) && Covers(c', w') && w'.s == w.s && w'.held >= w.held
    && forall q :: 0 <= q < |w.parties| && q != p ==>
         w'.parties[q] == w.parties[q] && c'.pre[q] == c.pre[q] && c'.post[q] == c.post[q]
  }

  ghost predicate NewCirculated(w: World, w': World, c': Account)
    requires Covers(c', w')
  {
    forall x :: x in w'.states ==> x in w.states || Circulated(w', c', x.ss)
  }

  lemma ViewsCarry(w: World, c: Account, w': World, c': Account, p: nat)
    requires Views(c, w) && p < |w.parties| && OthersSame(w, c, w', c', p) && c.post[p] <= c'.post[p]
    requires PartySaw(w', c', p) && SignedWhenFunded(w', c', p) && SignedByOwner(c', p) && NewCirculated(w, w', c')
    ensures Views(c', w')
  {
    forall q | 0 <= q < |w'.parties|
      ensures PartySaw(w', c', q) && SignedWhenFunded(w', c', q) && SignedByOwner(c', q)
    {
      assert PartySaw(w, c, q) && SignedWhenFunded(w, c, q) && SignedByOwner(c, q);
    }
    forall x | x in w'.states ensures Circulated(w', c', x.ss) {
      if x in w.states {
        var ss := x.ss;
        assert Circulated(w, c, ss);
        var i :| 0 <= i < |w.parties| && IsSetupSignature(w, c, ss, i);
        assert IsSetupSignature(w', c', ss, i);
      }
    }
  }

  /** A step of the chain, or one that changes no more of party p than its status or what it
      believes is held. */
  lemma OtherViews(w: World, c: Account, w': World, p: nat)
    requires Views(c, w) && p < |w.parties| && Covers(c, w') && OthersSame(w, c, w', c, p) && w'.states == w.states
    requires w'.parties[p].c == w.parties[p].c.(onChainFunding := w'.parties[p].c.onChainFunding)
    requires w'.parties[p].status == Completed ==> w.parties[p].status == Completed
    ensures Views(c, w')
  {
    assert PartySaw(w, c, p) && SignedWhenFunded(w, c, p) && SignedByOwner(c, p);
    ViewsCarry(w, c, w', c, p);
  }

  // ------------------------------------------------------------------
  // Delivering signatures
  // ------------------------------------------------------------------

  lemma SeesPrefund(w: World, c: Account, p: nat, i: nat, w': World, c': Account)
    requires Views(c, w) && p < |w.parties| && i < |w.parties|
    requires w' == w.(parties := w.parties[p := UpdateWithState(w.parties[p], OneSignature(w.s, i), [i])])
    requires c' == c.(pre := c.pre[p := c.pre[p] + {i}])
    ensures Views(c', w')
  {
    assert PartySaw(w, c, p) && SignedWhenFunded(w, c, p) && SignedByOwner(c, p);
    AddPreSignature(w.s, p, w.parties[p].c.onChainFunding, c.pre[p], c.post[p], i);
    AlreadyFull(c.pre[p], |w.parties|, i);
    ViewsCarry(w, c, w', c', p);
  }

  lemma SeesPostfund(w: World, c: Account, p: nat, i: nat, w': World, c': Account)
    requires Views(c, w) && p < |w.parties| && i < |w.parties| && i in c.post[i]
    requires var ss := OneSignature(SetupState(w.s, PostFundTurnNum), i);
             w' == w.(parties := w.parties[p := UpdateWithState(w.parties[p], ss, [i])])
    requires c' == c.(post := c.post[p := c.post[p] + {i}])
    ensures Views(c', w')
  {
    assert PartySaw(w, c, p) && SignedWhenFunded(w, c, p) && SignedByOwner(c, p);
    PostSignatureFits(w, c, p, i);
    AddPostSignature(w.s, p, w.parties[p].c.onChainFunding, c.pre[p], c.post[p], i);
    AlreadyFull(c.post[p], |w.parties|, i);
    ViewsCarry(w, c, w', c', p);
  }

  /** Whoever has all postfund signatures has its own, and so had all prefund signatures. */
  lemma PostSignatureFits(w: World, c: Account, p: nat, i: nat)
    requires Views(c, w) && p < |w.parties| && i < |w.parties| && i in c.post[i]
    ensures Opening(w.s, c.pre[p], c.post[p] + {i})
  {
    assert PartySaw(w, c, p) && SignedWhenFunded(w, c, p);
    if |c.post[p] + {i}| == |w.parties| {
      FullMeansAll(c.post[p] + {i}, |w.parties|, p);
    }
  }

  lemma DeliverStep(w: World, c: Account, p: nat, ss: SignedState, order: seq<nat>) returns (c': Account)
    requires Accounts(c, w)
    ensures Accounts(c', NextWorld(w, DeliverState(p, ss, order)))
  {
    c' := c;
    if p < |w.parties| && Sent(w, p, ss) && IsOrder(order, ss.sigs) {
      var w' := NextWorld(w, DeliverState(p, ss, order));
      SameBeliefs(w, w');
      assert Circulated(w, c, ss);
      var i :| 0 <= i < |w.parties| && IsSetupSignature(w, c, ss, i);
      SingleOrder(order, ss.state, i);
      if ss == OneSignature(w.s, i) {
        c' := c.(pre := c.pre[p := c.pre[p] + {i}]);
        SeesPrefund(w, c, p, i, w', c');
      } else {
        c' := c.(post := c.post[p := c.post[p] + {i}]);
        SeesPostfund(w, c, p, i, w', c');
      }
    }
  }

  lemma ApproveStep(w: World, c: Account, p: nat)
    requires Accounts(c, w)
    ensures Accounts(c, NextWorld(w, Approve(p)))
  {
    var w' := NextWorld(w, Approve(p));
    if w' != w {
      SameBeliefs(w, w');
      OtherViews(w, c, w', p);
    }
  }

  lemma ObserveStep(w: World, c: Account, p: nat, e: ChainEvent)
    requires Accounts(c, w)
    ensures Accounts(c, NextWorld(w, Observe(p, e)))
  {
    ObserveBeliefs(w, p, e);
    var w' := NextWorld(w, Observe(p, e));
    if w' != w {
      OtherViews(w, c, w', p);
    }
  }

  lemma ProcessStep(w: World, c: Account, i: nat)
    requires Accounts(c, w)
    ensures Accounts(c, NextWorld(w, Process(i)))
  {
    ProcessBeliefs(w, i);
    OtherViews(w, c, NextWorld(w, Process(i)), 0);
  }

  lemma DepositByOtherStep(w: World, c: Account, amount: int)
    requires Accounts(c, w)
    ensures Accounts(c, NextWorld(w, DepositByOther(amount)))
  {
    DepositByOtherBeliefs(w, amount);
    OtherViews(w, c, NextWorld(w, DepositByOther(amount)), 0);
  }

  lemma TickStep(w: World, c: Account)
    requires Accounts(c, w)
    ensures Accounts(c, NextWorld(w, Tick))
  {
    SameBeliefs(w, NextWorld(w, Tick));
    OtherViews(w, c, NextWorld(w, Tick), 0);
  }
}

/** Approval, ledger steps and the delivery of signatures keep the invariant of virtual funding. */
module VirtualFundSteps {
  import opened States
  import opened LedgerRun
  import opened Channels
  import opened Setup
  import opened VirtualFund
  import opened GuaranteeRun
  import opened VirtualFundWorld

  /** Only party p's view may have changed. */
  ghost predicate OthersSame(w: World, c: Account, w': World, c': Account, p: nat) {
    && |w.parties| == |w'.parties| == |c.pre| == |c'.pre| == |c.post| == |c'.post| == 3
    && forall q :: 0 <= q < 3 && q != p ==>
         w'.parties[q] == w.parties[q] && c'.pre[q] == c.pre[q] && c'.post[q] == c.post[q]
  }

  ghost predicate NewCirculated(w: World, w': World, c': Account)
    requires Shaped(w') && |c'.post| == 3
  {
    forall x :: x in w'.states ==> x in w.states || Circulated(w', c', x.ss)
  }

  /** What has to be shown of a step in which at most party p acts. */
  lemma ViewsCarry(w: World, c: Account, w': World, c': Account, p: nat)
    requires Views(c, w) && p < 3 && LedgersMoved(w, w') && Shaped(w')
    requires OthersSame(w, c, w', c', p)
    requires c.post[p] <= c'.post[p]
    requires PartySeen(w', c', p) && SignedWhenFunded(w', c', p) && SignedByOwner(c', p)
    requires NewCirculated(w, w', c')
    ensures Views(c', w')
  {
    MovedKeepsShape(w, w');
    forall q | 0 <= q < 3 ensures PartySeen(w', c', q) && SignedWhenFunded(w', c', q) && SignedByOwner(c', q) {
      assert PartySeen(w, c, q) && SignedWhenFunded(w, c, q) && SignedByOwner(c, q);
    }
    forall x | x in w'.states ensures Circulated(w', c', x.ss) {
      if x in w.states {
        var ss := x.ss;
        assert Circulated(w, c, ss);
        var i :| 0 <= i < 3 && IsSetupSignature(w, c, ss, i);
        assert IsSetupSignature(w', c', ss, i);
      }
    }
  }

  /** Nothing on the ledgers has changed. */
  ghost predicate OnlyParties(w: World, w': World) {
    w'.s == w.s && w'.leftLeads == w.leftLeads && w'.ledgers == w.ledgers && |w'.parties| == 3
  }

  lemma SameLedgers(w: World, w': World)
    requires Shaped(w) && OnlyParties(w, w')
    ensures LedgersMoved(w, w') && Shaped(w')
    ensures forall p :: 0 <= p < 3 && PartyFunded(w, p) ==> PartyFunded(w', p)
  {
    MovedKeepsShape(w, w');
  }

  lemma SameTracks(w: World, c: Account, w': World, c': Account)
    requires Shaped(w) && LedgersOnTrack(w, c) && OnlyParties(w, w') && c'.histories == c.histories
    ensures Shaped(w') && LedgersOnTrack(w', c')
  {
    MovedKeepsShape(w, w');
  }

  lemma ApproveViews(w: World, c: Account, p: nat, w': World)
    requires Views(c, w) && p < 3 && w' == w.(parties := w.parties[p := w.parties[p].(status := Approved)])
    ensures Views(c, w')
  {
    SameLedgers(w, w');
    assert PartySeen(w, c, p) && SignedWhenFunded(w, c, p) && SignedByOwner(c, p);
    ViewsCarry(w, c, w', c, p);
  }

  lemma ApproveStep(w: World, c: Account, p: nat)
    requires Accounts(c, w)
    ensures Accounts(c, NextWorld(w, Approve(p)))
  {
    var w' := NextWorld(w, Approve(p));
    if w' != w {
      SameTracks(w, c, w', c);
      ApproveViews(w, c, p, w');
    }
  }

  lemma OtherViews(w: World, c: Account, w': World, c': Account)
    requires Views(c, w) && LedgersMoved(w, w') && w'.parties == w.parties && w'.states == w.states
    requires c'.pre == c.pre && c'.post == c.post
    ensures Views(c', w')
  {
    MovedKeepsShape(w, w');
    assert PartySeen(w, c, 0) && SignedWhenFunded(w, c, 0) && SignedByOwner(c, 0);
    ViewsCarry(w, c, w', c', 0);
  }

  lemma OtherStep(w: World, c: Account, e: nat, step: Step) returns (c': Account)
    requires Accounts(c, w)
    ensures Accounts(c', NextWorld(w, Other(e, step)))
  {
    c' := c;
    if e < 2 && Minds(step, w.s.fixed.channelId) {
      var w' := NextWorld(w, Other(e, step));
      var h := StepKeepsTrack(w.ledgers[e], c.histories[e], Expected(w, e), step);
      c' := c.(histories := c.histories[e := h]);
      MovedKeepsShape(w, w');
      OtherViews(w, c, w', c');
    }
  }

  /** Taking in a signed state only touches the channel. */
  lemma DeliveryUpdatesChannel(w: World, p: nat, ss: SignedState, order: seq<nat>)
    requires Shaped(w) && p < 3 && Sent(w, p, ss) && IsOrder(order, ss.sigs)
    requires ss.state.fixed == w.s.fixed == w.parties[p].v.fixed
    ensures NextWorld(w, DeliverState(p, ss, order))
         == w.(parties := w.parties[p := w.parties[p].(v := AddSignedStateTo(w.parties[p].v, ss, order).0)])
  {
  }

  lemma SeesPrefund(s: State, p: nat, party: Party, pre: set<nat>, post: set<nat>, i: nat)
    requires Saw(s, p, party, pre, post) && i < 3
    ensures Saw(s, p, party.(v := AddSignedStateTo(party.v, OneSignature(s, i), [i]).0), pre + {i}, post)
    ensures |pre| == 3 ==> |pre + {i}| == 3
  {
    AddPreSignature(s, p, 0, pre, post, i);
    FullSet(pre, 3);
    if |pre| == 3 {
      assert pre + {i} == pre;
    }
  }

  lemma SeesPostfund(s: State, p: nat, party: Party, pre: set<nat>, post: set<nat>, i: nat)
    requires Saw(s, p, party, pre, post) && i < 3 && Opening(s, pre, post + {i})
    ensures Saw(s, p, party.(v := AddSignedStateTo(party.v, OneSignature(SetupState(s, PostFundTurnNum), i), [i]).0),
                pre, post + {i})
  {
    AddPostSignature(s, p, 0, pre, post, i);
    FullSet(post, 3);
    if |post| == 3 {
      assert post + {i} == post;
    }
  }

  lemma DeliverPrefund(w: World, c: Account, p: nat, i: nat, w': World, c': Account)
    requires Views(c, w) && p < 3 && i < 3 && c' == c.(pre := c.pre[p := c.pre[p] + {i}])
    requires var v := AddSignedStateTo(w.parties[p].v, OneSignature(w.s, i), [i]).0;
             w' == w.(parties := w.parties[p := w.parties[p].(v := v)])
    ensures Views(c', w')
  {
    assert PartySeen(w, c, p) && SignedWhenFunded(w, c, p) && SignedByOwner(c, p);
    SeesPrefund(w.s, p, w.parties[p], c.pre[p], c.post[p], i);
    SameLedgers(w, w');
    ViewsCarry(w, c, w', c', p);
  }

  lemma DeliverPostfund(w: World, c: Account, p: nat, i: nat, w': World, c': Account)
    requires Views(c, w) && p < 3 && i < 3 && i in c.post[i] && c' == c.(post := c.post[p := c.post[p] + {i}])
    requires w' == w.(parties := w.parties[p := w.parties[p].(
                    v := AddSignedStateTo(w.parties[p].v, OneSignature(SetupState(w.s, PostFundTurnNum), i), [i]).0)])
    ensures Views(c', w')
  {
    assert PartySeen(w, c, p) && SignedWhenFunded(w, c, p) && SignedByOwner(c, p);
    PostSignatureFits(w, c, p, i);
    SeesPostfund(w.s, p, w.parties[p], c.pre[p], c.post[p], i);
    SameLedgers(w, w');
    ViewsCarry(w, c, w', c', p);
  }

  /** Taking in a signed state that was sent. */
  lemma DeliverViews(w: World, c: Account, p: nat, ss: SignedState, order: seq<nat>) returns (c': Account)
    requires Views(c, w) && p < 3 && Sent(w, p, ss) && IsOrder(order, ss.sigs)
    ensures Views(c', NextWorld(w, DeliverState(p, ss, order))) && c'.histories == c.histories
    ensures OnlyParties(w, NextWorld(w, DeliverState(p, ss, order)))
  {
    assert Circulated(w, c, ss) && PartySeen(w, c, p);
    var i :| 0 <= i < 3 && IsSetupSignature(w, c, ss, i);
    SingleOrder(order, ss.state, i);
    DeliveryUpdatesChannel(w, p, ss, order);
    var w' := NextWorld(w, DeliverState(p, ss, order));
    if ss == OneSignature(w.s, i) {
      c' := c.(pre := c.pre[p := c.pre[p] + {i}]);
      DeliverPrefund(w, c, p, i, w', c');
    } else {
      c' := c.(post := c.post[p := c.post[p] + {i}]);
      DeliverPostfund(w, c, p, i, w', c');
    }
  }

  lemma DeliverStep(w: World, c: Account, p: nat, ss: SignedState, order: seq<nat>) returns (c': Account)
    requires Accounts(c, w)
    ensures Accounts(c', NextWorld(w, DeliverState(p, ss, order)))
  {
    c' := c;
    if p < 3 && Sent(w, p, ss) && IsOrder(order, ss.sigs) {
      c' := DeliverViews(w, c, p, ss, order);
      SameTracks(w, c, NextWorld(w, DeliverState(p, ss, order)), c');
    }
  }

  /** Whoever has all postfund signatures has its own, and so had all prefund signatures. */
  lemma PostSignatureFits(w: World, c: Account, p: nat, i: nat)
    requires Views(c, w) && p < 3 && i < 3 && i in c.post[i]
    ensures Opening(w.s, c.pre[p], c.post[p] + {i})
  {
    assert PartySeen(w, c, p) && SignedWhenFunded(w, c, p);
    if |c.post[p] + {i}| == 3 {
      FullMeansAll(c.post[p] + {i}, 3, p);
    }
  }
}

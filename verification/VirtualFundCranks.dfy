/** Cranking keeps the invariant of virtual funding. */
module VirtualFundCranks {
  import opened Types
  import opened States
  import opened LedgerVars
  import opened Consensus
  import opened LedgerRun
  import opened Channels
  import opened Setup
  import opened Messages
  import opened VirtualFund
  import opened VirtualFundCrank
  import opened GuaranteeRun
  import opened VirtualFundWorld
  import opened VirtualFundSteps

  /** What a crank comes to: the connections become those of `o1`, the proposals sent are those of
      `ms1`, and the channel gets the party's own signatures. */
  ghost predicate CrankEffect(s: State, p: nat, pre: set<nat>, post: set<nat>, r: Cranked, o1: Objective,
                              ms1: seq<Message>, post': set<nat>)
    requires |s.fixed.participants| == 3 && p < 3
  {
    && r.failed.None? && WellConnected(r.objective) && r.objective.myRole == p
    && r.objective.toMyLeft == o1.toMyLeft && r.objective.toMyRight == o1.toMyRight
    && Saw(s, p, Party(r.objective.status, r.objective.v), pre + {p}, post')
    && (post' == post || (post' == post + {p} && |pre + {p}| == 3 && WellConnected(o1) && FundingComplete(o1)))
    && SentBy(s, p, r.messages, ms1, post')
  }

  /** Beside the proposals of `ms1`, only the party's own signatures are sent. */
  ghost predicate SentBy(s: State, p: nat, ms: seq<Message>, ms1: seq<Message>, post: set<nat>)
    requires |s.fixed.participants| == 3 && p < 3
  {
    && (forall box :: ProposalsFor(ms, box) == ProposalsFor(ms1, box))
    && (forall x :: x in StatesIn(ms) ==>
          || x in StatesIn(ms1) || x.ss == OneSignature(s, p)
          || (x.ss == OneSignature(SetupState(s, PostFundTurnNum), p) && p in post))
  }

  lemma AnnounceSends(s: State, who: set<nat>, me: nat)
    requires me < |s.fixed.participants|
    ensures forall box :: ProposalsFor(Announce(s, who, me), box) == {}
    ensures forall x :: x in StatesIn(Announce(s, who, me)) ==> x.ss == OneSignature(s, me)
  {
    NoMessages();
    StateMessagesCarry(OneSignature(s, me), me);
  }

  lemma SentWhileFunding(s: State, p: nat, pre: set<nat>, ms1: seq<Message>, post: set<nat>)
    requires |s.fixed.participants| == 3 && p < 3
    ensures SentBy(s, p, Announce(s, pre, p) + ms1, ms1, post)
  {
    AnnounceSends(s, pre, p);
    JoinedMessages(Announce(s, pre, p), ms1);
  }

  lemma SentAfterFunding(s: State, p: nat, pre: set<nat>, ms1: seq<Message>, post: set<nat>)
    requires |s.fixed.participants| == 3 && p < 3
    ensures SentBy(s, p, Announce(s, pre, p) + ms1 + Announce(SetupState(s, PostFundTurnNum), post, p), ms1, post + {p})
  {
    var ms, ms2 := Announce(s, pre, p) + ms1, Announce(SetupState(s, PostFundTurnNum), post, p);
    SentWhileFunding(s, p, pre, ms1, post);
    AnnounceSends(SetupState(s, PostFundTurnNum), post, p);
    JoinedMessages(ms, ms2);
  }

  lemma PrefundEffect(o: Objective, s: State, pre: set<nat>, post: set<nat>)
    requires Honest(o, s, pre, post) && o.status == Approved && |pre + {o.myRole}| != 3
    ensures Crankable(o) && CrankEffect(s, o.myRole, pre, post, Crank(o, s.fixed.participants[o.myRole]), o, [], post)
  {
    CrankShape(o, s, pre, post);
    var ms := Announce(s, pre, o.myRole);
    assert ms + [] == ms;
    SentWhileFunding(s, o.myRole, pre, [], post);
    FullSet(post, 3);
    FullSet(pre, 3);
  }

  lemma FundingEffect(updated: Objective, s: State, pre: set<nat>, post: set<nat>, o: Objective, ms: seq<Message>,
                      before: set<nat>)
    returns (o1: Objective, ms1: seq<Message>, post': set<nat>)
    requires WellConnected(updated) && updated.myRole < |s.fixed.participants| == |pre| == 3
    requires Opening(s, pre, post) && Opening(s, pre, post + {updated.myRole})
    requires updated.status == Approved && updated.v == SetupChannel(s, updated.myRole, 0, pre, post)
    requires ms == Announce(s, before, updated.myRole) && pre == before + {updated.myRole}
    ensures var r := HonestFromFunding(updated, s, pre, post, o, ms);
            var key := s.fixed.participants[updated.myRole];
            && (r.failed == None ==>
                  && CrankEffect(s, updated.myRole, before, post, r, o1, ms1, post')
                  && CrankFunding(updated, key) == Ok((o1, ms1)))
            && (r.failed != None ==> CrankFunding(updated, key) == Err(r.failed.value))
  {
    var me, key := updated.myRole, s.fixed.participants[updated.myRole];
    o1, ms1, post' := updated, [], post;
    match CrankFunding(updated, key) {
      case Err(_) =>
      case Ok((u, n)) =>
        o1, ms1 := u, n;
        if FundingComplete(o1) {
          post' := post + {me};
          SentAfterFunding(s, me, before, ms1, post);
        } else {
          SentWhileFunding(s, me, before, ms1, post);
        }
    }
  }

  /** The effect of an honest participant's crank, unless it fails on a ledger. */
  lemma HonestCrankEffect(o: Objective, s: State, pre: set<nat>, post: set<nat>)
    returns (updated: Objective, o1: Objective, ms1: seq<Message>, post': set<nat>)
    requires Honest(o, s, pre, post) && o.status == Approved && Crankable(o)
    ensures updated.myRole == o.myRole && updated.toMyLeft == o.toMyLeft && updated.toMyRight == o.toMyRight
    ensures WellConnected(updated)
    ensures var r, key := Crank(o, s.fixed.participants[o.myRole]), s.fixed.participants[o.myRole];
            && (r.failed == None ==>
                  && CrankEffect(s, o.myRole, pre, post, r, o1, ms1, post')
                  && ((o1 == o && ms1 == []) || CrankFunding(updated, key) == Ok((o1, ms1))))
            && (r.failed != None ==> CrankFunding(updated, key) == Err(r.failed.value))
  {
    var me := o.myRole;
    CrankShape(o, s, pre, post);
    updated, o1, ms1, post' := Seen(o, s, pre + {me}, post), o, [], post;
    if |pre + {me}| != 3 {
      PrefundEffect(o, s, pre, post);
    } else {
      o1, ms1, post' := FundingEffect(updated, s, pre + {me}, post, o, Announce(s, pre, me), pre);
    }
  }

  /** Ledger e has made at most the step of this objective by party p. */
  ghost predicate LedgerStepped(w: World, e: nat, p: nat, t: System)
    requires Shaped(w) && e < 2
  {
    t == w.ledgers[e] || t == Next(w.ledgers[e], StepOf(RoleOf(w, e, p), Expected(w, e)))
  }

  lemma PartyConnects(w: World, c: Account, e: nat, p: nat)
    requires Shaped(w) && LedgersOnTrack(w, c) && e < 2 && (p == e || p == e + 1)
    ensures Connects(ConnectionOf(w, e, p), w.ledgers[e], RoleOf(w, e, p), Expected(w, e))
    ensures Me(w.ledgers[e].leader.fp, RoleOf(w, e, p)) == w.s.fixed.participants[p]
    ensures OnTrack(w.ledgers[e], c.histories[e], Expected(w, e))
    ensures Valid(ConnectionOf(w, e, p).ledger)
  {
    var s, h := w.ledgers[e], c.histories[e];
    SideIsValid(s.leader, h, h.adopted, |h.made|);
    SideIsValid(s.follower, h, h.signed, h.received);
  }

  lemma PartyIsHonest(w: World, c: Account, p: nat)
    requires Accounts(c, w) && p < 3
    ensures Honest(ObjectiveOf(w, p), w.s, c.pre[p], c.post[p])
  {
    assert PartySeen(w, c, p);
    SidesAreValid(w, c, p);
  }

  lemma SidesAreValid(w: World, c: Account, p: nat)
    requires Shaped(w) && LedgersOnTrack(w, c) && p < 3
    ensures p > 0 ==> Valid(ConnectionOf(w, p - 1, p).ledger)
    ensures p < 2 ==> Valid(ConnectionOf(w, p, p).ledger)
  {
    if p > 0 {
      PartyConnects(w, c, p - 1, p);
    }
    if p < 2 {
      PartyConnects(w, c, p, p);
    }
  }

  /** One side of a crank on the world's ledgers. */
  lemma SideOfCrank(w: World, c: Account, e: nat, p: nat)
    requires Shaped(w) && LedgersOnTrack(w, c) && e < 2 && (p == e || p == e + 1)
    ensures match FundSide(Some(ConnectionOf(w, e, p)), w.s.fixed.participants[p])
            case Err(x) => x == LedgerUpdate(CannotApply(InsufficientFunds))
            case Ok((c', ms)) =>
              && c'.Some? && c'.value.info == InfoToTheRight(w.s, e)
              && OnlyTo(ms, w.ledgers[e].leader.fp, Opposite(RoleOf(w, e, p)))
              && LedgerStepped(w, e, p, Sending(w.ledgers[e], RoleOf(w, e, p), c'.value.ledger, ms))
  {
    PartyConnects(w, c, e, p);
    SideUpdates(ConnectionOf(w, e, p), w.ledgers[e], c.histories[e], Expected(w, e), RoleOf(w, e, p));
  }

  /** What is known of the connections and messages that funding leaves behind. */
  ghost predicate FundingStepped(w: World, p: nat, o1: Objective, ms: seq<Message>)
    requires Shaped(w) && p < 3
  {
    && StatesIn(ms) == {} && WellConnected(o1) && o1.myRole == p
    && LedgerStepped(w, 0, p, LedgerAfter(w, 0, p, o1, ms))
    && LedgerStepped(w, 1, p, LedgerAfter(w, 1, p, o1, ms))
    && (p > 0 ==> o1.toMyLeft.value.info == InfoToTheRight(w.s, p - 1))
    && (p < 2 ==> o1.toMyRight.value.info == InfoToTheRight(w.s, p))
  }

  /** Both sides of a crank: only lack of funds stops it, and each ledger takes at most a step of its
      own. */
  lemma FundingOfCrank(w: World, c: Account, p: nat, o: Objective)
    requires Shaped(w) && LedgersOnTrack(w, c) && p < 3 && WellConnected(o) && o.myRole == p
    requires o.toMyLeft == ObjectiveOf(w, p).toMyLeft && o.toMyRight == ObjectiveOf(w, p).toMyRight
    ensures match CrankFunding(o, w.s.fixed.participants[p])
            case Err(x) => x == LedgerUpdate(CannotApply(InsufficientFunds))
            case Ok((o1, ms)) => FundingStepped(w, p, o1, ms)
  {
    var key := w.s.fixed.participants[p];
    if p > 0 {
      SideOfCrank(w, c, p - 1, p);
    }
    if p < 2 {
      SideOfCrank(w, c, p, p);
    }
    var left, right := FundSide(o.toMyLeft, key), FundSide(o.toMyRight, key);
    if left.Ok? && right.Ok? {
      var e := if p == 0 then 1 else p - 1;
      var e' := if p == 2 then 0 else p;
      JoinedSides(left.value.1, right.value.1, w.ledgers[e].leader.fp, w.ledgers[e'].leader.fp,
                  Opposite(RoleOf(w, e, p)), Opposite(RoleOf(w, e', p)));
    }
  }

  lemma LedgersStep(w: World, c: Account, p: nat, w': World) returns (c': Account)
    requires Shaped(w) && LedgersOnTrack(w, c) && w'.s == w.s && w'.leftLeads == w.leftLeads && |w'.parties| == 3
             && |w'.ledgers| == 2
    requires LedgerStepped(w, 0, p, w'.ledgers[0]) && LedgerStepped(w, 1, p, w'.ledgers[1])
    ensures LedgersMoved(w, w') && Shaped(w') && LedgersOnTrack(w', c') && c' == c.(histories := c'.histories)
    ensures forall q :: 0 <= q < 3 && PartyFunded(w, q) ==> PartyFunded(w', q)
  {
    var h0 := MovedKeepsTrack(w.ledgers[0], c.histories[0], Expected(w, 0), RoleOf(w, 0, p), w'.ledgers[0]);
    var h1 := MovedKeepsTrack(w.ledgers[1], c.histories[1], Expected(w, 1), RoleOf(w, 1, p), w'.ledgers[1]);
    c' := c.(histories := [h0, h1]);
    MovedKeepsShape(w, w');
  }

  lemma FundedAfter(w: World, p: nat, o1: Objective, ms: seq<Message>, w': World)
    requires Shaped(w) && p < 3 && FundingStepped(w, p, o1, ms)
    requires Shaped(w') && w'.s == w.s && w'.leftLeads == w.leftLeads && w'.ledgers == LedgersAfter(w, p, o1, ms)
    requires FundingComplete(o1)
    ensures PartyFunded(w', p)
  {
  }

  lemma SameLedgersAfter(w: World, p: nat, r: Cranked, o1: Objective, ms1: seq<Message>, pre: set<nat>, post: set<nat>,
                         post': set<nat>)
    requires Shaped(w) && p < 3
    requires CrankEffect(w.s, p, pre, post, r, o1, ms1, post') && FundingStepped(w, p, o1, ms1)
    ensures LedgersAfter(w, p, r.objective, r.messages) == LedgersAfter(w, p, o1, ms1)
  {
  }

  /** The account after party p's crank. */
  ghost predicate Advances(c: Account, c': Account, p: nat, post': set<nat>) {
    && p < |c.pre| && p < |c.post| && c'.pre == c.pre[p := c.pre[p] + {p}] && c'.post == c.post[p := post']
  }

  lemma CrankSignsWhenFunded(w: World, c: Account, p: nat, o1: Objective, ms1: seq<Message>, post': set<nat>, w': World,
                             c': Account)
    requires Shaped(w) && |c.pre| == |c.post| == |c'.pre| == |c'.post| == 3 && p < 3 && Advances(c, c', p, post')
    requires FundingStepped(w, p, o1, ms1) && SignedWhenFunded(w, c, p) && forall k :: k in c.pre[p] ==> k < 3
    requires Shaped(w') && w'.s == w.s && w'.leftLeads == w.leftLeads && w'.ledgers == LedgersAfter(w, p, o1, ms1)
    requires PartyFunded(w, p) ==> PartyFunded(w', p)
    requires post' == c.post[p] || (post' == c.post[p] + {p} && |c.pre[p] + {p}| == 3 && FundingComplete(o1))
    ensures SignedWhenFunded(w', c', p)
  {
    if post' != c.post[p] {
      FundedAfter(w, p, o1, ms1, w');
    } else if p in post' {
      AlreadyFull(c.pre[p], 3, p);
    }
  }

  lemma OwnSignatureIsOwned(c: Account, c': Account, p: nat, post': set<nat>)
    requires |c.pre| == |c.post| == 3 && p < 3 && Advances(c, c', p, post') && SignedByOwner(c, p)
    requires post' == c.post[p] || post' == c.post[p] + {p}
    ensures SignedByOwner(c', p) && c.post[p] <= c'.post[p]
  {
  }

  lemma CrankStates(w: World, p: nat, ms: seq<Message>, ms1: seq<Message>, post': set<nat>, w': World, c': Account)
    requires |w.s.fixed.participants| == 3 && p < 3 && SentBy(w.s, p, ms, ms1, post') && StatesIn(ms1) == {}
    requires Shaped(w') && w'.s == w.s && w'.states == w.states + StatesIn(ms) && |c'.post| == 3 && c'.post[p] == post'
    ensures NewCirculated(w, w', c')
  {
    forall x | x in w'.states && x !in w.states ensures Circulated(w', c', x.ss) {
      assert IsSetupSignature(w', c', x.ss, p);
    }
  }

  lemma CrankParties(w: World, c: Account, p: nat, party: Party, post': set<nat>, w': World, c': Account)
    requires |w.parties| == |c.pre| == |c.post| == 3 && p < 3 && Advances(c, c', p, post') && Shaped(w')
    requires w'.parties == w.parties[p := party] && Saw(w'.s, p, party, c.pre[p] + {p}, post')
    ensures PartySeen(w', c', p) && OthersSame(w, c, w', c', p)
  {
  }

  lemma CrankViews(w: World, c: Account, p: nat, r: Cranked, o1: Objective, ms1: seq<Message>, post': set<nat>,
                   w': World, c': Account)
    requires Views(c, w) && p < 3 && Advances(c, c', p, post')
    requires CrankEffect(w.s, p, c.pre[p], c.post[p], r, o1, ms1, post') && FundingStepped(w, p, o1, ms1)
    requires w' == AfterCrank(w, p, r) && LedgersMoved(w, w') && Shaped(w')
    requires PartyFunded(w, p) ==> PartyFunded(w', p)
    ensures Views(c', w')
  {
    assert PartySeen(w, c, p) && SignedWhenFunded(w, c, p) && SignedByOwner(c, p);
    SameLedgersAfter(w, p, r, o1, ms1, c.pre[p], c.post[p], post');
    CrankSignsWhenFunded(w, c, p, o1, ms1, post', w', c');
    OwnSignatureIsOwned(c, c', p, post');
    CrankStates(w, p, r.messages, ms1, post', w', c');
    CrankParties(w, c, p, Party(r.objective.status, r.objective.v), post', w', c');
    ViewsCarry(w, c, w', c', p);
  }

  lemma CrankIsAccounted(w: World, c: Account, p: nat, r: Cranked, o1: Objective, ms1: seq<Message>, post': set<nat>)
    returns (c': Account)
    requires Accounts(c, w) && p < 3
    requires CrankEffect(w.s, p, c.pre[p], c.post[p], r, o1, ms1, post') && FundingStepped(w, p, o1, ms1)
    ensures Accounts(c', AfterCrank(w, p, r))
  {
    var w' := AfterCrank(w, p, r);
    SameLedgersAfter(w, p, r, o1, ms1, c.pre[p], c.post[p], post');
    var c1 := LedgersStep(w, c, p, w');
    c' := c1.(pre := c.pre[p := c.pre[p] + {p}], post := c.post[p := post']);
    CrankViews(w, c, p, r, o1, ms1, post', w', c');
  }

  /** The crank of a party in an accounted world. */
  lemma CrankOf(w: World, c: Account, p: nat) returns (o1: Objective, ms1: seq<Message>, post': set<nat>)
    requires Accounts(c, w) && p < 3 && w.parties[p].status == Approved
    ensures Crankable(ObjectiveOf(w, p))
    ensures var r := Crank(ObjectiveOf(w, p), w.s.fixed.participants[p]);
            if r.failed == None
            then CrankEffect(w.s, p, c.pre[p], c.post[p], r, o1, ms1, post') && FundingStepped(w, p, o1, ms1)
            else r.failed == Some(LedgerUpdate(CannotApply(InsufficientFunds)))
  {
    var o := ObjectiveOf(w, p);
    PartyIsHonest(w, c, p);
    SetupQueries(w.s, p, 0, c.pre[p], c.post[p]);
    var updated;
    updated, o1, ms1, post' := HonestCrankEffect(o, w.s, c.pre[p], c.post[p]);
    FundingOfCrank(w, c, p, updated);
    NothingStepped(w, p);
  }

  lemma NothingStepped(w: World, p: nat)
    requires Shaped(w) && p < 3
    ensures FundingStepped(w, p, ObjectiveOf(w, p), [])
  {
  }

  lemma CrankedWorld(w: World, p: nat)
    requires Shaped(w) && p < 3 && Crankable(ObjectiveOf(w, p))
    ensures var r := Crank(ObjectiveOf(w, p), w.s.fixed.participants[p]);
            && WellConnected(r.objective) && r.objective.myRole == p
            && NextWorld(w, CrankParty(p)) == AfterCrank(w, p, r)
  {
    CrankKeepsConnections(ObjectiveOf(w, p), w.s.fixed.participants[p]);
  }

  lemma OnlyApprovedCrank(o: Objective, key: Address)
    requires Crankable(o)
    ensures o.status != Approved ==> Crank(o, key).failed == Some(NotApproved)
  {
  }

  /** A crank keeps the account, and can only fail for want of approval or of funds. */
  lemma CrankStep(w: World, c: Account, p: nat) returns (c': Account)
    requires Accounts(c, w) && p < 3
    ensures Accounts(c', NextWorld(w, CrankParty(p)))
    ensures Crankable(ObjectiveOf(w, p)) ==>
              Crank(ObjectiveOf(w, p), w.s.fixed.participants[p]).failed
              in {None, Some(NotApproved), Some(LedgerUpdate(CannotApply(InsufficientFunds)))}
  {
    c' := c;
    if Crankable(ObjectiveOf(w, p)) {
      CrankedWorld(w, p);
      OnlyApprovedCrank(ObjectiveOf(w, p), w.s.fixed.participants[p]);
      var r := Crank(ObjectiveOf(w, p), w.s.fixed.participants[p]);
      if w.parties[p].status == Approved {
        var o1, ms1, post' := CrankOf(w, c, p);
        if r.failed == None {
          c' := CrankIsAccounted(w, c, p, r, o1, ms1, post');
        }
      }
    }
  }
}

/** Messages between participants. */
module Messages {
  import opened Types
  import opened Channels
  import opened Consensus

  datatype Message =
    | StateMessage(to: Address, ss: SignedState)
    | ProposalMessage(to: Address, proposals: seq<SignedProposal>)

  /** The signed state for each of the first n participants other than `me`. */
  function StateMessages(ss: SignedState, me: nat, n: nat): seq<Message>
    requires n <= |ss.state.fixed.participants|
  {
    if n == 0 then []
    else StateMessages(ss, me, n - 1)
         + if n - 1 == me then [] else [StateMessage(ss.state.fixed.participants[n - 1], ss)]
  }

  function ToOthers(ss: SignedState, me: nat): seq<Message> {
    StateMessages(ss, me, |ss.state.fixed.participants|)
  }

  /** The place of participant i among those other than `me`. */
  function PlaceAmongOthers(me: nat, i: nat): (place: nat)
    requires i != me
  {
    if i < me then i else i - 1
  }

  /** One message for each of the first n participants but `me`, in their order and to their addresses. */
  ghost predicate OneForEachOther(ms: seq<Message>, ss: SignedState, me: nat, n: nat)
    requires n <= |ss.state.fixed.participants|
  {
    && |ms| == (if me < n then n - 1 else n)
    && forall i :: 0 <= i < n && i != me ==>
         ms[PlaceAmongOthers(me, i)] == StateMessage(ss.state.fixed.participants[i], ss)
  }

  method CreateSignedStateMessages(ss: SignedState, me: nat) returns (messages: seq<Message>)
    ensures messages == ToOthers(ss, me)
    ensures OneForEachOther(messages, ss, me, |ss.state.fixed.participants|)
  {
    messages := [];
    for i := 0 to |ss.state.fixed.participants|
      invariant messages == StateMessages(ss, me, i)
      invariant OneForEachOther(messages, ss, me, i)
    {
      if i == me {
        continue;
      }
      messages := messages + [StateMessage(ss.state.fixed.participants[i], ss)];
    }
  }

  lemma {:induction false} StateMessagesAddressed(ss: SignedState, me: nat, n: nat)
    requires n <= |ss.state.fixed.participants|
    ensures OneForEachOther(StateMessages(ss, me, n), ss, me, n)
  {
    if n > 0 {
      StateMessagesAddressed(ss, me, n - 1);
    }
  }

  /** So everybody else is written to exactly once, and nobody writes to itself. */
  lemma EachOtherOnce(ss: SignedState, me: nat, j: nat, k: nat)
    requires DistinctParticipants(ss.state.fixed.participants) && me < |ss.state.fixed.participants|
    requires j < |ToOthers(ss, me)| && k < |ToOthers(ss, me)|
    ensures ToOthers(ss, me)[j].to != ss.state.fixed.participants[me]
    ensures ToOthers(ss, me)[j].to == ToOthers(ss, me)[k].to ==> j == k
  {
    StateMessagesAddressed(ss, me, |ss.state.fixed.participants|);
    var i, i' := if j < me then j else j + 1, if k < me then k else k + 1;
    assert PlaceAmongOthers(me, i) == j && PlaceAmongOthers(me, i') == k;
  }

  // ------------------------------------------------------------------
  // What messages carry to whom
  // ------------------------------------------------------------------

  /** Where a participant takes in the proposals for one of its ledgers. */
  datatype Inbox = Inbox(ledgerId: Destination, owner: Address)

  /** All proposals for the given inbox in a list of messages. */
  function ProposalsFor(ms: seq<Message>, box: Inbox): set<SignedProposal> {
    set m, sp | m in ms && m.ProposalMessage? && m.to == box.owner && sp in m.proposals
                && sp.proposal.ledgerId == box.ledgerId :: sp
  }

  /** A signed state on its way to a participant. */
  datatype Letter = Letter(to: Address, ss: SignedState)

  /** All signed states in a list of messages, with their addressees. */
  function StatesIn(ms: seq<Message>): set<Letter> {
    set m | m in ms && m.StateMessage? :: Letter(m.to, m.ss)
  }

  lemma JoinedMessages(a: seq<Message>, b: seq<Message>)
    ensures forall box :: ProposalsFor(a + b, box) == ProposalsFor(a, box) + ProposalsFor(b, box)
    ensures StatesIn(a + b) == StatesIn(a) + StatesIn(b)
  {
  }

  lemma NoMessages()
    ensures StatesIn([]) == {} && forall box :: ProposalsFor([], box) == {}
  {
  }

  /** They carry the signed state to everybody else, and no proposals. */
  lemma StateMessagesCarry(ss: SignedState, me: nat)
    ensures forall box :: ProposalsFor(ToOthers(ss, me), box) == {}
    ensures forall x :: x in StatesIn(ToOthers(ss, me)) ==> x.ss == ss
    ensures forall i :: 0 <= i < |ss.state.fixed.participants| && i != me ==>
              Letter(ss.state.fixed.participants[i], ss) in StatesIn(ToOthers(ss, me))
  {
    var ms := ToOthers(ss, me);
    StateMessagesAddressed(ss, me, |ss.state.fixed.participants|);
    forall m | m in ms ensures m.StateMessage? && m.ss == ss {
      var j :| 0 <= j < |ms| && ms[j] == m;
      assert PlaceAmongOthers(me, if j < me then j else j + 1) == j;
    }
    forall i | 0 <= i < |ss.state.fixed.participants| && i != me
      ensures Letter(ss.state.fixed.participants[i], ss) in StatesIn(ms)
    {
      assert ms[PlaceAmongOthers(me, i)] in ms;
    }
  }
}

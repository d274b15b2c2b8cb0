/** The virtual defund objective as an object that shares its ledger channels with its copies. */
module DefundObject {
  import opened Types
  import opened Outcomes
  import opened States
  import opened Consensus
  import opened Channels
  import opened Messages
  import opened VirtualDefund
  import VirtualDefundCrank
  import VirtualFund

  class DefundObjective {
    const initialOutcome: SingleAssetExit
    const paidToBob: int
    const vFixed: FixedPart
    const myRole: nat
    const toMyLeft: ConsensusChannel?
    const toMyRight: ConsensusChannel?
    var status: Status
    var signatures: seq<Option<Signature>>

    function LeftValue(): Option<Ledger>
      reads toMyLeft
    {
      if toMyLeft == null then None else Some(toMyLeft.Value())
    }

    function RightValue(): Option<Ledger>
      reads toMyRight
    {
      if toMyRight == null then None else Some(toMyRight.Value())
    }

    function Value(): Objective
      reads this, toMyLeft, toMyRight
    {
      Objective(status, initialOutcome, paidToBob, vFixed, signatures, LeftValue(), RightValue(), myRole)
    }

    /** Its two ledgers are different channels. */
    ghost predicate Wired()
      reads this, toMyLeft, toMyRight
    {
      Proper(Value()) && (toMyLeft == null || toMyLeft != toMyRight)
    }

    /** A copy has signatures and a status of its own, but the same ledgers. */
    constructor Clone(o: DefundObjective)
      ensures Value() == o.Value() && toMyLeft == o.toMyLeft && toMyRight == o.toMyRight
    {
      initialOutcome := o.initialOutcome;
      paidToBob := o.paidToBob;
      vFixed := o.vFixed;
      myRole := o.myRole;
      toMyLeft := o.toMyLeft;
      toMyRight := o.toMyRight;
      status := o.status;
      signatures := o.signatures;
    }

    method IsFullySigned() returns (r: bool)
      requires Wired()
      ensures r == FullySigned(Value())
    {
      for i := 0 to |signatures|
        invariant forall k :: 0 <= k < i ==> signatures[k].Some?
      {
        if signatures[i].None? {
          return false;
        }
      }
      return true;
    }

    method SignedFinalState() returns (r: Result<SignedState, SignedStateError>)
      requires Wired()
      ensures r == SignedFinal(FinalState(Value()), signatures, 3)
    {
      var signed := SignedState(FinalState(Value()), map[]);
      for i := 0 to 3
        invariant SignedFinal(FinalState(Value()), signatures, i) == Ok(signed)
      {
        if signatures[i].Some? {
          var added := AddSignature(signed, signatures[i].value);
          if added.Err? {
            SignedFinalErrStays(FinalState(Value()), signatures, i + 1, 3);
            return Err(added.error);
          }
          signed := added.value;
        }
      }
      return Ok(signed);
    }

    method UpdateLedgerToRemoveGuarantee(ledger: ConsensusChannel, key: Address)
      returns (r: Result<seq<Message>, ChannelError>)
      requires Wired() && TwoParties(ledger.fp)
      modifies ledger
      ensures match UpdateLedger(old(Value()), old(ledger.Value()), key)
              case Ok((l, ms)) => r == Ok(ms) && ledger.Value() == l
              case Err(e) => r == Err(e) && ledger.Value() == old(ledger.Value())
    {
      var proposal := RemoveProposalOf(Value(), ledger.fp.channelId);
      var proposed := ledger.HasRemovalBeenProposed(vFixed.channelId);
      if ledger.role == Leader {
        if proposed {
          return Ok([]);
        }
        var sp := ledger.Propose(proposal, key);
        if sp.Err? {
          return Err(sp.error);
        }
        return Ok([ProposalMessage(FollowerOf(ledger.fp), ledger.proposalQueue)]);
      }
      if RemovalProposedNext(ledger.Value(), vFixed.channelId) {
        var sp := ledger.SignNextProposal(proposal, key);
        if sp.Err? {
          return Err(sp.error);
        }
        return Ok([ProposalMessage(LeaderOf(ledger.fp), [sp.value])]);
      }
      return Ok([]);
    }

    /** Works on both ledgers; on an error the left one may have changed already. */
    method RemoveGuarantees(key: Address) returns (r: Result<seq<Message>, ChannelError>)
      requires Wired()
      modifies toMyLeft, toMyRight
      ensures var left := DefundSide(old(Value()), old(LeftValue()), key);
              var right := DefundSide(old(Value()), old(RightValue()), key);
              match left
              case Err(e) => r == Err(e) && Value() == old(Value())
              case Ok((l, ms)) =>
                match right
                case Err(e) => r == Err(e) && Value() == old(Value()).(toMyLeft := l)
                case Ok((l', ms')) => r == Ok(ms + ms') && Value() == old(Value()).(toMyLeft := l, toMyRight := l')
    {
      ghost var before := Value();
      var messages := [];
      if toMyLeft != null && !Defunded(Value(), toMyLeft.Value()) {
        var sent := UpdateLedgerToRemoveGuarantee(toMyLeft, key);
        if sent.Err? {
          return sent;
        }
        messages := sent.value;
      }
      VirtualDefundCrank.DefundSideDependsOnTerms(before, Value(), RightValue(), key);
      if toMyRight != null && !Defunded(Value(), toMyRight.Value()) {
        var sent := UpdateLedgerToRemoveGuarantee(toMyRight, key);
        if sent.Err? {
          return sent;
        }
        messages := messages + sent.value;
      } else {
        assert messages + [] == messages;
      }
      return Ok(messages);
    }

    /** Signs the final state unless that has been done; the messages carry all signatures known. */
    method SignFinal(key: Address) returns (r: Result<seq<Message>, SignedStateError>)
      requires Wired()
      modifies this`signatures
      ensures old(signatures[myRole].Some?) ==> signatures == old(signatures) && r == Ok([])
      ensures old(signatures[myRole].None?) ==>
                && signatures == old(signatures)[myRole := Some(Sign(FinalState(old(Value())), key))]
                && r == match SignedFinal(FinalState(old(Value())), signatures, 3)
                        case Err(e) => Err(e)
                        case Ok(ss) => Ok(ToOthers(ss, myRole))
    {
      if signatures[myRole].Some? {
        return Ok([]);
      }
      signatures := signatures[myRole := Some(Sign(FinalState(Value()), key))];
      var signed := SignedFinalState();
      if signed.Err? {
        return Err(signed.error);
      }
      var messages := CreateSignedStateMessages(signed.value, myRole);
      return Ok(messages);
    }

    /** The objective returned is a copy, or on an error from a ledger the objective itself. Its
        ledgers are those of the original, so what was done on them shows in both. */
    method CrankObjective(key: Address)
      returns (updated: DefundObjective, messages: seq<Message>, waitingFor: WaitingFor, failed: Option<DefundError>)
      requires Wired()
      modifies toMyLeft, toMyRight
      ensures Cranked(updated.Value(), messages, waitingFor, failed) == Crank(old(Value()), key)
      ensures updated.toMyLeft == toMyLeft && updated.toMyRight == toMyRight && (updated == this || fresh(updated))
      ensures Value() == old(Value()).(toMyLeft := updated.LeftValue(), toMyRight := updated.RightValue())
    {
      updated := new DefundObjective.Clone(this);
      messages, waitingFor, failed := [], ForNothing, None;
      if updated.status != VirtualFund.Approved {
        failed := Some(NotApproved);
        return;
      }
      var announced := updated.SignFinal(key);
      if announced.Err? {
        failed := Some(FinalStateUnsigned(announced.error));
        return;
      }
      messages := announced.value;
      assert Crank(old(Value()), key) == CrankSigned(updated.Value(), key, old(Value()), messages);
      var full := updated.IsFullySigned();
      if !full {
        waitingFor := ForCompleteFinal;
        return;
      }
      ghost var signed := updated.Value();
      var sent := updated.RemoveGuarantees(key);
      if sent.Err? {
        return this, [], ForNothing, Some(LedgerUpdate(sent.error));
      }
      messages := messages + sent.value;
      VirtualDefundCrank.CrankedLedgers(signed, key, old(Value()), announced.value);
      if SideDefunded(updated.Value(), updated.LeftValue()) && SideDefunded(updated.Value(), updated.RightValue()) {
        updated.status := VirtualFund.Completed;
      } else {
        waitingFor := ForLedgerDefunding;
      }
    }

    /** The signatures a signed state brings, checked one by one. */
    method TakeIncoming(incoming: map<nat, Signature>) returns (r: Result<seq<Option<Signature>>, UpdateError>)
      requires Wired()
      ensures r == TakeSignatures(Value(), incoming, 3)
    {
      var sigs := signatures;
      for i := 0 to 3
        invariant TakeSignatures(Value(), incoming, i) == Ok(sigs)
      {
        if i !in incoming {
          continue;
        }
        if signatures[i].Some? {
          if signatures[i].value == incoming[i] {
            continue;
          }
          TakeErrStays(Value(), incoming, i + 1, 3);
          return Err(ConflictingSignature);
        }
        if RecoverSigner(FinalState(Value()), incoming[i]) != Ok(vFixed.participants[i]) {
          TakeErrStays(Value(), incoming, i + 1, 3);
          return Err(InvalidSignature);
        }
        sigs := sigs[i := Some(incoming[i])];
      }
      return Ok(sigs);
    }
  }

  lemma {:induction false} SignedFinalErrStays(s: State, signatures: seq<Option<Signature>>, i: nat, n: nat)
    requires i <= n <= |signatures| && SignedFinal(s, signatures, i).Err?
    ensures SignedFinal(s, signatures, n) == SignedFinal(s, signatures, i)
    decreases n
  {
    if i < n {
      SignedFinalErrStays(s, signatures, i, n - 1);
    }
  }

  lemma {:induction false} TakeErrStays(o: Objective, incoming: map<nat, Signature>, i: nat, n: nat)
    requires Proper(o) && i <= n <= 3 && TakeSignatures(o, incoming, i).Err?
    ensures TakeSignatures(o, incoming, n) == TakeSignatures(o, incoming, i)
    decreases n
  {
    if i < n {
      TakeErrStays(o, incoming, i, n - 1);
    }
  }
}

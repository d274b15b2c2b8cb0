/** Channel states and signatures on them. */
module States {
  import opened Types
  import opened Outcomes

  /** The constant part of a channel. `channelId` is the digest of the whole constant part. */
  datatype FixedPart = FixedPart(channelId: Destination, participants: seq<Address>)

  datatype State = State(fixed: FixedPart, outcome: seq<SingleAssetExit>, turnNum: nat, isFinal: bool)

  /** A signature made with the key of `signer` on the state `signed`. Keys are named by their
      addresses; the digest that is signed has no collisions, and nobody signs for somebody else. */
  datatype Signature = Signature(signer: Address, signed: State)

  datatype RecoverError = Unrecoverable

  function Sign(s: State, key: Address): Signature {
    Signature(key, s)
  }

  function RecoverSigner(s: State, sig: Signature): Result<Address, RecoverError> {
    if sig.signed == s then Ok(sig.signer) else Err(Unrecoverable)
  }

  predicate SignedBy(s: State, sig: Signature, a: Address) {
    RecoverSigner(s, sig) == Ok(a)
  }
}

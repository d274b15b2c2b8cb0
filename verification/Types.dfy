/** Destinations, addresses and the two wrapper types the rest of the project uses. */
module Types {

  /** A 32-byte payable address read as a big-endian number. The hexadecimal strings
      and the byte strings that the program compares have the order of these numbers. */
  type Destination = nat

  /** A 20-byte blockchain address read as a big-endian number. */
  type Address = nat

  /** Left-padding with zero bytes does not change the number. */
  function AddressToDestination(a: Address): Destination {
    a
  }

  /** True if the first 12 of the 32 bytes are zero, so that the destination is a
      blockchain address and not a channel id. */
  predicate IsExternal(d: Destination) {
    d < 0x1_0000_0000_0000_0000_0000_0000_0000_0000_0000_0000
  }

  /** The external destinations are those that five of the eight 32-bit words can spell. */
  lemma ExternalExactlyWhen(d: Destination)
    ensures var word := 0x1_0000_0000;
            IsExternal(d) <==> d < word * word * word * word * word
  {
  }

  /** A destination that is not external. */
  function ChannelIdFrom(n: nat): (d: Destination)
    ensures !IsExternal(d)
  {
    0x1_0000_0000_0000_0000_0000_0000_0000_0000_0000_0000 + n
  }

  datatype Option<+T> = None | Some(value: T)

  datatype Result<+T, +E> = Ok(value: T) | Err(error: E)

  function Min(a: int, b: int): int {
    if a < b then a else b
  }

  function Max(a: int, b: int): int {
    if a < b then b else a
  }
}

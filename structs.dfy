/** Primitive types and the stored attribute record. */
module Structs {

  newtype u8 = x: int | 0 <= x < 0x100

  /** A `Vec<u8>` / `&[u8]`. */
  type Bytes = seq<u8>

  /** An already authenticated account; its structure plays no role. */
  type AccountId = seq<u8>

  /** Ledger height. The pallet is generic over it; here it is unbounded. */
  type BlockNumber = nat

  /** Wall-clock moment from the host's time source. */
  type Moment = nat

  /** The `u64` nonce counter value. */
  type Nonce = n: nat | n < 0x1_0000_0000_0000_0000

  /** `u32::max_value()`, the validity of an attribute that never expires. */
  const U32_MAX: nat := 0xFFFF_FFFF

  /** One attribute of a DID. `validity` is an absolute height. */
  datatype Attribute = Attribute(
    name: Bytes,
    value: Bytes,
    validity: BlockNumber,
    created: Moment,
    nonce: Nonce)
}

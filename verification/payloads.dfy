/**
 The payload types that the node's duties carry. All of them come from
 other crates (data types, messaging, routing, BLS) and nothing in the duty
 hierarchy looks inside them, so each is an opaque type that only supports
 equality and holds no heap references (`!new`). The fixed-width integers the duties carry are bounded newtypes.
 */
module Payloads {

  /** Rust's `Option`, for the optional fields of a duty. */
  datatype Option<+T> = None | Some(value: T)

  // Fixed-width integers carried in duties.
  newtype u8 = x: int | 0 <= x < 0x100
  newtype u64 = x: int | 0 <= x < 0x1_0000_0000_0000_0000
  /** `usize`, taken as 64 bits wide. */
  newtype usize = x: int | 0 <= x < 0x1_0000_0000_0000_0000

  // Identities and keys.
  type XorName(==, !new)
  type PublicKey(==, !new)
  type PublicKeySet(==, !new)
  type MessageId(==, !new)
  type SrcLocation(==, !new)
  type EndUser(==, !new)
  type DstLocation(==, !new)
  type Aggregation(==, !new)
  type Prefix(==, !new)
  type Elders(==, !new)
  type SectionElders(==, !new)

  // Messages and data operations.
  type Message(==, !new)
  type DataQuery(==, !new)
  type DataCmd(==, !new)
  type BlobRead(==, !new)
  type BlobWrite(==, !new)
  type BlobAddress(==, !new)
  type Blob(==, !new)

  // Transfer and reward artifacts.
  type Credit(==, !new)
  type SignedCredit(==, !new)
  type SignatureShare(==, !new)
  type SignedTransfer(==, !new)
  type SignedTransferShare(==, !new)
  type Transfer(==, !new)
  type TransferAgreementProof(==, !new)
  type CreditAgreementProof(==, !new)
  type TransferValidated(==, !new)
  type ReplicaEvent(==, !new)
  type WalletHistory(==, !new)
  type ActorHistory(==, !new)
  type NodeRewardStage(==, !new)
}

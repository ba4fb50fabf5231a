/**
 The typed duty hierarchy of a node: every piece of work a node carries out
 is a value of one of these tagged variants, nested from `NetworkDuty` at the
 top down to the transfer, reward and metadata duties at the leaves.

 Field names follow the Rust enums. Dafny requires a field name shared by two
 constructors of one datatype to have one type, so five `NodeDuty` fields whose
 names clash with a differently typed field elsewhere in that enum are renamed
 (see the README).
 */
module Duties {
  import opened Payloads

  /** A `Vec<NodeDuty>`. */
  type NodeDuties = seq<NodeDuty>

  /** A `Vec<NetworkDuty>`. */
  type NetworkDuties = seq<NetworkDuty>

  /** All duties carried out by a node in the network. */
  datatype NetworkDuty =
    | RunAsAdult(adult: AdultDuty)
    | RunAsElder(elder: ElderDuty)
    | RunAsNode(node: NodeDuty)
    | NoOp

  // --------------- Node ---------------

  /** Common duties run by all nodes. */
  datatype NodeDuty =
    | GetNodeWalletKey(old_node_id: XorName, new_node_id: XorName, msg_id: MessageId, origin: SrcLocation)
    | PayoutNodeRewards(wallet_id: PublicKey, node_id: XorName, msg_id: MessageId, origin: SrcLocation)
    | PropagateTransfer(proof: CreditAgreementProof, msg_id: MessageId, origin: SrcLocation)
    | RegisterSectionPayout(debit_agreement: TransferAgreementProof, msg_id: MessageId, origin: SrcLocation)
    | SetNodeWallet(wallet_id: PublicKey, node_id: XorName, msg_id: MessageId, origin: SrcLocation)
    | ReceivePayoutValidation(validation: TransferValidated, msg_id: MessageId, origin: SrcLocation)
    | GetTransferReplicaEvents(msg_id: MessageId, origin: SrcLocation)
    | ValidateSectionPayout(signed_transfer: SignedTransferShare, msg_id: MessageId, origin: SrcLocation)
    | ReadChunk(read: BlobRead, msg_id: MessageId, end_user: EndUser)
    | WriteChunk(write: BlobWrite, msg_id: MessageId, end_user: EndUser)
    | ContinueWalletChurn(replicas: SectionElders, msg_id: MessageId, origin: SrcLocation)
    | GetSectionElders(msg_id: MessageId, origin: SrcLocation)
    | BeginFormingGenesisSection
    | ReceiveGenesisProposal(credit: Credit, sig: SignatureShare)
    | ReceiveGenesisAccumulation(signed_credit: SignedCredit, sig: SignatureShare)
    | UpdateElderInfo(prefix: Prefix, key: PublicKey, elder_names: set<XorName>, sibling_key: Option<PublicKey>)
    | CompleteElderChange(previous_key: PublicKey, new_key: PublicKey)
    | ChurnMembers(section_elders: Elders, sibling_elders: Option<Elders>)
    | LevelUp
    | LevelDown
    | ContinueLevelUp(node_rewards: map<XorName, NodeRewardStage>, user_wallets: map<PublicKey, ActorHistory>)
    | CompleteLevelUp(WalletHistory)
    | ProcessNewMember(XorName)
    | ProcessLostMember(name: XorName, age: u8)
    | ProcessRelocatedMember(old_node_id: XorName, new_node_id: XorName, age: u8)
    | ReachingMaxCapacity
    | IncrementFullNodeCount(node_key: PublicKey)
    | SwitchNodeJoin(bool)
    | Send(OutgoingMsg)
    | SendToNodes(targets: set<XorName>, msg: Message)
    | ProcessRead(query: DataQuery, id: MessageId, end_user: EndUser)
    | ProcessWrite(cmd: DataCmd, id: MessageId, end_user: EndUser)
    | ProcessDataPayment(msg: Message, end_user: EndUser)
    | ReplicateChunk(address: BlobAddress, current_holders: set<XorName>, id: MessageId)
    | GetChunkForReplication(address: BlobAddress, new_holder: XorName, id: MessageId)
    | StoreChunkForReplication(data: Blob, correlation_id: MessageId)
    | NoOp

  // --------------- Messaging ---------------

  /** A message leaving the node, with its destination. */
  datatype OutgoingMsg = OutgoingMsg(msg: Message, dst: DstLocation, section_source: bool, aggregation: Aggregation)

  /** Messaging duties; only the no-op exists. */
  datatype NodeMessagingDuty = NoOp

  // --------------- Adult ---------------

  /** Duties only run as an Adult. */
  datatype AdultDuty =
    | RunAsChunkStore(chunk_store: ChunkStoreDuty)
    | RunAsChunkReplication(chunk_replication: ChunkReplicationDuty)
    | NoOp

  // --------------- Elder ---------------

  /** Duties only run as an Elder. */
  datatype ElderDuty =
    | ProcessNewMember(XorName)
    | ProcessLostMember(name: XorName, age: u8)
    | ProcessRelocatedMember(old_node_id: XorName, new_node_id: XorName, age: u8)
    | RunAsKeySection(key_section: KeySectionDuty)
    | RunAsDataSection(data_section: DataSectionDuty)
    | NoOp
    | StorageFull(node_id: PublicKey)
    | SwitchNodeJoin(bool)

  /** Duties only run as a key section, the section that interfaces with clients. */
  datatype KeySectionDuty =
    | RunAsTransfers(transfers: TransferDuty)
    | NoOp

  /** Duties only run as a data section. */
  datatype DataSectionDuty =
    | RunAsMetadata(metadata: MetadataDuty)
    | RunAsRewards(rewards: RewardDuty)
    | NoOp

  /** Reads and writes of data at a data section. */
  datatype MetadataDuty =
    | ProcessRead(query: DataQuery, id: MessageId, origin: EndUser)
    | ProcessWrite(cmd: DataCmd, id: MessageId, origin: EndUser)
    | NoOp

  // --------------- Chunks ---------------

  /** Chunk storage and retrieval at Adults. */
  datatype ChunkStoreDuty =
    | ReadChunk(read: BlobRead, id: MessageId, origin: EndUser)
    | WriteChunk(write: BlobWrite, id: MessageId, origin: EndUser)
    | NoOp

  /** Chunk replication at Adults. */
  datatype ChunkReplicationDuty =
    | ProcessCmd(cmd: ChunkReplicationCmd, msg_id: MessageId, origin: SrcLocation)
    | ProcessQuery(query: ChunkReplicationQuery, msg_id: MessageId, origin: SrcLocation)
    | NoOp

  datatype ChunkReplicationQuery = GetChunk(BlobAddress)

  datatype ChunkReplicationCmd =
    | ReplicateChunk(current_holders: set<XorName>, address: BlobAddress)
    | StoreReplicatedBlob(Blob)

  // --------------- Rewards ---------------

  /** Reward duties, kept by Elders of a data section. */
  datatype RewardDuty =
    | ProcessQuery(query: RewardQuery, msg_id: MessageId, origin: SrcLocation)
    | ProcessCmd(cmd: RewardCmd, msg_id: MessageId, origin: SrcLocation)
    | NoOp

  datatype RewardCmd =
    | SynchHistory(WalletHistory)
    | ContinueWalletChurn(PublicKeySet)
    | AddNewNode(XorName)
    | SetNodeWallet(node_id: XorName, wallet_id: PublicKey)
    | AddRelocatingNode(old_node_id: XorName, new_node_id: XorName, age: u8)
    | ActivateNodeRewards(id: PublicKey, node_id: XorName)
    | DeactivateNode(XorName)
    | ReceivePayoutValidation(TransferValidated)

  datatype RewardQuery = GetNodeWalletId(old_node_id: XorName, new_node_id: XorName)

  // --------------- Transfers ---------------

  /** Transfers of tokens, and queries of balances and history, at a key section. */
  datatype TransferDuty =
    | ProcessQuery(query: TransferQuery, msg_id: MessageId, origin: SrcLocation)
    | ProcessCmd(cmd: TransferCmd, msg_id: MessageId, origin: SrcLocation)
    | NoOp

  /** Queries handled by the transfer Replicas. */
  datatype TransferQuery =
    | GetReplicaKeys(PublicKey)
    | GetBalance(PublicKey)
    | GetHistory(at: PublicKey, since_version: usize)
    | GetReplicaEvents
    | GetStoreCost(requester: PublicKey, bytes: u64)

  /** Commands carried out on the transfer Replicas. `SimulatePayout` exists
      only when the `simulated-payouts` feature is enabled. */
  datatype TransferCmd =
    | InitiateReplica(events: seq<ReplicaEvent>)
    | ProcessPayment(Message)
    | SimulatePayout(transfer: Transfer)
    | ValidateTransfer(signed_transfer: SignedTransfer)
    | RegisterTransfer(transfer_agreement: TransferAgreementProof)
    | PropagateTransfer(CreditAgreementProof)
    | ValidateSectionPayout(SignedTransferShare)
    | RegisterSectionPayout(TransferAgreementProof)
}

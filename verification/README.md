# sn_node duty envelopes, in Dafny

A node of the Safe Network describes its work as nested tagged variants.
`NetworkDuty` sits at the top. Below it are the Adult duties (chunk storage and
replication) and the Elder duties. The Elder duties contain key-section duties,
which hold transfers, and data-section duties, which hold metadata and rewards.
Every inner duty has a conversion that puts it into its place in this
hierarchy. Most of these conversions give a list (`NetworkDuties` or
`NodeDuties`) that is empty for a `NoOp` and a singleton otherwise. A few give
one `NetworkDuty`, and those always wrap the duty, a `NoOp` included. Two more
conversions translate the transfer commands and queries that clients send into
the node's own `TransferCmd` and `TransferQuery`.

The project models these enums and conversions. Module by module:

- `Payloads` (`payloads.dfy`): the foreign payload types are opaque types with
  equality only. This covers keys, names, message ids, proofs, signed
  transfers, blobs and data commands. `u8`, `u64` and `usize` are bounded
  newtypes.
- `Duties` (`duties.dfy`): one datatype per enum, with the same constructors.
- `Envelopes` (`envelopes.dfy`): the `From` conversions, and two independent
  descriptions of a duty's position. `Route` lists the envelope layers a
  network duty passes through. The `...Payload` functions strip one fixed
  envelope path and return what is found there.
- `Conversions` (`conversions.dfy`): puts the six conversions into
  `NetworkDuties` under one sum type, `Convertible`. This states once what
  they share, and shows that each is injective within its layer.
- `ClientMessages` and `ClientTranslation` (`client.dfy`): the client-facing
  command and query types, the translation into the internal ones, and its
  partial inverse.

Five `NodeDuty` fields are renamed, because Dafny requires a field name that
several constructors share to have one type. They are `origin: EndUser` →
`end_user`, `PayoutNodeRewards.id` → `wallet_id`,
`IncrementFullNodeCount.node_id` → `node_key`, `UpdateElderInfo.elders` →
`elder_names` and `ChurnMembers.elders` → `section_elders`. `BTreeSet` and
`BTreeMap` become `set` and `map`.

Client input is translated only into the `SimulatePayout`, `ValidateTransfer`
and `RegisterTransfer` commands, and into every query except
`GetReplicaEvents`. `ClientTranslation.ClientCmdImage` and
`ClientTranslation.ClientQueryImage` prove this.

## Model

| member | source | states |
|---|---|---|
| `Envelopes.NodeToNodeDuties` | src/node_ops.rs:256-264 | a `NodeDuty` becomes at most one element; the list is empty exactly when the duty is `NoOp`, and any element is the duty itself, unchanged |
| `Envelopes.AdultToNetworkDuties` | src/node_ops.rs:359-368 | at most one element; empty iff `NoOp`; a network duty is in the list iff the duty is not `NoOp` and stripping the Adult envelope from that network duty gives back the original duty |
| `Envelopes.AdultToNetworkDuty` | src/node_ops.rs:370-375 | the single conversion always wraps, even a `NoOp`: the result is never `NetworkDuty::NoOp`, it is routed through the Adult layer first, and stripping the Adult envelope gives back the duty |
| `Envelopes.AdultListAgreesWithSingle` | src/node_ops.rs:359-375 | for a non-`NoOp` duty, the list conversion is the singleton of the single conversion; for `NoOp`, the list is empty while the single conversion still gives `RunAsAdult(NoOp)` |
| `Envelopes.ElderToNetworkDuties` | src/node_ops.rs:413-422 | at most one element; empty iff `NoOp`; membership iff the duty is not `NoOp` and the Elder envelope strips back to it |
| `Envelopes.ElderToNetworkDuty` | src/node_ops.rs:424-429 | never `NetworkDuty::NoOp`, first layer is Elder, and the Elder envelope strips back to the duty, a `NoOp` included |
| `Envelopes.ElderListAgreesWithSingle` | src/node_ops.rs:413-429 | for a non-`NoOp` duty, list = singleton of single; for `NoOp`, list empty but single is `RunAsElder(NoOp)` |
| `Envelopes.KeySectionToNetworkDuties` | src/node_ops.rs:441-451 | at most one element; empty iff `NoOp`; membership iff not `NoOp` and the path `RunAsElder(RunAsKeySection(_))` strips back to the duty; every element is routed Elder → KeySection → Transfers |
| `Envelopes.KeySectionAgreesWithElder` | src/node_ops.rs:413-451 | a non-`NoOp` key-section duty converts to the same list as the Elder duty `RunAsKeySection` of it |
| `Envelopes.MetadataToNetworkDuties` | src/node_ops.rs:497-508 | at most one element; empty iff `NoOp`; membership iff not `NoOp` and `RunAsElder(RunAsDataSection(RunAsMetadata(_)))` strips back to the duty; route Elder → DataSection → Metadata |
| `Envelopes.MetadataAgreesWithElder` | src/node_ops.rs:497-508 | a non-`NoOp` metadata duty converts to the same list as the Elder duty that envelopes it |
| `Envelopes.RewardToNetworkDuties` | src/node_ops.rs:672-683 | at most one element; empty iff `NoOp`; membership iff not `NoOp` and `RunAsElder(RunAsDataSection(RunAsRewards(_)))` strips back to the duty; route Elder → DataSection → Rewards |
| `Envelopes.RewardToNetworkDuty` | src/node_ops.rs:685-692 | always at the rewards path, a `NoOp` included: never `NetworkDuty::NoOp`, route Elder → DataSection → Rewards, payload recovered by stripping |
| `Envelopes.RewardListAgreesWithSingle` | src/node_ops.rs:672-692 | for every non-`NoOp` reward duty the list conversion equals the singleton of the single conversion; for `NoOp` the list is empty while the single conversion still wraps `NoOp` at the rewards path |
| `Envelopes.RewardAgreesWithElder` | src/node_ops.rs:672-683 | a non-`NoOp` reward duty converts to the same list as the Elder duty that envelopes it |
| `Envelopes.TransferToNetworkDuties` | src/node_ops.rs:720-731 | at most one element; empty iff `NoOp`; membership iff not `NoOp` and `RunAsElder(RunAsKeySection(RunAsTransfers(_)))` strips back to the duty; route Elder → KeySection → Transfers |
| `Envelopes.TransferAgreesWithKeySection` | src/node_ops.rs:720-731 | a non-`NoOp` transfer duty converts to the same list as the key-section duty `RunAsTransfers` of it |
| `Envelopes.PayloadsFollowRoutes` | src/node_ops.rs:382-470 | the two descriptions of the nesting agree: a transfer, metadata or reward duty found by stripping its path sits on exactly the route Elder → KeySection → Transfers, Elder → DataSection → Metadata or Elder → DataSection → Rewards; the Adult and Elder envelopes are found exactly when the route starts with that layer |
| `Conversions.ToNetworkDuties` | src/node_ops.rs:359-731 | every list conversion into `NetworkDuties` gives at most one element, is empty iff the duty is its layer's `NoOp`, and each element is not `NoOp` and strips back to the original duty at that layer's path |
| `Conversions.ConversionInjective` | src/node_ops.rs:359-731 | within one layer, two duties that convert to the same list are equal, the layer's `NoOp` included |
| `ClientTranslation.FromClientCmd` | src/node_ops.rs:782-797 | each client command becomes the internal command it stands for, with the payload recovered by the partial inverse; never `InitiateReplica`, `ProcessPayment`, `PropagateTransfer`, `ValidateSectionPayout` or `RegisterSectionPayout` |
| `ClientTranslation.FromClientQuery` | src/node_ops.rs:799-816 | each client query becomes the same-named internal query; `GetHistory` keeps `at` and `since_version` and `GetStoreCost` keeps `requester` and `bytes`; never `GetReplicaEvents` |
| `ClientTranslation.FromClientCmdInjective` | src/node_ops.rs:782-797 | distinct client commands translate to distinct internal commands |
| `ClientTranslation.FromClientQueryInjective` | src/node_ops.rs:799-816 | distinct client queries translate to distinct internal queries |
| `ClientTranslation.ClientCmdImage` | src/node_ops.rs:761-797 | an internal command comes from some client command exactly when it is `SimulatePayout`, `ValidateTransfer` or `RegisterTransfer` |
| `ClientTranslation.ClientQueryImage` | src/node_ops.rs:736-816 | an internal query comes from some client query exactly when it is not `GetReplicaEvents` |

## Left out

- `src/node/elder_duties/metadata/writing.rs`: it only forwards each `DataCmd` variant to blob, map, sequence or account stores. Those stores are not part of this model.
- The transfer ledger, Replica validation, signature aggregation, reward stages and churn handling: only their command and query shapes appear in `src/node_ops.rs`. Their protocol bodies are not part of this model.
- The foreign types (BLS keys and key sets, messages, locations, proofs, histories, data commands): opaque types with equality, since nothing in the duty hierarchy inspects them.
- `OutgoingMsg::id` (`src/node_ops.rs:324-328`): it only calls the foreign `Message::id`. `OutgoingMsg` itself is modelled as a datatype.
- The `Debug` implementations (`src/node_ops.rs:266-312`, `339-345`): string formatting with no behaviour to state.
- `NodeMessagingDuty`, `DataSectionDuty`, `ChunkStoreDuty`, `ChunkReplicationDuty` and the chunk replication commands and queries are modelled as datatypes only. The source has no conversion for them.
- The `simulated-payouts` feature: the model describes a build with the feature enabled, so `SimulatePayout` exists on both the client and the internal command. Without the feature the constructor is absent from both. No other stated property depends on it.
- The client `TransferCmd` and `TransferQuery` come from the messaging crate, which is not part of this model. Their variants are the ones the translation matches on.
- `usize` is taken as 64 bits wide. No conversion does arithmetic, so the width only bounds the newtype.

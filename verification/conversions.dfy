/**
 The six conversions into `NetworkDuties` under one sum type, so that what
 they share can be stated once: each gives at most one network duty, gives
 none exactly for its own layer's no-op, and places the duty where stripping
 that layer's envelope path gives it back.
 */
module Conversions {
  import opened Payloads
  import opened Duties
  import opened Envelopes

  /** Any duty that has a conversion into `NetworkDuties`. */
  datatype Convertible =
    | FromAdult(adult: AdultDuty)
    | FromElder(elder: ElderDuty)
    | FromKeySection(key_section: KeySectionDuty)
    | FromMetadata(metadata: MetadataDuty)
    | FromReward(reward: RewardDuty)
    | FromTransfer(transfer: TransferDuty)

  /** The layer of the hierarchy whose duties `x` holds. */
  function LayerOf(x: Convertible): Layer
  {
    match x
    case FromAdult(_) => Adult
    case FromElder(_) => Elder
    case FromKeySection(_) => KeySection
    case FromMetadata(_) => Metadata
    case FromReward(_) => Rewards
    case FromTransfer(_) => Transfers
  }

  /** Whether the duty is its own layer's no-op. */
  predicate IsNoOp(x: Convertible)
  {
    match x
    case FromAdult(d) => d.NoOp?
    case FromElder(d) => d.NoOp?
    case FromKeySection(d) => d.NoOp?
    case FromMetadata(d) => d.NoOp?
    case FromReward(d) => d.NoOp?
    case FromTransfer(d) => d.NoOp?
  }

  /** The duty of layer `l` found at that layer's envelope path in `n`, if
      any. Layers that no conversion targets hold nothing. */
  function Unwrap(l: Layer, n: NetworkDuty): (r: Option<Convertible>)
    ensures r.Some? ==> LayerOf(r.value) == l
  {
    match l
    case Adult => (match AdultPayload(n) case Some(d) => Some(FromAdult(d)) case None => None)
    case Elder => (match ElderPayload(n) case Some(d) => Some(FromElder(d)) case None => None)
    case KeySection => (match KeySectionPayload(n) case Some(d) => Some(FromKeySection(d)) case None => None)
    case Metadata => (match MetadataPayload(n) case Some(d) => Some(FromMetadata(d)) case None => None)
    case Rewards => (match RewardPayload(n) case Some(d) => Some(FromReward(d)) case None => None)
    case Transfers => (match TransferPayload(n) case Some(d) => Some(FromTransfer(d)) case None => None)
    case _ => None
  }

  /** The list conversion of each layer. */
  function ToNetworkDuties(x: Convertible): (r: NetworkDuties)
    ensures |r| <= 1
    ensures r == [] <==> IsNoOp(x)
    ensures forall n :: n in r ==> !n.NoOp? && Unwrap(LayerOf(x), n) == Some(x)
  {
    match x
    case FromAdult(d) => AdultToNetworkDuties(d)
    case FromElder(d) => ElderToNetworkDuties(d)
    case FromKeySection(d) => KeySectionToNetworkDuties(d)
    case FromMetadata(d) => MetadataToNetworkDuties(d)
    case FromReward(d) => RewardToNetworkDuties(d)
    case FromTransfer(d) => TransferToNetworkDuties(d)
  }

  /** Within one layer, distinct duties convert to distinct lists; each
      layer has a single no-op, the only duty converting to `[]`. */
  lemma ConversionInjective(x: Convertible, y: Convertible)
    requires LayerOf(x) == LayerOf(y)
    requires ToNetworkDuties(x) == ToNetworkDuties(y)
    ensures x == y
  {
  }
}

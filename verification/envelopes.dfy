/**
 The conversions that place an inner duty into its envelope of outer
 constructors (the `From` impls of the duty hierarchy), together with two
 independent descriptions of where a network duty sits in the hierarchy:

 - `Route` lists the envelope layers a network duty passes through, outermost
   first, down to the first duty that is not itself an envelope;
 - the `...Payload` functions strip one fixed envelope path and return the
   duty found there, or `None` when the network duty is not on that path.

 Each conversion's contract is stated against these, so it says at which path
 the duty lands and that stripping that path gives the original duty back.
 */
module Envelopes {
  import opened Payloads
  import opened Duties

  /** One layer of the duty hierarchy that a network duty can be routed through. */
  datatype Layer =
    | Node
    | Adult | ChunkStore | ChunkReplication
    | Elder | KeySection | Transfers | DataSection | Metadata | Rewards

  // ---------------- Routes ----------------

  /** The envelope layers of `n`, outermost first. A `NoOp` at any level ends
      the route without adding a layer. */
  function Route(n: NetworkDuty): seq<Layer>
  {
    match n
    case RunAsNode(_) => [Node]
    case RunAsAdult(a) => [Adult] + AdultRoute(a)
    case RunAsElder(e) => [Elder] + ElderRoute(e)
    case NoOp => []
  }

  function AdultRoute(a: AdultDuty): seq<Layer>
  {
    match a
    case RunAsChunkStore(_) => [ChunkStore]
    case RunAsChunkReplication(_) => [ChunkReplication]
    case NoOp => []
  }

  function ElderRoute(e: ElderDuty): seq<Layer>
  {
    match e
    case RunAsKeySection(k) =>
      [KeySection] + (match k
                      case RunAsTransfers(_) => [Transfers]
                      case NoOp => [])
    case RunAsDataSection(s) =>
      [DataSection] + (match s
                       case RunAsMetadata(_) => [Metadata]
                       case RunAsRewards(_) => [Rewards]
                       case NoOp => [])
    case _ => []
  }

  // ---------------- Envelope stripping ----------------

  /** The Adult duty inside `RunAsAdult(_)`. */
  function AdultPayload(n: NetworkDuty): Option<AdultDuty>
  {
    match n
    case RunAsAdult(a) => Some(a)
    case _ => None
  }

  /** The Elder duty inside `RunAsElder(_)`. */
  function ElderPayload(n: NetworkDuty): Option<ElderDuty>
  {
    match n
    case RunAsElder(e) => Some(e)
    case _ => None
  }

  /** The key-section duty inside `RunAsElder(RunAsKeySection(_))`. */
  function KeySectionPayload(n: NetworkDuty): Option<KeySectionDuty>
  {
    match ElderPayload(n)
    case Some(RunAsKeySection(k)) => Some(k)
    case _ => None
  }

  /** The transfer duty inside `RunAsElder(RunAsKeySection(RunAsTransfers(_)))`. */
  function TransferPayload(n: NetworkDuty): Option<TransferDuty>
  {
    match KeySectionPayload(n)
    case Some(RunAsTransfers(t)) => Some(t)
    case _ => None
  }

  /** The data-section duty inside `RunAsElder(RunAsDataSection(_))`. */
  function DataSectionPayload(n: NetworkDuty): Option<DataSectionDuty>
  {
    match ElderPayload(n)
    case Some(RunAsDataSection(s)) => Some(s)
    case _ => None
  }

  /** The metadata duty inside `RunAsElder(RunAsDataSection(RunAsMetadata(_)))`. */
  function MetadataPayload(n: NetworkDuty): Option<MetadataDuty>
  {
    match DataSectionPayload(n)
    case Some(RunAsMetadata(m)) => Some(m)
    case _ => None
  }

  /** The reward duty inside `RunAsElder(RunAsDataSection(RunAsRewards(_)))`. */
  function RewardPayload(n: NetworkDuty): Option<RewardDuty>
  {
    match DataSectionPayload(n)
    case Some(RunAsRewards(r)) => Some(r)
    case _ => None
  }

  /** The two descriptions of a position agree: a duty found by stripping a
      leaf path is routed through exactly the layers of that path. */
  lemma PayloadsFollowRoutes(n: NetworkDuty)
    ensures TransferPayload(n).Some? ==> Route(n) == [Elder, KeySection, Transfers]
    ensures MetadataPayload(n).Some? ==> Route(n) == [Elder, DataSection, Metadata]
    ensures RewardPayload(n).Some? ==> Route(n) == [Elder, DataSection, Rewards]
    ensures KeySectionPayload(n).Some? ==> |Route(n)| >= 2 && Route(n)[..2] == [Elder, KeySection]
    ensures AdultPayload(n).Some? <==> |Route(n)| >= 1 && Route(n)[0] == Adult
    ensures ElderPayload(n).Some? <==> |Route(n)| >= 1 && Route(n)[0] == Elder
  {
  }

  // ---------------- Node ----------------

  /** `NodeDuty` into `NodeDuties`: nothing for a no-op, else the duty itself. */
  function NodeToNodeDuties(duty: NodeDuty): (r: NodeDuties)
    ensures |r| <= 1
    ensures r == [] <==> duty.NoOp?
    ensures forall x :: x in r ==> x == duty
  {
    if duty.NoOp? then [] else [duty]
  }

  // ---------------- Adult ----------------

  /** `AdultDuty` into `NetworkDuties`: nothing for a no-op, else the duty
      under the Adult envelope. */
  function AdultToNetworkDuties(duty: AdultDuty): (r: NetworkDuties)
    ensures |r| <= 1
    ensures r == [] <==> duty.NoOp?
    ensures forall n :: n in r <==> !duty.NoOp? && AdultPayload(n) == Some(duty)
  {
    if duty.NoOp? then [] else [RunAsAdult(duty)]
  }

  /** `AdultDuty` into one `NetworkDuty`: always wrapped, a no-op included. */
  function AdultToNetworkDuty(duty: AdultDuty): (r: NetworkDuty)
    ensures !r.NoOp?
    ensures AdultPayload(r) == Some(duty)
    ensures Route(r)[0] == Adult
  {
    RunAsAdult(duty)
  }

  /** The list form is the singleton of the single form, except for a no-op,
      where the list is empty but the single form still wraps it. */
  lemma AdultListAgreesWithSingle(duty: AdultDuty)
    ensures !duty.NoOp? ==> AdultToNetworkDuties(duty) == [AdultToNetworkDuty(duty)]
    ensures duty.NoOp? ==> AdultToNetworkDuties(duty) == [] && AdultToNetworkDuty(duty) == RunAsAdult(AdultDuty.NoOp)
  {
  }

  // ---------------- Elder ----------------

  /** `ElderDuty` into `NetworkDuties`: nothing for a no-op, else the duty
      under the Elder envelope. */
  function ElderToNetworkDuties(duty: ElderDuty): (r: NetworkDuties)
    ensures |r| <= 1
    ensures r == [] <==> duty.NoOp?
    ensures forall n :: n in r <==> !duty.NoOp? && ElderPayload(n) == Some(duty)
  {
    if duty.NoOp? then [] else [RunAsElder(duty)]
  }

  /** `ElderDuty` into one `NetworkDuty`: always wrapped, a no-op included. */
  function ElderToNetworkDuty(duty: ElderDuty): (r: NetworkDuty)
    ensures !r.NoOp?
    ensures ElderPayload(r) == Some(duty)
    ensures Route(r)[0] == Elder
  {
    RunAsElder(duty)
  }

  lemma ElderListAgreesWithSingle(duty: ElderDuty)
    ensures !duty.NoOp? ==> ElderToNetworkDuties(duty) == [ElderToNetworkDuty(duty)]
    ensures duty.NoOp? ==> ElderToNetworkDuties(duty) == [] && ElderToNetworkDuty(duty) == RunAsElder(ElderDuty.NoOp)
  {
  }

  // ---------------- KeySection ----------------

  /** `KeySectionDuty` into `NetworkDuties`: nothing for a no-op, else the
      duty at `RunAsElder(RunAsKeySection(_))`. */
  function KeySectionToNetworkDuties(duty: KeySectionDuty): (r: NetworkDuties)
    ensures |r| <= 1
    ensures r == [] <==> duty.NoOp?
    ensures forall n :: n in r <==> !duty.NoOp? && KeySectionPayload(n) == Some(duty)
    ensures forall n :: n in r ==> Route(n) == [Elder, KeySection, Transfers]
  {
    if duty.NoOp? then [] else [RunAsElder(RunAsKeySection(duty))]
  }

  /** A key-section duty converts exactly as the Elder duty that envelopes it. */
  lemma KeySectionAgreesWithElder(duty: KeySectionDuty)
    requires !duty.NoOp?
    ensures KeySectionToNetworkDuties(duty) == ElderToNetworkDuties(RunAsKeySection(duty))
  {
  }

  // ---------------- Metadata ----------------

  /** `MetadataDuty` into `NetworkDuties`: nothing for a no-op, else the duty
      at `RunAsElder(RunAsDataSection(RunAsMetadata(_)))`. */
  function MetadataToNetworkDuties(duty: MetadataDuty): (r: NetworkDuties)
    ensures |r| <= 1
    ensures r == [] <==> duty.NoOp?
    ensures forall n :: n in r <==> !duty.NoOp? && MetadataPayload(n) == Some(duty)
    ensures forall n :: n in r ==> Route(n) == [Elder, DataSection, Metadata]
  {
    if duty.NoOp? then [] else [RunAsElder(RunAsDataSection(RunAsMetadata(duty)))]
  }

  lemma MetadataAgreesWithElder(duty: MetadataDuty)
    requires !duty.NoOp?
    ensures MetadataToNetworkDuties(duty) == ElderToNetworkDuties(RunAsDataSection(RunAsMetadata(duty)))
  {
  }

  // ---------------- Rewards ----------------

  /** `RewardDuty` into `NetworkDuties`: nothing for a no-op, else the duty
      at `RunAsElder(RunAsDataSection(RunAsRewards(_)))`. */
  function RewardToNetworkDuties(duty: RewardDuty): (r: NetworkDuties)
    ensures |r| <= 1
    ensures r == [] <==> duty.NoOp?
    ensures forall n :: n in r <==> !duty.NoOp? && RewardPayload(n) == Some(duty)
    ensures forall n :: n in r ==> Route(n) == [Elder, DataSection, Rewards]
  {
    if duty.NoOp? then [] else [RunAsElder(RunAsDataSection(RunAsRewards(duty)))]
  }

  /** `RewardDuty` into one `NetworkDuty`: always at the rewards path, a no-op
      included. */
  function RewardToNetworkDuty(duty: RewardDuty): (r: NetworkDuty)
    ensures !r.NoOp?
    ensures RewardPayload(r) == Some(duty)
    ensures Route(r) == [Elder, DataSection, Rewards]
  {
    RunAsElder(RunAsDataSection(RunAsRewards(duty)))
  }

  lemma RewardListAgreesWithSingle(duty: RewardDuty)
    ensures !duty.NoOp? ==> RewardToNetworkDuties(duty) == [RewardToNetworkDuty(duty)]
    ensures duty.NoOp? ==> RewardToNetworkDuties(duty) == [] && RewardPayload(RewardToNetworkDuty(duty)) == Some(RewardDuty.NoOp)
  {
  }

  lemma RewardAgreesWithElder(duty: RewardDuty)
    requires !duty.NoOp?
    ensures RewardToNetworkDuties(duty) == ElderToNetworkDuties(RunAsDataSection(RunAsRewards(duty)))
  {
  }

  // ---------------- Transfers ----------------

  /** `TransferDuty` into `NetworkDuties`: nothing for a no-op, else the duty
      at `RunAsElder(RunAsKeySection(RunAsTransfers(_)))`. */
  function TransferToNetworkDuties(duty: TransferDuty): (r: NetworkDuties)
    ensures |r| <= 1
    ensures r == [] <==> duty.NoOp?
    ensures forall n :: n in r <==> !duty.NoOp? && TransferPayload(n) == Some(duty)
    ensures forall n :: n in r ==> Route(n) == [Elder, KeySection, Transfers]
  {
    if duty.NoOp? then [] else [RunAsElder(RunAsKeySection(RunAsTransfers(duty)))]
  }

  /** A transfer duty converts exactly as the key-section duty that envelopes it. */
  lemma TransferAgreesWithKeySection(duty: TransferDuty)
    requires !duty.NoOp?
    ensures TransferToNetworkDuties(duty) == KeySectionToNetworkDuties(RunAsTransfers(duty))
  {
  }
}

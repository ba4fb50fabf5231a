/**
 The client-facing transfer commands and queries, as received from clients
 over the messaging layer. Their variants are those the node's translation
 matches on; `SimulatePayout` exists only with the `simulated-payouts`
 feature.
 */
module ClientMessages {
  import opened Payloads

  datatype TransferCmd =
    | SimulatePayout(transfer: Transfer)
    | ValidateTransfer(signed_transfer: SignedTransfer)
    | RegisterTransfer(transfer_agreement: TransferAgreementProof)

  datatype TransferQuery =
    | GetReplicaKeys(PublicKey)
    | GetBalance(PublicKey)
    | GetHistory(at: PublicKey, since_version: usize)
    | GetStoreCost(requester: PublicKey, bytes: u64)
}

/**
 Translation of client transfer commands and queries into the node's own
 `TransferCmd` and `TransferQuery`. Each client variant becomes the internal
 variant of the same name with the same payload; the internal-only variants
 (replica bootstrap, payment processing, propagation, section payouts, the
 replica event log) are never produced from client input.

 `ClientCmdOf` and `ClientQueryOf` are the partial inverses: they recognise
 the internal values that have a client counterpart and give it back.
 */
module ClientTranslation {
  import opened Payloads
  import Client = ClientMessages
  import Duties

  /** The client command an internal command stands for, if it has one. */
  function ClientCmdOf(cmd: Duties.TransferCmd): Option<Client.TransferCmd>
  {
    match cmd
    case SimulatePayout(t) => Some(Client.SimulatePayout(t))
    case ValidateTransfer(s) => Some(Client.ValidateTransfer(s))
    case RegisterTransfer(p) => Some(Client.RegisterTransfer(p))
    case _ => None
  }

  /** The client query an internal query stands for, if it has one. */
  function ClientQueryOf(query: Duties.TransferQuery): Option<Client.TransferQuery>
  {
    match query
    case GetReplicaKeys(k) => Some(Client.GetReplicaKeys(k))
    case GetBalance(k) => Some(Client.GetBalance(k))
    case GetHistory(at, v) => Some(Client.GetHistory(at, v))
    case GetStoreCost(requester, bytes) => Some(Client.GetStoreCost(requester, bytes))
    case GetReplicaEvents => None
  }

  /** A client transfer command as an internal one. */
  function FromClientCmd(cmd: Client.TransferCmd): (r: Duties.TransferCmd)
    ensures ClientCmdOf(r) == Some(cmd)
    ensures !r.InitiateReplica? && !r.ProcessPayment? && !r.PropagateTransfer?
    ensures !r.ValidateSectionPayout? && !r.RegisterSectionPayout?
  {
    match cmd
    case SimulatePayout(transfer) => Duties.SimulatePayout(transfer)
    case ValidateTransfer(signed_transfer) => Duties.ValidateTransfer(signed_transfer)
    case RegisterTransfer(transfer_agreement) => Duties.RegisterTransfer(transfer_agreement)
  }

  /** A client transfer query as an internal one. */
  function FromClientQuery(query: Client.TransferQuery): (r: Duties.TransferQuery)
    ensures ClientQueryOf(r) == Some(query)
    ensures !r.GetReplicaEvents?
    ensures r.GetHistory? <==> query.GetHistory?
    ensures r.GetHistory? ==> r.at == query.at && r.since_version == query.since_version
    ensures r.GetStoreCost? <==> query.GetStoreCost?
    ensures r.GetStoreCost? ==> r.requester == query.requester && r.bytes == query.bytes
  {
    match query
    case GetReplicaKeys(k) => Duties.GetReplicaKeys(k)
    case GetBalance(k) => Duties.GetBalance(k)
    case GetHistory(at, since_version) => Duties.GetHistory(at, since_version)
    case GetStoreCost(requester, bytes) => Duties.GetStoreCost(requester, bytes)
  }

  /** The translation is injective: different client commands stay different. */
  lemma FromClientCmdInjective(a: Client.TransferCmd, b: Client.TransferCmd)
    requires FromClientCmd(a) == FromClientCmd(b)
    ensures a == b
  {
  }

  lemma FromClientQueryInjective(a: Client.TransferQuery, b: Client.TransferQuery)
    requires FromClientQuery(a) == FromClientQuery(b)
    ensures a == b
  {
  }

  /** The internal commands a client can cause are exactly those with a
      client counterpart: simulated payouts, transfer validation and
      transfer registration. */
  lemma ClientCmdImage(cmd: Duties.TransferCmd)
    ensures (exists c :: FromClientCmd(c) == cmd) <==> ClientCmdOf(cmd).Some?
    ensures (exists c :: FromClientCmd(c) == cmd) <==>
              (cmd.SimulatePayout? || cmd.ValidateTransfer? || cmd.RegisterTransfer?)
  {
    if ClientCmdOf(cmd).Some? {
      assert FromClientCmd(ClientCmdOf(cmd).value) == cmd;
    }
  }

  /** Every internal query other than `GetReplicaEvents` can come from a client. */
  lemma ClientQueryImage(query: Duties.TransferQuery)
    ensures (exists q :: FromClientQuery(q) == query) <==> !query.GetReplicaEvents?
  {
    if !query.GetReplicaEvents? {
      assert FromClientQuery(ClientQueryOf(query).value) == query;
    }
  }
}

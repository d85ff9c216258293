/**
 * The types of `sn_networking` and `sn_protocol::messages` that the modelled code
 * consumes. The transport itself (put, get, send) is never modelled: each caller
 * takes its results as parameters.
 */
module NetworkApi {
  import opened Wrappers
  import opened Types
  import Header

  /** libp2p `kad::Quorum` (and `GetQuorum`). */
  datatype Quorum = One | Majority | All

  datatype RetryStrategy = Quick | Balanced | Persistent

  datatype VerificationKind = Network

  datatype GetRecordCfg = GetRecordCfg(
    getQuorum: Quorum,
    retryStrategy: Option<RetryStrategy>,
    targetRecord: Option<Record>,
    expectedHolders: set<PeerId>,
    isRegister: bool)

  datatype PutRecordCfg = PutRecordCfg(
    putQuorum: Quorum,
    retryStrategy: Option<RetryStrategy>,
    usePutRecordTo: Option<seq<PeerId>>,
    verification: Option<(VerificationKind, GetRecordCfg)>)

  /** One `put_record` call: the record and the configuration it was issued with. */
  datatype PutRequest = PutRequest(record: Record, cfg: PutRecordCfg)

  /** libp2p `request_response::RequestId`. */
  datatype RequestId = RequestId(id: nat)

  /** libp2p `request_response::OutboundFailure`. */
  datatype OutboundFailure = DialFailure | Timeout | ConnectionClosed | UnsupportedProtocols

  datatype GetRecordError =
    | RecordNotFound
    | RecordDoesNotMatch(record: Record)
    | SplitRecord
    | NotEnoughCopies
    | QuorumFailed

  /** `sn_networking::NetworkError`, with the variants this core distinguishes. */
  datatype NetworkError =
    | GetRecordErr(getError: GetRecordError)
    | Protocol(protocolError: Header.Error)
    | OutboundError(failure: OutboundFailure)
    | InternalMsgChannelDropped
    | ReceivedResponseDropped(requestId: RequestId)
    | OtherNetworkError(code: nat)

  /** `Cmd::Replicate`. */
  datatype Cmd = Replicate(holder: NetworkAddress, keys: set<NetworkAddress>)

  datatype Query =
    | GetReplicatedRecord(requester: NetworkAddress, key: NetworkAddress)
    | OtherQuery(code: nat)

  datatype Request = CmdRequest(cmd: Cmd) | QueryRequest(query: Query)

  /** `QueryResponse`; the error of `GetReplicatedRecord` is an opaque protocol error. */
  datatype QueryResponse =
    | GetReplicatedRecordResponse(result: Result<(NetworkAddress, seq<byte>), nat>)
    | OtherQueryResponse(code: nat)

  datatype Response = QueryResp(query: QueryResponse) | CmdResponse(code: nat)
}

/**
 * The data model of the OPA permission client: client kinds, actions,
 * per-call options, the request/response records exchanged with the
 * policy server, and the default constants.
 */
module Types {

  /** Go's `time.Duration`: a signed count of nanoseconds. */
  type Duration = int

  const Nanosecond: Duration := 1
  const Second: Duration := 1_000_000_000 * Nanosecond

  /** Which implementation of the permission client to use. */
  datatype ClientKind = ClientKindHTTP | ClientKindNop | ClientKindMock

  /** The configuration spelling of a client kind. */
  function ClientKindName(k: ClientKind): (s: string)
    ensures s in {"http", "nop", "mock"}
  {
    match k
    case ClientKindHTTP => "http"
    case ClientKindNop => "nop"
    case ClientKindMock => "mock"
  }

  const DefaultClientKind: ClientKind := ClientKindNop
  const DefaultRequestTimeOut: Duration := 10 * Second

  /** The defaults: authorization disabled, and a ten-second request timeout. */
  lemma Defaults()
    ensures ClientKindName(DefaultClientKind) == "nop"
    ensures DefaultRequestTimeOut == 10_000_000_000 && DefaultRequestTimeOut != 0
  {
  }

  /** Distinct kinds have distinct names, so a name selects exactly one kind. */
  lemma ClientKindNameInjective(k1: ClientKind, k2: ClientKind)
    ensures ClientKindName(k1) == ClientKindName(k2) ==> k1 == k2
  {
  }

  /** The operation a caller asks permission for: a closed set of five tags. */
  datatype Action = ActionRead | ActionList | ActionCreate | ActionUpdate | ActionDelete

  /** `string(action)`: the tag sent on the wire. */
  function ActionName(a: Action): (s: string)
    ensures s in {"read", "list", "create", "update", "delete"}
  {
    match a
    case ActionRead => "read"
    case ActionList => "list"
    case ActionCreate => "create"
    case ActionUpdate => "update"
    case ActionDelete => "delete"
  }

  /** The five tags are pairwise distinct, so the wire tag identifies the action. */
  lemma ActionNameInjective(a1: Action, a2: Action)
    ensures ActionName(a1) == ActionName(a2) ==> a1 == a2
  {
  }

  /** Configuration as it is loaded by the embedding process. */
  datatype Config = Config(
    address: string,
    clientKind: ClientKind,
    requestTimeout: int,
    permissionQueryPath: string,
    permissionFilterPath: string,
    verbose: bool,
    overrideHeaderValue: string,
    skipTLSVerify: bool)

  /**
   * Per-call options. `raiseForbidden` belongs to the calling authorization
   * layer; the client never reads it.
   */
  datatype PermissionOptions = PermissionOptions(
    memberIds: seq<string>,
    raiseForbidden: bool,
    overrideHeaderValue: string)

  datatype PermissionQueryRequestInput = PermissionQueryRequestInput(
    resource: string,
    action: string,
    ids: seq<string>)

  datatype PermissionQueryRequest = PermissionQueryRequest(input: PermissionQueryRequestInput)

  datatype PermissionFilterRequestInput = PermissionFilterRequestInput(
    resources: seq<string>,
    action: string,
    ids: seq<string>)

  datatype PermissionFilterRequest = PermissionFilterRequest(input: PermissionFilterRequestInput)

  /** The single query's answer: allowed or not. */
  datatype PermissionQueryResponse = PermissionQueryResponse(result: bool)

  /** The filter query's answer: the subset of the requested resources that is allowed. */
  datatype PermissionFilterResponse = PermissionFilterResponse(result: seq<string>)
}

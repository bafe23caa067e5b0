/** Entities, ledger events and audit records of the visibility-services
    mapping, and the store that holds them. */
module Schema {
  import opened Numerals
  import opened EntityStore

  /** Raw ledger bytes: addresses, transaction hashes, opaque payloads. */
  type Bytes = seq<bv8>

  /** A visibility, keyed by its external identifier. */
  datatype Visibility = Visibility(id: string, currentPrice: nat, totalSupply: nat)

  /** A service offered on a visibility, keyed by the decimal text of its nonce. */
  datatype VisibilityService = VisibilityService(
    id: string,
    visibility: string,
    serviceType: int,
    creditsCostAmount: nat,
    enabled: bool)

  datatype ExecutionState = Requested | Accepted | Disputed | Validated | Refunded

  /** One execution of a service, keyed by ExecutionKey(serviceNonce, executionNonce).
      The payloads other than the request are absent until the event that
      carries them arrives. */
  datatype Execution = Execution(
    id: string,
    service: string,
    executionNonce: nat,
    requester: Bytes,
    state: ExecutionState,
    requestData: Bytes,
    responseData: Option<Bytes>,
    cancelData: Option<Bytes>,
    disputeData: Option<Bytes>,
    resolveData: Option<Bytes>,
    lastUpdated: nat)

  /** The parameters of the eight events the mapping handles. */
  datatype Params =
    | ServiceCreated(nonce: nat, serviceType: int, visibilityId: string, creditsCostAmount: nat)
    | ServiceUpdated(nonce: nat, enabled: bool)
    | ServiceExecutionRequested(serviceNonce: nat, executionNonce: nat, requester: Bytes, requestData: Bytes)
    | ServiceExecutionAccepted(serviceNonce: nat, executionNonce: nat, responseData: Bytes)
    | ServiceExecutionCanceled(serviceNonce: nat, executionNonce: nat, from: Bytes, cancelData: Bytes)
    | ServiceExecutionDisputed(serviceNonce: nat, executionNonce: nat, disputeData: Bytes)
    | ServiceExecutionResolved(serviceNonce: nat, executionNonce: nat, refund: bool, resolveData: Bytes)
    | ServiceExecutionValidated(serviceNonce: nat, executionNonce: nat)
  {
    /** The five events that move an existing execution to a new state. */
    predicate IsTransition() {
      ServiceExecutionAccepted? || ServiceExecutionCanceled? || ServiceExecutionDisputed? ||
      ServiceExecutionResolved? || ServiceExecutionValidated?
    }
  }

  /** What the ledger attaches to every event. */
  datatype Meta = Meta(blockNumber: nat, blockTimestamp: nat, transactionHash: Bytes, logIndex: nat)

  datatype Event = Event(params: Params, meta: Meta)

  /** The audit table an event's record goes to: one table per event kind. */
  datatype AuditTable =
    | ServiceCreatedTable | ServiceUpdatedTable | RequestedTable | AcceptedTable
    | CanceledTable | DisputedTable | ResolvedTable | ValidatedTable

  function TableOf(p: Params): (t: AuditTable) {
    match p
    case ServiceCreated(_, _, _, _) => ServiceCreatedTable
    case ServiceUpdated(_, _) => ServiceUpdatedTable
    case ServiceExecutionRequested(_, _, _, _) => RequestedTable
    case ServiceExecutionAccepted(_, _, _) => AcceptedTable
    case ServiceExecutionCanceled(_, _, _, _) => CanceledTable
    case ServiceExecutionDisputed(_, _, _) => DisputedTable
    case ServiceExecutionResolved(_, _, _, _) => ResolvedTable
    case ServiceExecutionValidated(_, _) => ValidatedTable
  }

  /** An audit record is identified, within its table, by the transaction
      hash and the log index of its event. */
  datatype AuditKey = AuditKey(table: AuditTable, transactionHash: Bytes, logIndex: nat)

  /** An immutable copy of an event's parameters and block data. */
  datatype AuditRecord = AuditRecord(params: Params, blockNumber: nat, blockTimestamp: nat, transactionHash: Bytes)

  function AuditKeyOf(e: Event): (k: AuditKey) {
    AuditKey(TableOf(e.params), e.meta.transactionHash, e.meta.logIndex)
  }

  /** The verbatim record of an event. */
  function VerbatimRecord(e: Event): (r: AuditRecord) {
    AuditRecord(e.params, e.meta.blockNumber, e.meta.blockTimestamp, e.meta.transactionHash)
  }

  /** The identifier of an execution: the service nonce and the execution
      nonce in decimal, joined by a dash. The first dash is the one between
      them, so the two decimal texts can be read back from the identifier. */
  function ExecutionKey(serviceNonce: nat, executionNonce: nat): (k: string)
    ensures var a := NatToString(serviceNonce);
      |a| < |k| && k[|a|] == '-' && (forall i :: 0 <= i < |a| ==> k[i] != '-') &&
      k[..|a|] == a && k[|a| + 1..] == NatToString(executionNonce)
  {
    var a, b := NatToString(serviceNonce), NatToString(executionNonce);
    FirstDash(a, b);
    assert (a + "-" + b)[..|a|] == a && (a + "-" + b)[|a| + 1..] == b;
    ExecutionKeyOf(a, executionNonce)
  }

  /** The identifier of an execution of the service whose identifier is `service`. */
  function ExecutionKeyOf(service: string, executionNonce: nat): (k: string) {
    service + "-" + NatToString(executionNonce)
  }

  /** Decimal text holds no dash, so in `a + "-" + b` the first dash follows `a`. */
  lemma FirstDash(a: string, b: string)
    requires IsDecimal(a)
    ensures forall i :: 0 <= i <= |a| ==> ((a + "-" + b)[i] == '-' <==> i == |a|)
  {
  }

  /** Distinct nonce pairs give distinct execution identifiers, so an
      identifier is never shared by two different requests. */
  lemma ExecutionKeyInjective(s1: nat, e1: nat, s2: nat, e2: nat)
    requires ExecutionKey(s1, e1) == ExecutionKey(s2, e2)
    ensures s1 == s2 && e1 == e2
  {
    var a1, a2 := NatToString(s1), NatToString(s2);
    var k := ExecutionKey(s1, e1);
    FirstDash(a1, NatToString(e1));
    FirstDash(a2, NatToString(e2));
    assert k[|a1|] == '-' && k[|a2|] == '-';
    assert a1 == k[..|a1|] == a2;
    assert NatToString(e1) == k[|a1| + 1..] == NatToString(e2);
    NatToStringInjective(s1, s2);
    NatToStringInjective(e1, e2);
  }

  /** The whole store: the three entity tables and the audit tables. */
  datatype Store = Store(
    visibilities: Table<string, Visibility>,
    services: Table<string, VisibilityService>,
    executions: Table<string, Execution>,
    audit: Table<AuditKey, AuditRecord>)

  function EmptyStore(): Store {
    Store(EmptyTable(), EmptyTable(), EmptyTable(), EmptyTable())
  }

  /** Every visibility, in either tier, sits under its own id. */
  predicate KeyedById(t: Table<string, Visibility>) {
    (forall k :: k in t.confirmed ==> t.confirmed[k].id == k) &&
    (forall k :: k in t.inBlock ==> t.inBlock[k].id == k)
  }

  predicate ServiceWellFormed(s: Store, k: string, v: VisibilityService) {
    v.id == k && s.visibilities.Has(v.visibility)
  }

  predicate ExecutionWellFormed(s: Store, k: string, x: Execution) {
    x.id == k && x.id == ExecutionKeyOf(x.service, x.executionNonce) && s.services.Has(x.service)
  }

  /** The store's invariant: every entity sits under its own identifier, every
      service's visibility exists, every execution's service exists, and every
      execution's identifier is built from its service and its nonce, and
      every audit record sits in the table of its event's kind. */
  predicate WellFormed(s: Store) {
    KeyedById(s.visibilities) &&
    (forall k :: k in s.services.confirmed ==> ServiceWellFormed(s, k, s.services.confirmed[k])) &&
    (forall k :: k in s.services.inBlock ==> ServiceWellFormed(s, k, s.services.inBlock[k])) &&
    (forall k :: k in s.executions.confirmed ==> ExecutionWellFormed(s, k, s.executions.confirmed[k])) &&
    (forall k :: k in s.executions.inBlock ==> ExecutionWellFormed(s, k, s.executions.inBlock[k])) &&
    (forall k :: k in s.audit.confirmed ==> TableOf(s.audit.confirmed[k].params) == k.table) &&
    (forall k :: k in s.audit.inBlock ==> TableOf(s.audit.inBlock[k].params) == k.table)
  }
}

/** What each event handler does to the store, as functions from the store
    before the event to the store after it. The class in module Mapping
    performs the same steps imperatively and is proved equal to Step. */
module Handlers {
  import opened EntityStore
  import opened Numerals
  import opened Schema

  /** Get-or-create: the visibility found by the two-tier lookup, or a new
      one with price and supply zero. In a table whose entries sit under
      their own ids, the result has the requested id either way. */
  function ResolveVisibility(t: Table<string, Visibility>, id: string): (v: Visibility)
    ensures t.Has(id) ==> Some(v) == t.Get(id)
    ensures !t.Has(id) ==> v == Visibility(id, 0, 0)
    ensures KeyedById(t) ==> v.id == id
  {
    match t.Get(id)
    case Some(v) => v
    case None => Visibility(id, 0, 0)
  }

  /** ServiceCreated: save the visibility (found or new), then write the
      service under its nonce with `enabled` set, whatever was there before. */
  function CreateService(s: Store, nonce: nat, serviceType: int, visibilityId: string, creditsCostAmount: nat): (r: Store)
    ensures r.executions == s.executions && r.audit == s.audit
    ensures r.visibilities.confirmed == s.visibilities.confirmed && r.services.confirmed == s.services.confirmed
    ensures NatToString(nonce) in r.services.inBlock && r.services.inBlock[NatToString(nonce)].enabled
  {
    var visibility := ResolveVisibility(s.visibilities, visibilityId);
    var id := NatToString(nonce);
    s.(visibilities := s.visibilities.Save(visibility.id, visibility),
       services := s.services.Save(id, VisibilityService(id, visibility.id, serviceType, creditsCostAmount, true)))
  }

  /** ServiceUpdated: set `enabled` on the service if the two-tier lookup
      finds it; otherwise leave the store as it is. */
  function UpdateService(s: Store, nonce: nat, enabled: bool): (r: Store)
    ensures r.visibilities == s.visibilities && r.executions == s.executions && r.audit == s.audit
    ensures r.services.confirmed == s.services.confirmed
    ensures s.services.Get(NatToString(nonce)).None? ==> r == s
  {
    match s.services.Get(NatToString(nonce))
    case Some(service) => s.(services := s.services.Save(service.id, service.(enabled := enabled)))
    case None => s
  }

  /** ServiceExecutionRequested: if the two-tier lookup finds the service,
      write a new execution in state Requested under the execution key. */
  function RequestExecution(s: Store, serviceNonce: nat, executionNonce: nat, requester: Bytes, requestData: Bytes, timestamp: nat): (r: Store)
    ensures r.visibilities == s.visibilities && r.services == s.services && r.audit == s.audit
    ensures r.executions.confirmed == s.executions.confirmed
    ensures s.services.Get(NatToString(serviceNonce)).None? ==> r == s
    ensures s.services.Get(NatToString(serviceNonce)).Some? ==>
      ExecutionKey(serviceNonce, executionNonce) in r.executions.inBlock &&
      r.executions.inBlock[ExecutionKey(serviceNonce, executionNonce)].state == Requested
  {
    match s.services.Get(NatToString(serviceNonce))
    case Some(service) =>
      var key := ExecutionKey(serviceNonce, executionNonce);
      var execution := Execution(key, service.id, executionNonce, requester, Requested, requestData,
                                 None, None, None, None, timestamp);
      s.(executions := s.executions.Save(key, execution))
    case None => s
  }

  /** The state each of the five later events moves an execution to. No event
      leads back to Requested; Canceled and a refunding Resolved lead to
      Refunded; Validated and a non-refunding Resolved lead to Validated. */
  function TargetState(p: Params): (st: ExecutionState)
    requires p.IsTransition()
    ensures st != Requested
    ensures st == Accepted <==> p.ServiceExecutionAccepted?
    ensures st == Disputed <==> p.ServiceExecutionDisputed?
    ensures st == Refunded <==> p.ServiceExecutionCanceled? || (p.ServiceExecutionResolved? && p.refund)
    ensures st == Validated <==> p.ServiceExecutionValidated? || (p.ServiceExecutionResolved? && !p.refund)
  {
    match p
    case ServiceExecutionAccepted(_, _, _) => Accepted
    case ServiceExecutionCanceled(_, _, _, _) => Refunded
    case ServiceExecutionDisputed(_, _, _) => Disputed
    case ServiceExecutionResolved(_, _, refund, _) => if refund then Refunded else Validated
    case ServiceExecutionValidated(_, _) => Validated
  }

  /** The new value of an execution on one of the five later events: the
      target state, the event's payload in its own field and the block time;
      every other field is kept. The prior state is not consulted. */
  function Transition(x: Execution, p: Params, timestamp: nat): (r: Execution)
    requires p.IsTransition()
    ensures r.state == TargetState(p) && r.lastUpdated == timestamp
    ensures r.id == x.id && r.service == x.service && r.executionNonce == x.executionNonce
    ensures r.requester == x.requester && r.requestData == x.requestData
    ensures r.responseData == if p.ServiceExecutionAccepted? then Some(p.responseData) else x.responseData
    ensures r.cancelData == if p.ServiceExecutionCanceled? then Some(p.cancelData) else x.cancelData
    ensures r.disputeData == if p.ServiceExecutionDisputed? then Some(p.disputeData) else x.disputeData
    ensures r.resolveData == if p.ServiceExecutionResolved? then Some(p.resolveData) else x.resolveData
  {
    match p
    case ServiceExecutionAccepted(_, _, data) =>
      x.(state := Accepted, responseData := Some(data), lastUpdated := timestamp)
    case ServiceExecutionCanceled(_, _, _, data) =>
      x.(state := Refunded, cancelData := Some(data), lastUpdated := timestamp)
    case ServiceExecutionDisputed(_, _, data) =>
      x.(state := Disputed, disputeData := Some(data), lastUpdated := timestamp)
    case ServiceExecutionResolved(_, _, refund, data) =>
      x.(state := if refund then Refunded else Validated, resolveData := Some(data), lastUpdated := timestamp)
    case ServiceExecutionValidated(_, _) =>
      x.(state := Validated, lastUpdated := timestamp)
  }

  /** Accepted, Canceled, Disputed, Resolved, Validated: if the execution is
      in the confirmed tier, save its transitioned value. The in-block lookup
      the handlers perform on a miss has its result discarded, so an
      execution that only the in-block tier holds is not updated. */
  function TransitionExecution(s: Store, p: Params, timestamp: nat): (r: Store)
    requires p.IsTransition()
    ensures r.visibilities == s.visibilities && r.services == s.services && r.audit == s.audit
    ensures r.executions.confirmed == s.executions.confirmed
    ensures ExecutionKey(p.serviceNonce, p.executionNonce) !in s.executions.confirmed ==> r == s
  {
    match s.executions.Load(ExecutionKey(p.serviceNonce, p.executionNonce))
    case Some(x) => s.(executions := s.executions.Save(x.id, Transition(x, p, timestamp)))
    case None => s
  }

  /** The entity part of handling an event: everything but the audit write. */
  function Project(s: Store, p: Params, timestamp: nat): (r: Store) {
    match p
    case ServiceCreated(nonce, serviceType, visibilityId, creditsCostAmount) =>
      CreateService(s, nonce, serviceType, visibilityId, creditsCostAmount)
    case ServiceUpdated(nonce, enabled) =>
      UpdateService(s, nonce, enabled)
    case ServiceExecutionRequested(serviceNonce, executionNonce, requester, requestData) =>
      RequestExecution(s, serviceNonce, executionNonce, requester, requestData, timestamp)
    case _ =>
      TransitionExecution(s, p, timestamp)
  }

  /** The audit record a handler writes: the event's parameters and block
      data, except that ServiceCreated records the id of the visibility it
      resolved rather than the event's visibility id. The record stays in
      the table of the event's kind, and it is the verbatim copy of the
      event whenever every visibility sits under its own id. */
  function RecordOf(s: Store, e: Event): (r: AuditRecord)
    ensures TableOf(r.params) == AuditKeyOf(e).table
    ensures r.blockNumber == e.meta.blockNumber && r.blockTimestamp == e.meta.blockTimestamp
    ensures r.transactionHash == e.meta.transactionHash
    ensures !e.params.ServiceCreated? ==> r == VerbatimRecord(e)
    ensures KeyedById(s.visibilities) ==> r == VerbatimRecord(e)
  {
    var params := match e.params
      case ServiceCreated(nonce, serviceType, visibilityId, creditsCostAmount) =>
        ServiceCreated(nonce, serviceType, ResolveVisibility(s.visibilities, visibilityId).id, creditsCostAmount)
      case _ => e.params;
    AuditRecord(params, e.meta.blockNumber, e.meta.blockTimestamp, e.meta.transactionHash)
  }

  /** Handling one event: the entity part, then the audit record. */
  function Step(s: Store, e: Event): (r: Store)
    ensures r.audit.inBlock.Keys == s.audit.inBlock.Keys + {AuditKeyOf(e)}
    ensures r.audit.confirmed == s.audit.confirmed
  {
    var projected := Project(s, e.params, e.meta.blockTimestamp);
    projected.(audit := projected.audit.Save(AuditKeyOf(e), RecordOf(s, e)))
  }

  /** Handling a sequence of events in order: the last event is handled on
      the store the earlier ones left. Every event leaves a record under its
      audit key and no confirmed record changes. */
  function Replay(s: Store, events: seq<Event>): (r: Store)
    ensures forall i :: 0 <= i < |events| ==> AuditKeyOf(events[i]) in r.audit.inBlock
    ensures r.audit.confirmed == s.audit.confirmed
    decreases |events|
  {
    if events == [] then s
    else
      var prefix := events[..|events| - 1];
      assert forall i :: 0 <= i < |prefix| ==> prefix[i] == events[i];
      Step(Replay(s, prefix), events[|events| - 1])
  }
}

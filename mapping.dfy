/** The mapping as the indexer runs it: a store whose tables the eight
    handlers update in place, one call per ledger event, in arrival order. */
module Mapping {
  import opened EntityStore
  import opened Numerals
  import opened Schema
  import opened Handlers
  import Properties

  class VisibilityServicesMapping {
    var visibilities: Table<string, Visibility>
    var services: Table<string, VisibilityService>
    var executions: Table<string, Execution>
    var audit: Table<AuditKey, AuditRecord>

    /** The store as one value. */
    function Model(): Store
      reads this
    {
      Store(visibilities, services, executions, audit)
    }

    ghost predicate Valid()
      reads this
    {
      WellFormed(Model())
    }

    /** A mapping over a given store, as left by earlier blocks. */
    constructor (initial: Store)
      requires WellFormed(initial)
      ensures Valid() && Model() == initial
    {
      visibilities := initial.visibilities;
      services := initial.services;
      executions := initial.executions;
      audit := initial.audit;
    }

    /** Writes the audit record of an event. */
    method SaveRecord(e: Event, params: Params)
      modifies this`audit
      ensures audit == old(audit).Save(AuditKeyOf(e), AuditRecord(params, e.meta.blockNumber, e.meta.blockTimestamp, e.meta.transactionHash))
    {
      var key := AuditKey(TableOf(e.params), e.meta.transactionHash, e.meta.logIndex);
      audit := audit.Save(key, AuditRecord(params, e.meta.blockNumber, e.meta.blockTimestamp, e.meta.transactionHash));
    }

    method HandleServiceCreated(nonce: nat, serviceType: int, visibilityId: string, creditsCostAmount: nat, meta: Meta)
      requires Valid()
      modifies this
      ensures Valid()
      ensures Model() == Step(old(Model()), Event(ServiceCreated(nonce, serviceType, visibilityId, creditsCostAmount), meta))
      ensures executions == old(executions)
    {
      var e := Event(ServiceCreated(nonce, serviceType, visibilityId, creditsCostAmount), meta);
      var found := visibilities.Load(visibilityId);
      if found.None? {
        found := visibilities.LoadInBlock(visibilityId);
      }
      var visibility: Visibility;
      if found.None? {
        visibility := Visibility(visibilityId, 0, 0);
      } else {
        visibility := found.value;
      }
      visibilities := visibilities.Save(visibility.id, visibility);

      var service := VisibilityService(NatToString(nonce), visibility.id, serviceType, creditsCostAmount, true);
      services := services.Save(service.id, service);

      SaveRecord(e, ServiceCreated(nonce, serviceType, visibility.id, creditsCostAmount));
      Properties.StepPreservesWellFormed(old(Model()), e);
    }

    method HandleServiceUpdated(nonce: nat, enabled: bool, meta: Meta)
      requires Valid()
      modifies this
      ensures Valid()
      ensures Model() == Step(old(Model()), Event(ServiceUpdated(nonce, enabled), meta))
      ensures visibilities == old(visibilities) && executions == old(executions)
    {
      var e := Event(ServiceUpdated(nonce, enabled), meta);
      var service := services.Load(NatToString(nonce));
      if service.None? {
        service := services.LoadInBlock(NatToString(nonce));
      }
      if service.Some? {
        var updated := service.value.(enabled := enabled);
        services := services.Save(updated.id, updated);
      }

      SaveRecord(e, e.params);
      Properties.StepPreservesWellFormed(old(Model()), e);
    }

    method HandleServiceExecutionRequested(serviceNonce: nat, executionNonce: nat, requester: Bytes, requestData: Bytes, meta: Meta)
      requires Valid()
      modifies this
      ensures Valid()
      ensures Model() == Step(old(Model()), Event(ServiceExecutionRequested(serviceNonce, executionNonce, requester, requestData), meta))
      ensures visibilities == old(visibilities) && services == old(services)
    {
      var e := Event(ServiceExecutionRequested(serviceNonce, executionNonce, requester, requestData), meta);
      var service := services.Load(NatToString(serviceNonce));
      if service.None? {
        service := services.LoadInBlock(NatToString(serviceNonce));
      }
      if service.Some? {
        var key := ExecutionKey(serviceNonce, executionNonce);
        var execution := Execution(key, service.value.id, executionNonce, requester, Requested, requestData,
                                   None, None, None, None, meta.blockTimestamp);
        executions := executions.Save(key, execution);
      }

      SaveRecord(e, e.params);
      Properties.StepPreservesWellFormed(old(Model()), e);
    }

    /** The lookup every later execution handler performs. The in-block
        lookup is made on a miss, but its result is not assigned, so only
        an execution of the confirmed tier is returned. */
    method LookupExecution(serviceNonce: nat, executionNonce: nat) returns (execution: Option<Execution>)
      ensures execution == executions.Load(ExecutionKey(serviceNonce, executionNonce))
    {
      var key := ExecutionKey(serviceNonce, executionNonce);
      execution := executions.Load(key);
      if execution.None? {
        var _ := executions.LoadInBlock(key);
      }
    }

    method HandleServiceExecutionAccepted(serviceNonce: nat, executionNonce: nat, responseData: Bytes, meta: Meta)
      requires Valid()
      modifies this
      ensures Valid()
      ensures Model() == Step(old(Model()), Event(ServiceExecutionAccepted(serviceNonce, executionNonce, responseData), meta))
      ensures visibilities == old(visibilities) && services == old(services)
    {
      var e := Event(ServiceExecutionAccepted(serviceNonce, executionNonce, responseData), meta);
      var execution := LookupExecution(serviceNonce, executionNonce);
      if execution.Some? {
        var updated := execution.value.(state := Accepted, responseData := Some(responseData),
                                        lastUpdated := meta.blockTimestamp);
        executions := executions.Save(updated.id, updated);
      }

      SaveRecord(e, e.params);
      Properties.StepPreservesWellFormed(old(Model()), e);
    }

    method HandleServiceExecutionCanceled(serviceNonce: nat, executionNonce: nat, from: Bytes, cancelData: Bytes, meta: Meta)
      requires Valid()
      modifies this
      ensures Valid()
      ensures Model() == Step(old(Model()), Event(ServiceExecutionCanceled(serviceNonce, executionNonce, from, cancelData), meta))
      ensures visibilities == old(visibilities) && services == old(services)
    {
      var e := Event(ServiceExecutionCanceled(serviceNonce, executionNonce, from, cancelData), meta);
      var execution := LookupExecution(serviceNonce, executionNonce);
      if execution.Some? {
        var updated := execution.value.(state := Refunded, cancelData := Some(cancelData),
                                        lastUpdated := meta.blockTimestamp);
        executions := executions.Save(updated.id, updated);
      }

      SaveRecord(e, e.params);
      Properties.StepPreservesWellFormed(old(Model()), e);
    }

    method HandleServiceExecutionDisputed(serviceNonce: nat, executionNonce: nat, disputeData: Bytes, meta: Meta)
      requires Valid()
      modifies this
      ensures Valid()
      ensures Model() == Step(old(Model()), Event(ServiceExecutionDisputed(serviceNonce, executionNonce, disputeData), meta))
      ensures visibilities == old(visibilities) && services == old(services)
    {
      var e := Event(ServiceExecutionDisputed(serviceNonce, executionNonce, disputeData), meta);
      var execution := LookupExecution(serviceNonce, executionNonce);
      if execution.Some? {
        var updated := execution.value.(state := Disputed, disputeData := Some(disputeData),
                                        lastUpdated := meta.blockTimestamp);
        executions := executions.Save(updated.id, updated);
      }

      SaveRecord(e, e.params);
      Properties.StepPreservesWellFormed(old(Model()), e);
    }

    method HandleServiceExecutionResolved(serviceNonce: nat, executionNonce: nat, refund: bool, resolveData: Bytes, meta: Meta)
      requires Valid()
      modifies this
      ensures Valid()
      ensures Model() == Step(old(Model()), Event(ServiceExecutionResolved(serviceNonce, executionNonce, refund, resolveData), meta))
      ensures visibilities == old(visibilities) && services == old(services)
    {
      var e := Event(ServiceExecutionResolved(serviceNonce, executionNonce, refund, resolveData), meta);
      var execution := LookupExecution(serviceNonce, executionNonce);
      if execution.Some? {
        var updated := execution.value;
        if refund {
          updated := updated.(state := Refunded);
        } else {
          updated := updated.(state := Validated);
        }
        updated := updated.(resolveData := Some(resolveData), lastUpdated := meta.blockTimestamp);
        executions := executions.Save(updated.id, updated);
      }

      SaveRecord(e, e.params);
      Properties.StepPreservesWellFormed(old(Model()), e);
    }

    method HandleServiceExecutionValidated(serviceNonce: nat, executionNonce: nat, meta: Meta)
      requires Valid()
      modifies this
      ensures Valid()
      ensures Model() == Step(old(Model()), Event(ServiceExecutionValidated(serviceNonce, executionNonce), meta))
      ensures visibilities == old(visibilities) && services == old(services)
    {
      var e := Event(ServiceExecutionValidated(serviceNonce, executionNonce), meta);
      var execution := LookupExecution(serviceNonce, executionNonce);
      if execution.Some? {
        var updated := execution.value.(state := Validated, lastUpdated := meta.blockTimestamp);
        executions := executions.Save(updated.id, updated);
      }

      SaveRecord(e, e.params);
      Properties.StepPreservesWellFormed(old(Model()), e);
    }

    /** Routes an event to its handler. */
    method Handle(e: Event)
      requires Valid()
      modifies this
      ensures Valid()
      ensures Model() == Step(old(Model()), e)
    {
      match e.params
      case ServiceCreated(nonce, serviceType, visibilityId, creditsCostAmount) =>
        HandleServiceCreated(nonce, serviceType, visibilityId, creditsCostAmount, e.meta);
      case ServiceUpdated(nonce, enabled) =>
        HandleServiceUpdated(nonce, enabled, e.meta);
      case ServiceExecutionRequested(serviceNonce, executionNonce, requester, requestData) =>
        HandleServiceExecutionRequested(serviceNonce, executionNonce, requester, requestData, e.meta);
      case ServiceExecutionAccepted(serviceNonce, executionNonce, responseData) =>
        HandleServiceExecutionAccepted(serviceNonce, executionNonce, responseData, e.meta);
      case ServiceExecutionCanceled(serviceNonce, executionNonce, from, cancelData) =>
        HandleServiceExecutionCanceled(serviceNonce, executionNonce, from, cancelData, e.meta);
      case ServiceExecutionDisputed(serviceNonce, executionNonce, disputeData) =>
        HandleServiceExecutionDisputed(serviceNonce, executionNonce, disputeData, e.meta);
      case ServiceExecutionResolved(serviceNonce, executionNonce, refund, resolveData) =>
        HandleServiceExecutionResolved(serviceNonce, executionNonce, refund, resolveData, e.meta);
      case ServiceExecutionValidated(serviceNonce, executionNonce) =>
        HandleServiceExecutionValidated(serviceNonce, executionNonce, e.meta);
    }
  }
}

/** What the handlers guarantee: per event, over a sequence of events, and on
    concrete runs. */
module Properties {
  import opened EntityStore
  import opened Numerals
  import opened Schema
  import opened Handlers

  // ---------------------------------------------------------------------
  // The store invariant

  lemma CreateServicePreservesWellFormed(s: Store, nonce: nat, serviceType: int, visibilityId: string, creditsCostAmount: nat)
    requires WellFormed(s)
    ensures WellFormed(CreateService(s, nonce, serviceType, visibilityId, creditsCostAmount))
  {
    var r := CreateService(s, nonce, serviceType, visibilityId, creditsCostAmount);
    assert ResolveVisibility(s.visibilities, visibilityId).id == visibilityId;
    assert KeyedById(r.visibilities);
  }

  lemma UpdateServicePreservesWellFormed(s: Store, nonce: nat, enabled: bool)
    requires WellFormed(s)
    ensures WellFormed(UpdateService(s, nonce, enabled))
  {
  }

  lemma RequestExecutionPreservesWellFormed(s: Store, serviceNonce: nat, executionNonce: nat, requester: Bytes, requestData: Bytes, timestamp: nat)
    requires WellFormed(s)
    ensures WellFormed(RequestExecution(s, serviceNonce, executionNonce, requester, requestData, timestamp))
  {
  }

  lemma TransitionExecutionPreservesWellFormed(s: Store, p: Params, timestamp: nat)
    requires WellFormed(s) && p.IsTransition()
    ensures WellFormed(TransitionExecution(s, p, timestamp))
  {
  }

  /** The entity part of every handler keeps the store invariant. */
  lemma ProjectPreservesWellFormed(s: Store, p: Params, timestamp: nat)
    requires WellFormed(s)
    ensures WellFormed(Project(s, p, timestamp))
  {
    match p
    case ServiceCreated(nonce, serviceType, visibilityId, creditsCostAmount) =>
      CreateServicePreservesWellFormed(s, nonce, serviceType, visibilityId, creditsCostAmount);
    case ServiceUpdated(nonce, enabled) =>
      UpdateServicePreservesWellFormed(s, nonce, enabled);
    case ServiceExecutionRequested(serviceNonce, executionNonce, requester, requestData) =>
      RequestExecutionPreservesWellFormed(s, serviceNonce, executionNonce, requester, requestData, timestamp);
    case _ =>
      TransitionExecutionPreservesWellFormed(s, p, timestamp);
  }

  /** Every handler keeps the store invariant. */
  lemma StepPreservesWellFormed(s: Store, e: Event)
    requires WellFormed(s)
    ensures WellFormed(Step(s, e))
  {
    var projected := Project(s, e.params, e.meta.blockTimestamp);
    ProjectPreservesWellFormed(s, e.params, e.meta.blockTimestamp);
    var r := Step(s, e);
    assert r == projected.(audit := projected.audit.Save(AuditKeyOf(e), RecordOf(s, e)));
  }

  // ---------------------------------------------------------------------
  // One event at a time

  /** ServiceCreated keeps a visibility the two-tier lookup finds, and
      otherwise creates one with price and supply zero; either way the
      lookup finds it afterwards, and no other visibility changes. */
  lemma CreatedVisibility(s: Store, e: Event)
    requires WellFormed(s) && e.params.ServiceCreated?
    ensures var id, r := e.params.visibilityId, Step(s, e);
      r.visibilities.Has(id) &&
      (s.visibilities.Get(id).Some? ==>
         r.visibilities.Get(id) == s.visibilities.Get(id) && r.visibilities.inBlock[id] == s.visibilities.Get(id).value) &&
      (s.visibilities.Get(id).None? ==>
         r.visibilities.Get(id) == Some(Visibility(id, 0, 0)) && r.visibilities.inBlock[id] == Visibility(id, 0, 0))
    ensures var id, r := e.params.visibilityId, Step(s, e);
      r.visibilities.confirmed == s.visibilities.confirmed &&
      r.visibilities.inBlock == s.visibilities.inBlock[id := ResolveVisibility(s.visibilities, id)]
  {
  }

  /** ServiceCreated writes the service under its nonce, enabled, on the
      event's visibility, with the event's type and cost, whatever was there;
      no other service changes. */
  lemma CreatedService(s: Store, e: Event)
    requires WellFormed(s) && e.params.ServiceCreated?
    ensures var id, r := NatToString(e.params.nonce), Step(s, e);
      r.services.inBlock == s.services.inBlock[id :=
        VisibilityService(id, e.params.visibilityId, e.params.serviceType, e.params.creditsCostAmount, true)] &&
      r.services.confirmed == s.services.confirmed &&
      r.visibilities.Has(r.services.inBlock[id].visibility)
    ensures Step(s, e).executions == s.executions
  {
  }

  /** Delivering the same ServiceCreated twice leaves the entities as one
      delivery does, while the audit tables hold a record of each delivery. */
  lemma DuplicateCreation(s: Store, e1: Event, e2: Event)
    requires WellFormed(s) && e1.params.ServiceCreated? && e2.params == e1.params
    requires AuditKeyOf(e1) != AuditKeyOf(e2)
    ensures var once, twice := Step(s, e1), Step(Step(s, e1), e2);
      twice.visibilities == once.visibilities && twice.services == once.services &&
      twice.executions == once.executions
    ensures var twice := Step(Step(s, e1), e2);
      AuditKeyOf(e1) in twice.audit.inBlock && twice.audit.inBlock[AuditKeyOf(e1)] == VerbatimRecord(e1) &&
      AuditKeyOf(e2) in twice.audit.inBlock && twice.audit.inBlock[AuditKeyOf(e2)] == VerbatimRecord(e2)
  {
  }

  /** ServiceUpdated changes only `enabled`, and only on a service the
      two-tier lookup finds; no other service changes, and an unknown service
      is neither created nor changed. */
  lemma UpdatedService(s: Store, e: Event)
    requires WellFormed(s) && e.params.ServiceUpdated?
    ensures var id, r := NatToString(e.params.nonce), Step(s, e);
      match s.services.Get(id)
      case Some(v) =>
        r.services.inBlock == s.services.inBlock[id := v.(enabled := e.params.enabled)]
      case None => r.services == s.services
    ensures var r := Step(s, e);
      r.visibilities == s.visibilities && r.executions == s.executions &&
      r.services.confirmed == s.services.confirmed
  {
  }

  /** ServiceExecutionRequested writes a Requested execution under the key of
      the nonce pair exactly when the two-tier lookup finds the service, and
      changes no other execution. */
  lemma RequestedExecution(s: Store, e: Event)
    requires WellFormed(s) && e.params.ServiceExecutionRequested?
    ensures var p, r := e.params, Step(s, e);
      var key := ExecutionKey(p.serviceNonce, p.executionNonce);
      (s.services.Has(NatToString(p.serviceNonce)) ==>
         r.executions.inBlock == s.executions.inBlock[key :=
           Execution(key, NatToString(p.serviceNonce), p.executionNonce, p.requester, Requested, p.requestData,
                     None, None, None, None, e.meta.blockTimestamp)]) &&
      (!s.services.Has(NatToString(p.serviceNonce)) ==> r.executions == s.executions)
    ensures Step(s, e).executions.confirmed == s.executions.confirmed
    ensures var r := Step(s, e); r.visibilities == s.visibilities && r.services == s.services
  {
  }

  /** The five later execution events: an execution of the confirmed tier
      takes its transitioned value in the in-block tier and no other
      execution changes; otherwise no execution is created or changed. */
  lemma TransitionedExecution(s: Store, e: Event)
    requires WellFormed(s) && e.params.IsTransition()
    ensures var p, r := e.params, Step(s, e);
      var key := ExecutionKey(p.serviceNonce, p.executionNonce);
      (key in s.executions.confirmed ==>
         r.executions.inBlock == s.executions.inBlock[key := Transition(s.executions.confirmed[key], p, e.meta.blockTimestamp)]) &&
      (key !in s.executions.confirmed ==> r.executions == s.executions)
    ensures Step(s, e).executions.confirmed == s.executions.confirmed
    ensures var r := Step(s, e); r.visibilities == s.visibilities && r.services == s.services
  {
  }

  /** The code as written: on a confirmed-tier miss the later execution
      handlers drop the in-block lookup's result, so an execution written
      earlier in the same block is left as it was. */
  lemma InBlockExecutionIgnored(s: Store, e: Event)
    requires e.params.IsTransition()
    requires ExecutionKey(e.params.serviceNonce, e.params.executionNonce) !in s.executions.confirmed
    requires ExecutionKey(e.params.serviceNonce, e.params.executionNonce) in s.executions.inBlock
    ensures Step(s, e).executions == s.executions
  {
  }

  /** Every handler writes exactly one audit record, a verbatim copy of its
      event, whatever its lookups found, and changes no other record. */
  lemma StepAudits(s: Store, e: Event)
    requires WellFormed(s)
    ensures Step(s, e).audit.inBlock == s.audit.inBlock[AuditKeyOf(e) := VerbatimRecord(e)]
    ensures Step(s, e).audit.confirmed == s.audit.confirmed
  {
  }

  /** A service created earlier in the same block is found by a later
      request: the request's service lookup falls back to the in-block tier. */
  lemma CreatedThenRequested(s: Store, created: Event, requested: Event)
    requires WellFormed(s)
    requires created.params.ServiceCreated? && requested.params.ServiceExecutionRequested?
    requires requested.params.serviceNonce == created.params.nonce
    ensures var r := Step(Step(s, created), requested);
      var key := ExecutionKey(requested.params.serviceNonce, requested.params.executionNonce);
      key in r.executions.inBlock && r.executions.inBlock[key].state == Requested &&
      r.executions.inBlock[key].service == NatToString(created.params.nonce)
  {
  }

  /** Handlers write only to the in-block tier: no confirmed entity or
      record changes while a block is processed. */
  lemma StepWritesInBlockOnly(s: Store, e: Event)
    ensures var r := Step(s, e);
      r.visibilities.confirmed == s.visibilities.confirmed && r.services.confirmed == s.services.confirmed &&
      r.executions.confirmed == s.executions.confirmed && r.audit.confirmed == s.audit.confirmed
  {
  }

  // ---------------------------------------------------------------------
  // Sequences of events

  /** The confirmed tier is the same after any sequence of events. */
  lemma {:induction false} ReplayWritesInBlockOnly(s: Store, events: seq<Event>)
    ensures var r := Replay(s, events);
      r.visibilities.confirmed == s.visibilities.confirmed && r.services.confirmed == s.services.confirmed &&
      r.executions.confirmed == s.executions.confirmed && r.audit.confirmed == s.audit.confirmed
    decreases |events|
  {
    if events != [] {
      var prefix := events[..|events| - 1];
      ReplayWritesInBlockOnly(s, prefix);
      StepWritesInBlockOnly(Replay(s, prefix), events[|events| - 1]);
    }
  }

  /** The invariant holds after any sequence of events. */
  lemma {:induction false} ReplayPreservesWellFormed(s: Store, events: seq<Event>)
    requires WellFormed(s)
    ensures WellFormed(Replay(s, events))
    decreases |events|
  {
    if events != [] {
      var prefix := events[..|events| - 1];
      ReplayPreservesWellFormed(s, prefix);
      StepPreservesWellFormed(Replay(s, prefix), events[|events| - 1]);
    }
  }

  /** No entity and no audit record is ever deleted. */
  lemma {:induction false} ReplayKeepsEntities(s: Store, events: seq<Event>)
    ensures var r := Replay(s, events);
      (forall k :: s.visibilities.Has(k) ==> r.visibilities.Has(k)) &&
      (forall k :: s.services.Has(k) ==> r.services.Has(k)) &&
      (forall k :: s.executions.Has(k) ==> r.executions.Has(k)) &&
      (forall k :: s.audit.Has(k) ==> r.audit.Has(k))
    decreases |events|
  {
    if events != [] {
      var prefix := events[..|events| - 1];
      ReplayKeepsEntities(s, prefix);
    }
  }

  /** The audit keys of a sequence of events. */
  function AuditKeys(events: seq<Event>): set<AuditKey> {
    set i | 0 <= i < |events| :: AuditKeyOf(events[i])
  }

  /** Events whose (table, transaction hash, log index) keys are pairwise distinct. */
  predicate DistinctAuditKeys(events: seq<Event>) {
    forall i, j :: 0 <= i < j < |events| ==> AuditKeyOf(events[i]) != AuditKeyOf(events[j])
  }

  lemma AuditKeysSnoc(events: seq<Event>)
    requires events != []
    ensures AuditKeys(events) == AuditKeys(events[..|events| - 1]) + {AuditKeyOf(events[|events| - 1])}
  {
  }

  /** Distinct events have as many audit keys as there are events. */
  lemma {:induction false} AuditKeysCount(events: seq<Event>)
    requires DistinctAuditKeys(events)
    ensures |AuditKeys(events)| == |events|
    decreases |events|
  {
    if events != [] {
      var prefix := events[..|events| - 1];
      var last := events[|events| - 1];
      assert DistinctAuditKeys(prefix);
      AuditKeysCount(prefix);
      AuditKeysSnoc(events);
      forall i | 0 <= i < |prefix| ensures AuditKeyOf(prefix[i]) != AuditKeyOf(last) {
        assert prefix[i] == events[i];
      }
    }
  }

  /** The audit tables replicate the event stream: after handling events with
      distinct keys, each event's verbatim record is present under its key,
      the records are exactly the earlier ones plus one per event, and no
      record outside those keys changes. */
  lemma {:induction false} ReplayAuditsEveryEvent(s: Store, events: seq<Event>)
    requires WellFormed(s) && DistinctAuditKeys(events)
    ensures forall i :: 0 <= i < |events| ==>
      AuditKeyOf(events[i]) in Replay(s, events).audit.inBlock &&
      Replay(s, events).audit.inBlock[AuditKeyOf(events[i])] == VerbatimRecord(events[i])
    ensures Replay(s, events).audit.inBlock.Keys == s.audit.inBlock.Keys + AuditKeys(events)
    ensures forall k :: k in s.audit.inBlock && k !in AuditKeys(events) ==>
      Replay(s, events).audit.inBlock[k] == s.audit.inBlock[k]
    decreases |events|
  {
    if events != [] {
      var prefix := events[..|events| - 1];
      var last := events[|events| - 1];
      var prev := Replay(s, prefix);
      var after := prev.audit.inBlock[AuditKeyOf(last) := VerbatimRecord(last)];
      assert DistinctAuditKeys(prefix);
      ReplayAuditsEveryEvent(s, prefix);
      ReplayPreservesWellFormed(s, prefix);
      StepAudits(prev, last);
      assert Replay(s, events).audit.inBlock == after;
      AuditKeysSnoc(events);
      forall i | 0 <= i < |events|
        ensures AuditKeyOf(events[i]) in after && after[AuditKeyOf(events[i])] == VerbatimRecord(events[i])
      {
        if i < |events| - 1 {
          assert events[i] == prefix[i];
        }
      }
    } else {
      assert AuditKeys(events) == {};
    }
  }

  /** One audit record per event: handling events with distinct keys that
      were not yet recorded adds exactly as many records as there are events. */
  lemma AuditRecordPerEvent(s: Store, events: seq<Event>)
    requires WellFormed(s) && DistinctAuditKeys(events)
    requires forall i :: 0 <= i < |events| ==> AuditKeyOf(events[i]) !in s.audit.inBlock
    ensures |Replay(s, events).audit.inBlock| == |s.audit.inBlock| + |events|
  {
    ReplayAuditsEveryEvent(s, events);
    AuditKeysCount(events);
    var r := Replay(s, events);
    assert s.audit.inBlock.Keys !! AuditKeys(events);
    assert |r.audit.inBlock.Keys| == |s.audit.inBlock.Keys| + |AuditKeys(events)|;
  }

  // ---------------------------------------------------------------------
  // Concrete runs. Service nonce 1 and execution nonce 1 have the keys "1"
  // and "1-1"; all events share one transaction of block 7.

  function Block7Meta(logIndex: nat): Meta {
    Meta(7, 1700, [0x99], logIndex)
  }

  function CreateS1(): Event {
    Event(ServiceCreated(1, 2, "V1", 100), Block7Meta(0))
  }

  function RequestE1(): Event {
    Event(ServiceExecutionRequested(1, 1, [0x0a, 0xbc], [0x78]), Block7Meta(1))
  }

  function ResolveE1(refund: bool, logIndex: nat): Event {
    Event(ServiceExecutionResolved(1, 1, refund, [0x72]), Block7Meta(logIndex))
  }

  lemma KeysOfS1E1()
    ensures NatToString(1) == "1" && ExecutionKey(1, 1) == "1-1"
  {
  }

  /** Replaying two events is handling them one after the other. */
  lemma ReplayPair(s: Store, a: Event, b: Event)
    ensures Replay(s, [a, b]) == Step(Step(s, a), b)
  {
    assert [a][..0] == [];
    assert Replay(s, [a]) == Step(s, a);
    assert [a, b][..1] == [a];
  }

  /** A service created and then requested in the same block: the service is
      enabled, the execution is Requested, the new visibility has price zero,
      and both events are audited. */
  lemma CreateThenRequestScenario()
    ensures var r := Replay(EmptyStore(), [CreateS1(), RequestE1()]);
      r.services.Get("1") == Some(VisibilityService("1", "V1", 2, 100, true)) &&
      r.executions.Get("1-1").Some? && r.executions.Get("1-1").value.state == Requested &&
      r.visibilities.Get("V1") == Some(Visibility("V1", 0, 0)) &&
      |r.audit.inBlock| == 2
  {
    KeysOfS1E1();
    var events := [CreateS1(), RequestE1()];
    ReplayPair(EmptyStore(), CreateS1(), RequestE1());
    var created := Step(EmptyStore(), CreateS1());
    assert created.services.inBlock["1"] == VisibilityService("1", "V1", 2, 100, true);
    assert AuditKeyOf(CreateS1()) != AuditKeyOf(RequestE1());
    assert DistinctAuditKeys(events);
    AuditRecordPerEvent(EmptyStore(), events);
  }

  /** The code as written: a Resolved event in the same block as its request
      finds the execution only in the in-block tier, so the execution stays
      Requested although the event is audited. */
  lemma SameBlockResolveIsLost()
    ensures var r := Replay(EmptyStore(), [CreateS1(), RequestE1(), ResolveE1(true, 2)]);
      r.executions.Get("1-1").Some? && r.executions.Get("1-1").value.state == Requested &&
      AuditKeyOf(ResolveE1(true, 2)) in r.audit.inBlock
  {
    KeysOfS1E1();
    var events := [CreateS1(), RequestE1(), ResolveE1(true, 2)];
    assert events[..2] == [CreateS1(), RequestE1()];
    ReplayPair(EmptyStore(), CreateS1(), RequestE1());
    var requested := Step(Step(EmptyStore(), CreateS1()), RequestE1());
    assert Replay(EmptyStore(), events) == Step(requested, ResolveE1(true, 2));
    assert requested.executions.confirmed == map[];
  }

  /** The store a later block starts from: service 1 on visibility "V1" and
      its execution 1 in state Requested are confirmed. */
  function ConfirmedRequest(): Store {
    Store(
      Table(map["V1" := Visibility("V1", 0, 0)], map[]),
      Table(map["1" := VisibilityService("1", "V1", 2, 100, true)], map[]),
      Table(map["1-1" := Execution("1-1", "1", 1, [0x0a, 0xbc], Requested, [0x78], None, None, None, None, 1700)], map[]),
      EmptyTable())
  }

  /** Resolving a confirmed execution: a refund makes it Refunded, no refund
      makes it Validated, and the resolve payload is recorded. */
  lemma ResolveScenario(refund: bool)
    ensures var r := Step(ConfirmedRequest(), ResolveE1(refund, 0));
      "1-1" in r.executions.inBlock &&
      r.executions.inBlock["1-1"].state == (if refund then Refunded else Validated) &&
      r.executions.inBlock["1-1"].resolveData == Some([0x72])
  {
    KeysOfS1E1();
  }

  /** Two later events for a confirmed execution in one block: each handler
      loads the confirmed entity, so the Validated event starts again from
      the confirmed Requested execution and its save drops the response the
      Accepted event wrote. The two-tier lookup still finds the confirmed
      entity, which shadows both writes. */
  lemma SameBlockTransitionsOverwrite()
    ensures var accepted := Event(ServiceExecutionAccepted(1, 1, [0x52]), Block7Meta(0));
      var validated := Event(ServiceExecutionValidated(1, 1), Block7Meta(1));
      var r := Replay(ConfirmedRequest(), [accepted, validated]);
      "1-1" in r.executions.inBlock &&
      r.executions.inBlock["1-1"].state == Validated && r.executions.inBlock["1-1"].responseData == None &&
      r.executions.Get("1-1") == Some(ConfirmedRequest().executions.confirmed["1-1"])
  {
    KeysOfS1E1();
    var accepted := Event(ServiceExecutionAccepted(1, 1, [0x52]), Block7Meta(0));
    var validated := Event(ServiceExecutionValidated(1, 1), Block7Meta(1));
    ReplayPair(ConfirmedRequest(), accepted, validated);
    GetAfterSave(Step(ConfirmedRequest(), accepted).executions, "1-1",
                 Transition(ConfirmedRequest().executions.confirmed["1-1"], validated.params, 1700));
  }

  /** A request for a service that was never created writes no execution,
      and the request is still audited. */
  lemma UnknownServiceRequestScenario()
    ensures var r := Step(EmptyStore(), RequestE1());
      r.executions == EmptyStore().executions && |r.audit.inBlock| == 1
  {
  }

  /** Disabling a service that was never created creates and changes no
      entity, and the update is still audited. */
  lemma UnknownServiceUpdateScenario()
    ensures var r := Step(EmptyStore(), Event(ServiceUpdated(9, false), Block7Meta(0)));
      r.visibilities == EmptyStore().visibilities && r.services == EmptyStore().services &&
      r.executions == EmptyStore().executions && |r.audit.inBlock| == 1
  {
  }
}

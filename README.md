# Visibility services mapping: a Dafny model

This project models the event handlers of a subgraph mapping, `src/visibility-services.ts`.
The handlers turn the ordered stream of ledger events of a visibility-service marketplace
into a keyed entity store. The store holds:

- `Visibility` entities, which are got or created when a service is created;
- `VisibilityService` entities, which are created and then enabled or disabled;
- `VisibilityServiceExecution` entities, which move through `REQUESTED`, `ACCEPTED`,
  `DISPUTED`, `VALIDATED` and `REFUNDED`;
- one immutable audit record per event, in the audit table of the event's kind.

Files and modules:

- `numerals.dfy` (`Numerals`): the decimal text of an unsigned integer, which is what a
  nonce's `toString()` gives. It comes with a parser and the round trip between them.
- `store.dfy` (`EntityStore`): a `Table` with the two tiers of the store. `Load` reads the
  confirmed tier. `LoadInBlock` reads what was written earlier in the current block.
  `Get` is the fallback from the first to the second. `Save` upserts into the in-block tier.
- `schema.dfy` (`Schema`): the entities, the eight events and their block data, the
  audit keys and records, the execution key `serviceNonce-executionNonce`, and the store
  invariant `WellFormed`.
- `handlers.dfy` (`Handlers`): each handler as a function from the store before an event
  to the store after it. `Step` handles one event and `Replay` handles a sequence in
  order.
- `mapping.dfy` (`Mapping`): the class `VisibilityServicesMapping`. It holds the four
  tables as fields and has one method per handler. Each method loads, falls back, changes
  the entity's fields, saves, and writes the audit record, in the same order as the
  source. Each method is proved to leave the store equal to `Step` of the old store and
  to keep `WellFormed`.
- `properties.dfy` (`Properties`): the lemmas. Some are per event, some cover a sequence
  of events, and some are concrete runs.

The visibility lookup (lines 27-30) and the two service lookups (lines 179-184 and
298-303) are two-tier: on a confirmed-tier miss they use the result of `loadInBlock`.
The five later execution handlers (Accepted, Canceled, Disputed, Resolved and Validated)
also call `loadInBlock` on a confirmed-tier miss. But they never assign its result, at
lines 67-74, 106-113, 146-153, 225-232 and 269-276. So those handlers act only on an
execution of the confirmed tier. `LookupExecution`, `TransitionExecution`,
`InBlockExecutionIgnored` and `SameBlockResolveIsLost` state this behaviour. The last one
shows a request and its resolution handled in the same block: the execution stays
`Requested`.

## Model

| member | source | states |
|---|---|---|
| `Mapping.VisibilityServicesMapping.HandleServiceCreated` | src/visibility-services.ts:26-56 | the store afterwards is `Step` of the store before; executions untouched; the invariant is kept |
| `Mapping.VisibilityServicesMapping.HandleServiceUpdated` | src/visibility-services.ts:297-320 | the store afterwards is `Step` of the store before; visibilities and executions untouched; the invariant is kept |
| `Mapping.VisibilityServicesMapping.HandleServiceExecutionRequested` | src/visibility-services.ts:176-214 | the store afterwards is `Step` of the store before; visibilities and services untouched; the invariant is kept |
| `Mapping.VisibilityServicesMapping.LookupExecution` | src/visibility-services.ts:61-74 | the execution lookup of the later handlers returns exactly the confirmed-tier entry; the in-block result is dropped |
| `Mapping.VisibilityServicesMapping.HandleServiceExecutionAccepted` | src/visibility-services.ts:58-95 | the store afterwards is `Step` of the store before; visibilities and services untouched; the invariant is kept |
| `Mapping.VisibilityServicesMapping.HandleServiceExecutionCanceled` | src/visibility-services.ts:97-135 | the store afterwards is `Step` of the store before; visibilities and services untouched; the invariant is kept |
| `Mapping.VisibilityServicesMapping.HandleServiceExecutionDisputed` | src/visibility-services.ts:137-174 | the store afterwards is `Step` of the store before; visibilities and services untouched; the invariant is kept |
| `Mapping.VisibilityServicesMapping.HandleServiceExecutionResolved` | src/visibility-services.ts:216-258 | the store afterwards is `Step` of the store before; visibilities and services untouched; the invariant is kept |
| `Mapping.VisibilityServicesMapping.HandleServiceExecutionValidated` | src/visibility-services.ts:260-295 | the store afterwards is `Step` of the store before; visibilities and services untouched; the invariant is kept |
| `Mapping.VisibilityServicesMapping.Handle` | src/visibility-services.ts:26-320 | each event kind goes to its own handler, and the result is `Step` |
| `Mapping.VisibilityServicesMapping.SaveRecord` | src/visibility-services.ts:83-94 | the audit write adds the record under (table, transaction hash, log index) and changes nothing else |
| `EntityStore.Table.Load` | src/visibility-services.ts:27 | `load` finds an entity exactly when the confirmed tier holds one under the key, and returns that entity |
| `EntityStore.Table.LoadInBlock` | src/visibility-services.ts:29 | `loadInBlock` finds an entity exactly when the in-block tier holds one under the key, and returns that entity |
| `EntityStore.Table.Get` | src/visibility-services.ts:27-30 | the two-tier lookup finds an entity exactly when either tier holds one; the confirmed entity wins, and the in-block one is used only on a confirmed miss |
| `EntityStore.Table.Save` | src/visibility-services.ts:36 | `save` puts the entity under its key in the in-block tier; the confirmed tier and every other in-block entry are unchanged |
| `EntityStore.GetAfterSave` | src/visibility-services.ts:179-184 | after a save, the two-tier lookup returns the saved entity unless the confirmed tier holds the key, in which case the confirmed entity shadows it |
| `Numerals.NatToString` | src/visibility-services.ts:38 | a nonce's key is non-empty decimal text with no leading zero; it is one digit exactly for nonces below ten |
| `Numerals.ParseNatToString` | src/visibility-services.ts:38 | reading a nonce's decimal key back gives the nonce |
| `Numerals.NatToStringInjective` | src/visibility-services.ts:38 | distinct nonces get distinct service keys |
| `Schema.ExecutionKey` | src/visibility-services.ts:186-191 | the execution key is the service nonce's decimal text, a dash, and the execution nonce's decimal text; the first dash is the separator |
| `Schema.ExecutionKeyInjective` | src/visibility-services.ts:186-191 | two nonce pairs with the same `serviceNonce-executionNonce` key are the same pair, so one execution key never serves two requests |
| `Handlers.ResolveVisibility` | src/visibility-services.ts:27-35 | get-or-create: the entity the two-tier lookup finds, otherwise a new visibility with price and supply zero; in a table keyed by id, the result has the requested id |
| `Handlers.CreateService` | src/visibility-services.ts:26-43 | creation only touches visibilities and services, and always leaves an enabled service under the nonce's key |
| `Handlers.UpdateService` | src/visibility-services.ts:297-307 | an update touches only services; when the service is not found, nothing changes |
| `Handlers.RequestExecution` | src/visibility-services.ts:176-199 | a request touches only executions; it writes a `Requested` execution when the service is found and nothing otherwise |
| `Handlers.TargetState` | src/visibility-services.ts:76-282 | the transition table: Accepted to ACCEPTED, Disputed to DISPUTED, Canceled or a refunding Resolved to REFUNDED, Validated or a non-refunding Resolved to VALIDATED, and never back to REQUESTED |
| `Handlers.Transition` | src/visibility-services.ts:76-282 | a later event sets the target state, its own payload field and `lastUpdated`; every other field is kept and the prior state is not consulted |
| `Handlers.TransitionExecution` | src/visibility-services.ts:58-81 | the five later events touch only executions, and leave the store as it was when the execution is not in the confirmed tier |
| `Handlers.RecordOf` | src/visibility-services.ts:45-55 | the audit record carries the event's block number, timestamp and transaction hash and belongs to the event's table; it is the verbatim event, except that a creation records the resolved visibility id, which equals the event's id when visibilities sit under their ids |
| `Handlers.Replay` | src/visibility-services.ts:26-320 | handling a sequence in arrival order leaves a record under every event's audit key and changes no confirmed record |
| `Handlers.Step` | src/visibility-services.ts:26-320 | every event adds exactly its own audit key to the in-block records and no confirmed audit record changes |
| `Properties.StepPreservesWellFormed` | src/visibility-services.ts:26-320 | every handler keeps each entity under its own id, each service's visibility and each execution's service present, and each audit record in its kind's table |
| `Properties.ReplayPreservesWellFormed` | src/visibility-services.ts:26-320 | the invariant holds after any sequence of events |
| `Properties.CreatedVisibility` | src/visibility-services.ts:27-36 | an existing visibility (confirmed first, then in-block) is kept unchanged, otherwise one with price and supply zero is created; it exists afterwards; the in-block visibilities are the old ones updated at that id only |
| `Properties.CreatedService` | src/visibility-services.ts:38-43 | the service under the nonce's key is enabled, references the event's visibility, which exists, and copies the type and cost; the in-block services are the old ones updated at that key only |
| `Properties.DuplicateCreation` | src/visibility-services.ts:38-55 | delivering the same creation twice leaves the entities as one delivery does, and both deliveries are audited |
| `Properties.UpdatedService` | src/visibility-services.ts:298-307 | a found service changes only in `enabled` and the in-block services are the old ones updated at that key only; an unknown service is neither created nor changed; nothing else changes |
| `Properties.RequestedExecution` | src/visibility-services.ts:179-199 | if and only if the service is found in either tier, the execution `serviceNonce-executionNonce` is written as `Requested` with the event's fields and the block time, and no other execution changes |
| `Properties.TransitionedExecution` | src/visibility-services.ts:58-282 | a confirmed execution takes its transitioned value in the in-block tier and no other execution changes; an execution absent from the confirmed tier is neither created nor changed |
| `Properties.InBlockExecutionIgnored` | src/visibility-services.ts:225-243 | an execution that only the in-block tier holds is left untouched by the five later events |
| `Properties.StepAudits` | src/visibility-services.ts:26-320 | each event adds exactly its verbatim record (parameters, block number, timestamp, transaction hash) whatever its lookups found, and no other record changes |
| `Properties.CreatedThenRequested` | src/visibility-services.ts:179-184 | a service created earlier in the same block is found by a later request, which then creates the execution |
| `Properties.StepWritesInBlockOnly` | src/visibility-services.ts:26-320 | handlers change no confirmed entity or record |
| `Properties.ReplayWritesInBlockOnly` | src/visibility-services.ts:26-320 | the confirmed tier is the same after any sequence of events |
| `Properties.ReplayKeepsEntities` | src/visibility-services.ts:26-320 | no entity and no audit record is ever removed |
| `Properties.AuditKeysCount` | src/visibility-services.ts:45-47 | events with distinct keys have as many audit keys as events |
| `Properties.ReplayAuditsEveryEvent` | src/visibility-services.ts:26-320 | after a sequence of events with distinct keys, each event's verbatim record is under its key, the records are the earlier ones plus one per event, and no other record changes |
| `Properties.AuditRecordPerEvent` | src/visibility-services.ts:26-320 | handling new events with distinct keys adds exactly one record per event |
| `Properties.CreateThenRequestScenario` | src/visibility-services.ts:185-198 | creating service 1 on "V1" and requesting execution 1 gives an enabled service, a `Requested` execution "1-1", a visibility of price zero and two audit records |
| `Properties.SameBlockResolveIsLost` | src/visibility-services.ts:225-243 | a Resolved event handled in the same block as its request leaves the execution `Requested`, though it is audited |
| `Properties.ResolveScenario` | src/visibility-services.ts:234-241 | resolving a confirmed execution gives REFUNDED with a refund and VALIDATED without, and records the resolve payload |
| `Properties.SameBlockTransitionsOverwrite` | src/visibility-services.ts:61-81 | an Accepted and then a Validated event for a confirmed execution in one block leave the in-block execution `Validated` with no response, and the two-tier lookup still returns the confirmed `Requested` execution |
| `Properties.UnknownServiceRequestScenario` | src/visibility-services.ts:179-214 | a request for a service never created writes no execution and one audit record |
| `Properties.UnknownServiceUpdateScenario` | src/visibility-services.ts:297-320 | disabling a service never created changes no entity and writes one audit record |

## Left out

- The store library and the generated event and entity classes are not part of this model. Entities are datatypes and the tables are maps.
- Saving a freshly constructed entity replaces whatever was stored under its key. A store that merges the new fields into an existing entity is not modelled. This matters only when a request reuses the key of an existing execution.
- The audit key is the pair of transaction hash and log index, in the audit table of the event's kind. The byte concatenation `concatI32` and the 32-bit conversion of the log index are not modelled.
- `load` is taken to read only the confirmed tier and `save` to write only the in-block tier (`EntityStore.Table.Load`, `EntityStore.Table.Save`). So a second handler in the same block that uses `load` sees the confirmed version of an entity an earlier handler already rewrote, and its save replaces the earlier handler's changes; the two-tier lookup keeps returning the confirmed entity (`GetAfterSave`). `SameBlockTransitionsOverwrite` shows this for an Accepted followed by a Validated event. A store whose `load` also sees the current block's writes is not modelled.
- A visibility id is treated as text. Its `toString()` is taken as the identity.
- `serviceType` is an unbounded integer. Its 32-bit width is not modelled.
- Payloads, addresses and transaction hashes are uninterpreted byte sequences.
- Promotion of the in-block tier to the confirmed tier at block finalization is not modelled, and neither are chain reorganisations or storage failures. These happen outside the handlers. `ConfirmedRequest` stands for the state a later block starts from.
- The handlers do not check an execution's current state, so neither does the model. A hook that reports unexpected transitions is not in the code and is not modelled.

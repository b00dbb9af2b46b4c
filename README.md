# Shipment tracking core, modelled in Dafny

The application is a FastAPI service that keeps warehouses, addresses and shipments in a
relational store. It also runs an arq worker that plays a mocked carrier: it moves each tracked
shipment along the lifecycle pending → processing → shipped → in_transit → delivered, one step
per job. A job that leaves the shipment non-terminal re-enqueues itself five minutes later, so a
chain stops at delivered, cancelled or failed. A shipment's chain is started three ways:
- creating it with a tracking number, one minute later;
- updating it while it has an effective tracking number, one minute later;
- the manual `POST /{id}/update-tracking` trigger, immediately.

The model has these parts:
- `Wrappers`, `HttpExceptions`: the option/result types and the three HTTP errors the core raises.
- `WarehouseSchemas`, `ShipmentSchemas`: the request and row records, the two status enums with
  their string values, the worker's report record, and Python's truthiness of `tracking_number`
  (`HasTracking`: None and "" are both "no tracking number").
- `Store`: a `Backend` class holding the three tables as maps with autoincrement counters, the
  queue pool's presence, and the log of enqueued jobs. Its methods are the CRUD and queue calls
  the core makes.
- `WorkerFunctions`: the mocked progression, the worker step as a pure function `TrackingStep`,
  and the imperative step `UpdateShipmentTrackingStatus`, proved equal to `TrackingStep`. Next
  to them are lemmas about the step's outcomes and about the self-rescheduling chain.
- `ShipmentsApi`: the manual trigger, with its three guards, and the single-shipment read.
- `ShipmentService`, `WarehouseService`: creation and update, with address-row creation,
  address-id choice, the effective-tracking rule and the kick-off job.

Exceptions raised inside the worker step's `try` come from the store's `get` and `update` and
from `enqueue_job`. They are inputs of the step (`Faults`), and each becomes an ERROR report
carrying its message: the `except` covers all three calls, not only the status write. The clock
is an input too (`now`).

## Model

| member | source | states |
|---|---|---|
| ShipmentSchemas.ShipmentStatusMembers | src/app/schemas/shipment.py:12-19 | The status enum has exactly seven members, and their string values are pairwise distinct. |
| ShipmentSchemas.ParseShipmentStatus | src/app/schemas/shipment.py:12-19 | Looking up an enum member by its string value inverts `Value`: it finds the member with that value and no other. |
| ShipmentSchemas.TrackingUpdateStatusTypeMembers | src/app/schemas/shipment.py:22-27 | The report-tag enum has exactly five members with distinct string values. |
| WorkerFunctions.MockTrackingStatus | src/app/core/worker/functions.py:42-59 | No tracking number, or no status, gives pending. For a tracked shipment with a status, the status is kept exactly when it is terminal, and it changes exactly along one of the four lifecycle edges. |
| WorkerFunctions.ProgressionCoversEveryStatus | src/app/core/worker/functions.py:49-59 | The progression table has every status as a key, so the `pending` default of the lookup is never used. |
| WorkerFunctions.AdvancesAreExactlyTheLifecycleEdges | src/app/core/worker/functions.py:49-57 | For a tracked shipment, a → b with b ≠ a happens if and only if (a, b) is a lifecycle edge. |
| WorkerFunctions.StepsToTerminal | src/app/core/worker/functions.py:49-57 | The distance to a terminal status is 0 exactly for terminal statuses, and at most 5. |
| WorkerFunctions.MockStatusApproachesTerminal | src/app/core/worker/functions.py:49-57 | Each advance of a tracked, non-terminal shipment lowers that distance by exactly one. |
| WorkerFunctions.TrackingStep | src/app/core/worker/functions.py:62-144 | Echoes the id, and gives the exact condition for each of NOT_FOUND, NO_TRACKING, TERMINAL and UPDATED. It writes at most once, to this shipment, and only its status and `updated_at`. It enqueues at most one follow-up job for this shipment. |
| WorkerFunctions.StepOnUnknownShipment | src/app/core/worker/functions.py:76-81 | An unknown id gives NOT_FOUND with only the id set. Nothing is written or enqueued. |
| WorkerFunctions.StepWithoutTracking | src/app/core/worker/functions.py:83-91 | A tracking number that is None or "" gives NO_TRACKING. Nothing is written or enqueued. |
| WorkerFunctions.StepOnTerminalShipment | src/app/core/worker/functions.py:93-105 | A terminal status gives TERMINAL whose `current_status` parses back to the stored status. Nothing is written or enqueued. |
| WorkerFunctions.StepAdvances | src/app/core/worker/functions.py:107-136 | A successful advance stores the mocked next status and the time. It reports the old status (None when there was none) and the new one, both parsing back to the statuses. |
| WorkerFunctions.FollowUpIffNonTerminalAdvance | src/app/core/worker/functions.py:123-128 | The job list grows by one 300-second follow-up for this shipment if and only if the step reports UPDATED, the status it stores is non-terminal and the pool exists. Otherwise it does not grow. |
| WorkerFunctions.StatusWriteTouchesOnlyStatus | src/app/core/worker/functions.py:109-119 | The step's write, an internal update with only status and `updated_at` set, leaves every other column of the row as stored. |
| WorkerFunctions.StepErrors | src/app/core/worker/functions.py:138-144 | Every ERROR report carries one of the injected messages and enqueues nothing. A failed load or write changes nothing. A failed enqueue keeps the status written. |
| WorkerFunctions.ReportFieldsMatchTag | src/app/schemas/shipment.py:116-156 | For every input and every injected exception, the step's report fills `current_status` if and only if it is TERMINAL, `new_status` if and only if it is UPDATED, `old_status` if and only if it is UPDATED for a shipment that had a status, and `error` if and only if it is ERROR. |
| WorkerFunctions.UpdateShipmentTrackingStatus | src/app/core/worker/functions.py:62-144 | The imperative step returns the report of `TrackingStep` and leaves the table and queue that `TrackingStep` gives. |
| WorkerFunctions.ChainStep | src/app/core/worker/functions.py:107-128 | An undisturbed step on a tracked, non-terminal shipment stores the next status and the time in that row only. It enqueues a follow-up exactly when the new status is non-terminal. |
| WorkerFunctions.StoppedChainStaysStopped | src/app/core/worker/functions.py:76-105 | Once the shipment is missing, untracked or terminal, any number of further steps, such as a duplicate or stale job, leaves the table and the queue unchanged. |
| WorkerFunctions.ChainEndsTerminal | src/app/core/worker/functions.py:123-128 | Running the chain of follow-ups for a tracked shipment for StepsToTerminal steps reaches a terminal status, delivered unless it started terminal. The keys and all other rows are unchanged. |
| WorkerFunctions.ChainEnqueuesFollowUps | src/app/core/worker/functions.py:123-128 | Along that chain, every step except the last enqueues exactly one 300-second follow-up for the shipment, and nothing else is enqueued. |
| ShipmentsApi.TriggerGuard | src/app/api/v1/shipments.py:121-134 | The guards in order: NotFound iff the shipment is missing; BadRequest iff it has no tracking number; ServiceUnavailable iff the pool is missing; none iff all three pass. |
| ShipmentsApi.UpdateShipmentTracking | src/app/api/v1/shipments.py:117-136 | Raises the first failing guard's error and enqueues nothing, or enqueues exactly one immediate tracking job. The table is never modified. |
| ShipmentsApi.TriggeredStepFindsTrackedShipment | src/app/api/v1/shipments.py:121-136 | When the trigger accepts and the row is unchanged, the step it starts reports UPDATED or TERMINAL, never NOT_FOUND or NO_TRACKING. |
| ShipmentsApi.ReadShipment | src/app/api/v1/shipments.py:67-77 | Returns the stored shipment if and only if it exists. Otherwise NotFound("Shipment not found"). |
| Store.Backend.CreateAddressIfGiven | src/app/services/service_shipments.py:98-112 | An update's optional address becomes a new row under a fresh id, which replaces the current one. When no address is given, the current id is kept and nothing is stored. |
| ShipmentService.Kickoff | src/app/services/service_shipments.py:61-68 | Appends either nothing or exactly one 60-second tracking job for the shipment. It appends the job if and only if the tracking number is non-empty and the pool exists. |
| ShipmentService.EffectiveTrackingIsStoredTracking | src/app/services/service_shipments.py:114-141 | The effective tracking number (the request's, else the stored one) equals the row's tracking number after the update is written. An explicit "" suppresses the kick-off. |
| ShipmentService.CancellingUpdateStopsTracking | src/app/services/service_shipments.py:114-130 | Once an update setting `cancelled` is written, the next worker step reports TERMINAL (or NO_TRACKING) and writes and enqueues nothing. |
| ShipmentService.CreateShipment | src/app/services/service_shipments.py:21-70 | An unknown warehouse gives NotFound with nothing written. Otherwise two distinct new address rows and one new shipment row carrying the request and those ids; a kick-off is enqueued as `Kickoff` says. |
| ShipmentService.UpdateShipment | src/app/services/service_shipments.py:73-141 | NotFound for an unknown shipment or unknown given warehouse, with nothing written. Otherwise each given address gets a new row whose id replaces the stored one, old addresses stay, one update is written, and the kick-off follows the effective tracking number. |
| WarehouseService.CreateWarehouse | src/app/services/service_warehouses.py:19-53 | A new origin address row. A distinct new return row if a return address is given, otherwise the origin's id is reused. Then a new warehouse row with the request's name and is_default. |
| WarehouseService.UpdateRecordOverwrites | src/app/services/service_warehouses.py:89-102 | The written update leaves the row with exactly the request's name and is_default, the chosen address ids and the new `updated_at`. |
| WarehouseService.UpdateWarehouse | src/app/services/service_warehouses.py:56-102 | NotFound for an unknown id, with nothing written. Otherwise each given address gets a new row whose id replaces the stored one, old addresses stay, and one update stamped with the time is written. |

## Left out

- The CRUD library's `update` is not part of this model. The model assumes that fields left None are not written and that `updated_at` always is (`Store.ApplyShipmentUpdate`, `Store.ApplyWarehouseUpdate`). If the library wrote explicit None values, an update without a tracking number would clear the stored one.
- ShipmentService.EffectiveTrackingIsStoredTracking: holds only under the update rule assumed above. `update_shipment` passes every field of its internal update explicitly, None included. If the library wrote those None values, the stored `warehouse_id`, `carrier`, `service_code`, `tracking_number` and `status` would be cleared, and this lemma and the row equation in ShipmentService.UpdateShipment would not describe the code.
- ShipmentsApi.ReadShipment: returns the stored row in place of the joined `ShipmentReadDetailed`, with its warehouse and addresses. The soft-delete filter of `get_detailed` has no counterpart, because deletion is not modelled.
- The database session `async with local_session()` of the worker step is opened outside its `try`. An exception while the session opens or closes escapes the job, and the model has no such outcome.
- Joined reads (`get_detailed`), pagination, listing and deletion are left out: the routes that only pass through to the CRUD objects carry no rules of their own.
- `created_at` and the soft-delete columns are not modelled.
- Address contents are opaque values (`Address`). Address validation belongs to the pydantic schemas.
- The session transaction (`db.begin()`) is not modelled, and neither is its rollback when a service call raises. The service and trigger methods model only the paths on which the store and the queue succeed. An exception there propagates to the HTTP layer.
- Async execution, concurrent jobs for the same shipment and arq's job deduplication are left out. Several chains for one shipment can run side by side, and the model treats each step on its own.
- Logging, the uvloop event-loop policy and the worker's startup/shutdown/job hooks are left out: they have no effect on state.
- HTTP status codes (204, 404, 400, 503) are left out. The errors are modelled by kind and message.
- `datetime.now(UTC)` is the parameter `now`, and the exceptions inside the worker's `try` are the parameter `faults`.
- WorkerFunctions.ChainEndsTerminal: stated only for a present pool, no exceptions and an unchanged row between steps, because concurrent edits and faults can end or fork a chain early.
- WorkerFunctions.ChainEnqueuesFollowUps: stated under the same conditions as WorkerFunctions.ChainEndsTerminal.
- The `schema_to_select=Shipment` read is taken to yield the stored row with all its fields.

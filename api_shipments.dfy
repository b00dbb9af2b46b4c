/** The shipment endpoints of src/app/api/v1/shipments.py that carry rules of their own: the
    manual tracking trigger and the single-shipment read. The other routes pass through to the
    CRUD objects and services. */
module ShipmentsApi {
  import opened Wrappers
  import opened HttpExceptions
  import opened WarehouseSchemas
  import opened ShipmentSchemas
  import opened Store
  import opened WorkerFunctions

  const NoTrackingNumber: string := "Shipment has no tracking number"
  const PoolNotAvailable: string := "Queue pool not available"

  /** The error the manual trigger raises, if any. The guards are checked in order: the shipment
      must exist, then have a tracking number, then the queue pool must be initialised. */
  function TriggerGuard(shipments: map<int, Shipment>, pool: bool, id: int): (e: Option<HttpError>)
    ensures e == Some(NotFound(ShipmentNotFound)) <==> id !in shipments
    ensures e == Some(BadRequest(NoTrackingNumber)) <==>
              id in shipments && !HasTracking(shipments[id].trackingNumber)
    ensures e == Some(ServiceUnavailable(PoolNotAvailable)) <==>
              id in shipments && HasTracking(shipments[id].trackingNumber) && !pool
    ensures e.None? <==> id in shipments && HasTracking(shipments[id].trackingNumber) && pool
  {
    if id !in shipments then Some(NotFound(ShipmentNotFound))
    else if !HasTracking(shipments[id].trackingNumber) then Some(BadRequest(NoTrackingNumber))
    else if !pool then Some(ServiceUnavailable(PoolNotAvailable))
    else None
  }

  /** The immediate job the manual trigger enqueues: no `_defer_by`. */
  function TriggerJob(shipmentId: int): Job
  {
    Job(TrackingJobName, shipmentId, None)
  }

  /** `update_shipment_tracking`: raises the first failing guard's error and enqueues nothing, or
      enqueues exactly one immediate tracking job; the shipment row is never modified. */
  method UpdateShipmentTracking(db: Backend, shipmentId: int) returns (r: Result<(), HttpError>)
    modifies db`jobs
    ensures var guard := TriggerGuard(old(db.shipments), old(db.poolAvailable), shipmentId);
            && (guard.Some? ==> r == Err(guard.value) && db.jobs == old(db.jobs))
            && (guard.None? ==> r == Ok(()) && db.jobs == old(db.jobs) + [TriggerJob(shipmentId)])
    ensures db.shipments == old(db.shipments)
  {
    var shipment := db.GetShipment(shipmentId);
    if shipment.None? {
      return Err(NotFound(ShipmentNotFound));
    }
    var trackingNumber := shipment.value.trackingNumber;
    if !HasTracking(trackingNumber) {
      return Err(BadRequest(NoTrackingNumber));
    }
    if !db.poolAvailable {
      return Err(ServiceUnavailable(PoolNotAvailable));
    }
    db.EnqueueJob(TrackingJobName, shipmentId, None);
    r := Ok(());
  }

  /** A job the trigger accepted finds, while the row is unchanged, a shipment that exists and is
      tracked: its step reports UPDATED or TERMINAL, never NOT_FOUND or NO_TRACKING. */
  lemma TriggeredStepFindsTrackedShipment(shipments: map<int, Shipment>, jobs: seq<Job>, pool: bool, id: int, now: Timestamp)
    requires TriggerGuard(shipments, pool, id).None?
    ensures TrackingStep(shipments, jobs, pool, id, now, NoFaults).result.status in {UpdatedTag, TerminalTag}
  {
  }

  /** `read_shipment`: the stored shipment, or NotFound when the lookup yields nothing. */
  method ReadShipment(db: Backend, shipmentId: int) returns (r: Result<Shipment, HttpError>)
    ensures r.Ok? <==> shipmentId in db.shipments
    ensures r.Ok? ==> r.value == db.shipments[shipmentId]
    ensures r.Err? ==> r.error == NotFound(ShipmentNotFound)
  {
    var shipment := db.GetShipment(shipmentId);
    if shipment.None? {
      return Err(NotFound(ShipmentNotFound));
    }
    r := Ok(shipment.value);
  }
}

/** `ShipmentService` of src/app/services/service_shipments.py: shipment creation and update,
    which create address rows, write the shipment row and kick off tracking one minute later. */
module ShipmentService {
  import opened Wrappers
  import opened HttpExceptions
  import opened WarehouseSchemas
  import opened ShipmentSchemas
  import opened Store
  import opened WorkerFunctions

  /** Seconds between a create or update and the first tracking step it schedules. */
  const KickoffDelay: int := 60

  function KickoffJob(shipmentId: int): Job
  {
    Job(TrackingJobName, shipmentId, Some(KickoffDelay))
  }

  /** The job list a create or update appends: one kick-off job when the tracking number is
      non-empty and the pool exists, none otherwise. */
  function Kickoff(trackingNumber: Option<string>, pool: bool, shipmentId: int): (js: seq<Job>)
    ensures js == [] || js == [KickoffJob(shipmentId)]
    ensures js == [KickoffJob(shipmentId)] <==> HasTracking(trackingNumber) && pool
  {
    if HasTracking(trackingNumber) && pool then [KickoffJob(shipmentId)] else []
  }

  /** The tracking number an update is judged by: the request's when it gives one (even ""),
      otherwise the one stored before the update. */
  function EffectiveTrackingNumber(requested: Option<string>, stored: Option<string>): Option<string>
  {
    if requested.Some? then requested else stored
  }

  /** The `ShipmentUpdateInternal` an update writes: the request's fields as given, the chosen
      address ids and the time. */
  function UpdateRecord(u: ShipmentUpdate, shipToId: int, shipFromId: int, now: Timestamp): ShipmentUpdateInternal
  {
    ShipmentUpdateInternal(u.warehouseId, Some(shipToId), Some(shipFromId), u.carrier, u.serviceCode,
                           u.trackingNumber, u.status, now)
  }

  /** The effective tracking number is the one the row holds once the update is written, so the
      kick-off decision agrees with the stored row; an explicit "" suppresses scheduling. */
  lemma EffectiveTrackingIsStoredTracking(row: Shipment, u: ShipmentUpdate, shipToId: int, shipFromId: int, now: Timestamp, pool: bool)
    ensures EffectiveTrackingNumber(u.trackingNumber, row.trackingNumber)
            == ApplyShipmentUpdate(row, UpdateRecord(u, shipToId, shipFromId, now)).trackingNumber
    ensures u.trackingNumber == Some("") ==> Kickoff(EffectiveTrackingNumber(u.trackingNumber, row.trackingNumber), pool, row.id) == []
  {
  }

  /** Cancelling through an update stops the tracking chain: once the update is written, the next
      step of that shipment reports TERMINAL (or NO_TRACKING, if the update also cleared the
      tracking number) and writes and enqueues nothing. */
  lemma CancellingUpdateStopsTracking(shipments: map<int, Shipment>, jobs: seq<Job>, pool: bool, id: int,
                                      u: ShipmentUpdate, shipToId: int, shipFromId: int, now: Timestamp, stepTime: Timestamp)
    requires id in shipments && u.status == Some(Cancelled)
    ensures var written := shipments[id := ApplyShipmentUpdate(shipments[id], UpdateRecord(u, shipToId, shipFromId, now))];
            var o := TrackingStep(written, jobs, pool, id, stepTime, NoFaults);
            && o.result.status in {TerminalTag, NoTrackingTag}
            && o.shipments == written && o.jobs == jobs
  {
  }

  /** `create_shipment`: NotFound for an unknown warehouse before anything is written; otherwise
      two new address rows, a new shipment row pointing at them, and a kick-off job exactly when
      the shipment has a tracking number and the pool exists. */
  method CreateShipment(db: Backend, s: ShipmentCreate) returns (r: Result<Shipment, HttpError>)
    requires db.Valid()
    modifies db`addresses, db`nextAddressId, db`shipments, db`nextShipmentId, db`jobs
    ensures db.Valid()
    ensures s.warehouseId !in old(db.warehouses) ==> r == Err(NotFound(WarehouseNotFound)) && unchanged(db)
    ensures s.warehouseId in old(db.warehouses) ==>
              && r.Ok?
              && r.value == Shipment(r.value.id, s.warehouseId, r.value.shipToId, r.value.shipFromId,
                                     s.carrier, s.serviceCode, s.trackingNumber, s.status, None)
              && r.value.id !in old(db.shipments) && db.shipments == old(db.shipments)[r.value.id := r.value]
              && r.value.shipToId !in old(db.addresses) && r.value.shipFromId !in old(db.addresses)
              && r.value.shipToId != r.value.shipFromId
              && db.addresses == old(db.addresses)[r.value.shipToId := s.shipTo][r.value.shipFromId := s.shipFrom]
              && db.jobs == old(db.jobs) + Kickoff(s.trackingNumber, db.poolAvailable, r.value.id)
  {
    var warehouse := db.GetWarehouse(s.warehouseId);
    if warehouse.None? {
      return Err(NotFound(WarehouseNotFound));
    }
    var shipToId := db.CreateAddress(s.shipTo);
    var shipFromId := db.CreateAddress(s.shipFrom);
    var row := db.CreateShipmentRow(ShipmentCreateInternal(s.warehouseId, shipToId, shipFromId, s.carrier,
                                                           s.serviceCode, s.trackingNumber, s.status));
    if HasTracking(s.trackingNumber) && db.poolAvailable {
      db.EnqueueJob(TrackingJobName, row.id, Some(KickoffDelay));
    }
    r := Ok(row);
  }

  /** `update_shipment`: NotFound for an unknown shipment, or for a given warehouse id that does
      not resolve, before anything is written. Otherwise each supplied address becomes a new row
      whose id replaces the stored one (the other id is kept), the update is written to that
      shipment, and a kick-off job is enqueued exactly when the effective tracking number is
      non-empty and the pool exists. */
  method UpdateShipment(db: Backend, shipmentId: int, u: ShipmentUpdate, now: Timestamp) returns (r: Result<(), HttpError>)
    requires db.Valid()
    modifies db`addresses, db`nextAddressId, db`shipments, db`jobs
    ensures db.Valid()
    ensures shipmentId !in old(db.shipments) ==> r == Err(NotFound(ShipmentNotFound)) && unchanged(db)
    ensures shipmentId in old(db.shipments) && u.warehouseId.Some? && u.warehouseId.value !in db.warehouses ==>
              r == Err(NotFound(WarehouseNotFound)) && unchanged(db)
    ensures r.Ok? <==> shipmentId in old(db.shipments) && (u.warehouseId.Some? ==> u.warehouseId.value in db.warehouses)
    ensures r.Ok? ==>
              shipmentId in db.shipments &&
              var before := old(db.shipments)[shipmentId];
              var after := db.shipments[shipmentId];
              && (u.shipTo.None? ==> after.shipToId == before.shipToId)
              && (u.shipTo.Some? ==> after.shipToId !in old(db.addresses))
              && (u.shipFrom.None? ==> after.shipFromId == before.shipFromId)
              && (u.shipFrom.Some? ==> after.shipFromId !in old(db.addresses))
              && (u.shipTo.Some? && u.shipFrom.Some? ==> after.shipToId != after.shipFromId)
              && db.addresses == WithAddress(WithAddress(old(db.addresses), u.shipTo, after.shipToId),
                                             u.shipFrom, after.shipFromId)
              && db.shipments == old(db.shipments)[shipmentId :=
                   ApplyShipmentUpdate(before, UpdateRecord(u, after.shipToId, after.shipFromId, now))]
              && db.jobs == old(db.jobs) + Kickoff(EffectiveTrackingNumber(u.trackingNumber, before.trackingNumber),
                                                   db.poolAvailable, shipmentId)
  {
    var current := db.GetShipment(shipmentId);
    if current.None? {
      return Err(NotFound(ShipmentNotFound));
    }
    var shipToId := current.value.shipToId;
    var shipFromId := current.value.shipFromId;
    if u.warehouseId.Some? {
      var warehouse := db.GetWarehouse(u.warehouseId.value);
      if warehouse.None? {
        return Err(NotFound(WarehouseNotFound));
      }
    }
    shipToId := db.CreateAddressIfGiven(u.shipTo, shipToId);
    shipFromId := db.CreateAddressIfGiven(u.shipFrom, shipFromId);
    db.UpdateShipmentRow(shipmentId, UpdateRecord(u, shipToId, shipFromId, now));
    var trackingNumber := u.trackingNumber;
    if trackingNumber.None? {
      trackingNumber := current.value.trackingNumber;
    }
    if HasTracking(trackingNumber) && db.poolAvailable {
      db.EnqueueJob(TrackingJobName, shipmentId, Some(KickoffDelay));
    }
    r := Ok(());
  }
}

/** The collaborators the core talks to: the three tables reached through the CRUD objects
    (src/app/crud/crud_shipments.py, crud_warehouses.py, crud_addresses.py) and the arq job queue
    reached through the global `queue.pool`. Each table is a map from id to row with an
    autoincrement counter; the queue is the sequence of jobs enqueued so far. */
module Store {
  import opened Wrappers
  import opened WarehouseSchemas
  import opened ShipmentSchemas

  /** Name under which the worker step is registered and enqueued. */
  const TrackingJobName: string := "update_shipment_tracking_status"

  /** One `enqueue_job` call: the job's function name, its argument and its `_defer_by` (None when not given). */
  datatype Job = Job(name: string, shipmentId: int, deferBy: Option<int>)

  /** A shipment row after an update: every field the update gives (not None) replaces the stored
      one, `updated_at` always does, and the id never changes. */
  function ApplyShipmentUpdate(row: Shipment, u: ShipmentUpdateInternal): Shipment
  {
    Shipment(
      row.id,
      if u.warehouseId.Some? then u.warehouseId.value else row.warehouseId,
      if u.shipToId.Some? then u.shipToId.value else row.shipToId,
      if u.shipFromId.Some? then u.shipFromId.value else row.shipFromId,
      if u.carrier.Some? then u.carrier else row.carrier,
      if u.serviceCode.Some? then u.serviceCode else row.serviceCode,
      if u.trackingNumber.Some? then u.trackingNumber else row.trackingNumber,
      if u.status.Some? then u.status else row.status,
      Some(u.updatedAt))
  }

  /** A warehouse row after an update, by the same rule as ApplyShipmentUpdate. */
  function ApplyWarehouseUpdate(row: Warehouse, u: WarehouseUpdateInternal): Warehouse
  {
    Warehouse(
      row.id,
      if u.name.Some? then u.name.value else row.name,
      if u.isDefault.Some? then u.isDefault.value else row.isDefault,
      if u.originAddressId.Some? then u.originAddressId.value else row.originAddressId,
      if u.returnAddressId.Some? then u.returnAddressId.value else row.returnAddressId,
      Some(u.updatedAt))
  }

  /** The address table after an update's optional address is stored under id, if one is given. */
  function WithAddress(addresses: map<int, Address>, given: Option<Address>, id: int): map<int, Address>
  {
    if given.Some? then addresses[id := given.value] else addresses
  }

  /** The database and the queue pool as one mutable environment. */
  class Backend {
    var shipments: map<int, Shipment>
    var warehouses: map<int, Warehouse>
    var addresses: map<int, Address>
    var nextShipmentId: int
    var nextWarehouseId: int
    var nextAddressId: int
    /** Jobs handed to `queue.pool.enqueue_job`, oldest first. */
    var jobs: seq<Job>
    /** Whether `queue.pool` is initialised (not None). */
    var poolAvailable: bool

    /** Every row is stored under its own id, and every id in use is below the table's counter. */
    ghost predicate Valid()
      reads this
    {
      && (forall k :: k in shipments ==> shipments[k].id == k && k < nextShipmentId)
      && (forall k :: k in warehouses ==> warehouses[k].id == k && k < nextWarehouseId)
      && (forall k :: k in addresses ==> k < nextAddressId)
    }

    constructor (poolAvailable: bool)
      ensures Valid()
      ensures shipments == map[] && warehouses == map[] && addresses == map[] && jobs == []
      ensures this.poolAvailable == poolAvailable
    {
      shipments, warehouses, addresses := map[], map[], map[];
      nextShipmentId, nextWarehouseId, nextAddressId := 1, 1, 1;
      jobs := [];
      this.poolAvailable := poolAvailable;
    }

    /** `crud_shipments.get`: the row stored under the id, if any. */
    function GetShipment(id: int): Option<Shipment>
      reads this
    {
      if id in shipments then Some(shipments[id]) else None
    }

    /** `crud_warehouses.get`: the row stored under the id, if any. */
    function GetWarehouse(id: int): Option<Warehouse>
      reads this
    {
      if id in warehouses then Some(warehouses[id]) else None
    }

    /** `crud_addresses.create`: stores the address under a fresh id and returns that id. */
    method CreateAddress(a: Address) returns (id: int)
      requires Valid()
      modifies this`addresses, this`nextAddressId
      ensures Valid()
      ensures id !in old(addresses) && addresses == old(addresses)[id := a]
      ensures id == old(nextAddressId) && nextAddressId == id + 1
    {
      id := nextAddressId;
      addresses := addresses[id := a];
      nextAddressId := nextAddressId + 1;
    }

    /** An update's optional address: a new row holding it when one is given, otherwise the
        current id with nothing stored. */
    method CreateAddressIfGiven(given: Option<Address>, currentId: int) returns (id: int)
      requires Valid()
      modifies this`addresses, this`nextAddressId
      ensures Valid()
      ensures addresses == WithAddress(old(addresses), given, id)
      ensures given.None? ==> id == currentId && nextAddressId == old(nextAddressId)
      ensures given.Some? ==> id !in old(addresses) && id == old(nextAddressId) && nextAddressId == id + 1
    {
      id := currentId;
      if given.Some? {
        id := CreateAddress(given.value);
      }
    }

    /** `crud_shipments.create`: stores a new row under a fresh id and returns it. */
    method CreateShipmentRow(c: ShipmentCreateInternal) returns (row: Shipment)
      requires Valid()
      modifies this`shipments, this`nextShipmentId
      ensures Valid()
      ensures row.id !in old(shipments) && row.id == old(nextShipmentId)
      ensures row == Shipment(row.id, c.warehouseId, c.shipToId, c.shipFromId, c.carrier,
                              c.serviceCode, c.trackingNumber, c.status, None)
      ensures shipments == old(shipments)[row.id := row] && nextShipmentId == row.id + 1
    {
      row := Shipment(nextShipmentId, c.warehouseId, c.shipToId, c.shipFromId, c.carrier,
                      c.serviceCode, c.trackingNumber, c.status, None);
      shipments := shipments[row.id := row];
      nextShipmentId := nextShipmentId + 1;
    }

    /** `crud_shipments.update` of an existing row. */
    method UpdateShipmentRow(id: int, u: ShipmentUpdateInternal)
      requires Valid() && id in shipments
      modifies this`shipments
      ensures Valid()
      ensures shipments == old(shipments)[id := ApplyShipmentUpdate(old(shipments)[id], u)]
    {
      shipments := shipments[id := ApplyShipmentUpdate(shipments[id], u)];
    }

    /** `crud_warehouses.create`: stores a new row under a fresh id and returns it. */
    method CreateWarehouseRow(c: WarehouseCreateInternal) returns (row: Warehouse)
      requires Valid()
      modifies this`warehouses, this`nextWarehouseId
      ensures Valid()
      ensures row.id !in old(warehouses) && row.id == old(nextWarehouseId)
      ensures row == Warehouse(row.id, c.name, c.isDefault, c.originAddressId, c.returnAddressId, None)
      ensures warehouses == old(warehouses)[row.id := row] && nextWarehouseId == row.id + 1
    {
      row := Warehouse(nextWarehouseId, c.name, c.isDefault, c.originAddressId, c.returnAddressId, None);
      warehouses := warehouses[row.id := row];
      nextWarehouseId := nextWarehouseId + 1;
    }

    /** `crud_warehouses.update` of an existing row. */
    method UpdateWarehouseRow(id: int, u: WarehouseUpdateInternal)
      requires Valid() && id in warehouses
      modifies this`warehouses
      ensures Valid()
      ensures warehouses == old(warehouses)[id := ApplyWarehouseUpdate(old(warehouses)[id], u)]
    {
      warehouses := warehouses[id := ApplyWarehouseUpdate(warehouses[id], u)];
    }

    /** `queue.pool.enqueue_job(name, shipmentId, _defer_by=deferBy)` on an initialised pool. */
    method EnqueueJob(name: string, shipmentId: int, deferBy: Option<int>)
      requires poolAvailable
      modifies this`jobs
      ensures jobs == old(jobs) + [Job(name, shipmentId, deferBy)]
    {
      jobs := jobs + [Job(name, shipmentId, deferBy)];
    }
  }
}

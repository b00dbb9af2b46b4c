/** `WarehouseService` of src/app/services/service_warehouses.py: warehouse creation and update,
    which create address rows and choose the origin and return address ids. */
module WarehouseService {
  import opened Wrappers
  import opened HttpExceptions
  import opened WarehouseSchemas
  import opened Store

  /** `create_warehouse`: a new origin address row; a second row for the return address when one
      is given, otherwise the return address id is the origin's; then a new warehouse row with the
      request's name and is_default. */
  method CreateWarehouse(db: Backend, w: WarehouseCreate) returns (r: Warehouse)
    requires db.Valid()
    modifies db`addresses, db`nextAddressId, db`warehouses, db`nextWarehouseId
    ensures db.Valid()
    ensures r.name == w.name && r.isDefault == w.isDefault && r.updatedAt == None
    ensures r.id !in old(db.warehouses) && db.warehouses == old(db.warehouses)[r.id := r]
    ensures r.originAddressId !in old(db.addresses)
    ensures w.returnAddress.None? ==>
              && r.returnAddressId == r.originAddressId
              && db.addresses == old(db.addresses)[r.originAddressId := w.originAddress]
    ensures w.returnAddress.Some? ==>
              && r.returnAddressId !in old(db.addresses) && r.returnAddressId != r.originAddressId
              && db.addresses == old(db.addresses)[r.originAddressId := w.originAddress]
                                                  [r.returnAddressId := w.returnAddress.value]
  {
    var originId := db.CreateAddress(w.originAddress);
    var returnId := originId;
    if w.returnAddress.Some? {
      returnId := db.CreateAddress(w.returnAddress.value);
    }
    r := db.CreateWarehouseRow(WarehouseCreateInternal(w.name, w.isDefault, originId, returnId));
  }

  /** The `WarehouseUpdateInternal` an update writes: name, is_default, the chosen address ids and the time. */
  function UpdateRecord(w: WarehouseUpdate, originId: int, returnId: int, now: Timestamp): WarehouseUpdateInternal
  {
    WarehouseUpdateInternal(Some(w.name), Some(w.isDefault), Some(originId), Some(returnId), now)
  }

  /** The written update replaces every column it carries and stamps the row: the row afterwards
      holds exactly the request's name and is_default, the chosen ids and the time. */
  lemma UpdateRecordOverwrites(row: Warehouse, w: WarehouseUpdate, originId: int, returnId: int, now: Timestamp)
    ensures ApplyWarehouseUpdate(row, UpdateRecord(w, originId, returnId, now))
            == Warehouse(row.id, w.name, w.isDefault, originId, returnId, Some(now))
  {
  }

  /** `update_warehouse`: NotFound for an unknown id with nothing written. Otherwise each supplied
      address becomes a new row whose id replaces the stored one (the other id is kept), and
      exactly one update, carrying updated_at, is written to that warehouse. */
  method UpdateWarehouse(db: Backend, warehouseId: int, w: WarehouseUpdate, now: Timestamp) returns (r: Result<(), HttpError>)
    requires db.Valid()
    modifies db`addresses, db`nextAddressId, db`warehouses
    ensures db.Valid()
    ensures warehouseId !in old(db.warehouses) ==> r == Err(NotFound(WarehouseNotFound)) && unchanged(db)
    ensures warehouseId in old(db.warehouses) ==>
              warehouseId in db.warehouses &&
              var before := old(db.warehouses)[warehouseId];
              var after := db.warehouses[warehouseId];
              && r == Ok(())
              && (w.originAddress.None? ==> after.originAddressId == before.originAddressId)
              && (w.originAddress.Some? ==> after.originAddressId !in old(db.addresses))
              && (w.returnAddress.None? ==> after.returnAddressId == before.returnAddressId)
              && (w.returnAddress.Some? ==> after.returnAddressId !in old(db.addresses))
              && (w.originAddress.Some? && w.returnAddress.Some? ==> after.originAddressId != after.returnAddressId)
              && db.addresses == WithAddress(WithAddress(old(db.addresses), w.originAddress, after.originAddressId),
                                             w.returnAddress, after.returnAddressId)
              && db.warehouses == old(db.warehouses)[warehouseId :=
                   ApplyWarehouseUpdate(before, UpdateRecord(w, after.originAddressId, after.returnAddressId, now))]
              && after.updatedAt == Some(now)
  {
    var current := db.GetWarehouse(warehouseId);
    if current.None? {
      return Err(NotFound(WarehouseNotFound));
    }
    var originId := current.value.originAddressId;
    var returnId := current.value.returnAddressId;
    originId := db.CreateAddressIfGiven(w.originAddress, originId);
    returnId := db.CreateAddressIfGiven(w.returnAddress, returnId);
    db.UpdateWarehouseRow(warehouseId, UpdateRecord(w, originId, returnId, now));
    r := Ok(());
  }
}

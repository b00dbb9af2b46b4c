/** The address and warehouse records of src/app/schemas/address.py and src/app/schemas/warehouse.py.
    Address fields carry no rules in the core, so an address is one opaque payload. */
module WarehouseSchemas {
  import opened Wrappers

  /** Opaque wall-clock instant of the `updated_at` columns: `datetime.now(UTC)` is an input of
      every operation that stamps a row. */
  type Timestamp = int

  /** An address as submitted and stored; its individual fields are not modelled. */
  datatype Address = Address(details: string)

  /** A stored warehouse row (`created_at` and the soft-delete columns are not modelled). */
  datatype Warehouse = Warehouse(
    id: int,
    name: string,
    isDefault: bool,
    originAddressId: int,
    returnAddressId: int,
    updatedAt: Option<Timestamp>)

  /** The request body of warehouse creation: the return address may be omitted. */
  datatype WarehouseCreate = WarehouseCreate(
    name: string,
    isDefault: bool,
    originAddress: Address,
    returnAddress: Option<Address>)

  /** The row data handed to the warehouse table on creation. */
  datatype WarehouseCreateInternal = WarehouseCreateInternal(
    name: string,
    isDefault: bool,
    originAddressId: int,
    returnAddressId: int)

  /** The request body of a warehouse update: name and is_default are inherited from the base
      schema. name is required. is_default takes the value False when the request omits it, so an
      update that leaves it out resets the stored flag. Either address may be omitted. */
  datatype WarehouseUpdate = WarehouseUpdate(
    name: string,
    isDefault: bool,
    originAddress: Option<Address>,
    returnAddress: Option<Address>)

  /** The update written to a warehouse row: `updated_at` is required, everything else optional. */
  datatype WarehouseUpdateInternal = WarehouseUpdateInternal(
    name: Option<string>,
    isDefault: Option<bool>,
    originAddressId: Option<int>,
    returnAddressId: Option<int>,
    updatedAt: Timestamp)
}

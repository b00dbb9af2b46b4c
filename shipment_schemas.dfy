/** The shipment records and enumerations of src/app/schemas/shipment.py.
    A pydantic field declared `X | None = None` becomes an `Option<X>`; a required field keeps
    its plain type. String-valued enumerations carry their wire value as `Value()`. */
module ShipmentSchemas {
  import opened Wrappers
  import opened WarehouseSchemas

  datatype ShipmentStatus = Pending | Processing | Shipped | InTransit | Delivered | Cancelled | Failed
  {
    /** The enum member's string value. */
    function Value(): string
    {
      match this
      case Pending => "pending"
      case Processing => "processing"
      case Shipped => "shipped"
      case InTransit => "in_transit"
      case Delivered => "delivered"
      case Cancelled => "cancelled"
      case Failed => "failed"
    }
  }

  /** Every member of ShipmentStatus. */
  const AllShipmentStatuses: set<ShipmentStatus> :=
    {Pending, Processing, Shipped, InTransit, Delivered, Cancelled, Failed}

  /** Looking a status up by its value, as `ShipmentStatus(v)` does; `None` where Python raises ValueError. */
  function ParseShipmentStatus(v: string): (r: Option<ShipmentStatus>)
    ensures r.Some? ==> r.value.Value() == v
    ensures forall s: ShipmentStatus :: s.Value() == v ==> r == Some(s)
  {
    if v == "pending" then Some(Pending)
    else if v == "processing" then Some(Processing)
    else if v == "shipped" then Some(Shipped)
    else if v == "in_transit" then Some(InTransit)
    else if v == "delivered" then Some(Delivered)
    else if v == "cancelled" then Some(Cancelled)
    else if v == "failed" then Some(Failed)
    else None
  }

  /** ShipmentStatus has exactly seven members, and no two share a value. */
  lemma ShipmentStatusMembers()
    ensures forall s: ShipmentStatus :: s in AllShipmentStatuses
    ensures |AllShipmentStatuses| == 7
    ensures forall s: ShipmentStatus, t: ShipmentStatus :: s.Value() == t.Value() ==> s == t
  {
    forall s: ShipmentStatus
      ensures s in AllShipmentStatuses
    {
      match s
      case Pending =>
      case Processing =>
      case Shipped =>
      case InTransit =>
      case Delivered =>
      case Cancelled =>
      case Failed =>
    }
    forall s: ShipmentStatus, t: ShipmentStatus | s.Value() == t.Value()
      ensures s == t
    {
      assert ParseShipmentStatus(s.Value()) == Some(s);
    }
  }

  datatype TrackingUpdateStatusType = NotFoundTag | NoTrackingTag | TerminalTag | UpdatedTag | ErrorTag
  {
    /** The enum member's string value. */
    function Value(): string
    {
      match this
      case NotFoundTag => "not_found"
      case NoTrackingTag => "no_tracking"
      case TerminalTag => "terminal"
      case UpdatedTag => "updated"
      case ErrorTag => "error"
    }
  }

  /** Every member of TrackingUpdateStatusType. */
  const AllTrackingUpdateStatusTypes: set<TrackingUpdateStatusType> :=
    {NotFoundTag, NoTrackingTag, TerminalTag, UpdatedTag, ErrorTag}

  /** TrackingUpdateStatusType has exactly five members, and no two share a value. */
  lemma TrackingUpdateStatusTypeMembers()
    ensures forall t: TrackingUpdateStatusType :: t in AllTrackingUpdateStatusTypes
    ensures |AllTrackingUpdateStatusTypes| == 5
    ensures forall s: TrackingUpdateStatusType, t: TrackingUpdateStatusType :: s.Value() == t.Value() ==> s == t
  {
    forall t: TrackingUpdateStatusType
      ensures t in AllTrackingUpdateStatusTypes
    {
      match t
      case NotFoundTag =>
      case NoTrackingTag =>
      case TerminalTag =>
      case UpdatedTag =>
      case ErrorTag =>
    }
  }

  /** The worker's report of one tracking step. The status strings are ShipmentStatus values. */
  datatype TrackingUpdateStatus = TrackingUpdateStatus(
    status: TrackingUpdateStatusType,
    shipmentId: int,
    currentStatus: Option<string>,
    oldStatus: Option<string>,
    newStatus: Option<string>,
    error: Option<string>)

  /** A report with only the two required fields given: the four optional ones default to None. */
  function Report(status: TrackingUpdateStatusType, shipmentId: int): TrackingUpdateStatus
  {
    TrackingUpdateStatus(status, shipmentId, None, None, None, None)
  }

  /** Python truthiness of `tracking_number`: both None and "" count as no tracking number. */
  predicate HasTracking(trackingNumber: Option<string>)
  {
    trackingNumber.Some? && |trackingNumber.value| > 0
  }

  /** A stored shipment row (the `Shipment` schema; `created_at` and the soft-delete columns are not modelled). */
  datatype Shipment = Shipment(
    id: int,
    warehouseId: int,
    shipToId: int,
    shipFromId: int,
    carrier: Option<string>,
    serviceCode: Option<string>,
    trackingNumber: Option<string>,
    status: Option<ShipmentStatus>,
    updatedAt: Option<Timestamp>)

  /** The request body of shipment creation: both addresses are required. */
  datatype ShipmentCreate = ShipmentCreate(
    warehouseId: int,
    carrier: Option<string>,
    serviceCode: Option<string>,
    trackingNumber: Option<string>,
    status: Option<ShipmentStatus>,
    shipTo: Address,
    shipFrom: Address)

  /** The row data handed to the shipment table on creation. */
  datatype ShipmentCreateInternal = ShipmentCreateInternal(
    warehouseId: int,
    shipToId: int,
    shipFromId: int,
    carrier: Option<string>,
    serviceCode: Option<string>,
    trackingNumber: Option<string>,
    status: Option<ShipmentStatus>)

  /** The request body of a shipment update: every field is optional, the addresses included. */
  datatype ShipmentUpdate = ShipmentUpdate(
    warehouseId: Option<int>,
    carrier: Option<string>,
    serviceCode: Option<string>,
    trackingNumber: Option<string>,
    status: Option<ShipmentStatus>,
    shipTo: Option<Address>,
    shipFrom: Option<Address>)

  /** The update written to a shipment row: `updated_at` is required, everything else optional. */
  datatype ShipmentUpdateInternal = ShipmentUpdateInternal(
    warehouseId: Option<int>,
    shipToId: Option<int>,
    shipFromId: Option<int>,
    carrier: Option<string>,
    serviceCode: Option<string>,
    trackingNumber: Option<string>,
    status: Option<ShipmentStatus>,
    updatedAt: Timestamp)

  /** An update built from `updated_at` alone: every optional field takes its None default. */
  function StampOnly(updatedAt: Timestamp): ShipmentUpdateInternal
  {
    ShipmentUpdateInternal(None, None, None, None, None, None, None, updatedAt)
  }
}

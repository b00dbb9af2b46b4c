/** The typed HTTP errors the caller-facing operations raise (src/app/core/exceptions/http_exceptions.py).
    The status codes they map to are not modelled; each error keeps its detail message. */
module HttpExceptions {

  datatype HttpError =
    | NotFound(detail: string)
    | BadRequest(detail: string)
    | ServiceUnavailable(detail: string)

  /** The detail of the NotFound raised for a missing shipment row. */
  const ShipmentNotFound: string := "Shipment not found"

  /** The detail of the NotFound raised for a missing warehouse row. */
  const WarehouseNotFound: string := "Warehouse not found"
}

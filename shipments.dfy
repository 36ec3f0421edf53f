/**
 * The shipment row as the table and the payment handler read it: the closed
 * set of lifecycle statuses with their stored names, the payment-status
 * values the code compares against, and the joined customer.
 */
module Shipments {
  import opened JsValues

  /** Lifecycle status of a shipment. */
  datatype Status = Pending | InTransit | Arrived | Delivered | Cancelled

  /** The name under which a status is stored in the `status` column. */
  function StatusName(s: Status): string
  {
    match s
    case Pending => "pending"
    case InTransit => "in_transit"
    case Arrived => "arrived"
    case Delivered => "delivered"
    case Cancelled => "cancelled"
  }

  /** Reads a stored status name back; any other string is not a status. */
  function ParseStatus(raw: string): (r: Option<Status>)
    ensures r.Some? ==> StatusName(r.value) == raw
    ensures forall s :: StatusName(s) == raw ==> r == Some(s)
  {
    if raw == "pending" then Some(Pending)
    else if raw == "in_transit" then Some(InTransit)
    else if raw == "arrived" then Some(Arrived)
    else if raw == "delivered" then Some(Delivered)
    else if raw == "cancelled" then Some(Cancelled)
    else None
  }

  /** Values of `payment_status` that the code compares against or writes. */
  const PaymentCompleted := "completed"
  const PaymentInitiated := "initiated"
  const PaymentFailed := "failed"

  datatype Customer = Customer(name: string, phoneNumber: Option<string>)

  /**
   * A shipment row joined with its customer. `paymentStatus`,
   * `otpVerifiedAt`, `revenue`, `phonepeOrderId` and `customer` are
   * nullable columns or relations.
   */
  datatype Shipment = Shipment(
    id: string,
    shipmentNumber: string,
    status: Status,
    paymentStatus: Option<string>,
    otpVerifiedAt: Option<string>,
    revenue: Option<real>,
    phonepeOrderId: Option<string>,
    customer: Option<Customer>)
}

/** The records shared by the store, the route handlers and the dashboards. */
module Domain {

  /** Database identifiers (generated by the store, never reused). */
  type Id = nat

  /** Booking status, stored as the strings "PENDING", "CONFIRMED", "COMPLETED" and
      "CANCELLED". */
  datatype Status = Pending | Confirmed | Completed | Cancelled

  /** A row of the booking table as the API returns it. Dates are kept as the
      timestamp the caller sent; calendar rendering is not modelled. */
  datatype Booking = Booking(
    id: Id,
    userId: Id,
    agencyId: Id,
    date: int,
    totalAmount: real,
    packageType: string,
    status: Status)

  /** The intended booking lifecycle: PENDING -> CONFIRMED -> COMPLETED, and
      PENDING or CONFIRMED -> CANCELLED; COMPLETED and CANCELLED are final. */
  predicate LifecycleStep(from: Status, to: Status) {
    (from == Pending && (to == Confirmed || to == Cancelled)) ||
    (from == Confirmed && (to == Completed || to == Cancelled))
  }

  function Amount(b: Booking): real {
    b.totalAmount
  }
}

/** Types shared by the ticket store, the slot store, the fee calculator and
    the payment service. */
module Common {

  /** The optional result of a lookup (Java's Optional). */
  datatype Option<+T> = None | Some(value: T)

  /** The vehicle classes the parking lot knows about. */
  datatype VehicleType = CAR | BIKE | TRUCK | EV

  /** Identifiers. The source uses random UUIDs; here they are plain numbers
      and freshness is stated where an identifier is created. */
  type TicketId = nat
  type SlotId = nat
  type PaymentId = nat

  /** A point in time as a whole number of seconds since some epoch. */
  type Instant = int
}

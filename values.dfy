/** Value types shared by the lending engine: optional values, results,
    statuses, identifiers and time. */
module Values {

  datatype Option<+T> = None | Some(value: T)

  /** The outcome of an operation that the source ends with a `throw`. */
  datatype Result<+T, +E> = Ok(value: T) | Err(error: E)

  /** Status of a physical item ("thing"). */
  datatype ThingStatus = Ready | Borrowed | Reserved | Lost

  /** Status of a loan: BORROWED -> WAITING_ON_LENDER_ACCEPTANCE -> RETURNED. */
  datatype LoanStatus = Borrowed | WaitingOnLenderAcceptance | Returned

  /** Status of a reservation. */
  datatype ReservationStatus = Assigned | Expired | Fulfilled | Cancelled

  type ThingId = nat
  type LoanId = nat
  type ReservationId = nat

  datatype Borrower = Borrower(id: nat)
  datatype Title = Title(name: string)
  datatype Location = Location(name: string)

  /** A point in time, in milliseconds. */
  type Date = int

  datatype DueDate = DueDate(date: Date)

  /** A duration; `FromNow(now)` is the point that far after `now`. */
  datatype TimeInterval = TimeInterval(millis: nat) {
    function FromNow(now: Date): Date {
      now + millis
    }
  }
}

/** The records the lending engine works on: things, loans, reservations,
    lenders and the id factory. Only the members the library and the
    waiting list use are modelled. */
module Entities {
  import opened Values

  /** A physical item. Its status is updated in place by the borrow
      protocol and the waiting list. */
  class Thing {
    const id: ThingId
    const title: Title
    var status: ThingStatus

    constructor (id: ThingId, title: Title, status: ThingStatus)
      ensures this.id == id && this.title == title && this.status == status
    {
      this.id := id;
      this.title := title;
      this.status := status;
    }
  }

  /** A loan; its status and return date change during the return protocol. */
  class Loan {
    var id: Option<LoanId>
    const item: Thing
    const borrower: Borrower
    var dueDate: DueDate
    var status: LoanStatus
    var returnLocation: Location
    var dateReturned: Option<Date>

    constructor (id: Option<LoanId>, item: Thing, borrower: Borrower, dueDate: DueDate,
                 status: LoanStatus, returnLocation: Location, dateReturned: Option<Date>)
      ensures this.id == id && this.item == item && this.borrower == borrower
      ensures this.dueDate == dueDate && this.status == status
      ensures this.returnLocation == returnLocation && this.dateReturned == dateReturned
    {
      this.id := id;
      this.item := item;
      this.borrower := borrower;
      this.dueDate := dueDate;
      this.status := status;
      this.returnLocation := returnLocation;
      this.dateReturned := dateReturned;
    }
  }

  /** One borrower's claim on one item, fixed once created. */
  datatype Reservation = Reservation(
    id: ReservationId,
    borrower: Borrower,
    item: Thing,
    expires: Date,
    status: ReservationStatus)

  /** An owner of items. Its behaviour is not visible to the library, so
      its three operations are supplied as functions when it is built. */
  class Lender {
    const items: seq<Thing>
    const preferredReturnLocation: Thing -> Location
    const startReturn: Loan -> Loan
    const finishReturn: Loan -> Loan

    constructor (items: seq<Thing>, preferredReturnLocation: Thing -> Location,
                 startReturn: Loan -> Loan, finishReturn: Loan -> Loan)
      ensures this.items == items
      ensures this.preferredReturnLocation == preferredReturnLocation
      ensures this.startReturn == startReturn && this.finishReturn == finishReturn
    {
      this.items := items;
      this.preferredReturnLocation := preferredReturnLocation;
      this.startReturn := startReturn;
      this.finishReturn := finishReturn;
    }
  }

  /** A source of reservation ids that never hands out the same id twice. */
  class IdFactory {
    var counter: nat
    ghost var issued: set<ReservationId>

    ghost predicate Valid()
      reads this
    {
      forall id :: id in issued ==> id < counter
    }

    constructor ()
      ensures Valid() && issued == {}
    {
      counter := 0;
      issued := {};
    }

    method MakeReservationId() returns (id: ReservationId)
      requires Valid()
      modifies this
      ensures Valid()
      ensures id !in old(issued) && issued == old(issued) + {id}
    {
      id := counter;
      counter := counter + 1;
      issued := issued + {id};
    }
  }
}

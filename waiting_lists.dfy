/** The per-item waiting list's base behaviour: the current-reservation
    slot, its defaults, and the reservation step. The members the base
    class leaves abstract come from a `Variant` supplied at construction. */
module WaitingLists {
  import opened Values
  import opened Entities

  /** The part of a waiting list's state that a variant's `cancel` acts on:
      the pending borrowers and the current-reservation slot. */
  datatype ListState = ListState(waiting: seq<Borrower>, current: Option<Reservation>)

  /** What a concrete waiting list supplies for the abstract members the
      reservation step calls: who is next, how a borrower is cancelled, and
      how long a reservation lasts. */
  datatype Variant = Variant(
    findNextBorrower: seq<Borrower> -> Option<Borrower>,
    cancel: (ListState, Borrower) -> ListState,
    reservationTime: TimeInterval)

  datatype WaitingListError = ReservationAlreadyActive | NoBorrowerWaiting

  class BaseWaitingList {
    const item: Thing
    const idFactory: IdFactory
    const variant: Variant
    var currentReservation: Option<Reservation>
    var expiredReservations: seq<Reservation>
    /** The pending borrowers, kept by the concrete variant. */
    var waiting: seq<Borrower>

    constructor (item: Thing, idFactory: IdFactory, variant: Variant, waiting: seq<Borrower>,
                 currentReservation: Option<Reservation> := None,
                 expiredReservations: seq<Reservation> := [])
      ensures this.item == item && this.idFactory == idFactory && this.variant == variant
      ensures this.waiting == waiting
      ensures this.currentReservation == currentReservation
      ensures this.expiredReservations == expiredReservations
    {
      this.item := item;
      this.idFactory := idFactory;
      this.variant := variant;
      this.waiting := waiting;
      this.currentReservation := currentReservation;
      this.expiredReservations := expiredReservations;
    }

    method ClearCurrentReservation()
      modifies this`currentReservation
      ensures currentReservation == None
      ensures waiting == old(waiting) && expiredReservations == old(expiredReservations)
    {
      currentReservation := None;
    }

    /** Dispatches to the variant's `cancel`. */
    method Cancel(borrower: Borrower)
      modifies this`waiting, this`currentReservation
      ensures ListState(waiting, currentReservation)
           == variant.cancel(old(ListState(waiting, currentReservation)), borrower)
    {
      var after := variant.cancel(ListState(waiting, currentReservation), borrower);
      waiting := after.waiting;
      currentReservation := after.current;
    }

    /** Reserves the item for the variant's next borrower. As in the source,
        the final assignment writes the slot back to itself, so the slot ends
        up as the variant's `cancel` left it, not holding the new reservation. */
    method ReserveItemForNextBorrower(now: Date) returns (r: Result<Reservation, WaitingListError>)
      requires idFactory.Valid()
      modifies this, item, idFactory
      ensures idFactory.Valid()
      ensures expiredReservations == old(expiredReservations)
      ensures old(currentReservation).Some? ==>
        r == Err(ReservationAlreadyActive) && unchanged(this, item, idFactory)
      ensures old(currentReservation).None? && variant.findNextBorrower(old(waiting)).None? ==>
        r == Err(NoBorrowerWaiting) && unchanged(this, item, idFactory)
      ensures old(currentReservation).None? && variant.findNextBorrower(old(waiting)).Some? ==>
        var next := variant.findNextBorrower(old(waiting)).value;
        && r.Ok?
        && r.value == Reservation(r.value.id, next, item, variant.reservationTime.FromNow(now), Assigned)
        && r.value.id !in old(idFactory.issued)
        && idFactory.issued == old(idFactory.issued) + {r.value.id}
        && item.status == Reserved
        && ListState(waiting, currentReservation) == variant.cancel(ListState(old(waiting), None), next)
      ensures old(currentReservation).None?
              && (forall st: ListState, b: Borrower :: st.current.None? ==> variant.cancel(st, b).current.None?) ==>
        currentReservation.None?
    {
      if currentReservation.Some? {
        return Err(ReservationAlreadyActive);
      }
      var next := variant.findNextBorrower(waiting);
      if next.None? {
        return Err(NoBorrowerWaiting);
      }
      var goodUntil := variant.reservationTime.FromNow(now);
      item.status := Reserved;
      var id := idFactory.MakeReservationId();
      var res := Reservation(id, next.value, item, goodUntil, Assigned);
      Cancel(next.value);
      currentReservation := currentReservation;
      return Ok(res);
    }

    /** The reservation step with the slot recording the new reservation,
        which is what the self-assignment in the source evidently means. */
    method ReserveAndRecord(now: Date) returns (r: Result<Reservation, WaitingListError>)
      requires idFactory.Valid()
      modifies this, item, idFactory
      ensures idFactory.Valid()
      ensures expiredReservations == old(expiredReservations)
      ensures old(currentReservation).Some? ==>
        r == Err(ReservationAlreadyActive) && unchanged(this, item, idFactory)
      ensures old(currentReservation).None? && variant.findNextBorrower(old(waiting)).None? ==>
        r == Err(NoBorrowerWaiting) && unchanged(this, item, idFactory)
      ensures old(currentReservation).None? && variant.findNextBorrower(old(waiting)).Some? ==>
        var next := variant.findNextBorrower(old(waiting)).value;
        && r.Ok?
        && r.value == Reservation(r.value.id, next, item, variant.reservationTime.FromNow(now), Assigned)
        && r.value.id !in old(idFactory.issued)
        && idFactory.issued == old(idFactory.issued) + {r.value.id}
        && item.status == Reserved
        && waiting == variant.cancel(ListState(old(waiting), None), next).waiting
        && currentReservation == Some(r.value)
    {
      if currentReservation.Some? {
        return Err(ReservationAlreadyActive);
      }
      var next := variant.findNextBorrower(waiting);
      if next.None? {
        return Err(NoBorrowerWaiting);
      }
      var goodUntil := variant.reservationTime.FromNow(now);
      item.status := Reserved;
      var id := idFactory.MakeReservationId();
      var res := Reservation(id, next.value, item, goodUntil, Assigned);
      Cancel(next.value);
      currentReservation := Some(res);
      return Ok(res);
    }
  }

  /** Removes every occurrence of `b` from `waiting`. */
  function Without(waiting: seq<Borrower>, b: Borrower): (rest: seq<Borrower>)
    ensures forall x :: x in rest <==> x in waiting && x != b
  {
    if |waiting| == 0 then []
    else if waiting[0] == b then Without(waiting[1..], b)
    else [waiting[0]] + Without(waiting[1..], b)
  }

  /** A first-in-first-out variant whose `cancel` only takes the borrower
      off the pending list and leaves the slot alone, which is what
      cancelling a borrower who merely waits amounts to. */
  function Fifo(reservationTime: TimeInterval): Variant
  {
    Variant(
      w => if |w| == 0 then None else Some(w[0]),
      (s: ListState, b) => ListState(Without(s.waiting, b), s.current),
      reservationTime)
  }

  /** With two borrowers waiting, the reservation step as written succeeds
      twice in a row on the same item: the first reservation is never put
      in the slot, so the guard against a second live reservation does not
      fire. */
  method TwoLiveReservationsAsWritten() returns (first: Result<Reservation, WaitingListError>,
                                                 second: Result<Reservation, WaitingListError>)
    ensures first.Ok? && second.Ok?
    ensures first.value.status == Assigned && second.value.status == Assigned
    ensures first.value.item == second.value.item
    ensures first.value.borrower == Borrower(1) && second.value.borrower == Borrower(2)
    ensures first.value.id != second.value.id
  {
    var thing := new Thing(7, Title("Drill"), Ready);
    var ids := new IdFactory();
    var list := new BaseWaitingList(thing, ids, Fifo(TimeInterval(60)), [Borrower(1), Borrower(2)]);
    first := list.ReserveItemForNextBorrower(0);
    assert list.waiting == [Borrower(2)] by {
      assert Without([Borrower(2)], Borrower(1)) == [Borrower(2)];
    }
    assert list.currentReservation == None;
    second := list.ReserveItemForNextBorrower(1);
  }

  /** The same sequence with the corrected step: the second call is refused. */
  method SecondReservationRefused() returns (first: Result<Reservation, WaitingListError>,
                                             second: Result<Reservation, WaitingListError>)
    ensures first.Ok? && first.value.borrower == Borrower(1)
    ensures second == Err(ReservationAlreadyActive)
  {
    var thing := new Thing(7, Title("Drill"), Ready);
    var ids := new IdFactory();
    var list := new BaseWaitingList(thing, ids, Fifo(TimeInterval(60)), [Borrower(1), Borrower(2)]);
    first := list.ReserveAndRecord(0);
    second := list.ReserveAndRecord(1);
  }
}

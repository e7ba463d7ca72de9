# Lending engine: distributed library and waiting-list reservation step

This project models two stateful pieces of a lending engine for physical
items ("things") and proves properties of them in Dafny.

- **The distributed library** (`Libraries.DistributedLibrary`). It keeps an
  append-only list of lenders. It finds an item's owner by scanning the
  lenders in insertion order and takes the first one that holds an item
  with the same id. `Borrow` checks three things in this order: the item's
  status, the borrower's standing, and the owner lookup. Only after all three
  pass does it mark the item BORROWED and create a BORROWED loan. The return
  location comes from the owner, and the due date is the given one or
  "now + default loan time". `StartReturn` lets the owner start its part of
  the return, then stamps the loan's return date and moves it to
  WAITING_ON_LENDER_ACCEPTANCE. `FinishReturn` passes the owner's result on
  to the base library's second phase. The title listings are built from
  every lender's items (`ItemsOf`), or from only the READY ones
  (`ReadyItems`).
- **The waiting list's base class** (`WaitingLists.BaseWaitingList`). It
  holds a nullable current-reservation slot, which is None by default, and
  a list of expired reservations, which is empty by default. The reservation
  step refuses to run if the slot is occupied, and refuses again if nobody is
  waiting. Otherwise it computes the expiry, sets the item to RESERVED,
  builds an ASSIGNED reservation with a fresh id for the next borrower, and
  cancels that borrower. Its last line assigns the slot to itself, and the
  model keeps that line as written (see Findings).

Members the source leaves abstract are supplied as function values:

- For a waiting list, a `Variant` holds `findNextBorrower`, `cancel` and the
  reservation time.
- For a lender, the `Lender` class has `preferredReturnLocation`,
  `startReturn` and `finishReturn` fields.
- For the library, the title projection, the base library's
  `finishReturn` and the standing check `canBorrow` are fields set when the
  library is built.

The wall clock ("now") is a parameter. The id factory is a class that never
issues the same id twice.

The model follows the code where it differs from the behaviour one might
expect of a lending engine:

- A loan state machine would refuse `startReturn` on a loan that is not
  BORROWED; the code has no such status check, and neither does the model.
- A reservation step would record the new reservation as the current one;
  the code does not store it in the slot, and neither does the model.
- The reservation guards and the owner-lookup miss throw plain errors in the
  code. The model gives them names: `ReservationAlreadyActive`,
  `NoBorrowerWaiting` and `OwnerNotFound`.

## Model

| member | source | states |
|---|---|---|
| `Libraries.OwnerIndex` | src/entities/libraries/distributedLibrary.ts:39-48 | the result is the position of the first lender, in insertion order, holding an item with the id, or the number of lenders when none holds it; every earlier lender holds no such item |
| `Libraries.DistributedLibrary.GetOwnerOfItem` | src/entities/libraries/distributedLibrary.ts:39-48 | the nested scan returns the first lender in insertion order holding an item with the same id, and returns `OwnerNotFound` exactly when no lender holds one |
| `Libraries.OwnerIndexAppend` | src/entities/libraries/distributedLibrary.ts:39-48 | appending a lender never changes the owner found for an item an earlier lender holds; an item nobody held is then found in the new lender exactly when it holds it |
| `Libraries.ItemsOf` | src/entities/libraries/distributedLibrary.ts:34 | every item of every lender is in the flattened list, and every item in the list belongs to some lender |
| `Libraries.ReadyItems` | src/entities/libraries/distributedLibrary.ts:83 | the filtered list holds only READY items taken from the input, holds every READY item of the input, and is no longer than the input |
| `Libraries.AllItemsExactly` | src/entities/libraries/distributedLibrary.ts:33-37 | the items whose titles `AllTitles` lists are exactly the items some lender holds |
| `Libraries.AvailableItemsExactly` | src/entities/libraries/distributedLibrary.ts:82-85 | the items whose titles `AvailableTitles` lists are exactly the READY items some lender holds |
| `Libraries.ItemsOfAppend` | src/entities/libraries/distributedLibrary.ts:105-108 | flattening the lenders with one appended gives the old flattened items followed by the new lender's items |
| `Libraries.DistributedLibrary.constructor` | src/entities/libraries/distributedLibrary.ts:25-31 | a new library has no lenders and keeps the given location, default loan time and collaborators |
| `Libraries.DistributedLibrary.AddLender` | src/entities/libraries/distributedLibrary.ts:105-108 | the lender is appended at the end and the earlier lenders keep their order; the argument is returned; the item listing grows by its items; existing owner lookups are unchanged |
| `Libraries.DistributedLibrary.Borrow` | src/entities/libraries/distributedLibrary.ts:50-80 | a non-READY item gives the status error whatever the borrower's standing; a READY item with a borrower not in good standing gives the standing error; if no owner is found it gives the owner error. No error changes the item's status. When all checks pass, the result is a fresh loan: id unset, status BORROWED, due date `until` or now + default loan time, return location from the owner's preference, no return date. The item becomes BORROWED |
| `Libraries.DistributedLibrary.StartReturn` | src/entities/libraries/distributedLibrary.ts:93-103 | with an owner found, it returns the owner's `startReturn` result, the loan waits on lender acceptance with return date now, and its other fields are kept, whatever its status was before; with no owner, it errs and the loan is untouched |
| `Libraries.DistributedLibrary.FinishReturn` | src/entities/libraries/distributedLibrary.ts:87-91 | with an owner found, the result is the base library's finishing step applied to the owner's `finishReturn` result; otherwise the owner error |
| `WaitingLists.BaseWaitingList.constructor` | src/entities/waitingLists/baseWaitingList.ts:16-21 | the list keeps its item and id factory; left to defaults, the slot is None and the expired reservations are empty |
| `WaitingLists.BaseWaitingList.ClearCurrentReservation` | src/entities/waitingLists/baseWaitingList.ts:42-44 | the slot becomes None and nothing else changes |
| `WaitingLists.BaseWaitingList.Cancel` | src/entities/waitingLists/baseWaitingList.ts:30 | the pending borrowers and the slot become what the variant's `cancel` makes of them for that borrower |
| `WaitingLists.BaseWaitingList.ReserveItemForNextBorrower` | src/entities/waitingLists/baseWaitingList.ts:46-66 | with the slot occupied it errs and changes nothing, not even the id factory. With no next borrower it errs and changes nothing. Otherwise it returns an ASSIGNED reservation for the next borrower and the list's item, expiring at now + reservation time, with an id never issued before. The item is RESERVED. Cancel ran on exactly that borrower, and the slot is what cancel left, not the new reservation; in particular, for any variant whose `cancel` leaves an empty slot empty, the slot is still None afterwards |
| `WaitingLists.BaseWaitingList.ReserveAndRecord` | src/entities/waitingLists/baseWaitingList.ts:46-66 | the same guards and reservation as the step above, except that afterwards the slot holds the returned reservation |
| `WaitingLists.TwoLiveReservationsAsWritten` | src/entities/waitingLists/baseWaitingList.ts:63 | with two borrowers waiting on a first-in-first-out list, two calls to the step as written both succeed and give two ASSIGNED reservations with different ids for the same item |
| `WaitingLists.SecondReservationRefused` | src/entities/waitingLists/baseWaitingList.ts:63 | on the same list the corrected step refuses the second call with `ReservationAlreadyActive` |

## Findings

| source | as written | input that shows it | evidently intended | confidence | as-written member | corrected member |
|---|---|---|---|---|---|---|
| src/entities/waitingLists/baseWaitingList.ts:63 | the slot is assigned its own value, so the new reservation is never recorded | a first-in-first-out list with borrowers 1 and 2 waiting and no reservation; two calls in a row both succeed, giving two live ASSIGNED reservations for one item | the slot holds the reservation just created, so the guard at lines 47-49 refuses a second one | high (not executed) | `WaitingLists.TwoLiveReservationsAsWritten` (on `WaitingLists.BaseWaitingList.ReserveItemForNextBorrower`, whose contract states for every variant whose `cancel` leaves an empty slot empty that the slot stays None) | `WaitingLists.BaseWaitingList.ReserveAndRecord`, with `WaitingLists.SecondReservationRefused` |

## Left out

- `add`, `isOnList` and `processReservationExpired` of the waiting list are abstract in the base class and have no body to model; the reservation step does not call them.
- WaitingLists.BaseWaitingList.ReserveItemForNextBorrower: the variant's `cancel` is modelled as acting on the pending borrowers and the slot only; any effect a concrete `cancel` has on the item's status is not modelled, so "the item is RESERVED afterwards" holds under that assumption.
- Libraries.DistributedLibrary.StartReturn: the lender's `startReturn` is a pure function of the loan reference; state changes inside the lender, and a lender that returns a newly allocated loan, are not modelled.
- Libraries.DistributedLibrary.FinishReturn: the lender's `finishReturn` and the base library's `finishReturn` are pure functions; whatever they change on the loan or elsewhere is not modelled.
- `allTitles` and `availableTitles` are modelled as the base library's title projection (`getTitlesFromItems`, a function field) applied to `ItemsOf` and `ReadyItems`. Their contracts are on `ItemsOf` and `ReadyItems`, because the projection's body is not part of this model.
- The check at distributedLibrary.ts lines 62-64 cannot fire: owner lookup either returns a lender or throws. In the model a `Lender` reference is never null, so this branch does not appear.
- The `QuadraticBiddingStrategy` built in the library's constructor, and the other base-library constructor arguments (name, administrator, fee cap, fee schedule, money factory, waiting-list factory, loans), are not part of this model. The bidding logic and fee arithmetic are not in the modelled files.
- `canBorrow` (fees against the cap, standing) is an opaque predicate fixed when the library is built.
- `Without` and `Fifo` in the waiting-list module have no counterpart in the source: they build the first-in-first-out variant that the two Findings scenarios run on.
- Wall-clock time: `new Date()` and `TimeInterval.fromNow()` take "now" as a parameter. `fromNow` is taken as now plus the interval in milliseconds.
- The id factory is a counter with a ghost set of issued ids. Only freshness is relied on, not the actual id values.
- A lender's item collection is fixed when the lender is built.
- Item statuses other than READY, BORROWED, RESERVED and LOST are not part of this model.
- There is no locking or concurrency, because the code has none.

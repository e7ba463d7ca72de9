/** A library whose items are owned by several lenders: the lender list,
    owner lookup, borrowing, the first phase of the return protocol, the
    delegation of its second phase, and the item selections behind the
    title listings. */
module Libraries {
  import opened Values
  import opened Entities

  datatype LibraryError =
    | InvalidThingStatusToBorrow(status: ThingStatus)
    | BorrowerNotInGoodStanding
    | OwnerNotFound(id: ThingId)

  /** Whether `lender` holds an item with identity `id`. */
  predicate Holds(lender: Lender, id: ThingId) {
    exists k :: 0 <= k < |lender.items| && lender.items[k].id == id
  }

  /** The position of the first lender, in insertion order, holding an item
      with identity `id`; `|lenders|` when none does. */
  function OwnerIndex(lenders: seq<Lender>, id: ThingId): (k: nat)
    ensures k <= |lenders|
    ensures k < |lenders| ==> Holds(lenders[k], id)
    ensures forall j :: 0 <= j < k ==> !Holds(lenders[j], id)
  {
    if |lenders| == 0 then 0
    else if Holds(lenders[0], id) then 0
    else 1 + OwnerIndex(lenders[1..], id)
  }

  /** Every lender's items, lender after lender (the `flatMap` over lenders). */
  function ItemsOf(lenders: seq<Lender>): (items: seq<Thing>)
    ensures forall i, k :: 0 <= i < |lenders| && 0 <= k < |lenders[i].items| ==> lenders[i].items[k] in items
    ensures forall j :: 0 <= j < |items| ==> exists i :: 0 <= i < |lenders| && items[j] in lenders[i].items
  {
    if |lenders| == 0 then []
    else lenders[0].items + ItemsOf(lenders[1..])
  }

  /** The items of `items` whose status is READY, in their order. */
  function ReadyItems(items: seq<Thing>): (ready: seq<Thing>)
    reads items
    ensures |ready| <= |items|
    ensures forall j :: 0 <= j < |ready| ==> ready[j] in items && ready[j].status == ThingStatus.Ready
    ensures forall k :: 0 <= k < |items| && items[k].status == ThingStatus.Ready ==> items[k] in ready
  {
    if |items| == 0 then []
    else if items[0].status == ThingStatus.Ready then [items[0]] + ReadyItems(items[1..])
    else ReadyItems(items[1..])
  }

  /** The item listing behind `allTitles` holds exactly the items some
      lender holds. */
  lemma AllItemsExactly(lenders: seq<Lender>, t: Thing)
    ensures t in ItemsOf(lenders) <==> exists i :: 0 <= i < |lenders| && t in lenders[i].items
  {
  }

  /** The item listing behind `availableTitles` holds exactly the READY
      items some lender holds. */
  lemma AvailableItemsExactly(lenders: seq<Lender>, t: Thing)
    ensures t in ReadyItems(ItemsOf(lenders)) <==>
            t.status == ThingStatus.Ready && exists i :: 0 <= i < |lenders| && t in lenders[i].items
  {
  }

  /** Appending a lender appends its items to the flattened item list. */
  lemma {:induction false} ItemsOfAppend(lenders: seq<Lender>, lender: Lender)
    ensures ItemsOf(lenders + [lender]) == ItemsOf(lenders) + lender.items
  {
    if |lenders| > 0 {
      assert (lenders + [lender])[1..] == lenders[1..] + [lender];
      ItemsOfAppend(lenders[1..], lender);
    }
  }

  /** Appending a lender never changes the owner of an item some earlier
      lender already holds; an item nobody held is found in the new lender
      exactly when it holds it. */
  lemma {:induction false} OwnerIndexAppend(lenders: seq<Lender>, lender: Lender, id: ThingId)
    ensures OwnerIndex(lenders, id) < |lenders| ==> OwnerIndex(lenders + [lender], id) == OwnerIndex(lenders, id)
    ensures OwnerIndex(lenders, id) == |lenders| ==>
      OwnerIndex(lenders + [lender], id) == if Holds(lender, id) then |lenders| else |lenders| + 1
  {
    if |lenders| > 0 {
      assert (lenders + [lender])[1..] == lenders[1..] + [lender];
      OwnerIndexAppend(lenders[1..], lender, id);
    }
  }

  class DistributedLibrary {
    var lenders: seq<Lender>
    const location: Location
    const defaultLoanTime: TimeInterval
    /** The title projection the base library applies to a list of items. */
    const titlesFromItems: seq<Thing> -> seq<Title>
    /** The base library's own second return phase. */
    const baseFinishReturn: Loan -> Loan
    /** The base library's standing check (fees under the cap, not barred). */
    const canBorrow: Borrower -> bool

    constructor (location: Location, defaultLoanTime: TimeInterval,
                 titlesFromItems: seq<Thing> -> seq<Title>, baseFinishReturn: Loan -> Loan,
                 canBorrow: Borrower -> bool)
      ensures lenders == []
      ensures this.location == location && this.defaultLoanTime == defaultLoanTime
      ensures this.titlesFromItems == titlesFromItems && this.baseFinishReturn == baseFinishReturn
      ensures this.canBorrow == canBorrow
    {
      lenders := [];
      this.location := location;
      this.defaultLoanTime := defaultLoanTime;
      this.titlesFromItems := titlesFromItems;
      this.baseFinishReturn := baseFinishReturn;
      this.canBorrow := canBorrow;
    }

    /** The titles of every lender's items (see `AllItemsExactly`). */
    function AllTitles(): seq<Title>
      reads this
    {
      titlesFromItems(ItemsOf(lenders))
    }

    /** The titles of the READY items across all lenders (see
        `AvailableItemsExactly`). */
    function AvailableTitles(): seq<Title>
      reads this, ItemsOf(lenders)
    {
      titlesFromItems(ReadyItems(ItemsOf(lenders)))
    }

    /** Scans the lenders in insertion order, and each lender's items in
        order, for an item with the same identity. */
    method GetOwnerOfItem(item: Thing) returns (r: Result<Lender, LibraryError>)
      ensures var k := OwnerIndex(lenders, item.id);
              r == if k < |lenders| then Ok(lenders[k]) else Err(OwnerNotFound(item.id))
    {
      var i := 0;
      while i < |lenders|
        invariant 0 <= i <= |lenders|
        invariant forall j :: 0 <= j < i ==> !Holds(lenders[j], item.id)
      {
        var lender := lenders[i];
        var m := 0;
        while m < |lender.items|
          invariant 0 <= m <= |lender.items|
          invariant forall n :: 0 <= n < m ==> lender.items[n].id != item.id
        {
          if item.id == lender.items[m].id {
            return Ok(lender);
          }
          m := m + 1;
        }
        i := i + 1;
      }
      return Err(OwnerNotFound(item.id));
    }

    /** Checks the item's status, then the borrower's standing, then looks up
        the owner; only when all three pass is the item marked BORROWED and a
        loan produced. */
    method Borrow(item: Thing, borrower: Borrower, until: Option<DueDate>, now: Date) returns (r: Result<Loan, LibraryError>)
      modifies item
      ensures old(item.status) != ThingStatus.Ready ==>
        r == Err(InvalidThingStatusToBorrow(old(item.status)))
      ensures old(item.status) == ThingStatus.Ready && !canBorrow(borrower) ==>
        r == Err(BorrowerNotInGoodStanding)
      ensures old(item.status) == ThingStatus.Ready && canBorrow(borrower)
              && OwnerIndex(lenders, item.id) == |lenders| ==>
        r == Err(OwnerNotFound(item.id))
      ensures old(item.status) == ThingStatus.Ready && canBorrow(borrower)
              && OwnerIndex(lenders, item.id) < |lenders| ==>
        r.Ok?
      ensures r.Err? ==> item.status == old(item.status)
      ensures r.Ok? ==>
        && OwnerIndex(lenders, item.id) < |lenders|
        && var owner := lenders[OwnerIndex(lenders, item.id)];
        && item.status == ThingStatus.Borrowed
        && fresh(r.value)
        && r.value.id == None
        && r.value.item == item && r.value.borrower == borrower
        && r.value.dueDate == (if until.Some? then until.value else DueDate(defaultLoanTime.FromNow(now)))
        && r.value.status == LoanStatus.Borrowed
        && r.value.returnLocation == owner.preferredReturnLocation(item)
        && r.value.dateReturned == None
    {
      if item.status != ThingStatus.Ready {
        return Err(InvalidThingStatusToBorrow(item.status));
      }
      if !canBorrow(borrower) {
        return Err(BorrowerNotInGoodStanding);
      }
      var found := GetOwnerOfItem(item);
      if found.Err? {
        return Err(found.error);
      }
      var lender := found.value;
      var due := until;
      if due.None? {
        due := Some(DueDate(defaultLoanTime.FromNow(now)));
      }
      item.status := ThingStatus.Borrowed;
      var loan := new Loan(None, item, borrower, due.value, LoanStatus.Borrowed,
                           lender.preferredReturnLocation(item), None);
      return Ok(loan);
    }

    /** First phase of a return: the owner starts its own workflow, then the
        loan is stamped with the return date and waits on the lender. The
        loan's current status is not checked. */
    method StartReturn(loan: Loan, now: Date) returns (r: Result<Loan, LibraryError>)
      modifies loan
      ensures var k := OwnerIndex(lenders, loan.item.id);
        if k < |lenders| then
          && r == Ok(lenders[k].startReturn(loan))
          && loan.status == LoanStatus.WaitingOnLenderAcceptance
          && loan.dateReturned == Some(now)
          && loan.id == old(loan.id) && loan.dueDate == old(loan.dueDate)
          && loan.returnLocation == old(loan.returnLocation)
        else
          r == Err(OwnerNotFound(loan.item.id)) && unchanged(loan)
    {
      var found := GetOwnerOfItem(loan.item);
      if found.Err? {
        return Err(found.error);
      }
      var owner := found.value;
      var updated := owner.startReturn(loan);
      loan.dateReturned := Some(now);
      loan.status := LoanStatus.WaitingOnLenderAcceptance;
      return Ok(updated);
    }

    /** Second phase of a return: the owner's acceptance, then the base
        library's own finishing step. */
    method FinishReturn(loan: Loan) returns (r: Result<Loan, LibraryError>)
      ensures var k := OwnerIndex(lenders, loan.item.id);
        r == if k < |lenders| then Ok(baseFinishReturn(lenders[k].finishReturn(loan)))
             else Err(OwnerNotFound(loan.item.id))
    {
      var found := GetOwnerOfItem(loan.item);
      if found.Err? {
        return Err(found.error);
      }
      var owner := found.value;
      var fromOwner := owner.finishReturn(loan);
      return Ok(baseFinishReturn(fromOwner));
    }

    method AddLender(lender: Lender) returns (r: Lender)
      modifies this`lenders
      ensures r == lender
      ensures lenders == old(lenders) + [lender]
      ensures ItemsOf(lenders) == ItemsOf(old(lenders)) + lender.items
      ensures forall id :: OwnerIndex(old(lenders), id) < |old(lenders)| ==>
        OwnerIndex(lenders, id) == OwnerIndex(old(lenders), id)
    {
      ItemsOfAppend(lenders, lender);
      forall id | OwnerIndex(lenders, id) < |lenders|
        ensures OwnerIndex(lenders + [lender], id) == OwnerIndex(lenders, id)
      {
        OwnerIndexAppend(lenders, lender, id);
      }
      lenders := lenders + [lender];
      return lender;
    }
  }
}

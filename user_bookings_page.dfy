/** The customer's bookings page: a status filter, the Cancel button and the local
    list update after a successful cancel request. */
module UserBookingsPage {
  import opened Domain
  import Seqs

  /** The filter drop-down: "ALL" or one status. */
  datatype StatusFilter = AllStatuses | Only(status: Status)

  /** The Cancel button is shown for PENDING and CONFIRMED bookings only. */
  predicate CanCancel(s: Status) {
    s == Pending || s == Confirmed
  }

  /** `prev.map(b => b.id === id ? { ...b, status: 'CANCELLED' } : b)`. */
  function CancelById(bookings: seq<Booking>, id: Id): (r: seq<Booking>)
    ensures |r| == |bookings|
    ensures forall i :: 0 <= i < |r| && bookings[i].id == id ==> r[i] == bookings[i].(status := Cancelled)
    ensures forall i :: 0 <= i < |r| && bookings[i].id != id ==> r[i] == bookings[i]
  {
    if bookings == [] then []
    else [if bookings[0].id == id then bookings[0].(status := Cancelled) else bookings[0]] + CancelById(bookings[1..], id)
  }

  /** Cancelling the same booking twice is cancelling it once. */
  lemma CancelTwice(bookings: seq<Booking>, id: Id)
    ensures CancelById(CancelById(bookings, id), id) == CancelById(bookings, id)
  {
  }

  /** After a cancel every booking with that id is CANCELLED and keeps its other
      fields, and the list keeps its length, order and the other bookings. */
  lemma CancelEffect(bookings: seq<Booking>, id: Id, i: nat)
    requires i < |bookings|
    ensures CancelById(bookings, id)[i].status == (if bookings[i].id == id then Cancelled else bookings[i].status)
    ensures CancelById(bookings, id)[i].(status := bookings[i].status) == bookings[i]
  {
  }

  function Matcher(f: StatusFilter): Booking -> bool {
    (b: Booking) => f.AllStatuses? || b.status == f.status
  }

  /** `filteredBookings`. */
  function FilteredBookings(bookings: seq<Booking>, f: StatusFilter): (r: seq<Booking>)
    ensures f.AllStatuses? ==> r == bookings
    ensures f.Only? ==> Seqs.IsSubsequence(r, bookings)
    ensures f.Only? ==> forall b :: b in r <==> b in bookings && b.status == f.status
    ensures f.Only? ==> forall b :: multiset(r)[b] == if b.status == f.status then multiset(bookings)[b] else 0
  {
    if f.AllStatuses? then
      Seqs.FilterAll(bookings, Matcher(f));
      Seqs.Filter(bookings, Matcher(f))
    else
      Seqs.FilterIsSubsequence(bookings, Matcher(f));
      Seqs.FilterMultiplicities(bookings, Matcher(f));
      Seqs.Filter(bookings, Matcher(f))
  }

  /** The page state the modelled handlers touch. */
  class MyBookingsPage {
    var bookings: seq<Booking>
    var filterStatus: StatusFilter

    /** The list as fetched, with the filter at "ALL". */
    constructor (fetched: seq<Booking>)
      ensures bookings == fetched && filterStatus == AllStatuses
    {
      bookings := fetched;
      filterStatus := AllStatuses;
    }

    /** `handleCancel(id)`: `confirmed` is the answer to the confirmation dialog and
        `requestOk` whether the PATCH request answered ok. Only a confirmed,
        successful request changes the list. */
    method HandleCancel(id: Id, confirmed: bool, requestOk: bool)
      modifies this
      ensures confirmed && requestOk ==> bookings == CancelById(old(bookings), id)
      ensures !(confirmed && requestOk) ==> bookings == old(bookings)
      ensures filterStatus == old(filterStatus)
    {
      if !confirmed {
        return;
      }
      if requestOk {
        bookings := CancelById(bookings, id);
      }
    }

    /** The bookings on screen. */
    function Visible(): (r: seq<Booking>)
      reads this
      ensures forall b :: b in r ==> b in bookings
    {
      FilteredBookings(bookings, filterStatus)
    }
  }
}

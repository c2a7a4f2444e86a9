/** The customer dashboard's totals: money spent and the reward points it earns. */
module UserDashboard {
  import opened Domain
  import opened JsMath
  import Seqs
  import UserBookingsPage

  /** `bookings.reduce((acc, b) => acc + b.totalAmount, 0)`: every booking counts,
      cancelled ones included. */
  function TotalSpent(bookings: seq<Booking>): (r: real)
    ensures bookings == [] ==> r == 0.0
    ensures (forall b :: b in bookings ==> b.totalAmount >= 0.0) ==> r >= 0.0
  {
    if forall b :: b in bookings ==> b.totalAmount >= 0.0 then
      Seqs.SumOfNonNegative(bookings, Amount);
      Seqs.SumOf(bookings, Amount)
    else
      Seqs.SumOf(bookings, Amount)
  }

  /** `Math.floor(totalSpent * 0.01)`: one point per hundred spent. */
  function PartyPoints(bookings: seq<Booking>): (r: int)
    ensures r as real <= TotalSpent(bookings) / 100.0 < r as real + 1.0
  {
    Floor(TotalSpent(bookings) * 0.01)
  }

  /** With no bookings nothing is spent and no points are earned. */
  lemma EmptyGivesZero()
    ensures TotalSpent([]) == 0.0 && PartyPoints([]) == 0
  {
  }

  /** With non-negative amounts the points lie between 0 and a hundredth of the
      spend. */
  lemma PointsBounds(bookings: seq<Booking>)
    requires forall b :: b in bookings ==> b.totalAmount >= 0.0
    ensures TotalSpent(bookings) >= 0.0
    ensures 0 <= PartyPoints(bookings) && PartyPoints(bookings) as real <= TotalSpent(bookings) / 100.0
  {
    Seqs.SumOfNonNegative(bookings, Amount);
  }

  /** A new booking with a non-negative amount never lowers the spend or the points. */
  lemma NewBookingNeverLowers(bookings: seq<Booking>, b: Booking)
    requires b.totalAmount >= 0.0
    ensures TotalSpent(bookings + [b]) >= TotalSpent(bookings)
    ensures PartyPoints(bookings + [b]) >= PartyPoints(bookings)
  {
    Seqs.SumOfAppend(bookings, [b], Amount);
    assert Seqs.SumOf([b], Amount) == b.totalAmount;
  }

  /** Cancelling a booking does not change the spend: the total ignores status. */
  lemma {:induction false} CancelKeepsSpent(bookings: seq<Booking>, id: Id)
    ensures TotalSpent(UserBookingsPage.CancelById(bookings, id)) == TotalSpent(bookings)
  {
    if bookings != [] {
      CancelKeepsSpent(bookings[1..], id);
      assert UserBookingsPage.CancelById(bookings, id)[1..] == UserBookingsPage.CancelById(bookings[1..], id);
    }
  }
}

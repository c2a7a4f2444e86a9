/** `POST /api/bookings`: a signed-in user books an agency. The handler checks the
    session and the user, then inserts the booking; it validates nothing else. */
module BookingsRoute {
  import opened Domain
  import opened Wrappers
  import opened Store

  /** `packageType || "CUSTOM"`. */
  function PackageOrCustom(packageType: Option<string>): (r: string)
    ensures r != []
    ensures packageType.Some? && packageType.value != [] ==> r == packageType.value
    ensures packageType.None? || packageType.value == [] ==> r == "CUSTOM"
  {
    if packageType.Some? && packageType.value != [] then packageType.value else "CUSTOM"
  }

  /** The handler. A throwing store (`storeFails`) becomes a 500 with nothing written,
      and so does an `agencyId` naming no agency, which the foreign key refuses at
      the insert; `date` is the timestamp `new Date(date)` yields. */
  method Post(db: Database, sessionEmail: Option<string>, agencyId: Id, date: int, totalAmount: real,
              packageType: Option<string>, storeFails: bool) returns (r: Response<Booking>)
    requires db.Valid()
    modifies db
    ensures db.Valid()
    ensures !SignedIn(sessionEmail) ==> r == Error(401, "Unauthorized")
    ensures SignedIn(sessionEmail) && storeFails ==> r == Error(500, "Failed to create booking")
    ensures SignedIn(sessionEmail) && !storeFails && !HasEmail(old(db.users), sessionEmail.value) ==>
      r == Error(404, "User not found")
    ensures (SignedIn(sessionEmail) && !storeFails && HasEmail(old(db.users), sessionEmail.value) &&
             agencyId !in old(db.agencies)) ==> r == Error(500, "Failed to create booking")
    ensures (SignedIn(sessionEmail) && !storeFails && HasEmail(old(db.users), sessionEmail.value) &&
             agencyId in old(db.agencies)) ==> r.Ok?
    ensures r.Error? ==> unchanged(db)
    ensures r.Ok? ==>
      r.body.userId in old(db.users) && old(db.users)[r.body.userId].email == sessionEmail.value &&
      r.body == Booking(old(db.nextId), r.body.userId, agencyId, date, totalAmount, PackageOrCustom(packageType), Pending)
    ensures r.Ok? ==>
      db.bookings == old(db.bookings)[r.body.id := r.body] && r.body.id !in old(db.bookings) &&
      db.nextId == old(db.nextId) + 1 && db.users == old(db.users) && db.agencies == old(db.agencies) &&
      db.reviews == old(db.reviews) && db.conversations == old(db.conversations)
  {
    if !SignedIn(sessionEmail) {
      return Error(401, "Unauthorized");
    }
    if storeFails {
      return Error(500, "Failed to create booking");
    }
    var user := db.FindUserByEmail(sessionEmail.value);
    if user.None? {
      return Error(404, "User not found");
    }
    if agencyId !in db.agencies {
      return Error(500, "Failed to create booking");
    }
    var booking := Booking(db.nextId, user.value, agencyId, date, totalAmount, PackageOrCustom(packageType), Pending);
    db.bookings := db.bookings[booking.id := booking];
    db.nextId := db.nextId + 1;
    r := Ok(booking);
  }

  /** Nothing stops two bookings of the same agency on the same day: both requests
      succeed and both bookings are stored. */
  method DoubleBookingAccepted(db: Database, email: string, agencyId: Id, date: int, totalAmount: real)
    returns (first: Response<Booking>, second: Response<Booking>)
    requires db.Valid() && email != [] && HasEmail(db.users, email) && agencyId in db.agencies
    modifies db
    ensures first.Ok? && second.Ok?
    ensures first.body.agencyId == second.body.agencyId == agencyId
    ensures first.body.date == second.body.date == date
    ensures first.body.status == second.body.status == Pending
    ensures first.body.id != second.body.id
    ensures first.body.id in db.bookings && second.body.id in db.bookings
  {
    first := Post(db, Some(email), agencyId, date, totalAmount, None, false);
    second := Post(db, Some(email), agencyId, date, totalAmount, None, false);
  }
}

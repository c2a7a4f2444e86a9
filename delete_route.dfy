/** `DELETE /api/user/delete`: removes the demo account together with its bookings
    and reviews, in one transaction. */
module DeleteRoute {
  import opened Domain
  import opened Store

  /** The account removed is fixed; the caller's session plays no part. */
  const DemoEmail: string := "demo@planify.com"

  function BookingOwner(b: Booking): Id {
    b.userId
  }

  function ReviewOwner(r: Review): Id {
    r.userId
  }

  /** `deleteMany({ where: { userId } })` on a table whose rows name their user
      through `owner`: every row of the user goes, every other row stays as it was. */
  function WithoutUser<V>(rows: map<Id, V>, owner: V -> Id, userId: Id): (r: map<Id, V>)
    ensures forall id :: id in r <==> id in rows && owner(rows[id]) != userId
    ensures forall id :: id in r ==> r[id] == rows[id]
  {
    map id | id in rows && owner(rows[id]) != userId :: rows[id]
  }

  /** The handler. A throwing store (`storeFails`) aborts the lookup or the whole
      transaction: 500 and nothing removed. */
  method Delete(db: Database, storeFails: bool) returns (r: Response<string>)
    requires db.Valid()
    modifies db
    ensures db.Valid()
    ensures storeFails ==> r == Error(500, "Failed to delete account") && unchanged(db)
    ensures !storeFails && !HasEmail(old(db.users), DemoEmail) ==> r == Error(404, "User not found") && unchanged(db)
    ensures r.Ok? <==> !storeFails && HasEmail(old(db.users), DemoEmail)
    ensures r.Ok? ==> r.body == "Account deleted successfully" && !HasEmail(db.users, DemoEmail)
    ensures r.Ok? ==> forall id :: id in old(db.users) && old(db.users)[id].email == DemoEmail ==>
      db.users == old(db.users) - {id} &&
      db.bookings == WithoutUser(old(db.bookings), BookingOwner, id) &&
      db.reviews == WithoutUser(old(db.reviews), ReviewOwner, id)
    ensures db.agencies == old(db.agencies) && db.conversations == old(db.conversations) &&
            db.nextId == old(db.nextId)
  {
    if storeFails {
      return Error(500, "Failed to delete account");
    }
    var user := db.FindUserByEmail(DemoEmail);
    if user.None? {
      return Error(404, "User not found");
    }
    var id := user.value;
    db.bookings := WithoutUser(db.bookings, BookingOwner, id);
    db.reviews := WithoutUser(db.reviews, ReviewOwner, id);
    db.users := db.users - {id};
    r := Ok("Account deleted successfully");
  }
}

/** `/api/chat`: `GET` lists the caller's conversations (agency side for an agency
    owner who has an agency, user side otherwise), latest first; `POST` finds or
    creates the caller's conversation with an agency. */
module ChatRoute {
  import opened Domain
  import opened Wrappers
  import opened Store

  /** Which column of a conversation the listing matches on. */
  datatype Side = AgencySide | UserSide

  function Party(c: Conversation, side: Side): Id {
    if side.AgencySide? then c.agencyId else c.userId
  }

  /** The conversations in which `who` takes part on `side`: the agency's ones
      (`where: { agencyId }`) or the user's ones (`where: { userId }`). */
  function Involving(conversations: map<Id, Conversation>, side: Side, who: Id): (r: set<Id>)
    ensures side.AgencySide? ==> forall id :: id in r <==> id in conversations && conversations[id].agencyId == who
    ensures side.UserSide? ==> forall id :: id in r <==> id in conversations && conversations[id].userId == who
  {
    set id | id in conversations && Party(conversations[id], side) == who
  }

  /** `out` lists exactly the conversations `keep`, each once, ordered by `updatedAt`
      with the latest first. */
  ghost predicate Lists(out: seq<Conversation>, conversations: map<Id, Conversation>, keep: set<Id>) {
    |out| == |keep| &&
    (forall i :: 0 <= i < |out| ==> out[i].id in keep && out[i].id in conversations && out[i] == conversations[out[i].id]) &&
    (forall id :: id in keep ==> exists i :: 0 <= i < |out| && out[i].id == id) &&
    (forall i, j :: 0 <= i < j < |out| ==> out[i].id != out[j].id) &&
    (forall i, j :: 0 <= i < j < |out| ==> out[i].updatedAt >= out[j].updatedAt)
  }

  /** A non-empty set of conversations has a latest one. */
  lemma {:induction false} LatestExists(conversations: map<Id, Conversation>, ids: set<Id>) returns (k: Id)
    requires ids != {} && ids <= conversations.Keys
    ensures k in ids && forall j :: j in ids ==> conversations[k].updatedAt >= conversations[j].updatedAt
    decreases ids
  {
    var x :| x in ids;
    if ids == {x} {
      k := x;
    } else {
      var m := LatestExists(conversations, ids - {x});
      k := if conversations[x].updatedAt >= conversations[m].updatedAt then x else m;
    }
  }

  /** `orderBy: { updatedAt: 'desc' }` over the selected conversations. Conversations
      with equal `updatedAt` come in an order the store chooses. */
  method OrderByUpdatedDesc(conversations: map<Id, Conversation>, keep: set<Id>) returns (out: seq<Conversation>)
    requires keep <= conversations.Keys
    requires forall id :: id in conversations ==> conversations[id].id == id
    ensures Lists(out, conversations, keep)
  {
    var remaining := keep;
    out := [];
    while remaining != {}
      invariant remaining <= keep
      invariant |out| + |remaining| == |keep|
      invariant forall i :: 0 <= i < |out| ==>
        out[i].id in keep && out[i].id !in remaining && out[i].id in conversations && out[i] == conversations[out[i].id]
      invariant forall id :: id in keep ==> id in remaining || exists i :: 0 <= i < |out| && out[i].id == id
      invariant forall i, j :: 0 <= i < j < |out| ==> out[i].id != out[j].id
      invariant forall i, j :: 0 <= i < j < |out| ==> out[i].updatedAt >= out[j].updatedAt
      invariant forall i, id :: 0 <= i < |out| && id in remaining ==> out[i].updatedAt >= conversations[id].updatedAt
      decreases |remaining|
    {
      var m := LatestExists(conversations, remaining);
      var k :| k in remaining && forall j :: j in remaining ==> conversations[k].updatedAt >= conversations[j].updatedAt;
      ghost var before := out;
      out := out + [conversations[k]];
      assert out[|before|].id == k;
      assert forall i :: 0 <= i < |before| ==> out[i] == before[i];
      remaining := remaining - {k};
    }
  }

  /** `GET`. A throwing store is a 500. */
  method Get(db: Database, sessionEmail: Option<string>, storeFails: bool) returns (r: Response<seq<Conversation>>)
    requires db.Valid()
    ensures !SignedIn(sessionEmail) ==> r == Error(401, "Unauthorized")
    ensures SignedIn(sessionEmail) && storeFails ==> r == Error(500, "Internal Server Error")
    ensures SignedIn(sessionEmail) && !storeFails && !HasEmail(db.users, sessionEmail.value) ==>
      r == Error(404, "User not found")
    ensures r.Ok? <==> SignedIn(sessionEmail) && !storeFails && HasEmail(db.users, sessionEmail.value)
    ensures r.Ok? ==> forall uid, aid ::
      uid in db.users && db.users[uid].email == sessionEmail.value && db.users[uid].role == AgencyOwner &&
      aid in db.agencies && db.agencies[aid].ownerId == uid ==>
        Lists(r.body, db.conversations, Involving(db.conversations, AgencySide, aid))
    ensures r.Ok? ==> forall uid ::
      uid in db.users && db.users[uid].email == sessionEmail.value &&
      (db.users[uid].role != AgencyOwner || forall aid :: aid in db.agencies ==> db.agencies[aid].ownerId != uid) ==>
        Lists(r.body, db.conversations, Involving(db.conversations, UserSide, uid))
  {
    if !SignedIn(sessionEmail) {
      return Error(401, "Unauthorized");
    }
    if storeFails {
      return Error(500, "Internal Server Error");
    }
    var user := db.FindUserByEmail(sessionEmail.value);
    if user.None? {
      return Error(404, "User not found");
    }
    var uid := user.value;
    var agency := db.FindAgencyByOwner(uid);
    var listed;
    if db.users[uid].role == AgencyOwner && agency.Some? {
      listed := OrderByUpdatedDesc(db.conversations, Involving(db.conversations, AgencySide, agency.value));
    } else {
      listed := OrderByUpdatedDesc(db.conversations, Involving(db.conversations, UserSide, uid));
    }
    r := Ok(listed);
  }

  ghost predicate HasConversation(conversations: map<Id, Conversation>, userId: Id, agencyId: Id) {
    exists id :: id in conversations && conversations[id].userId == userId && conversations[id].agencyId == agencyId
  }

  /** `POST`: the existing conversation of the caller with `agencyId`, or a new one
      stamped `now`. A throwing store is a 500 with nothing written. */
  method Post(db: Database, sessionEmail: Option<string>, agencyId: Id, now: int, storeFails: bool)
    returns (r: Response<Conversation>)
    requires db.Valid()
    modifies db
    ensures db.Valid()
    ensures !SignedIn(sessionEmail) ==> r == Error(401, "Unauthorized")
    ensures SignedIn(sessionEmail) && storeFails ==> r == Error(500, "Internal Server Error")
    ensures SignedIn(sessionEmail) && !storeFails && !HasEmail(old(db.users), sessionEmail.value) ==>
      r == Error(404, "User not found")
    ensures (SignedIn(sessionEmail) && !storeFails && HasEmail(old(db.users), sessionEmail.value) &&
             agencyId !in old(db.agencies)) ==> r == Error(500, "Internal Server Error")
    ensures r.Ok? <==>
      SignedIn(sessionEmail) && !storeFails && HasEmail(old(db.users), sessionEmail.value) && agencyId in old(db.agencies)
    ensures r.Error? ==> unchanged(db)
    ensures r.Ok? ==>
      r.body.userId in old(db.users) && old(db.users)[r.body.userId].email == sessionEmail.value &&
      r.body.agencyId == agencyId && r.body.id in db.conversations && db.conversations[r.body.id] == r.body
    ensures r.Ok? && HasConversation(old(db.conversations), r.body.userId, agencyId) ==>
      unchanged(db) && r.body.id in old(db.conversations)
    ensures r.Ok? && !HasConversation(old(db.conversations), r.body.userId, agencyId) ==>
      r.body == Conversation(old(db.nextId), r.body.userId, agencyId, now) &&
      db.conversations == old(db.conversations)[r.body.id := r.body] && db.nextId == old(db.nextId) + 1 &&
      db.users == old(db.users) && db.agencies == old(db.agencies) &&
      db.bookings == old(db.bookings) && db.reviews == old(db.reviews)
  {
    if !SignedIn(sessionEmail) {
      return Error(401, "Unauthorized");
    }
    if storeFails {
      return Error(500, "Internal Server Error");
    }
    var user := db.FindUserByEmail(sessionEmail.value);
    if user.None? {
      return Error(404, "User not found");
    }
    var found := db.FindConversation(user.value, agencyId);
    if found.Some? {
      return Ok(db.conversations[found.value]);
    }
    if agencyId !in db.agencies {
      return Error(500, "Internal Server Error");
    }
    var conversation := Conversation(db.nextId, user.value, agencyId, now);
    Advance(db);
    db.conversations := db.conversations[conversation.id := conversation];
    db.nextId := db.nextId + 1;
    r := Ok(conversation);
  }

  /** Repeating `POST` returns the same conversation and creates nothing more: at
      most one conversation was added for the caller and the agency. */
  method PostTwice(db: Database, email: string, agencyId: Id, now1: int, now2: int)
    returns (first: Response<Conversation>, second: Response<Conversation>)
    requires db.Valid() && email != [] && HasEmail(db.users, email) && agencyId in db.agencies
    modifies db
    ensures first.Ok? && second == first
    ensures db.conversations == old(db.conversations) ||
            db.conversations == old(db.conversations)[first.body.id := first.body]
    ensures db.Valid()
  {
    first := Post(db, Some(email), agencyId, now1, false);
    assert HasConversation(db.conversations, first.body.userId, agencyId);
    second := Post(db, Some(email), agencyId, now2, false);
  }
}

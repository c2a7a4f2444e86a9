/** The persistent store behind the route handlers: one table per record kind,
    keyed by generated ids, with the uniqueness constraints the handlers rely on.
    Only the columns the modelled handlers read or write are kept. */
module Store {
  import opened Domain
  import opened Wrappers

  datatype Role = UserRole | AgencyOwner

  datatype User = User(
    id: Id,
    name: string,
    email: string,
    password: string,
    phone: string,
    role: Role,
    location: string)

  datatype Agency = Agency(
    id: Id,
    name: string,
    location: string,
    description: string,
    imageUrl: string,
    tags: string,
    portfolio: string,
    priceRangeMin: real,
    priceRangeMax: real,
    ownerId: Id)

  datatype Review = Review(id: Id, userId: Id, agencyId: Id, rating: int)

  /** A chat thread between one user and one agency; `updatedAt` is a timestamp. */
  datatype Conversation = Conversation(id: Id, userId: Id, agencyId: Id, updatedAt: int)

  /** An HTTP reply: a JSON body, or an error status with its message. */
  datatype Response<T> = Ok(body: T) | Error(status: nat, message: string)

  /** `session?.user?.email` is truthy: present and not empty. */
  predicate SignedIn(sessionEmail: Option<string>) {
    sessionEmail.Some? && sessionEmail.value != []
  }

  predicate SamePair(c: Conversation, d: Conversation) {
    c.userId == d.userId && c.agencyId == d.agencyId
  }

  ghost predicate HasEmail(users: map<Id, User>, email: string) {
    exists id :: id in users && users[id].email == email
  }

  ghost predicate KeysBelow<V>(m: map<Id, V>, nextId: nat) {
    forall id :: id in m ==> id < nextId
  }

  ghost predicate UsersOk(users: map<Id, User>, nextId: nat) {
    KeysBelow(users, nextId) &&
    (forall id :: id in users ==> users[id].id == id) &&
    (forall i, j :: i in users && j in users && users[i].email == users[j].email ==> i == j)
  }

  /** Owners are ids handed out already, and each owns at most one agency. */
  ghost predicate AgenciesOk(agencies: map<Id, Agency>, nextId: nat) {
    KeysBelow(agencies, nextId) &&
    (forall id :: id in agencies ==> agencies[id].id == id && agencies[id].ownerId < nextId) &&
    (forall i, j :: i in agencies && j in agencies && agencies[i].ownerId == agencies[j].ownerId ==> i == j)
  }

  ghost predicate BookingsOk(bookings: map<Id, Booking>, nextId: nat) {
    KeysBelow(bookings, nextId) && forall id :: id in bookings ==> bookings[id].id == id
  }

  ghost predicate ReviewsOk(reviews: map<Id, Review>, nextId: nat) {
    KeysBelow(reviews, nextId) && forall id :: id in reviews ==> reviews[id].id == id
  }

  ghost predicate ConversationsOk(conversations: map<Id, Conversation>, nextId: nat) {
    KeysBelow(conversations, nextId) &&
    (forall id :: id in conversations ==> conversations[id].id == id) &&
    (forall i, j ::
       i in conversations && j in conversations && SamePair(conversations[i], conversations[j]) ==> i == j)
  }

  /** Every booking and every conversation names a stored agency: the `agencyId`
      columns are foreign keys, so the store refuses a row whose agency is missing. */
  ghost predicate AgencyLinksOk(agencies: map<Id, Agency>, bookings: map<Id, Booking>,
                                conversations: map<Id, Conversation>) {
    (forall id :: id in bookings ==> bookings[id].agencyId in agencies) &&
    (forall id :: id in conversations ==> conversations[id].agencyId in agencies)
  }

  /** Handing out one more id keeps every table valid. */
  lemma Advance(db: Database)
    requires db.Valid()
    ensures UsersOk(db.users, db.nextId + 1) && AgenciesOk(db.agencies, db.nextId + 1)
    ensures BookingsOk(db.bookings, db.nextId + 1) && ReviewsOk(db.reviews, db.nextId + 1)
    ensures ConversationsOk(db.conversations, db.nextId + 1)
  {
  }

  /** A user with the next id and an unused email can be inserted. */
  lemma InsertUser(users: map<Id, User>, nextId: nat, u: User)
    requires UsersOk(users, nextId) && u.id == nextId && !HasEmail(users, u.email)
    ensures UsersOk(users[nextId := u], nextId + 1)
  {
  }

  /** An agency with the next id, for an owner who has none, can be inserted. */
  lemma InsertAgency(agencies: map<Id, Agency>, nextId: nat, a: Agency)
    requires AgenciesOk(agencies, nextId) && a.id == nextId && a.ownerId < nextId
    requires forall id :: id in agencies ==> agencies[id].ownerId != a.ownerId
    ensures AgenciesOk(agencies[nextId := a], nextId + 1)
  {
  }

  class Database {
    var users: map<Id, User>
    var agencies: map<Id, Agency>
    var bookings: map<Id, Booking>
    var reviews: map<Id, Review>
    var conversations: map<Id, Conversation>
    /** The next generated id; every stored id is below it. */
    var nextId: nat

    /** Keys are the records' ids and below `nextId`; `email` is unique among users,
        `(userId, agencyId)` among conversations and `ownerId` among agencies; bookings
        and conversations name stored agencies. */
    ghost predicate Valid()
      reads this
    {
      UsersOk(users, nextId) && AgenciesOk(agencies, nextId) && BookingsOk(bookings, nextId) &&
      ReviewsOk(reviews, nextId) && ConversationsOk(conversations, nextId) &&
      AgencyLinksOk(agencies, bookings, conversations)
    }

    /** An empty store. */
    constructor ()
      ensures Valid()
      ensures users == map[] && agencies == map[] && bookings == map[] && reviews == map[]
      ensures conversations == map[] && nextId == 0
    {
      users, agencies, bookings, reviews, conversations := map[], map[], map[], map[], map[];
      nextId := 0;
    }

    /** `user.findUnique({ where: { email } })`. */
    method FindUserByEmail(email: string) returns (r: Option<Id>)
      requires Valid()
      ensures r.Some? ==> r.value in users && users[r.value].email == email
      ensures r.Some? ==> forall id :: id in users && users[id].email == email ==> id == r.value
      ensures r.None? <==> !HasEmail(users, email)
    {
      if exists id :: id in users && users[id].email == email {
        var id :| id in users && users[id].email == email;
        r := Some(id);
      } else {
        r := None;
      }
    }

    /** The agency owned by a user (`user.agency`), if any. */
    method FindAgencyByOwner(ownerId: Id) returns (r: Option<Id>)
      ensures r.Some? ==> r.value in agencies && agencies[r.value].ownerId == ownerId
      ensures r.None? ==> forall id :: id in agencies ==> agencies[id].ownerId != ownerId
    {
      if exists id :: id in agencies && agencies[id].ownerId == ownerId {
        var id :| id in agencies && agencies[id].ownerId == ownerId;
        r := Some(id);
      } else {
        r := None;
      }
    }

    /** `conversation.findUnique({ where: { userId_agencyId } })`. */
    method FindConversation(userId: Id, agencyId: Id) returns (r: Option<Id>)
      requires Valid()
      ensures r.Some? ==>
        r.value in conversations && conversations[r.value].userId == userId && conversations[r.value].agencyId == agencyId
      ensures r.None? ==> forall id :: id in conversations ==>
        !(conversations[id].userId == userId && conversations[id].agencyId == agencyId)
    {
      if exists id :: id in conversations && conversations[id].userId == userId && conversations[id].agencyId == agencyId {
        var id :| id in conversations && conversations[id].userId == userId && conversations[id].agencyId == agencyId;
        r := Some(id);
      } else {
        r := None;
      }
    }
  }
}

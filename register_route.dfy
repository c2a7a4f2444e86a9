/** `POST /api/auth/register`: validation, the duplicate-email check, role
    derivation and the creation of the user and, for an agency owner, the agency.
    The two inserts are not one transaction. */
module RegisterRoute {
  import opened Domain
  import opened Wrappers
  import opened Store

  /** The request body; an absent field is the empty string. */
  datatype Request = Request(
    name: string,
    email: string,
    password: string,
    phone: string,
    agencyName: string,
    location: string)

  /** The reply body: the stored user without its password. */
  datatype PublicUser = PublicUser(id: Id, name: string, email: string, phone: string, role: Role, location: string)

  /** Which store call throws, if any. */
  datatype Fault = NoFault | AtLookup | AtUserCreate | AtAgencyCreate

  const DefaultAgencyImage: string := "https://images.unsplash.com/photo-1519741497674-611481863552?w=800&h=600&fit=crop"

  /** `agencyName ? "AGENCY_OWNER" : "USER"`. */
  function RoleFor(agencyName: string): (r: Role)
    ensures r == AgencyOwner <==> agencyName != []
  {
    if agencyName != [] then AgencyOwner else UserRole
  }

  /** The row `user.create` inserts: the hashed password and "" for a missing phone
      or location. */
  function NewUser(id: Id, req: Request, hashed: string): (u: User)
    ensures u.id == id && u.name == req.name && u.email == req.email && u.password == hashed
    ensures u.phone == req.phone && u.location == req.location
    ensures u.role == RoleFor(req.agencyName)
  {
    User(id, req.name, req.email, hashed, req.phone, RoleFor(req.agencyName), req.location)
  }

  /** The row `agency.create` inserts for a new agency owner. */
  function NewAgency(id: Id, ownerId: Id, req: Request): (a: Agency)
    ensures a.id == id && a.ownerId == ownerId && a.name == req.agencyName
    ensures a.location == (if req.location == [] then "Unknown" else req.location)
    ensures a.description == "New agency" && a.tags == "General" && a.portfolio == "[]"
    ensures a.priceRangeMin == 100000.0 && a.priceRangeMax == 500000.0
  {
    Agency(id, req.agencyName, if req.location == [] then "Unknown" else req.location,
           "New agency", DefaultAgencyImage, "General", "[]", 100000.0, 500000.0, ownerId)
  }

  /** The reply drops the password and keeps every other column. */
  function WithoutPassword(u: User): (p: PublicUser)
    ensures p.id == u.id && p.name == u.name && p.email == u.email
    ensures p.phone == u.phone && p.role == u.role && p.location == u.location
  {
    PublicUser(u.id, u.name, u.email, u.phone, u.role, u.location)
  }

  predicate MissingField(req: Request) {
    req.name == [] || req.email == [] || req.password == []
  }

  /** The handler; `hash` stands for `bcrypt.hash(password, 10)`. */
  method Post(db: Database, req: Request, hash: string -> string, fault: Fault) returns (r: Response<PublicUser>)
    requires db.Valid()
    modifies db
    ensures db.Valid()
    ensures MissingField(req) ==> r == Error(400, "Missing required fields") && unchanged(db)
    ensures !MissingField(req) && fault == AtLookup ==> r == Error(500, "Registration failed") && unchanged(db)
    ensures !MissingField(req) && fault != AtLookup && HasEmail(old(db.users), req.email) ==>
      r == Error(400, "User already exists") && unchanged(db)
    ensures !MissingField(req) && fault == AtUserCreate ==> r.Error? && unchanged(db)
    // A failing agency insert still leaves the new user behind.
    ensures !MissingField(req) && fault == AtAgencyCreate && !HasEmail(old(db.users), req.email) &&
            req.agencyName != [] ==>
      r == Error(500, "Registration failed") &&
      db.users == old(db.users)[old(db.nextId) := NewUser(old(db.nextId), req, hash(req.password))] &&
      db.agencies == old(db.agencies)
    ensures r.Ok? ==>
      !MissingField(req) && !HasEmail(old(db.users), req.email) &&
      r.body == WithoutPassword(NewUser(old(db.nextId), req, hash(req.password))) &&
      db.users == old(db.users)[r.body.id := NewUser(r.body.id, req, hash(req.password))] &&
      r.body.id !in old(db.users)
    ensures r.Ok? && req.agencyName != [] ==>
      db.agencies == old(db.agencies)[old(db.nextId) + 1 := NewAgency(old(db.nextId) + 1, r.body.id, req)] &&
      db.nextId == old(db.nextId) + 2
    ensures r.Ok? && req.agencyName == [] ==> db.agencies == old(db.agencies) && db.nextId == old(db.nextId) + 1
    ensures r.Ok? <==> !MissingField(req) && !HasEmail(old(db.users), req.email) &&
                       (fault == NoFault || (fault == AtAgencyCreate && req.agencyName == []))
    ensures db.bookings == old(db.bookings) && db.reviews == old(db.reviews) &&
            db.conversations == old(db.conversations)
  {
    if MissingField(req) {
      return Error(400, "Missing required fields");
    }
    if fault == AtLookup {
      return Error(500, "Registration failed");
    }
    var existing := db.FindUserByEmail(req.email);
    if existing.Some? {
      return Error(400, "User already exists");
    }
    r := CreateAccount(db, req, hash(req.password), fault);
  }

  /** The part after the checks: `user.create`, then `agency.create` for an agency
      owner, with no transaction around the two. */
  method CreateAccount(db: Database, req: Request, hashed: string, fault: Fault) returns (r: Response<PublicUser>)
    requires db.Valid() && !HasEmail(db.users, req.email) && fault != AtLookup
    modifies db
    ensures db.Valid()
    ensures fault == AtUserCreate ==> r == Error(500, "Registration failed") && unchanged(db)
    ensures fault != AtUserCreate ==>
      db.users == old(db.users)[old(db.nextId) := NewUser(old(db.nextId), req, hashed)]
    ensures fault == AtAgencyCreate && req.agencyName != [] ==>
      r == Error(500, "Registration failed") && db.agencies == old(db.agencies) && db.nextId == old(db.nextId) + 1
    ensures r.Ok? <==> fault == NoFault || (fault == AtAgencyCreate && req.agencyName == [])
    ensures r.Ok? ==> r.body == WithoutPassword(NewUser(old(db.nextId), req, hashed))
    ensures r.Ok? && req.agencyName != [] ==>
      db.agencies == old(db.agencies)[old(db.nextId) + 1 := NewAgency(old(db.nextId) + 1, old(db.nextId), req)] &&
      db.nextId == old(db.nextId) + 2
    ensures r.Ok? && req.agencyName == [] ==> db.agencies == old(db.agencies) && db.nextId == old(db.nextId) + 1
    ensures db.bookings == old(db.bookings) && db.reviews == old(db.reviews) &&
            db.conversations == old(db.conversations)
  {
    var role := RoleFor(req.agencyName);
    if fault == AtUserCreate {
      return Error(500, "Registration failed");
    }
    var user := NewUser(db.nextId, req, hashed);
    Advance(db);
    InsertUser(db.users, db.nextId, user);
    db.users := db.users[user.id := user];
    db.nextId := db.nextId + 1;
    if role == AgencyOwner {
      if fault == AtAgencyCreate {
        return Error(500, "Registration failed");
      }
      var agency := NewAgency(db.nextId, user.id, req);
      Advance(db);
      InsertAgency(db.agencies, db.nextId, agency);
      db.agencies := db.agencies[agency.id := agency];
      db.nextId := db.nextId + 1;
    }
    r := Ok(WithoutPassword(user));
  }

  /** Registering the same email twice: the second request is refused and changes
      nothing, so emails stay unique. */
  method RegisterTwice(db: Database, req: Request, hash: string -> string)
    returns (first: Response<PublicUser>, second: Response<PublicUser>)
    requires db.Valid()
    modifies db
    ensures first.Ok? ==> second == Error(400, "User already exists")
    ensures db.Valid()
  {
    first := Post(db, req, hash, NoFault);
    if first.Ok? {
      assert db.users[first.body.id].email == req.email;
    }
    second := Post(db, req, hash, NoFault);
  }

  /** A failing agency insert answers 500 but keeps the user, so retrying the same
      registration is refused as a duplicate and the agency is never created. */
  method RetryAfterAgencyFailure(db: Database, req: Request, hash: string -> string)
    returns (first: Response<PublicUser>, second: Response<PublicUser>)
    requires db.Valid() && !MissingField(req) && req.agencyName != [] && !HasEmail(db.users, req.email)
    modifies db
    ensures first == Error(500, "Registration failed")
    ensures second == Error(400, "User already exists")
    ensures HasEmail(db.users, req.email) && db.agencies == old(db.agencies)
  {
    first := Post(db, req, hash, AtAgencyCreate);
    assert db.users[old(db.nextId)].email == req.email;
    second := Post(db, req, hash, NoFault);
  }
}

/** The request handlers of the API over an in-memory store of users and bookings.
    Password hashing and token signing are the store's configuration (`Crypto`);
    the clock that fills `createdAt` is the `now` parameter of the handlers that insert. */
module Server {
  import opened Domain
  import opened Auth
  import opened Listing

  /** The foreign collaborators: bcrypt (`hash`, and `matches(plain, hashed)` for
      `compare`) and jsonwebtoken under the process-wide secret (`sign`, and `verify`,
      which fails on a bad signature, a malformed token or an expired one). */
  datatype Crypto = Crypto(
    hash: string -> string,
    matches: (string, string) -> bool,
    sign: Claims -> string,
    verify: string -> Option<Claims>)

  /** JavaScript truthiness of an optional string field: present and non-empty. */
  predicate Truthy(s: Option<string>)
  {
    s.Some? && s.value != ""
  }

  /** JavaScript truthiness of an optional numeric field: present and non-zero. */
  predicate TruthyNumber(n: Option<int>)
  {
    n.Some? && n.value != 0
  }

  /* ---------------- POST /register ---------------- */

  datatype CatInput = CatInput(name: Option<string>, age: Option<int>, needs: Option<string>)

  /** The `cats` field of the body: an array of cats, or anything else. */
  datatype CatsField = NotAnArray | CatArray(items: seq<CatInput>)

  datatype RegisterBody = RegisterBody(
    name: Option<string>, email: Option<string>, phone: Option<string>,
    birthday: Option<string>, password: Option<string>, cats: CatsField)

  /** None of name, email, phone, birthday and password is missing or empty. */
  predicate RegisterComplete(b: RegisterBody)
  {
    Truthy(b.name) && Truthy(b.email) && Truthy(b.phone) && Truthy(b.birthday) && Truthy(b.password)
  }

  /** The cats created from a submitted array, one per element: the age falls back to 0
      when it is falsy, the needs to null when they are absent. */
  function CatsFromArray(items: seq<CatInput>): (r: seq<Cat>)
    ensures |r| == |items|
    ensures forall k :: 0 <= k < |r| ==> r[k].name == items[k].name && r[k].needs == items[k].needs
    ensures forall k :: 0 <= k < |r| ==>
      (TruthyNumber(items[k].age) ==> r[k].age == items[k].age.value) &&
      (!TruthyNumber(items[k].age) ==> r[k].age == 0)
  {
    if |items| == 0 then []
    else
      var c := items[0];
      [Cat(c.name, if TruthyNumber(c.age) then c.age.value else 0, c.needs)] + CatsFromArray(items[1..])
  }

  /** The cats a registration creates: none when `cats` is not an array. */
  function CatsOf(f: CatsField): (r: seq<Cat>)
    ensures f.NotAnArray? ==> r == []
    ensures f.CatArray? ==> |r| == |f.items|
    ensures f.CatArray? ==> forall k :: 0 <= k < |r| ==>
      && r[k].name == f.items[k].name && r[k].needs == f.items[k].needs
      && r[k].age == (if TruthyNumber(f.items[k].age) then f.items[k].age.value else 0)
  {
    match f
    case NotAnArray => []
    case CatArray(items) => CatsFromArray(items)
  }

  /* ---------------- POST /login ---------------- */

  datatype LoginBody = LoginBody(email: Option<string>, password: Option<string>)

  /** The user part of the login answer. */
  datatype PublicUser = PublicUser(id: int, name: string, email: string, role: Option<string>)

  datatype Session = Session(token: string, user: PublicUser)

  /** The role a token claims: the stored role, or "user" when that is falsy. */
  function ClaimRole(role: Option<string>): (r: string)
    ensures r != ""
    ensures role.Some? && role.value != "" ==> r == role.value
    ensures role.None? || role.value == "" ==> r == "user"
  {
    if role.Some? && role.value != "" then role.value else "user"
  }

  /** The login handler. An absent email makes the unique lookup throw and an absent
      password makes the hash comparison throw: both end in the 500 of the catch. */
  function Login(users: seq<User>, body: LoginBody, crypto: Crypto): (r: Reply<Session>)
    ensures body.email.None? ==> r == Err(ServerError)
    ensures body.email.Some? && !EmailTaken(users, body.email.value) ==> r == Err(BadRequest)
    ensures r.Ok? ==>
      && r.status == 200 && body.email.Some? && body.password.Some?
      && exists k :: 0 <= k < |users| && users[k].email == body.email.value &&
           crypto.matches(body.password.value, users[k].password) &&
           r.body == Session(crypto.sign(Claims(users[k].id, ClaimRole(users[k].role))),
                             PublicUser(users[k].id, users[k].name, users[k].email, users[k].role))
    ensures EmailsUnique(users) ==> forall k :: 0 <= k < |users| && body.email == Some(users[k].email) ==>
      (body.password.None? ==> r == Err(ServerError)) &&
      (body.password.Some? && !crypto.matches(body.password.value, users[k].password) ==> r == Err(BadRequest)) &&
      (body.password.Some? && crypto.matches(body.password.value, users[k].password) ==>
        r == Ok(200, Session(crypto.sign(Claims(users[k].id, ClaimRole(users[k].role))),
                             PublicUser(users[k].id, users[k].name, users[k].email, users[k].role))))
  {
    if body.email.None? then Err(ServerError)
    else match IndexOfEmail(users, body.email.value)
      case None => Err(BadRequest)
      case Some(k) =>
        var u := users[k];
        if body.password.None? then Err(ServerError)
        else if !crypto.matches(body.password.value, u.password) then Err(BadRequest)
        else Ok(200, Session(crypto.sign(Claims(u.id, ClaimRole(u.role))),
                             PublicUser(u.id, u.name, u.email, u.role)))
  }

  /* ---------------- GET /users ---------------- */

  datatype UserSummary = UserSummary(
    id: int, name: string, email: string, phone: string, birthday: string, role: Option<string>)

  function UserCreatedAt(u: User): int { u.createdAt }

  /** The columns `GET /users` selects from a row: everything but the password and the cats. */
  function Summary(u: User): UserSummary
  {
    UserSummary(u.id, u.name, u.email, u.phone, u.birthday, u.role)
  }

  /** The summaries of a table, row by row. */
  function Summaries(users: seq<User>): seq<UserSummary>
  {
    Project(users, Summary)
  }

  /** `GET /users`: the guard, then the admin check before any read, then every user,
      newest first. */
  function ListUsers(users: seq<User>, header: Option<string>, verify: string -> Option<Claims>)
    : (r: Reply<seq<UserSummary>>)
    ensures r == Err(Unauthorized) <==> !Guard(header, verify).Authenticated?
    ensures r == Err(Forbidden) <==>
      Guard(header, verify).Authenticated? && !IsAdmin(Guard(header, verify).claims)
    ensures Guard(header, verify).Authenticated? && IsAdmin(Guard(header, verify).claims) ==> r.Ok?
    ensures r.Ok? ==>
      && r.status == 200
      && multiset(r.body) == multiset(Summaries(users))
      && exists order :: NewestFirst(order, UserCreatedAt) && multiset(order) == multiset(users) &&
           r.body == Summaries(order)
  {
    match Guard(header, verify)
    case TokenMissing => Err(Unauthorized)
    case TokenInvalid => Err(Unauthorized)
    case Authenticated(claims) =>
      if !IsAdmin(claims) then Err(Forbidden)
      else
        var order := SortNewestFirst(users, UserCreatedAt);
        ProjectPermute(order, users, Summary);
        Ok(200, Summaries(order))
  }

  /* ---------------- bookings ---------------- */

  datatype ServiceBody = ServiceBody(
    userId: Option<int>, adminId: Option<int>, petName: Option<string>,
    serviceType: Option<string>, date: Option<string>, time: Option<string>,
    notes: Option<string>, price: Option<int>)

  /** None of userId, adminId, serviceType, petName, date and time is missing or falsy. */
  predicate ServiceComplete(b: ServiceBody)
  {
    TruthyNumber(b.userId) && TruthyNumber(b.adminId) && Truthy(b.serviceType) &&
    Truthy(b.petName) && Truthy(b.date) && Truthy(b.time)
  }

  /** The stored notes: the submitted text, or empty when it is falsy. */
  function NotesOf(notes: Option<string>): (r: string)
    ensures Truthy(notes) ==> r == notes.value
    ensures !Truthy(notes) ==> r == ""
  {
    if notes.Some? then notes.value else ""
  }

  /** The stored price: the submitted number, or 0 when it is falsy; None stands for a
      missing or non-numeric price. */
  function PriceOf(price: Option<int>): (r: int)
    ensures TruthyNumber(price) ==> r == price.value
    ensures !TruthyNumber(price) ==> r == 0
  {
    if price.Some? then price.value else 0
  }

  /** Two rows that differ at most in their status. */
  predicate SameBooking(a: Service, b: Service)
  {
    a.(status := Pendente) == b.(status := Pendente)
  }

  /** The table after the booking with this id has its status set to `concluido`. */
  function Concluded(services: seq<Service>, id: int): (r: seq<Service>)
    ensures |r| == |services|
    ensures forall k :: 0 <= k < |r| ==> SameBooking(r[k], services[k])
    ensures forall k :: 0 <= k < |r| && services[k].id == id ==> r[k].status == Concluido
    ensures forall k :: 0 <= k < |r| && services[k].id != id ==> r[k] == services[k]
  {
    seq(|services|, k requires 0 <= k < |services| =>
      if services[k].id == id then services[k].(status := Concluido) else services[k])
  }

  /* ---------------- the store ---------------- */

  datatype ProfileBody = ProfileBody(name: Option<string>, email: Option<string>, phone: Option<string>)

  datatype PasswordBody = PasswordBody(oldPassword: Option<string>, newPassword: Option<string>)

  /** A row after a profile update of name, email and phone: an absent field is left as it was. */
  function WithProfile(u: User, b: ProfileBody): (r: User)
    ensures r.id == u.id && r.password == u.password && r.role == u.role
    ensures r.birthday == u.birthday && r.cats == u.cats && r.createdAt == u.createdAt
    ensures r.name == (if b.name.Some? then b.name.value else u.name)
    ensures r.email == (if b.email.Some? then b.email.value else u.email)
    ensures r.phone == (if b.phone.Some? then b.phone.value else u.phone)
  {
    u.(name := if b.name.Some? then b.name.value else u.name,
       email := if b.email.Some? then b.email.value else u.email,
       phone := if b.phone.Some? then b.phone.value else u.phone)
  }

  /** Appending a booking with a fresh id, a free slot and existing parties keeps the
      booking invariants. */
  lemma BookingAppended(users: seq<User>, services: seq<Service>, s: Service, next: int)
    requires 1 <= next && forall k :: 0 <= k < |services| ==> 1 <= services[k].id < next
    requires ServiceIdsUnique(services) && SlotsUnique(services) && BookingsReferToUsers(users, services)
    requires s.id == next && !SlotTaken(services, s.date, s.time)
    requires UserExists(users, s.userId) && UserExists(users, s.adminId)
    ensures forall k :: 0 <= k < |services + [s]| ==> 1 <= (services + [s])[k].id < next + 1
    ensures ServiceIdsUnique(services + [s]) && SlotsUnique(services + [s])
    ensures BookingsReferToUsers(users, services + [s])
  {
    var services' := services + [s];
    forall i, j | 0 <= i < j < |services'|
      ensures services'[i].date != services'[j].date || services'[i].time != services'[j].time
    {
      if j == |services| {
        assert !(0 <= i < |services| && services[i].date == s.date && services[i].time == s.time);
      }
    }
  }

  /** Another row than the k-th holds the email. */
  predicate EmailHeldByOther(users: seq<User>, email: string, k: nat)
  {
    exists j :: 0 <= j < |users| && j != k && users[j].email == email
  }

  /** With unique emails, the unique lookup by email finds another row than `k` exactly
      when another row holds the email. */
  lemma HolderIsOther(users: seq<User>, email: string, k: nat)
    requires k < |users| && EmailsUnique(users)
    ensures EmailHeldByOther(users, email, k) <==>
      IndexOfEmail(users, email).Some? && IndexOfEmail(users, email).value != k
  {
    if EmailHeldByOther(users, email, k) {
      var j :| 0 <= j < |users| && j != k && users[j].email == email;
      assert EmailTaken(users, email);
    }
  }

  /** A profile update whose email no other row holds keeps emails unique. */
  lemma ProfileKeepsEmailsUnique(users: seq<User>, k: nat, b: ProfileBody)
    requires k < |users| && EmailsUnique(users)
    requires b.email.Some? ==> !EmailHeldByOther(users, b.email.value, k)
    ensures EmailsUnique(users[k := WithProfile(users[k], b)])
  {
    var users' := users[k := WithProfile(users[k], b)];
    forall i, j | 0 <= i < j < |users'| ensures users'[i].email != users'[j].email {
      if i == k && b.email.Some? {
        assert !(0 <= j < |users| && j != k && users[j].email == b.email.value);
      } else if j == k && b.email.Some? {
        assert !(0 <= i < |users| && i != k && users[i].email == b.email.value);
      }
    }
  }

  /** The user and service tables behind the handlers. Ids are drawn from the two
      counters, as the tables' autoincrement columns do. */
  class Store {
    var users: seq<User>
    var services: seq<Service>
    var nextUserId: int
    var nextServiceId: int
    const crypto: Crypto

    /** Ids are positive, distinct and below their counter; emails are unique; no two
        bookings share a slot; every booking refers to existing users. */
    ghost predicate Valid()
      reads this
    {
      && 1 <= nextUserId && 1 <= nextServiceId
      && (forall k :: 0 <= k < |users| ==> 1 <= users[k].id < nextUserId)
      && (forall k :: 0 <= k < |services| ==> 1 <= services[k].id < nextServiceId)
      && UserIdsUnique(users) && ServiceIdsUnique(services)
      && EmailsUnique(users)
      && SlotsUnique(services)
      && BookingsReferToUsers(users, services)
    }

    constructor (crypto: Crypto)
      ensures Valid()
      ensures users == [] && services == [] && this.crypto == crypto
    {
      users, services := [], [];
      nextUserId, nextServiceId := 1, 1;
      this.crypto := crypto;
    }

    /** `POST /register`. */
    method Register(body: RegisterBody, now: int) returns (r: Reply<User>)
      requires Valid()
      modifies this
      ensures Valid()
      ensures r.Err? ==> unchanged(this)
      ensures !RegisterComplete(body) ==> r == Err(BadRequest)
      ensures RegisterComplete(body) && EmailTaken(old(users), body.email.value) ==> r == Err(BadRequest)
      ensures RegisterComplete(body) && !EmailTaken(old(users), body.email.value) ==>
        && r == Ok(201, User(old(nextUserId), body.name.value, body.email.value, body.phone.value,
                             body.birthday.value, crypto.hash(body.password.value), None,
                             CatsOf(body.cats), now))
        && users == old(users) + [r.body]
        && nextUserId == old(nextUserId) + 1
        && services == old(services) && nextServiceId == old(nextServiceId)
    {
      if !RegisterComplete(body) {
        return Err(BadRequest);
      }
      if IndexOfEmail(users, body.email.value).Some? {
        return Err(BadRequest);
      }
      var hashed := crypto.hash(body.password.value);
      var user := User(nextUserId, body.name.value, body.email.value, body.phone.value,
                       body.birthday.value, hashed, None, CatsOf(body.cats), now);
      UsersKept(users, users + [user], services);
      users := users + [user];
      nextUserId := nextUserId + 1;
      r := Ok(201, user);
    }

    /** `PUT /admin/change-password` and `PUT /user/change-password` (the same handler). */
    method ChangePassword(header: Option<string>, body: PasswordBody) returns (r: Reply<()>)
      requires Valid()
      modifies this
      ensures Valid()
      ensures r.Err? ==> unchanged(this)
      ensures !Guard(header, crypto.verify).Authenticated? ==> r == Err(Unauthorized)
      ensures Guard(header, crypto.verify).Authenticated? ==>
        var id := Guard(header, crypto.verify).claims.userId;
        && (!UserExists(old(users), id) ==> r == Err(NotFound))
        && (UserExists(old(users), id) ==>
              var k := IndexOfUser(old(users), id).value;
              && (body.oldPassword.None? ==> r == Err(ServerError))
              && (body.oldPassword.Some? && !crypto.matches(body.oldPassword.value, old(users)[k].password) ==>
                    r == Err(BadRequest))
              && (body.oldPassword.Some? && crypto.matches(body.oldPassword.value, old(users)[k].password) ==>
                    && (body.newPassword.None? ==> r == Err(ServerError))
                    && (body.newPassword.Some? ==>
                          && r == Ok(200, ())
                          && users == old(users)[k := old(users)[k].(password := crypto.hash(body.newPassword.value))]
                          && services == old(services)
                          && nextUserId == old(nextUserId) && nextServiceId == old(nextServiceId))))
    {
      var auth := Guard(header, crypto.verify);
      if !auth.Authenticated? {
        return Err(Unauthorized);
      }
      var found := IndexOfUser(users, auth.claims.userId);
      if found.None? {
        return Err(NotFound);
      }
      var k := found.value;
      if body.oldPassword.None? {
        return Err(ServerError);
      }
      if !crypto.matches(body.oldPassword.value, users[k].password) {
        return Err(BadRequest);
      }
      if body.newPassword.None? {
        return Err(ServerError);
      }
      var updated := users[k].(password := crypto.hash(body.newPassword.value));
      RowRewritten(users, k, updated, services);
      users := users[k := updated];
      r := Ok(200, ());
    }

    /** `PUT /admin/update` and `PUT /user/update` (the same handler). A missing row and a
        taken email make the update throw: both end in the 500 of the catch. */
    method UpdateProfile(header: Option<string>, body: ProfileBody) returns (r: Reply<User>)
      requires Valid()
      modifies this
      ensures Valid()
      ensures r.Err? ==> unchanged(this)
      ensures !Guard(header, crypto.verify).Authenticated? ==> r == Err(Unauthorized)
      ensures Guard(header, crypto.verify).Authenticated? ==>
        var id := Guard(header, crypto.verify).claims.userId;
        && (!UserExists(old(users), id) ==> r == Err(ServerError))
        && (UserExists(old(users), id) ==>
              var k := IndexOfUser(old(users), id).value;
              var clash := body.email.Some? && EmailHeldByOther(old(users), body.email.value, k);
              && (clash ==> r == Err(ServerError))
              && (!clash ==>
                    && r == Ok(200, WithProfile(old(users)[k], body))
                    && users == old(users)[k := r.body]
                    && services == old(services)
                    && nextUserId == old(nextUserId) && nextServiceId == old(nextServiceId)))
    {
      var auth := Guard(header, crypto.verify);
      if !auth.Authenticated? {
        return Err(Unauthorized);
      }
      var found := IndexOfUser(users, auth.claims.userId);
      if found.None? {
        return Err(ServerError);
      }
      var k := found.value;
      if body.email.Some? {
        HolderIsOther(users, body.email.value, k);
        var holder := IndexOfEmail(users, body.email.value);
        if holder.Some? && holder.value != k {
          return Err(ServerError);
        }
      }
      var updated := WithProfile(users[k], body);
      ProfileKeepsEmailsUnique(users, k, body);
      RowRewritten(users, k, updated, services);
      users := users[k := updated];
      r := Ok(200, updated);
    }

    /** `POST /services`. The slot check comes before the two existence checks. */
    method CreateService(body: ServiceBody, now: int) returns (r: Reply<Service>)
      requires Valid()
      modifies this
      ensures Valid()
      ensures r.Err? ==> unchanged(this)
      ensures !ServiceComplete(body) ==> r == Err(BadRequest)
      ensures ServiceComplete(body) ==>
        var date, time := body.date.value, body.time.value;
        && (SlotTaken(old(services), date, time) ==> r == Err(Conflict))
        && (!SlotTaken(old(services), date, time) ==>
              var client, caretaker := body.userId.value, body.adminId.value;
              && (!UserExists(old(users), client) ==> r == Err(NotFound))
              && (UserExists(old(users), client) && !UserExists(old(users), caretaker) ==> r == Err(NotFound))
              && (UserExists(old(users), client) && UserExists(old(users), caretaker) ==>
                    && r == Ok(201, Service(old(nextServiceId), client, caretaker,
                                            body.petName.value, body.serviceType.value, date, time,
                                            NotesOf(body.notes), PriceOf(body.price), Pendente, now))
                    && services == old(services) + [r.body]
                    && nextServiceId == old(nextServiceId) + 1
                    && users == old(users) && nextUserId == old(nextUserId)))
    {
      if !ServiceComplete(body) {
        return Err(BadRequest);
      }
      if SlotHolder(services, body.date.value, body.time.value).Some? {
        return Err(Conflict);
      }
      if IndexOfUser(users, body.userId.value).None? {
        return Err(NotFound);
      }
      if IndexOfUser(users, body.adminId.value).None? {
        return Err(NotFound);
      }
      var service := Service(nextServiceId, body.userId.value, body.adminId.value,
                             body.petName.value, body.serviceType.value, body.date.value,
                             body.time.value, NotesOf(body.notes), PriceOf(body.price), Pendente, now);
      BookingAppended(users, services, service, nextServiceId);
      services := services + [service];
      nextServiceId := nextServiceId + 1;
      r := Ok(201, service);
    }

    /** `PATCH /services/:id/concluir`. A missing row makes the update throw: 500. */
    method MarkConcluded(id: int) returns (r: Reply<Service>)
      requires Valid()
      modifies this
      ensures Valid()
      ensures r.Err? ==> unchanged(this)
      ensures !ServiceExists(old(services), id) ==> r == Err(ServerError)
      ensures ServiceExists(old(services), id) ==>
        && services == Concluded(old(services), id)
        && r.Ok? && r.status == 200 && r.body.id == id && r.body.status == Concluido
        && r.body in services
        && users == old(users)
        && nextUserId == old(nextUserId) && nextServiceId == old(nextServiceId)
    {
      var found := IndexOfService(services, id);
      if found.None? {
        return Err(ServerError);
      }
      var k := found.value;
      services := Concluded(services, id);
      r := Ok(200, services[k]);
    }
  }
}

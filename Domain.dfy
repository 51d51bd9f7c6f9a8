/** Records of the pet-sitting backend (users with their cats, bookings, token claims),
    the answers a handler gives, and the lookups the handlers make on the tables. */
module Domain {

  datatype Option<T> = None | Some(value: T)

  /** The error kinds the handlers answer with, and the HTTP status each is sent with:
      BadRequest 400, Unauthorized 401, Forbidden 403, NotFound 404, Conflict 409,
      ServerError 500. */
  datatype Failure = BadRequest | Unauthorized | Forbidden | NotFound | Conflict | ServerError

  /** A handler's answer: a success status with its JSON body, or an error. */
  datatype Reply<T> = Ok(status: int, body: T) | Err(failure: Failure)

  /** A pet of a user; `needs` is null when it was not given. */
  datatype Cat = Cat(name: Option<string>, age: int, needs: Option<string>)

  /** A row of the user table. `role` is None when the row was written without one
      (registration does not set it). `birthday` is kept as the submitted text. */
  datatype User = User(
    id: int, name: string, email: string, phone: string, birthday: string,
    password: string, role: Option<string>, cats: seq<Cat>, createdAt: int)

  datatype ServiceStatus = Pendente | Concluido

  /** A row of the service (booking) table; `userId` is the client, `adminId` the caretaker.
      `date` is an opaque, comparable key standing for the stored calendar date. */
  datatype Service = Service(
    id: int, userId: int, adminId: int, petName: string, serviceType: string,
    date: string, time: string, notes: string, price: int,
    status: ServiceStatus, createdAt: int)

  /** Claims carried by a session token. */
  datatype Claims = Claims(userId: int, role: string)

  /** Index of the first element satisfying `p`, if any. */
  function Find<T>(s: seq<T>, p: T -> bool): (r: Option<nat>)
    ensures r.Some? ==> r.value < |s| && p(s[r.value])
    ensures r.Some? ==> forall j :: 0 <= j < r.value ==> !p(s[j])
    ensures r.None? ==> forall j :: 0 <= j < |s| ==> !p(s[j])
  {
    if |s| == 0 then None
    else if p(s[0]) then Some(0)
    else match Find(s[1..], p)
      case None => None
      case Some(k) => Some(k + 1)
  }

  predicate EmailTaken(users: seq<User>, email: string)
  {
    exists k :: 0 <= k < |users| && users[k].email == email
  }

  predicate UserExists(users: seq<User>, id: int)
  {
    exists k :: 0 <= k < |users| && users[k].id == id
  }

  predicate ServiceExists(services: seq<Service>, id: int)
  {
    exists k :: 0 <= k < |services| && services[k].id == id
  }

  /** Some booking already holds the slot (date, time). */
  predicate SlotTaken(services: seq<Service>, date: string, time: string)
  {
    exists k :: 0 <= k < |services| && services[k].date == date && services[k].time == time
  }

  /** The unique lookup of a user by email. */
  function IndexOfEmail(users: seq<User>, email: string): (r: Option<nat>)
    ensures r.Some? <==> EmailTaken(users, email)
    ensures r.Some? ==> r.value < |users| && users[r.value].email == email
  {
    Find(users, (u: User) => u.email == email)
  }

  /** The unique lookup of a user by id. */
  function IndexOfUser(users: seq<User>, id: int): (r: Option<nat>)
    ensures r.Some? <==> UserExists(users, id)
    ensures r.Some? ==> r.value < |users| && users[r.value].id == id
  {
    Find(users, (u: User) => u.id == id)
  }

  /** The lookup of a booking by id that the status update makes. */
  function IndexOfService(services: seq<Service>, id: int): (r: Option<nat>)
    ensures r.Some? <==> ServiceExists(services, id)
    ensures r.Some? ==> r.value < |services| && services[r.value].id == id
  {
    Find(services, (s: Service) => s.id == id)
  }

  /** The search for a booking that already holds the slot (date, time). */
  function SlotHolder(services: seq<Service>, date: string, time: string): (r: Option<nat>)
    ensures r.Some? <==> SlotTaken(services, date, time)
    ensures r.Some? ==> r.value < |services| && services[r.value].date == date && services[r.value].time == time
  {
    Find(services, (s: Service) => s.date == date && s.time == time)
  }

  /** No two users share an email (the unique column, checked by registration). */
  predicate EmailsUnique(users: seq<User>)
  {
    forall i, j :: 0 <= i < j < |users| ==> users[i].email != users[j].email
  }

  /** No two bookings share a (date, time) slot, across all caretakers. */
  predicate SlotsUnique(services: seq<Service>)
  {
    forall i, j :: 0 <= i < j < |services| ==>
      services[i].date != services[j].date || services[i].time != services[j].time
  }

  predicate UserIdsUnique(users: seq<User>)
  {
    forall i, j :: 0 <= i < j < |users| ==> users[i].id != users[j].id
  }

  predicate ServiceIdsUnique(services: seq<Service>)
  {
    forall i, j :: 0 <= i < j < |services| ==> services[i].id != services[j].id
  }

  /** Every booking names a client and a caretaker that are rows of the user table. */
  predicate BookingsReferToUsers(users: seq<User>, services: seq<Service>)
  {
    forall k :: 0 <= k < |services| ==>
      UserExists(users, services[k].userId) && UserExists(users, services[k].adminId)
  }

  /** A user table that keeps every earlier row's id keeps every earlier user. */
  lemma UsersKept(users: seq<User>, users': seq<User>, services: seq<Service>)
    requires |users| <= |users'|
    requires forall k :: 0 <= k < |users| ==> users'[k].id == users[k].id
    requires BookingsReferToUsers(users, services)
    ensures BookingsReferToUsers(users', services)
  {
    forall id | UserExists(users, id) ensures UserExists(users', id) {
      var k :| 0 <= k < |users| && users[k].id == id;
      assert users'[k].id == id;
    }
  }

  /** Rewriting one row without changing its id keeps every id where it was, so ids stay
      unique and every booking still refers to existing users. */
  lemma RowRewritten(users: seq<User>, k: nat, u: User, services: seq<Service>)
    requires k < |users| && u.id == users[k].id
    requires UserIdsUnique(users) && BookingsReferToUsers(users, services)
    ensures forall i :: 0 <= i < |users| ==> users[k := u][i].id == users[i].id
    ensures UserIdsUnique(users[k := u]) && BookingsReferToUsers(users[k := u], services)
  {
    UsersKept(users, users[k := u], services);
  }
}

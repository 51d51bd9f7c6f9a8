/** Properties that relate several handlers: a registered user can log in, the token a
    login issues passes the guard, only an admin's token lists the users, concluding a
    booking is idempotent, and sequential requests cannot double-book a slot or an email. */
module Properties {
  import opened Domain
  import opened Auth
  import opened Server

  /** bcrypt accepts a password against its own hash. */
  ghost predicate HashSound(crypto: Crypto)
  {
    forall p :: crypto.matches(p, crypto.hash(p))
  }

  /** jsonwebtoken gives back the claims it signed, in a token without spaces. */
  ghost predicate TokensRoundTrip(crypto: Crypto, claims: Claims)
  {
    crypto.verify(crypto.sign(claims)) == Some(claims) && ' ' !in crypto.sign(claims)
  }

  /** The row a successful registration appends can log in with the submitted password,
      and its token claims the role "user". */
  lemma LoginAfterRegister(users: seq<User>, user: User, password: string, crypto: Crypto)
    requires EmailsUnique(users) && !EmailTaken(users, user.email)
    requires user.password == crypto.hash(password) && user.role == None
    requires HashSound(crypto)
    ensures Login(users + [user], LoginBody(Some(user.email), Some(password)), crypto)
            == Ok(200, Session(crypto.sign(Claims(user.id, "user")),
                               PublicUser(user.id, user.name, user.email, None)))
  {
    var users' := users + [user];
    assert EmailsUnique(users') by {
      forall i, j | 0 <= i < j < |users'| ensures users'[i].email != users'[j].email {
        if j == |users| {
          assert !(0 <= i < |users| && users[i].email == user.email);
        }
      }
    }
    assert users'[|users|] == user;
    assert crypto.matches(password, crypto.hash(password));
  }

  /** The header `Bearer <token>` built from a login token passes the guard with exactly
      the claims the token was signed with. */
  lemma SessionAuthenticates(crypto: Crypto, claims: Claims)
    requires TokensRoundTrip(crypto, claims)
    ensures Guard(Some("Bearer " + crypto.sign(claims)), crypto.verify) == Authenticated(claims)
  {
    BearerToken(crypto.sign(claims));
  }

  /** A logged-in user's token lists the users exactly when its claimed role is "admin":
      the role is read from the token, whatever the table says now. */
  lemma ListUsersNeedsAdmin(users: seq<User>, current: seq<User>, body: LoginBody, crypto: Crypto)
    requires EmailsUnique(users)
    requires Login(users, body, crypto).Ok?
    requires forall c :: TokensRoundTrip(crypto, c)
    ensures var t := Login(users, body, crypto).body.token;
      exists k :: 0 <= k < |users| && users[k].email == body.email.value &&
        (ListUsers(current, Some("Bearer " + t), crypto.verify).Ok? <==> ClaimRole(users[k].role) == "admin") &&
        (ListUsers(current, Some("Bearer " + t), crypto.verify).Err? ==>
           ListUsers(current, Some("Bearer " + t), crypto.verify) == Err(Forbidden))
  {
    var r := Login(users, body, crypto);
    var k :| 0 <= k < |users| && users[k].email == body.email.value &&
      crypto.matches(body.password.value, users[k].password) &&
      r.body == Session(crypto.sign(Claims(users[k].id, ClaimRole(users[k].role))),
                        PublicUser(users[k].id, users[k].name, users[k].email, users[k].role));
    var claims := Claims(users[k].id, ClaimRole(users[k].role));
    assert TokensRoundTrip(crypto, claims);
    SessionAuthenticates(crypto, claims);
  }

  /** Marking a booking concluded twice leaves the table as marking it once. */
  lemma ConcludedIdempotent(services: seq<Service>, id: int)
    ensures Concluded(Concluded(services, id), id) == Concluded(services, id)
  {
  }

  /** Two bookings for one slot made one after the other: if the first succeeds, the
      second is refused with 409 and inserts nothing. */
  method SameSlotTwice(store: Store, first: ServiceBody, second: ServiceBody, now: int, later: int)
    returns (r1: Reply<Service>, r2: Reply<Service>)
    requires store.Valid()
    requires ServiceComplete(second)
    requires first.date == second.date && first.time == second.time
    modifies store
    ensures store.Valid()
    ensures r1.Ok? ==> r2 == Err(Conflict) && store.services == old(store.services) + [r1.body]
  {
    r1 := store.CreateService(first, now);
    if r1.Ok? {
      assert store.services[|store.services| - 1] == r1.body;
    }
    r2 := store.CreateService(second, later);
  }

  /** Two registrations with one email made one after the other: if the first succeeds,
      the second is refused with 400 and adds no user. */
  method SameEmailTwice(store: Store, first: RegisterBody, second: RegisterBody, now: int, later: int)
    returns (r1: Reply<User>, r2: Reply<User>)
    requires store.Valid()
    requires first.email == second.email
    modifies store
    ensures store.Valid()
    ensures r1.Ok? ==> r2 == Err(BadRequest) && store.users == old(store.users) + [r1.body]
  {
    r1 := store.Register(first, now);
    if r1.Ok? {
      assert store.users[|store.users| - 1] == r1.body;
    }
    r2 := store.Register(second, later);
  }
}

# Cat-sitter booking API: a Dafny model of the request handlers

The system is a small Express/Prisma backend for a pet-sitting service. Clients register with
their cats, log in for a JSON Web Token, and edit their profile and password. Bookings
("services") join a client to a caretaker (a user with role `admin`) at a date and time.
This project models the decision logic of the handlers in `server.js` over an in-memory store
of users and bookings:

- the `auth` middleware: the header check, the token taken as the second space-separated
  piece of the `Authorization` header, and verification;
- the role gate of `GET /users`;
- registration, login, password change and profile update;
- booking creation with its system-wide (date, time) slot check;
- marking a booking concluded;
- the three booking listings.

Modules:

- `Domain` (Domain.dfy): the records (`User`, `Cat`, `Service`, `Claims`), the handler answer
  `Reply` over the failure kinds 400/401/403/404/409/500, the table lookups, and the store-wide
  invariants (unique emails, unique slots, unique ids, bookings refer to existing users).
- `Auth` (Auth.dfy): JavaScript's `split(" ")` with its round trip, the token extraction, the
  guard `Guard` and the admin check `IsAdmin`.
- `Listing` (Listing.dfy): filtering (`where`), column selection (`select`) and newest-first
  ordering (`orderBy createdAt desc`).
- `Server` (Server.dfy): the foreign collaborators as a `Crypto` value, the pure handlers `Login`
  and `ListUsers`, and the class `Store`. `Store` holds the two tables, keeps `Valid()`, and has
  one method per state-changing handler. Each method states the error result and "store
  unchanged" for every failing check, in the code's order, and the exact new state on success.
- `Properties` (Properties.dfy): results that span several handlers.

The foreign collaborators are parameters, not code:

- bcrypt is `Crypto.hash` and `Crypto.matches`.
- jsonwebtoken under the process secret is `Crypto.sign` and `Crypto.verify`. `verify` is a
  partial function: `None` covers a bad signature, a malformed token and an expired one.
- The clock that fills `createdAt` is the `now` parameter.

JavaScript truthiness is written out. A string field is missing when it is absent or `""`. A
numeric field is missing when it is absent or `0`.

Some library throws end in a handler's `catch`. The model gives these as `ServerError` (500):

- a login with no email: the unique lookup has no key;
- a missing old or new password: bcrypt refuses `undefined`;
- a profile update or conclusion of a missing row: Prisma's record-not-found error;
- a profile update to an email another user holds: the unique-constraint error on `email`.

Three things `server.js` does that a reader might not expect, and which the model follows:

- `POST /services` checks the slot before it checks that the client and the caretaker exist.
- `PUT /admin/update` and `PUT /admin/change-password` check no role. Any valid token may call
  them; they behave exactly like the `/user/…` variants, so each pair is one method.
- The caretaker of a booking is checked only for existence. Its role is not checked.

## Model

The predicates `Auth.IsAdmin`, `Server.RegisterComplete` and `Server.ServiceComplete` are the
conditions of server.js:394, 37 and 265 written out. What they decide is stated in the
`Server.ListUsers`, `Server.Store.Register` and `Server.Store.CreateService` rows.

| member | source | states |
|---|---|---|
| `Domain.IndexOfEmail` | server.js:42-45 | the email lookup finds a row exactly when some user has that email, and the row it returns has it |
| `Domain.IndexOfUser` | server.js:282-286 | the id lookup finds a row exactly when some user has that id, and the row it returns has it |
| `Domain.IndexOfService` | server.js:377-380 | the booking lookup finds a row exactly when some booking has that id |
| `Domain.SlotHolder` | server.js:270-275 | `findFirst` on (date, time) finds a row exactly when some booking already holds that slot |
| `Domain.RowRewritten` | server.js:226-229 | rewriting one user row without changing its id keeps every id in place, ids unique and every booking's client and caretaker existing |
| `Auth.Split` | server.js:21 | `split(" ")` gives at least one piece, no piece holds a space, and joining the pieces with spaces gives back the header |
| `Auth.SplitJoin` | server.js:21 | splitting a space-joined list of space-free pieces gives back exactly those pieces (the other half of the round trip) |
| `Auth.TokenOf` | server.js:21 | `header.split(" ")[1]` is defined exactly when the header contains a space, and it is space-free |
| `Auth.TokenOfJoin` | server.js:21 | for every header made of at least two space-free pieces joined by spaces, the token is exactly the second piece |
| `Auth.BearerToken` | server.js:21 | the token of `Bearer <t>` is `t` for every space-free `t` |
| `Auth.Guard` | server.js:17-29 | an absent or empty header is rejected as missing; otherwise the request proceeds exactly when there is a second piece and it verifies, and then carries exactly the verified claims; every other case is an invalid token |
| `Server.CatsOf` | server.js:57-63 | a `cats` value that is not an array creates no cats; an array creates one cat per item, at the same position, with its name and needs and its age when truthy, else 0 |
| `Server.CatsFromArray` | server.js:57-63 | one cat per submitted cat, in order; name and needs are carried over (an absent needs stays null); age is the submitted age when truthy and 0 otherwise |
| `Server.ClaimRole` | server.js:93 | the claimed role is never empty; it is the stored role when that is non-empty, and exactly "user" when the role is absent or empty |
| `Server.Login` | server.js:82-111 | no email gives 500; an unknown email gives 400; with unique emails, the matching user gives 500 without a password, 400 on a wrong password, and otherwise 200 with a token signed over that user's id and claimed role; any success is for a stored user whose password matched |
| `Server.ListUsers` | server.js:392-415 | 401 exactly when the guard fails; 403 exactly when the token's role is not "admin", whatever the table holds; an authenticated admin always gets 200, and its body is a permutation of the summaries of the whole table, namely the summaries of a permutation of the table sorted by `createdAt`, newest first |
| `Listing.Project` | server.js:398-406 | the selected columns row by row: one entry per row, the i-th entry the projection of the i-th row (for `GET /users`, id, name, email, phone, birthday and role, and no password) |
| `Listing.ProjectPermute` | server.js:398-407 | projecting a permutation of a table gives a permutation of the projected table, so reordering the users does not change which summaries are listed |
| `Server.NotesOf` | server.js:296 | notes are the submitted text when truthy and "" otherwise |
| `Server.PriceOf` | server.js:297 | price is the submitted number when truthy and 0 when missing, zero or non-numeric |
| `Server.WithProfile` | server.js:246-249 | the update writes name, email and phone where they are given, keeps them where absent, and touches no other field |
| `Server.HolderIsOther` | server.js:246-249 | with unique emails, the unique email lookup finds a row other than the updated one exactly when another row holds the email |
| `Server.ProfileKeepsEmailsUnique` | server.js:246-249 | an update to an email no other row holds keeps emails unique |
| `Server.BookingAppended` | server.js:270-299 | appending a booking with the next id, a free slot and existing client and caretaker keeps ids in range and unique, slots unique and every booking's parties existing |
| `Server.Concluded` | server.js:377-380 | the table keeps its length; only the status changes; the booking with the id becomes `concluido`; every other booking is unchanged |
| `Server.Store.Register` | server.js:34-77 | a missing field gives 400, and so does an email already in the table, both with the store unchanged; otherwise 201, exactly one user appended with a fresh id, the hashed password, no role and the mapped cats, and nothing else changed; `Valid()` (email uniqueness) is kept |
| `Server.Store.ChangePassword` | server.js:181-236 | guard failure 401; unknown user 404; no old password 500; wrong old password 400; no new password 500 (each with the store unchanged); otherwise 200, and only that user's password hash is replaced |
| `Server.Store.UpdateProfile` | server.js:242-256 | guard failure 401; unknown user 500; an email held by another user 500 (each with the store unchanged); otherwise 200 and only that user's row is rewritten by `WithProfile`; `Valid()` is kept (also `server.js:162-176`, the same handler) |
| `Server.Store.CreateService` | server.js:262-307 | in this order: a missing field 400, a taken slot 409, an unknown client 404, an unknown caretaker 404, each inserting nothing; otherwise 201 and exactly one booking appended with a fresh id, status `pendente`, defaulted notes and price; `Valid()` (slot uniqueness) is kept |
| `Server.Store.MarkConcluded` | server.js:373-387 | an unknown id gives 500 with the store unchanged; otherwise the booking table becomes `Concluded(old table, id)` and the answer is the concluded booking; users are unchanged |
| `Listing.Insert` | server.js:320 | inserting into a newest-first list keeps it newest first and adds exactly that element |
| `Listing.SortNewestFirst` | server.js:320 | the result is newest first by the key and is a permutation of the input |
| `Listing.Where` | server.js:338 | each element occurs as often as in the input when it satisfies the filter, and not at all otherwise |
| `Listing.AllServices` | server.js:313-328 | every booking, newest first, as a permutation of the table |
| `Listing.ServicesOf` | server.js:333-368 | exactly the bookings whose client (or, for the caretaker listing, caretaker) is the given id, with their multiplicities, newest first |
| `Properties.LoginAfterRegister` | server.js:47-96 | the row a successful registration appends logs in with the submitted password (when bcrypt accepts a password against its own hash), and its token claims the role "user" |
| `Properties.SessionAuthenticates` | server.js:21-24 | a `Bearer` header carrying a signed token passes the guard with exactly the signed claims (when verify inverts sign) |
| `Properties.ListUsersNeedsAdmin` | server.js:394-396 | a login token lists the users exactly when the role it claims is "admin", and is otherwise refused with 403; the role comes from the token, not from the current table |
| `Properties.ConcludedIdempotent` | server.js:377-380 | concluding a booking twice gives the same table as concluding it once |
| `Properties.SameSlotTwice` | server.js:270-299 | two sequential bookings of one slot: when the first succeeds the second gets 409 and inserts nothing |
| `Properties.SameEmailTwice` | server.js:42-49 | two sequential registrations with one email: when the first succeeds the second gets 400 and adds no user |

## Left out

- bcrypt is modelled as a deterministic `hash` and a `matches` predicate. Real bcrypt salts each hash. Cost factor 10 is not modelled.
- jsonwebtoken is abstract. Signing, the HMAC secret and the 7-day expiry together are `sign` and `verify`.
- Prisma, Express routing, cors, dotenv, console logging and `app.listen` are plumbing. The in-memory `Store` replaces them.
- The 500 answers for unexpected store failures are not modelled. Nor is the 401 that `GET /users` sends when its query fails. Both depend on the database failing.
- `new Date(...)` and `Number(...)` are not modelled. Dates are opaque text keys compared for equality, so two spellings of one instant count as different slots. Prices and ids are integers, and a non-numeric price is an absent one. Fractional prices, invalid dates and non-numeric path ids are outside the model.
- The check-then-insert race between concurrent bookings is out of scope: every property is for sequential calls.
- JSON `null` and values of the wrong JSON type in request bodies are not modelled. An absent field is `None`.
- The role registration stores is the schema's column default. The schema is not part of this model, so a registered row has no role (`None`), which claims "user".
- Cat rows get no ids and no owner id, and their schema constraints are not modelled. Cats are stored inside their user.
- The listings' joined user and caretaker summaries (`include`) are not modelled. Only the booking rows and their order are.
- The order among rows with equal `createdAt` is whatever the insertion sort gives. The database leaves it unspecified.
- `GET /me` and `GET /admin/me` are profile reads that the handlers above do not depend on. They are not part of this model.
- The response messages are not modelled: only status codes and bodies are.
- createAdmin.js is a one-shot seed script and is not part of this model. It looks for `admin@email.com` but creates `petsitterluiza@gmail.com`, so a second run fails at the insert on the unique email and exits with status 1.
- Auth.TokenOf: its contract says only that the token exists exactly when the header has a space, and that it is space-free. That it is the second piece is `Auth.TokenOfJoin`: by `Auth.Split`'s contract every header is such a join.

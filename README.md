# Movie-ticket booking backend: a Dafny model

This project models the core of an Express/Mongoose movie-ticket booking
service and proves properties of that model. The service works like this:

- users register, verify their email address and log in;
- a JSON Web Token then gates every protected route, and a per-route list
  of roles decides who may call it;
- administrators create theaters, assign movies to theater screens and read
  a theater/movie report;
- users book tickets, and read their booking history;
- administrators list all bookings joined with their user, movie and
  theater.

Each core source file is one Dafny module:

| module | file | models |
|---|---|---|
| `Common` | common.dfy | Option, JavaScript truthiness of optional request fields, reply shapes, integer-to-text for error messages |
| `Constants` | constants.dfy | the role and permission tables of `app/utils/constants.ts` |
| `Roles` | roles.dfy | the role collection and the seed-if-empty middleware |
| `Auth` | auth.dfy | `protect`, `authorizeRoles`, the bearer-token split, and the route allow-lists |
| `Theaters` | theaters.dfy | the theater repository: find, update, delete, screen assignment, and the report pipeline |
| `TheaterController` | theater_controller.dfy | the theater handlers' guards and status codes |
| `UserRepo` | user_repo.dfy | the user repository: save with role resolution, lookups, and the profile merge |
| `UserController` | user_controller.dfy | register, verify email, login, get user by id, update profile |
| `BookingController` | booking_controller.dfy | ticket booking, cancellation, booking history, all bookings |

Modelling choices:

- The repositories that the source mutates are classes over `map`/`seq`
  fields:
  - `Theaters.TheaterRepository`
  - `UserRepo.UserRepository`
  - `Roles.RoleCollection`
- The aggregation pipelines and the handler decisions are pure functions.
- Library calls whose internals are out of reach become parameters:
  - bcrypt hashing and `compare`;
  - `jwt.sign` and `jwt.verify`;
  - Joi validation results;
  - store-assigned ids;
  - the failure of the store calls whose error changes the reply: the role
    seeding (`failure`), `getUserById`'s lookup (`lookupFails`) and
    `verifyEmail`'s save (`saveFails`). Other store calls cannot fail in
    the model (see Left out).
- A handler's reply is the status, the message and the data it sends.
- A request field that may be absent is an `Option`. The guards test
  JavaScript truthiness: an empty string and the number 0 are falsy, while
  an array is truthy even when empty.

Behaviour of the code as written, which the model keeps:

- `bookingTicket` sends 400 for a missing field but does not return (see
  Findings).
- The controller calls `bookingRepository.createBooking` and
  `bookingRepository.cancleBooking`. Neither exists in
  `app/repositories/booking.repository.ts`, which defines only `create` and
  `findByBookedUser`. Both calls are modelled as an abstract operation that,
  as written, is undefined: the call throws a TypeError. So no request is
  ever answered 201; a complete, resolvable booking request and every
  cancellation are answered 500 (`BookingTicketAsWired`, `CancelAsWritten`).
  A falsy field is still answered 400 and an unresolved reference 404
  (booking.controller.ts:16-30).
- `cancleBooking` is not defined, so as written a cancellation removes
  nothing (booking.controller.ts:124).
- The report pipelines project `theatername`, but theater documents store
  `name`, so that field is always absent. The theater report's `$sort` key
  `movie.moviename` names a path no document has, so every row ties and the
  stage imposes no order; in particular the report is not sorted by movie
  name (`ReportNotOrderedByName`).
- `getUserById` returns the truthy string `'user not available'` for an
  unknown id, so the handler answers 200 with that text; only a failed
  lookup gives 404.
- `updateProfile` updates the caller's own account (the `userId` from the
  token) and ignores the `:id` path parameter.
- Login does not check `isVerified`.
- The email-verification token has no `userId`, so it can never pass
  `protect`.
- Email verification looks only at the address in the token's payload.
- The seeded admin role holds five permissions, while the static table in
  `app/utils/constants.ts` gives the admin role ten, including all the
  user permissions.

## Model

| member | source | states |
|---|---|---|
| Common.NatToString | app/repositories/theater.repository.ts:73 | the rendered text of a number is nonempty and made of decimal digits |
| Common.NatToStringRoundTrip | app/repositories/theater.repository.ts:73 | reading the rendered digits back gives the number |
| Common.IntToString | app/repositories/theater.repository.ts:73 | the screen number in the error message: a minus sign exactly for negative numbers, followed by digits that denote the absolute value |
| Constants.RolePermissionCounts | app/utils/constants.ts:22-42 | the user role lists 5 distinct permissions and the admin role 10 |
| Constants.UserPermissionsWithinAdmin | app/utils/constants.ts:22-42 | every user permission is also an admin permission |
| Constants.ListedPermissionsAreKnown | app/utils/constants.ts:6-42 | every permission in the role table is a value of `PERMISSIONS` |
| Constants.RoleNamesMatchTable | app/utils/constants.ts:1-42 | `ROLES` names exactly admin and user, which are the keys of the role table |
| Roles.FindRoleByName | app/repositories/user.repo.ts:11 | `findOne({ name })`: the first role with that name in collection order; no result exactly when no role has that name |
| Roles.FindRoleById | app/controllers/user.controller.ts:138 | the role with that id; no result exactly when no role has that id |
| Roles.Seeded | app/middleware/role.middleware.ts:6-31 | after seeding the collection is never empty; a non-empty collection is kept as it was; an empty one gains roles found by the names admin and user |
| Roles.RoleCollection.CreateDefaultRoles | app/middleware/role.middleware.ts:4-39 | calls `next` exactly once, with the error when the store fails; inserts the admin and user roles with their permissions only into an empty collection; otherwise nothing changes |
| Roles.SeedIdempotent | app/middleware/role.middleware.ts:6-7 | a second seeding run inserts nothing, whatever ids it would assign |
| Roles.SeedOnEmpty | app/middleware/role.middleware.ts:7-31 | after seeding an empty collection, the role names are exactly admin and user, and each is found by name with its seeded permissions |
| Roles.SeedPermissionsDisjoint | app/middleware/role.middleware.ts:8-28 | the seeded admin and user permission lists share no permission |
| Roles.SeedDiffersFromTable | app/middleware/role.middleware.ts:8-28 | the seeded admin role lacks `view_profile`, which the static admin table has; the seeded user list and the table's user list hold the same permissions |
| Auth.Split | app/middleware/auth.middleaware.ts:29 | `split(" ")` yields at least one piece, and no piece contains a space |
| Auth.FirstWord | app/middleware/auth.middleaware.ts:29 | the longest space-free prefix; when it is shorter than the input, a space follows it |
| Auth.SplitHead | app/middleware/auth.middleaware.ts:29 | the first piece of a split is the first word |
| Auth.SplitAfterWord | app/middleware/auth.middleaware.ts:29 | splitting a word, a space and a rest gives the word followed by the pieces of the rest |
| Auth.SplitJoin | app/middleware/auth.middleaware.ts:29 | joining the pieces of `split(" ")` with single spaces gives back the input |
| Auth.SplitLength | app/middleware/auth.middleaware.ts:29 | no piece is longer than the input, and each is shorter when the input holds a space |
| Auth.TokenOf | app/middleware/auth.middleaware.ts:29 | `authHeader.split(" ")[1]` (empty when there is no second piece) holds no space and is shorter than the header |
| Auth.FirstWordOfWord | app/middleware/auth.middleaware.ts:29 | a space-free string is its own first word |
| Auth.TokenIsFirstWordAfterPrefix | app/middleware/auth.middleaware.ts:26-29 | the token taken from the header is the text after `"Bearer "` up to the next space |
| Auth.Verified | app/middleware/auth.middleaware.ts:31 | `jwt.verify` refuses an empty token; any other token gets the verifier's answer |
| Auth.EmptyTokenRefused | app/middleware/auth.middleaware.ts:26-31 | the header values `"Bearer "` and `"Bearer  …"` (as `protect` receives them) get 401 "Invalid or expired token", whatever the verifier |
| Auth.SignedTokenEnters | app/middleware/auth.middleaware.ts:29-44 | a nonempty, space-free token whose verified payload has a user id passes with that payload |
| Auth.Protect | app/middleware/auth.middleaware.ts:22-48 | 401 "No token provided" without a `"Bearer "` header; 401 "Invalid or expired token" when verification fails, always for an empty token; 401 "Invalid token: user ID missing" when the payload has no truthy `userId`; otherwise proceeds with a payload the verifier accepted for a nonempty token |
| Auth.AuthorizeRoles | app/middleware/auth.middleaware.ts:50-63 | 401 without a user; proceeds exactly when the user's role is in the allow-list; otherwise 403 "Forbidden: You don't have access" |
| Auth.AuthorizeMonotone | app/middleware/auth.middleaware.ts:55 | enlarging the allow-list never turns a grant into a denial |
| Auth.Gate | app/router/booking.routes.ts:7-12 | a request reaches a route's handler exactly when `protect` passes and, on a role-checked route, the token's role is in that route's list; a denial after `protect` passes is 403 |
| Auth.AdminCannotBook | app/router/booking.routes.ts:7-9 | an admin session gets 403 on booking and on cancelling |
| Auth.NoUserIdNoEntry | app/middleware/auth.middleaware.ts:34-41 | a validly signed token without `userId` is refused with 401 "Invalid token: user ID missing" |
| Theaters.ErrorMessage | app/repositories/theater.repository.ts:67-74 | the message is "Theater not found" exactly for the missing-theater error; a taken screen gives "Screen <n> already assigned to another movie" with the screen number as decimal text |
| Theaters.AssignedKeepsScreensDistinct | app/repositories/theater.repository.ts:71-80 | appending an entry on a free screen keeps screen numbers distinct within the theater |
| Theaters.FindScreen | app/repositories/theater.repository.ts:71 | `movies.find(...)` over the entries: nothing exactly when no entry is on that screen; otherwise the first entry on it |
| Theaters.ApplyPatch | app/repositories/theater.repository.ts:44 | each field a patch carries overwrites the stored one, and every other field is kept |
| Theaters.Row | app/repositories/theater.repository.ts:109-124 | the movie fields come from the movie, location and screen count from the theater, screen and show times from the entry, and there is no theater name |
| Theaters.PatchCanRepeatScreens | app/repositories/theater.repository.ts:44 | the raw update path can store two entries on the same screen |
| Theaters.TheaterRepository.FindById | app/repositories/theater.repository.ts:31-39 | the theater with that id, or nothing exactly when none exists |
| Theaters.TheaterRepository.Update | app/repositories/theater.repository.ts:42-50 | an unknown id changes nothing and returns nothing; otherwise the patched document is stored and returned |
| Theaters.TheaterRepository.Delete | app/repositories/theater.repository.ts:53-61 | an unknown id changes nothing; otherwise the document is removed and returned |
| Theaters.TheaterRepository.AssignMovieToTheater | app/repositories/theater.repository.ts:63-88 | "Theater not found" and "screen taken" change nothing; otherwise exactly one entry is appended to that theater, its other fields are kept, and distinct screens stay distinct |
| Theaters.TheaterRows | app/repositories/theater.repository.ts:94-125 | every row one theater contributes carries that theater's location and no theater name |
| Theaters.MovieTheaterDetails | app/repositories/theater.repository.ts:91-132 | no report row carries a theater name |
| Theaters.TheaterRowsMembership | app/repositories/theater.repository.ts:95-106 | a row is in one theater's part exactly when some entry of it resolves to a movie and projects to that row |
| Theaters.ReportMembership | app/repositories/theater.repository.ts:94-125 | a row is in the report exactly when some (theater, entry) pair resolves to a movie and projects to that row |
| Theaters.TheaterRowsCount | app/repositories/theater.repository.ts:95-106 | one theater contributes as many rows as it has entries whose movie resolves |
| Theaters.ReportCount | app/repositories/theater.repository.ts:94-127 | the report has one row per (theater, entry) pair whose movie resolves |
| Theaters.SortKeyIsAbsent | app/repositories/theater.repository.ts:108-118 | the sort key and the projected `theatername` are not paths of an unwound document, while `movieDetails.moviename` and `name` are |
| Theaters.ReportNotOrderedByName | app/repositories/theater.repository.ts:108 | a theater whose entries hold "Zulu" then "Alpha" yields the rows in that order: the report is not ordered by movie name |
| TheaterController.AssignReply | app/controllers/theater.controller.ts:134-143 | 200 with the saved theater exactly on success; each thrown error becomes 500 carrying its message |
| TheaterController.AssignFieldsGiven | app/controllers/theater.controller.ts:124 | (predicate) the guard passes: ids non-empty, screen number present and non-zero, show times present |
| TheaterController.AssignMovie | app/controllers/theater.controller.ts:121-145 | 400 and no store access when a field is falsy; otherwise the repository outcome and state, as the reply |
| TheaterController.GetTheaterById | app/controllers/theater.controller.ts:52-72 | 404 "Theater not found" exactly for an unknown id; otherwise 200 with the theater |
| TheaterController.UpdateTheater | app/controllers/theater.controller.ts:75-97 | 404 and no change for an unknown id; otherwise 200 with the patched theater, which is stored |
| TheaterController.DeleteTheater | app/controllers/theater.controller.ts:100-119 | 404 and no change for an unknown id; otherwise 200 and the theater is removed |
| TheaterController.MovieWithTheaterReply | app/controllers/theater.controller.ts:148-156 | 200, and the count equals the number of rows, which is the number of resolved (theater, entry) pairs |
| TheaterController.GuardEdgeCases | app/controllers/theater.controller.ts:124 | screen number 0 is refused by the guard, while an empty list of show times passes |
| UserRepo.Merge | app/repositories/user.repo.ts:61-72 | name and phone are overwritten only when truthy, and the picture only when a new path is given; every other field is kept |
| UserRepo.MergeIdempotent | app/repositories/user.repo.ts:61-72 | applying the same update twice equals applying it once |
| UserRepo.MergeEmpty | app/repositories/user.repo.ts:61-72 | an update with no truthy field leaves the record unchanged |
| UserRepo.UserRepository.FindByEmail | app/repositories/user.repo.ts:24-32 | finds a user with that address, or nothing exactly when no user has it |
| UserRepo.UserRepository.Save | app/repositories/user.repo.ts:9-22 | an unknown role name or a duplicate address gives `undefined` and stores nothing; otherwise the user is stored under the fresh id with the role document's id; addresses stay unique |
| UserRepo.UserRepository.GetUserById | app/repositories/user.repo.ts:43-53 | the document; the 'user not available' sentinel for an unknown id; `undefined` when the lookup throws |
| UserRepo.UserRepository.UpdateUser | app/repositories/user.repo.ts:56-81 | `null` and no write for an unknown id; otherwise the merged record is stored and returned |
| UserController.VerificationClaims | app/controllers/user.controller.ts:33-39 | the verification token's payload has no user id, and it carries the address and the role |
| UserController.NewUser | app/controllers/user.controller.ts:41-47 | the record handed to `save` holds the hash, is unverified and carries the verification token |
| UserController.Register | app/controllers/user.controller.ts:13-81 | a validation error gives 400 with its message; a taken address gives 400 "Email already registered"; otherwise the verification mail is requested, and the reply is 200 with the stored user or 400 "Failed to register new user" when `save` fails |
| UserController.VerifyEmail | app/controllers/user.controller.ts:83-101 | 400 for a bad token and 400 when the save throws, with no change; 404 for an unknown address; otherwise exactly that user becomes verified with an empty token |
| UserController.Public | app/controllers/user.controller.ts:176 | the login data keeps every field of the user (id, name, address, phone, picture, verification flag and token, role) and has no password |
| UserController.RoleNameFor | app/controllers/user.controller.ts:131-146 | a role name is used as is; a role id resolves to the name of the role document with that id, or to nothing when there is none |
| UserController.SessionClaims | app/controllers/user.controller.ts:148-155 | the session payload carries the stored id as `userId` (truthy whenever the id is non-empty), the user's name, email and phone, and the role name |
| UserController.LoginDecision | app/controllers/user.controller.ts:115-180 | 404 for no user, 401 for a wrong password, 500 "Role not found" for an unresolvable role; a token is issued exactly otherwise, with 200 and the id, address, name, phone and role name |
| UserController.LoginIgnoresVerification | app/controllers/user.controller.ts:115-180 | whether the account is verified changes neither the status, nor the role, nor the token |
| UserController.Login | app/controllers/user.controller.ts:103-188 | a validation error gives 400; an unknown address gives 404 with no mail; otherwise the decision for the stored user, with a welcome mail exactly when a token is issued |
| UserController.UpdateProfile | app/controllers/user.controller.ts:231-298 | 401 without a token user id; 404 when that user does not exist; otherwise only the caller's own record is merged with the truthy fields, and 200 with the new profile |
| UserController.GetUserByIdReply | app/controllers/user.controller.ts:211-229 | 404 exactly when the lookup failed; an unknown id is answered 200 with the sentinel text |
| UserController.VerificationTokenIsNoSession | app/controllers/user.controller.ts:33-39 | a verification token, validly signed, never passes `protect` |
| UserController.SessionTokenEnters | app/controllers/user.controller.ts:148-160 | a login token, once verified, passes `protect` with the user's id, address and role name |
| BookingController.BookingTicket | app/controllers/booking.controller.ts:12-54 | as written: a missing field is answered 400, but the handler still looks up the references and reaches `createBooking` when they resolve, and its later sends fail; complete requests get 404, 201 or 500 |
| BookingController.BookingTicketCorrected | app/controllers/booking.controller.ts:12-54 | with the intended `return`, exactly one reply is sent, and `createBooking` is reached exactly when all fields are present and all references resolve |
| BookingController.ZeroTicketsStillReachCreate | app/controllers/booking.controller.ts:16-40 | a zero-ticket request is answered 400, yet the handler as written reaches the `createBooking` call with that request |
| BookingController.BookingTicketAsWired | app/controllers/booking.controller.ts:32-40 | with the undefined `createBooking`, no request is answered 201; a complete, resolvable request gets 500 |
| BookingController.RequiredPresent | app/controllers/booking.controller.ts:16 | (predicate) the guard passes: all six fields are truthy, so 0 tickets or amount 0 count as missing |
| BookingController.RefsResolve | app/controllers/booking.controller.ts:22-28 | (predicate) all three `findById` lookups find a document, an absent id finding nothing |
| BookingController.RequestOf | app/controllers/booking.controller.ts:32-40 | the object handed to `createBooking`: the six body fields as they came and status "Booked" |
| BookingController.CancelReply | app/controllers/booking.controller.ts:120-140 | 404 exactly when the repository returns nothing; 200 with the booking exactly when it returns one; 500 when the call throws |
| BookingController.CancelAsWritten | app/controllers/booking.controller.ts:124 | with the undefined `cancleBooking`, every cancellation is answered 500 |
| BookingController.View | app/controllers/booking.controller.ts:91-104 | a projected row keeps the booking's id, show time, ticket count, amount and status, the movie's name, genre and language, the user's name and email, and the theater's location; it has no theater name |
| BookingController.AllBookings | app/controllers/booking.controller.ts:143-189 | never more rows than bookings; the exact count is AllBookingsCount |
| BookingController.History | app/controllers/booking.controller.ts:57-106 | every row shows the requested user's name and address; no booking of that user means no row |
| BookingController.AllBookingsCount | app/controllers/booking.controller.ts:145-189 | the all-bookings view has exactly one row per booking whose three references resolve |
| BookingController.HistoryCount | app/controllers/booking.controller.ts:61-106 | the history has exactly one row per booking of that user whose references resolve |
| BookingController.OfUser | app/controllers/booking.controller.ts:62 | the `$match` stage keeps only that user's bookings |
| BookingController.OfUserMembership | app/controllers/booking.controller.ts:62 | a booking passes `$match` exactly when it is in the collection and is that user's |
| BookingController.HistoryIsAllBookingsOfUser | app/controllers/booking.controller.ts:61-106 | the history equals the all-bookings view restricted to that user's bookings, although the two pipelines join in different orders |
| BookingController.AllBookingsMembership | app/controllers/booking.controller.ts:145-189 | a row is in the all-bookings view exactly when some booking with resolving references projects to it |
| BookingController.HistoryMembership | app/controllers/booking.controller.ts:61-106 | a row is in the history exactly when some booking of that user with resolving references projects to it |
| BookingController.HistoryReply | app/controllers/booking.controller.ts:108-112 | 200, and the count equals the number of rows |
| BookingController.AllBookingsReply | app/controllers/booking.controller.ts:191-195 | 200, and the count equals the number of rows |

## Left out

- I/O is not modelled: email sending and its templates, the multipart upload, and `fs.existsSync`/`fs.unlinkSync` on the old profile picture. A mail is an output value, and the upload is its resulting path.
- Cryptography is a parameter: bcrypt salting, hashing and comparison, and JWT signing, verification and expiry. Expiry is part of what the verification oracle decides.
- Validation is an input: Joi schemas and Mongoose schema validation are not modelled. Only their accept or reject outcome is.
- ObjectId casts are not modelled: an id that is not a valid ObjectId is simply an unknown id here. In the source a cast error has different outcomes per route. In `getUserById` it is caught by the repository (user.repo.ts:50-52), which returns `undefined`, so the handler answers 404 "User not found" (user.controller.ts:216-218), as the model's `lookupFails` path does. In the other handlers it reaches their `catch` and gives a 500.
- `populate` is not modelled: `findById` returns the stored theater with movie references unresolved.
- Concurrency is not modelled: the lookups `Promise.all` runs in parallel are taken in sequence. The read-then-write races of screen assignment and booking are outside a sequential model.
- BookingController.BookingTicket: the 400 for a missing field is the reply the client sees. The model records whether later sends throw, but not the exact logged error.
- Roles.RoleCollection.CreateDefaultRoles: a failed `insertMany` is modelled as inserting nothing. Partial inserts before the failure are not modelled.
- The movie handlers and movie repository are not part of this model (create, list, update, delete, get by id); only their routes' allow-lists are.
- `create_theater` and `getAllTheaters` are not part of this model.
- `booking.repository.ts`'s `create` and `findByBookedUser` are not part of this model, because the controller never calls them.
- `getUserprofile` and the repository's `find` are not part of this model.
- Numeric request fields are modelled as integers. `POST /theater/assign-movie` also accepts a urlencoded body (server.ts:17), which delivers `screenNumber` as text; the `===` comparison of a text against a stored number never matches, so such a request would pass the screen check. That coercion is not modelled.
- UserController.UpdateProfile: `PUT /profile/:id` is a multipart route, so `phone` arrives as text and `"0"` is truthy and overwrites the stored phone; the model's `TruthyNum` rule for `phone` (shared with `UserRepo.Merge`) treats 0 as falsy, a case that route cannot produce from the form.
- Store failures other than the three modelled ones cannot happen in the model: the theater repository's `findById`, `save`, `findByIdAndUpdate` and `findByIdAndDelete` rethrow, and the theater handlers answer 500; `update_user` rethrows its save error and `updateProfile` answers 500; `findByEmail` swallows its error and returns `undefined`, which reads as "no such user". None of these 500 or not-found paths is modelled.
- UserController.VerifyEmail: the catch answers every thrown error with 400; the model covers the two that can happen (verification and the save), not a throw from `findByEmail`, which that method swallows.
- Aggregation row order is unspecified in the source (no stage fixes it: the report's `$sort` ties every row, and MongoDB's sort is not stable), while `MovieTheaterDetails`, `AllBookings` and `History` pick collection order. Equalities between row sequences, such as `HistoryIsAllBookingsOfUser`, hold for that choice; the membership and count lemmas do not depend on it.
- SortKeyIsAbsent (Theaters.SortKeyIsAbsent) checks the sort key against a hand-written list of the paths an unwound document has; that list is not derived from `MovieTheaterDetails`. The consequence for the report is stated separately by `ReportNotOrderedByName`.
- The delete route `/theater/delete` has no `:id` segment, so `req.params.id` is undefined there. The model takes the id as given.
- `Common.NatToString` and `Common.IntToString` render numbers as decimal text. Only integers are modelled, not JavaScript's number formatting of fractions.
- `Common.NatToString`, `Common.IntToString` and `Theaters.ErrorMessage` match JavaScript's Number-to-String (the `${screenNumber}` at theater.repository.ts:73) only for safe integers, |n| ≤ 2^53. `screenNumber` has no upper bound, and beyond 2^53 JavaScript prints the shortest digits that read back as the rounded double (2^60 gives "1152921504606847000"); from 1e21 on it writes exponent form ("1e+21"). The model always writes the exact decimal digits, because it models integers, not doubles.

## Findings

| source | as written | input that shows it | evidently intended | confidence | as-written member | corrected member |
|---|---|---|---|---|---|---|
| app/controllers/booking.controller.ts:16-20 | the missing-field branch sends 400 without `return`, so the lookups still run and the `createBooking` call is reached, and the later send throws inside `catch` | a body with `numberOfTickets: 0` and existing user, movie and theater ids: the client gets 400, yet the handler reaches the `createBooking` call with the request (which, as the repository is written, throws) | return after the 400 reply, so nothing past the guard runs | not executed | BookingController.ZeroTicketsStillReachCreate | BookingController.BookingTicketCorrected |

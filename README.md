# Ride-share backend: ride lifecycle and its identity guards

A model, in Dafny, of the core of a ride-dispatch backend. Riders request
trips, drivers accept them, and either party completes them. The model
covers the following:

- **Ride lifecycle** (`RideService`, module `Rides`). A ride is created
  `Requested`. One driver moves it to `Accepted`. Its rider or its driver
  moves it to `Completed`, which is final. Pending rides and a rider's own
  rides can be listed.
- **Account registry** (`UserService`, module `Users`). Usernames are
  unique. The role is `ROLE_USER` or `ROLE_DRIVER`. Login is a lookup plus
  a password match.
- **Token utility** (`JwtUtil`, module `Jwt`). It issues a token that
  carries a username and a role with an expiry. Claims are read only from
  a token whose signature verifies. A token is valid against a username
  and a clock reading.
- **Request filter** (`JwtAuthenticationFilter`, module `Filter`). It
  reads a bearer token and silently ignores a token it cannot read. It
  binds a principal only when none is bound and the token validates. It
  then calls the rest of the chain; within the model, where the
  re-validation and the authority construction cannot throw, it does so on
  every request.
- **Role gate** (`RideController`, module `Controller`). It lists which
  authority each ride endpoint requires. Each endpoint passes the
  principal's name to the service and returns the service's answer as is.
- **The backend as a whole** (module `Backend`). Every sequence of
  state-changing requests keeps the stores well formed. A ride only moves
  forward. A completed ride never changes again. Of all accepts of one
  ride, only the first succeeds. A further lemma follows registration
  through login and the filter to the role table.

The two business exceptions, `NotFoundException` and
`BadRequestException`, become the `NotFound` and `BadRequest` variants of
`Outcomes.Error`. Each carries the message the source attaches.

Each imperative service is a class. `UserService` holds the account map
and `RideService` holds the ride map. Their methods replace those maps.
Every method is specified by a pure function of the old state
(`RegisterOutcome`, `CreateOutcome`, `AcceptOutcome`, `CompleteOutcome`,
…). The lemmas are stated about those functions.

Things supplied from outside are parameters:

- the clock reading (`now`, `at`), in milliseconds;
- the ids that the repositories generate, which must be fresh;
- the password encoder, as an `encode`/`matches` pair assumed only to
  satisfy `matches(p, encode(p))` (`Users.Sound`);
- the token library's compact form, a `compact`/`parse` pair assumed only
  to round-trip (`Jwt.SerializationRoundTrips`).

A token verifies exactly when the secret it was signed with is the
configured one.

Points worth stating about the code:

- `acceptRide` and `completeRide` resolve the acting username before the
  ride, so an unknown user gets "User not found" even for an unknown ride.
- A transition attempted from the wrong status is `BadRequest`.
- Completion by someone who is neither the rider nor the driver is
  `BadRequest` ("You are not authorized to complete this ride").
- The service itself never checks an account's role. A `ROLE_USER`
  account passed to `acceptRide` directly would be bound as the driver.
  Only the controller's role gate stops it (`Controller.Permits`).

## Model

| member | source | states |
|---|---|---|
| `Jwt.ExtractClaims` | src/main/java/org/example/rideshare/util/JwtUtil.java:41-48 | Claims are handed out exactly when the token parses and is signed with the configured secret, and they are the parsed claims. |
| `Jwt.ExtractUsername` | src/main/java/org/example/rideshare/util/JwtUtil.java:29-31 | Succeeds exactly on a verifying token and yields its subject. |
| `Jwt.ExtractRole` | src/main/java/org/example/rideshare/util/JwtUtil.java:33-35 | Succeeds exactly on a verifying token and yields its `role` claim. |
| `Jwt.ExtractExpiration` | src/main/java/org/example/rideshare/util/JwtUtil.java:37-39 | Succeeds exactly on a verifying token and yields its expiration. |
| `Jwt.GenerateToken` | src/main/java/org/example/rideshare/util/JwtUtil.java:50-60 | The issued token verifies. It is issued at `now`. Its subject and role read back as the given ones. Its expiration is `now + expirationMillis`. |
| `Jwt.ValidateToken` | src/main/java/org/example/rideshare/util/JwtUtil.java:62-65 | Fails on a token that does not verify. Otherwise it is true iff the subject equals the username and the expiration is strictly after `now`. |
| `Jwt.GeneratedTokenValidity` | src/main/java/org/example/rideshare/util/JwtUtil.java:50-65 | A generated token validates for a name iff the name is its subject and `now` is before issue time + `expirationMillis`. At that instant or later it is invalid. |
| `Jwt.FreshTokenValidatesAtIssue` | src/main/java/org/example/rideshare/util/JwtUtil.java:50-65 | Checked at its own issue time, a token validates iff `expirationMillis > 0`. |
| `Jwt.ForeignSignatureRejected` | src/main/java/org/example/rideshare/util/JwtUtil.java:41-47 | A token signed with another secret yields no subject, role or expiration. |
| `Users.FindUser` | src/main/java/org/example/rideshare/service/UserService.java:58-61 | Returns the account stored under the username, which in a well-formed store has that username and a valid role. Otherwise NotFound "User not found". |
| `Users.RegisterOutcome` | src/main/java/org/example/rideshare/service/UserService.java:27-44 | A taken username fails BadRequest first. Then a role outside {ROLE_USER, ROLE_DRIVER} fails BadRequest. Either failure leaves the store unchanged. Success adds exactly one account (fresh id, username and role as given, password `encode(raw)`) and returns a token for the saved username and role. Well-formedness is preserved. |
| `Users.LoginOutcome` | src/main/java/org/example/rideshare/service/UserService.java:46-56 | An unknown username is NotFound. A non-matching password is BadRequest "Invalid password". It succeeds exactly when the username is stored and the password matches, and then returns the account's username and role and a token for them. |
| `Users.RegisterThenLogin` | src/main/java/org/example/rideshare/service/UserService.java:36-55 | Assuming `matches(p, encode(p))`: after a successful register, login with the same credentials at any time succeeds. It returns the registered role and a token whose subject and role read back as registered. |
| `Users.RegisterTwiceFails` | src/main/java/org/example/rideshare/service/UserService.java:27-30 | A second registration of the same username fails BadRequest "Username already exists" and adds nothing. |
| `Users.UserService.constructor` | src/main/java/org/example/rideshare/service/UserService.java:21-25 | Starts with an empty, well-formed account store and the given encoder and token utility. |
| `Users.UserService.Register` | src/main/java/org/example/rideshare/service/UserService.java:27-44 | The answer and the new account store are those of `RegisterOutcome` on the old store. The store stays well formed. |
| `Users.UserService.Login` | src/main/java/org/example/rideshare/service/UserService.java:46-56 | Answers as `LoginOutcome` on the current store. |
| `Users.UserService.FindByUsername` | src/main/java/org/example/rideshare/service/UserService.java:58-61 | Answers as `FindUser` on the current store. |
| `Rides.CreateOutcome` | src/main/java/org/example/rideshare/service/RideService.java:25-34 | An unknown passenger fails NotFound with the store unchanged. Otherwise the only ride added is the new one. It has the fresh id, `userId` = the passenger's account id, no driver, the given locations, `Requested`, and `createdAt` = now. Other rides are unchanged. |
| `Rides.AcceptOutcome` | src/main/java/org/example/rideshare/service/RideService.java:40-52 | An unknown driver fails NotFound before the ride lookup. An unknown ride fails NotFound. A ride not `Requested` fails BadRequest. Each failure changes nothing. Success sets `Accepted` and the driver's id, keeps passenger, locations and creation time, and leaves all other rides unchanged. |
| `Rides.CompleteOutcome` | src/main/java/org/example/rideshare/service/RideService.java:54-69 | An unknown user fails NotFound, then an unknown ride. A ride not `Accepted` fails BadRequest. A user who is neither the ride's passenger nor its driver fails BadRequest. Success changes only the status, to `Completed`. |
| `Rides.Pending` | src/main/java/org/example/rideshare/service/RideService.java:36-38 | Exactly the stored rides whose status is `Requested`. |
| `Rides.RidesOfUser` | src/main/java/org/example/rideshare/service/RideService.java:71-74 | An unknown username fails NotFound. Otherwise it returns exactly the stored rides whose `userId` is that account's id, in any status. |
| `Rides.PendingIffAcceptable` | src/main/java/org/example/rideshare/service/RideService.java:36-47 | A stored ride is listed as pending iff a known driver's accept of it succeeds. |
| `Rides.CreatedRideListed` | src/main/java/org/example/rideshare/service/RideService.java:25-38 | A ride just created is pending and is among its passenger's rides. |
| `Rides.AcceptOnlyOnce` | src/main/java/org/example/rideshare/service/RideService.java:45-50 | After a successful accept the ride is no longer pending, and a second accept by any known driver fails BadRequest with nothing changed. |
| `Rides.RideService.constructor` | src/main/java/org/example/rideshare/service/RideService.java:20-23 | Starts with an empty ride store bound to the given account service. |
| `Rides.RideService.CreateRide` | src/main/java/org/example/rideshare/service/RideService.java:25-34 | The answer and the new ride store are those of `CreateOutcome` on the old store. The store stays well formed. |
| `Rides.RideService.GetPendingRides` | src/main/java/org/example/rideshare/service/RideService.java:36-38 | Returns `Pending` of the current store. |
| `Rides.RideService.AcceptRide` | src/main/java/org/example/rideshare/service/RideService.java:40-52 | The answer and the new ride store are those of `AcceptOutcome` on the old store. The store stays well formed. |
| `Rides.RideService.CompleteRide` | src/main/java/org/example/rideshare/service/RideService.java:54-69 | The answer and the new ride store are those of `CompleteOutcome` on the old store. The store stays well formed. |
| `Rides.RideService.GetUserRides` | src/main/java/org/example/rideshare/service/RideService.java:71-74 | Answers as `RidesOfUser` on the current stores. |
| `Filter.BearerToken` | src/main/java/org/example/rideshare/config/JwtAuthenticationFilter.java:36-37 | A token is taken iff the header is present and starts with "Bearer ". The header is then "Bearer " followed by the token. |
| `Filter.Authenticate` | src/main/java/org/example/rideshare/config/JwtAuthenticationFilter.java:31-53 | An existing authentication is never replaced. A new one is bound only from a bearer token that verifies and has not expired. It then carries the token's subject as name and the token's role claim as its single authority. Every such token with no prior authentication does bind one; in the source that holds only when the role claim is present and not blank (see `Authenticate` under Left out). |
| `Filter.UnreadableTokenBindsNothing` | src/main/java/org/example/rideshare/config/JwtAuthenticationFilter.java:36-46 | With no header, no "Bearer " prefix, or a token that does not verify, the context is left as it was. |
| `Filter.FilterChain.DoFilter` | src/main/java/org/example/rideshare/config/JwtAuthenticationFilter.java:55 | Records one invocation, together with the authentication bound at that moment. |
| `Filter.JwtAuthenticationFilter.constructor` | src/main/java/org/example/rideshare/config/JwtAuthenticationFilter.java:23-25 | Keeps the given token utility. |
| `Filter.JwtAuthenticationFilter.DoFilterInternal` | src/main/java/org/example/rideshare/config/JwtAuthenticationFilter.java:27-56 | The context ends holding `Authenticate` of the header and the prior authentication. Within the model, where nothing after the token read can throw, the chain is invoked exactly once, after binding, and sees that authentication. |
| `Controller.RequiredAuthorities` | src/main/java/org/example/rideshare/controller/RideController.java:24-49 | Every endpoint requires a non-empty subset of {ROLE_USER, ROLE_DRIVER}. |
| `Controller.Permits` | src/main/java/org/example/rideshare/controller/RideController.java:24-51 | A permitted call has an authenticated principal holding ROLE_USER or ROLE_DRIVER. A principal with neither reaches no ride endpoint. |
| `Controller.SingleAuthorityAccess` | src/main/java/org/example/rideshare/controller/RideController.java:25-49 | For a single-authority principal: ROLE_USER opens exactly create, own rides and complete. ROLE_DRIVER opens exactly pending, accept and complete. Any other role opens nothing. |
| `Controller.RideController.constructor` | src/main/java/org/example/rideshare/controller/RideController.java:20-22 | Keeps the given ride service. |
| `Controller.RideController.CreateRide` | src/main/java/org/example/rideshare/controller/RideController.java:24-28 | Denied without ROLE_USER, with the store unchanged. Otherwise the service's `CreateOutcome` is returned unchanged, with the principal's name as passenger. |
| `Controller.RideController.GetUserRides` | src/main/java/org/example/rideshare/controller/RideController.java:30-34 | Denied without ROLE_USER. Otherwise the principal's own rides are returned unchanged. |
| `Controller.RideController.GetPendingRides` | src/main/java/org/example/rideshare/controller/RideController.java:36-40 | Denied without ROLE_DRIVER. Otherwise the pending rides are returned. |
| `Controller.RideController.AcceptRide` | src/main/java/org/example/rideshare/controller/RideController.java:42-46 | Denied without ROLE_DRIVER, with the store unchanged. Otherwise the service's `AcceptOutcome` is returned unchanged, with the principal's name as driver. |
| `Controller.RideController.CompleteRide` | src/main/java/org/example/rideshare/controller/RideController.java:48-52 | Denied without ROLE_USER or ROLE_DRIVER, with the store unchanged. Otherwise the service's `CompleteOutcome` is returned unchanged, with the principal's name as actor. |
| `Backend.InitialInvariant` | src/main/java/org/example/rideshare/service/RideService.java:14-23 | The empty backend satisfies the invariant. |
| `Backend.NextKeepsAccounts` | src/main/java/org/example/rideshare/service/UserService.java:36-41 | No request changes or removes a registered account. |
| `Backend.NextPreservesInvariant` | src/main/java/org/example/rideshare/service/RideService.java:25-68 | Every request keeps the invariant. The invariant: accounts well formed, a ride has a driver iff it is not `Requested`, and passengers and drivers are registered accounts. |
| `Backend.NextEvolves` | src/main/java/org/example/rideshare/service/RideService.java:40-68 | One request keeps every stored ride and changes it only forward. Passenger, locations and creation time stay. A bound driver stays. A completed ride stays identical. |
| `Backend.RunPreservesInvariant` | src/main/java/org/example/rideshare/service/RideService.java:25-68 | Every sequence of requests keeps the invariant and all registered accounts. |
| `Backend.RunEvolves` | src/main/java/org/example/rideshare/service/RideService.java:40-68 | Across any sequence of requests every stored ride survives and only moves forward, as above. |
| `Backend.CompletedIsFinal` | src/main/java/org/example/rideshare/service/RideService.java:45-67 | No sequence of requests changes a completed ride. |
| `Backend.AcceptWinsOnce` | src/main/java/org/example/rideshare/service/RideService.java:40-51 | After a successful accept, whatever follows, the ride keeps the winner as driver. Every later accept of it fails, with BadRequest for a registered driver. |
| `Backend.BearerOfToken` | src/main/java/org/example/rideshare/config/JwtAuthenticationFilter.java:36-37 | "Bearer " followed by a token reads back as that token. |
| `Backend.LoginTokenGrantsRegisteredRole` | src/main/java/org/example/rideshare/config/JwtAuthenticationFilter.java:46-51 | The login token of a registered account, presented before it expires on an unauthenticated request, binds that username with the registered role as its only authority. That opens exactly the endpoints requiring that role. |
| `Backend.ScenarioRegistrations` | src/main/java/org/example/rideshare/service/UserService.java:27-44 | Registering alice (ROLE_USER) and then bob (ROLE_DRIVER) into an empty store gives exactly those two accounts. |
| `Backend.ScenarioLifecycle` | src/main/java/org/example/rideshare/service/RideService.java:25-68 | alice's ride from X to Y is created Requested, accepted by bob, then completed by bob, with every field as expected at each step. |
| `Backend.RideScenario` | src/main/java/org/example/rideshare/service/RideService.java:40-68 | The whole scenario is admissible. It ends with the ride Completed and bob bound as driver. A further accept by bob fails BadRequest. |

## Left out

- Persistence (MongoDB): each repository is an in-memory map.
  `findByStatus` and `findByUserId` are filters over the ride map and
  return sets, because the source promises no order. Accounts are kept
  by username, the key they are looked up by. Generated ids are
  parameters that must be fresh. `findByDriverId` is declared by the
  repository but no core operation uses it.
- Concurrency: each request runs atomically, one after another. The
  read-check-save race between two concurrent accepts is not modelled. In
  sequence, `Backend.AcceptWinsOnce` shows that only the first accept
  succeeds.
- Cryptography and token encoding: HMAC key derivation, the compact
  serialization, base64 and JSON are an abstract `compact`/`parse` pair.
  A signature verifies exactly when the signing secret matches. The
  library's own checks at parse time are not modelled: it refuses expired
  tokens itself, and JWT dates have whole-second precision. Expiry is
  judged only by `validateToken`.
- The model reads the clock once per operation. The source reads it
  separately for `issuedAt` and `expiration`, and again for the ride's
  `createdAt`. The model also does not model 64-bit overflow of
  `currentTimeMillis + expirationMillis`.
- Password hashing: BCrypt is an abstract deterministic `encode`. The
  per-call random salt is not modelled. Only `matches(p, encode(p))` is
  relied on.
- Spring Security: the thread-local `SecurityContextHolder` is an
  explicit `SecurityContext` object, and `setDetails` with the
  request's web details is left out. The `hasRole` prefix convention is
  written out as the authority strings. The HTTP status a denied call
  produces is a single `Denied` answer.
- DoFilterInternal: the source skips the chain call when an exception is
  thrown after the guarded token read. This happens when the re-parse inside
  `validateToken` finds the token expired, when the token carries no
  expiration claim (the `.after` call at JwtUtil.java:64 then fails on a
  null date), or when `SimpleGrantedAuthority` is built from a null, empty
  or whitespace-only role. The model has no parse-time expiry, one clock
  reading, an always-present expiration and a role that is never checked
  for text, so it does not capture that path, and its "invoked exactly
  once" holds only within the model.
- Authenticate: for a verifying, unexpired token whose role claim is null,
  empty or whitespace-only, the source's `new SimpleGrantedAuthority` at
  JwtAuthenticationFilter.java:49 rejects the role, so nothing is bound and
  the request fails. The model binds an authentication carrying that role
  as its single authority. Tokens produced by `GenerateToken` after a
  successful registration always carry `ROLE_USER` or `ROLE_DRIVER`, so the
  difference concerns only tokens signed with the same key elsewhere.
- Claims the token library could return as absent are always present in
  the model: a null subject, a missing `role` claim, or one of the wrong
  type. So the case where the filter would build an authority from a null
  role does not arise.
- `@NotBlank` validation of the pickup and drop locations
  (`CreateRideRequest.java`), the HTTP layer (`AuthController.java`), and
  the error-to-status mapping (`GlobalExceptionHandler.java`,
  `ErrorResponse.java`) are not modelled.

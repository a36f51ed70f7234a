/** The backend as a whole: an account store and a ride store changed by a
    sequence of state-changing requests (register, request a ride, accept,
    complete), each applied atomically after the previous one. Queries and
    login read the state and are not actions. The lemmas here are about
    every such sequence: the stores stay well formed, a ride only moves
    forward through its lifecycle, a completed ride never changes again,
    and of all accepts of one ride only the first succeeds. The last lemma
    connects registration, login, the request filter and the role table. */
module Backend {
  import opened Outcomes
  import Jwt
  import Users
  import Rides
  import Filter
  import Controller

  datatype State = State(accounts: Users.Accounts, rides: Rides.RideStore)

  /** A state-changing request, with the id the store assigns and the clock
      reading where the operation takes them. */
  datatype Action =
    | Register(registration: Users.RegisterRequest, accountId: string, at: int)
    | RequestRide(passenger: string, ride: Rides.CreateRideRequest, rideId: string, at: int)
    | AcceptRide(rideId: string, driver: string)
    | CompleteRide(rideId: string, actor: string)

  /** The store hands out ids not yet in use. */
  ghost predicate Fresh(s: State, action: Action) {
    match action
    case Register(_, accountId, _) => !Users.IdTaken(s.accounts, accountId)
    case RequestRide(_, _, rideId, _) => rideId !in s.rides
    case AcceptRide(_, _) => true
    case CompleteRide(_, _) => true
  }

  function Next(encoder: Users.PasswordEncoder, jwt: Jwt.JwtUtil, s: State, action: Action): State
    requires Fresh(s, action)
  {
    match action
    case Register(request, accountId, at) =>
      State(Users.RegisterOutcome(encoder, jwt, s.accounts, request, accountId, at).accounts, s.rides)
    case RequestRide(passenger, request, rideId, at) =>
      State(s.accounts, Rides.CreateOutcome(s.accounts, s.rides, request, passenger, rideId, at).rides)
    case AcceptRide(rideId, driver) =>
      State(s.accounts, Rides.AcceptOutcome(s.accounts, s.rides, rideId, driver).rides)
    case CompleteRide(rideId, actor) =>
      State(s.accounts, Rides.CompleteOutcome(s.accounts, s.rides, rideId, actor).rides)
  }

  /** Every action of the sequence gets fresh ids at the point it runs. */
  ghost predicate Admissible(encoder: Users.PasswordEncoder, jwt: Jwt.JwtUtil, s: State, actions: seq<Action>)
    decreases |actions|
  {
    actions == [] ||
    (Fresh(s, actions[0]) && Admissible(encoder, jwt, Next(encoder, jwt, s, actions[0]), actions[1..]))
  }

  function Run(encoder: Users.PasswordEncoder, jwt: Jwt.JwtUtil, s: State, actions: seq<Action>): State
    requires Admissible(encoder, jwt, s, actions)
    decreases |actions|
  {
    if actions == [] then s else Run(encoder, jwt, Next(encoder, jwt, s, actions[0]), actions[1..])
  }

  /** The stores are well formed, and every ride's passenger and driver
      are registered accounts. */
  ghost predicate Invariant(s: State) {
    && Users.WellFormed(s.accounts)
    && Rides.WellFormedStore(s.rides)
    && (forall id :: id in s.rides ==>
          && Users.IdTaken(s.accounts, s.rides[id].userId)
          && (s.rides[id].driverId.Some? ==> Users.IdTaken(s.accounts, s.rides[id].driverId.value)))
  }

  /** How a stored ride may change: passenger, locations and creation time
      stay, the status only moves forward, a bound driver stays bound, and a
      completed ride stays exactly as it is. */
  ghost predicate Evolves(before: Rides.Ride, after: Rides.Ride) {
    && after.id == before.id
    && after.userId == before.userId
    && after.pickupLocation == before.pickupLocation
    && after.dropLocation == before.dropLocation
    && after.createdAt == before.createdAt
    && Rides.Rank(before.status) <= Rides.Rank(after.status)
    && (before.driverId.Some? ==> after.driverId == before.driverId)
    && (before.status == Rides.Completed ==> after == before)
  }

  /** Accounts, once registered, are never changed or removed. */
  ghost predicate AccountsKept(before: Users.Accounts, after: Users.Accounts) {
    forall name :: name in before ==> name in after && after[name] == before[name]
  }

  lemma InitialInvariant()
    ensures Invariant(State(map[], map[]))
  {
  }

  lemma NextKeepsAccounts(encoder: Users.PasswordEncoder, jwt: Jwt.JwtUtil, s: State, action: Action)
    requires Fresh(s, action)
    ensures AccountsKept(s.accounts, Next(encoder, jwt, s, action).accounts)
  {
  }

  lemma NextPreservesInvariant(encoder: Users.PasswordEncoder, jwt: Jwt.JwtUtil, s: State, action: Action)
    requires Invariant(s) && Fresh(s, action)
    ensures Invariant(Next(encoder, jwt, s, action))
  {
  }

  lemma NextEvolves(encoder: Users.PasswordEncoder, jwt: Jwt.JwtUtil, s: State, action: Action, id: string)
    requires Invariant(s) && Fresh(s, action) && id in s.rides
    ensures id in Next(encoder, jwt, s, action).rides
    ensures Evolves(s.rides[id], Next(encoder, jwt, s, action).rides[id])
  {
  }

  lemma {:induction false} RunPreservesInvariant(encoder: Users.PasswordEncoder, jwt: Jwt.JwtUtil, s: State, actions: seq<Action>)
    requires Invariant(s) && Admissible(encoder, jwt, s, actions)
    ensures Invariant(Run(encoder, jwt, s, actions))
    ensures AccountsKept(s.accounts, Run(encoder, jwt, s, actions).accounts)
    decreases |actions|
  {
    if actions != [] {
      var t := Next(encoder, jwt, s, actions[0]);
      NextPreservesInvariant(encoder, jwt, s, actions[0]);
      NextKeepsAccounts(encoder, jwt, s, actions[0]);
      RunPreservesInvariant(encoder, jwt, t, actions[1..]);
    }
  }

  lemma {:induction false} RunEvolves(encoder: Users.PasswordEncoder, jwt: Jwt.JwtUtil, s: State, actions: seq<Action>, id: string)
    requires Invariant(s) && Admissible(encoder, jwt, s, actions) && id in s.rides
    ensures id in Run(encoder, jwt, s, actions).rides
    ensures Evolves(s.rides[id], Run(encoder, jwt, s, actions).rides[id])
    decreases |actions|
  {
    if actions != [] {
      var t := Next(encoder, jwt, s, actions[0]);
      NextEvolves(encoder, jwt, s, actions[0], id);
      NextPreservesInvariant(encoder, jwt, s, actions[0]);
      RunEvolves(encoder, jwt, t, actions[1..], id);
    }
  }

  /** Completed is terminal: no sequence of requests changes a completed
      ride in any way. */
  lemma CompletedIsFinal(encoder: Users.PasswordEncoder, jwt: Jwt.JwtUtil, s: State, actions: seq<Action>, id: string)
    requires Invariant(s) && Admissible(encoder, jwt, s, actions)
    requires id in s.rides && s.rides[id].status == Rides.Completed
    ensures id in Run(encoder, jwt, s, actions).rides
    ensures Run(encoder, jwt, s, actions).rides[id] == s.rides[id]
  {
    RunEvolves(encoder, jwt, s, actions, id);
  }

  /** First to accept wins: after one successful accept, whatever requests
      follow, the ride keeps that driver and every later accept of it
      fails, with BadRequest when the driver's account exists. */
  lemma AcceptWinsOnce(encoder: Users.PasswordEncoder, jwt: Jwt.JwtUtil, s: State, rideId: string,
                       winner: string, actions: seq<Action>, other: string)
    requires Invariant(s)
    requires Rides.AcceptOutcome(s.accounts, s.rides, rideId, winner).result.Ok?
    requires Admissible(encoder, jwt, Next(encoder, jwt, s, AcceptRide(rideId, winner)), actions)
    ensures var later := Run(encoder, jwt, Next(encoder, jwt, s, AcceptRide(rideId, winner)), actions);
      && rideId in later.rides
      && later.rides[rideId].driverId == Some(s.accounts[winner].id)
      && Rides.AcceptOutcome(later.accounts, later.rides, rideId, other).result.Err?
      && (other in later.accounts ==>
            Rides.AcceptOutcome(later.accounts, later.rides, rideId, other)
            == Rides.Step(Err(BadRequest(Rides.NotRequested)), later.rides))
  {
    var accepted := Next(encoder, jwt, s, AcceptRide(rideId, winner));
    NextPreservesInvariant(encoder, jwt, s, AcceptRide(rideId, winner));
    RunEvolves(encoder, jwt, accepted, actions, rideId);
  }

  /** The prefix "Bearer " in front of a token is read back as that token. */
  lemma BearerOfToken(token: string)
    ensures Filter.BearerToken(Some(Filter.BEARER_PREFIX + token)) == Some(token)
  {
  }

  /** The loop from registration to authorization: the token a registered
      account logs in with, presented as a bearer token before it expires
      on a request with no principal yet, binds that account's username
      with its registered role as the only authority, and so opens exactly
      the endpoints whose required authorities include that role. */
  lemma LoginTokenGrantsRegisteredRole(encoder: Users.PasswordEncoder, jwt: Jwt.JwtUtil, accounts: Users.Accounts,
                                       request: Users.RegisterRequest, accountId: string,
                                       registeredAt: int, loginAt: int, now: int, endpoint: Controller.Endpoint)
    requires Users.Sound(encoder) && Jwt.SerializationRoundTrips(jwt)
    requires !Users.IdTaken(accounts, accountId)
    requires Users.RegisterOutcome(encoder, jwt, accounts, request, accountId, registeredAt).response.Ok?
    requires now < loginAt + jwt.expirationMillis
    ensures var after := Users.RegisterOutcome(encoder, jwt, accounts, request, accountId, registeredAt).accounts;
      var login := Users.LoginOutcome(encoder, jwt, after, Users.LoginRequest(request.username, request.password), loginAt);
      var principal := Filter.Authenticate(jwt, Some(Filter.BEARER_PREFIX + login.value.token), None, now);
      && login.Ok?
      && principal == Some(Filter.Authentication(request.username, [request.role]))
      && (Controller.Permits(endpoint, principal) <==> request.role in Controller.RequiredAuthorities(endpoint))
  {
    var after := Users.RegisterOutcome(encoder, jwt, accounts, request, accountId, registeredAt).accounts;
    Users.RegisterThenLogin(encoder, jwt, accounts, request, accountId, registeredAt, loginAt);
    var login := Users.LoginOutcome(encoder, jwt, after, Users.LoginRequest(request.username, request.password), loginAt);
    var token := login.value.token;
    BearerOfToken(token);
    Jwt.GeneratedTokenValidity(jwt, request.username, request.role, loginAt, request.username, now);
    var principal := Filter.Authenticate(jwt, Some(Filter.BEARER_PREFIX + token), None, now);
    assert principal == Some(Filter.Authentication(request.username, [request.role]));
    Controller.SingleAuthorityAccess(endpoint, request.username, request.role);
  }

  /** The scenario's requests, one by one. */
  function ScenarioActions(): seq<Action> {
    [ Register(Users.RegisterRequest("alice", "alice-secret", Users.ROLE_USER), "account-1", 0),
      Register(Users.RegisterRequest("bob", "bob-secret", Users.ROLE_DRIVER), "account-2", 1),
      RequestRide("alice", Rides.CreateRideRequest("X", "Y"), "ride-1", 2),
      AcceptRide("ride-1", "bob"),
      CompleteRide("ride-1", "bob") ]
  }

  function ScenarioAccounts(encoder: Users.PasswordEncoder): Users.Accounts {
    map["alice" := Users.User("account-1", "alice", encoder.encode("alice-secret"), Users.ROLE_USER),
        "bob" := Users.User("account-2", "bob", encoder.encode("bob-secret"), Users.ROLE_DRIVER)]
  }

  function ScenarioRide(driverId: Option<string>, status: Rides.Status): Rides.Ride {
    Rides.Ride("ride-1", "account-1", driverId, "X", "Y", status, 2)
  }

  lemma ScenarioRegistrations(encoder: Users.PasswordEncoder, jwt: Jwt.JwtUtil)
    ensures var a := ScenarioActions();
      && Fresh(State(map[], map[]), a[0])
      && var s1 := Next(encoder, jwt, State(map[], map[]), a[0]);
      && s1 == State(map["alice" := ScenarioAccounts(encoder)["alice"]], map[])
      && Fresh(s1, a[1])
      && Next(encoder, jwt, s1, a[1]) == State(ScenarioAccounts(encoder), map[])
  {
  }

  lemma ScenarioLifecycle(encoder: Users.PasswordEncoder, jwt: Jwt.JwtUtil)
    ensures var a := ScenarioActions();
      var s2 := State(ScenarioAccounts(encoder), map[]);
      && Fresh(s2, a[2])
      && var s3 := Next(encoder, jwt, s2, a[2]);
      && s3.rides == map["ride-1" := ScenarioRide(None, Rides.Requested)]
      && var s4 := Next(encoder, jwt, s3, a[3]);
      && s4.rides == map["ride-1" := ScenarioRide(Some("account-2"), Rides.Accepted)]
      && var s5 := Next(encoder, jwt, s4, a[4]);
      && s5 == State(ScenarioAccounts(encoder), map["ride-1" := ScenarioRide(Some("account-2"), Rides.Completed)])
  {
  }

  /** A rider and a driver register; the rider requests a ride from "X" to
      "Y", the driver accepts and then completes it. The ride ends
      Completed with the driver bound, and a further accept is refused. */
  lemma RideScenario(encoder: Users.PasswordEncoder, jwt: Jwt.JwtUtil)
    ensures Admissible(encoder, jwt, State(map[], map[]), ScenarioActions())
    ensures var final := Run(encoder, jwt, State(map[], map[]), ScenarioActions());
      && "ride-1" in final.rides
      && final.rides["ride-1"] == Rides.Ride("ride-1", "account-1", Some("account-2"), "X", "Y", Rides.Completed, 2)
      && Rides.AcceptOutcome(final.accounts, final.rides, "ride-1", "bob").result == Err(BadRequest(Rides.NotRequested))
  {
    var a := ScenarioActions();
    ScenarioRegistrations(encoder, jwt);
    ScenarioLifecycle(encoder, jwt);
    var s0 := State(map[], map[]);
    var s1 := Next(encoder, jwt, s0, a[0]);
    var s2 := Next(encoder, jwt, s1, a[1]);
    var s3 := Next(encoder, jwt, s2, a[2]);
    var s4 := Next(encoder, jwt, s3, a[3]);
    var s5 := Next(encoder, jwt, s4, a[4]);
    assert a[1..] == [a[1], a[2], a[3], a[4]];
    assert a[2..] == a[1..][1..] == [a[2], a[3], a[4]];
    assert a[3..] == a[2..][1..] == [a[3], a[4]];
    assert a[4..] == a[3..][1..] == [a[4]];
    assert Admissible(encoder, jwt, s4, a[4..]);
    assert Admissible(encoder, jwt, s3, a[3..]);
    assert Admissible(encoder, jwt, s2, a[2..]);
    assert Admissible(encoder, jwt, s1, a[1..]);
    assert Admissible(encoder, jwt, s0, a);
    assert Run(encoder, jwt, s4, a[4..]) == s5;
    assert Run(encoder, jwt, s0, a) == s5;
  }
}

/** The ride lifecycle (RideService). A ride is requested by a passenger,
    accepted by one driver, and completed by its passenger or its driver:

      Requested --accept--> Accepted --complete--> Completed

    The ride repository is a map from ride id to ride; its derived queries
    findByStatus and findByUserId are filters over that map. */
module Rides {
  import opened Outcomes
  import Users

  const RideNotFound := "Ride not found"
  const NotRequested := "Ride is not in REQUESTED status"
  const NotAccepted := "Ride must be ACCEPTED before completing"
  const NotParticipant := "You are not authorized to complete this ride"

  /** The three status strings the service ever stores. */
  datatype Status = Requested | Accepted | Completed

  /** Position in the lifecycle; no operation lowers it. */
  function Rank(status: Status): nat {
    match status
    case Requested => 0
    case Accepted => 1
    case Completed => 2
  }

  /** A stored ride; `userId` is the passenger's account id. */
  datatype Ride = Ride(
    id: string,
    userId: string,
    driverId: Option<string>,
    pickupLocation: string,
    dropLocation: string,
    status: Status,
    createdAt: int)

  datatype CreateRideRequest = CreateRideRequest(pickupLocation: string, dropLocation: string)

  type RideStore = map<string, Ride>

  /** A ride has a driver exactly when it has left Requested. */
  ghost predicate WellFormedRide(ride: Ride) {
    ride.driverId.None? <==> ride.status == Requested
  }

  ghost predicate WellFormedStore(rides: RideStore) {
    forall id :: id in rides ==> rides[id].id == id && WellFormedRide(rides[id])
  }

  /** What an operation answers, and the ride store afterwards. */
  datatype Step = Step(result: Result<Ride>, rides: RideStore)

  /** createRide, with the id the repository assigns to the new ride and
      the clock reading stored as its creation time. */
  function CreateOutcome(accounts: Users.Accounts, rides: RideStore, request: CreateRideRequest,
                         passengerUsername: string, rideId: string, now: int): (step: Step)
    requires rideId !in rides
    ensures passengerUsername !in accounts ==> step == Step(Err(NotFound(Users.UserNotFound)), rides)
    ensures passengerUsername in accounts ==>
      && step.result.Ok?
      && step.result.value.id == rideId
      && step.result.value.userId == accounts[passengerUsername].id
      && step.result.value.driverId == None
      && step.result.value.pickupLocation == request.pickupLocation
      && step.result.value.dropLocation == request.dropLocation
      && step.result.value.status == Requested
      && step.result.value.createdAt == now
      && step.rides.Keys == rides.Keys + {rideId}
      && step.rides[rideId] == step.result.value
      && (forall id :: id in rides ==> step.rides[id] == rides[id])
    ensures WellFormedStore(rides) ==> WellFormedStore(step.rides)
  {
    match Users.FindUser(accounts, passengerUsername)
    case Err(e) => Step(Err(e), rides)
    case Ok(passenger) =>
      var ride := Ride(rideId, passenger.id, None, request.pickupLocation, request.dropLocation, Requested, now);
      Step(Ok(ride), rides[rideId := ride])
  }

  /** acceptRide: the driver is looked up before the ride. */
  function AcceptOutcome(accounts: Users.Accounts, rides: RideStore, rideId: string, driverUsername: string): (step: Step)
    ensures driverUsername !in accounts ==> step == Step(Err(NotFound(Users.UserNotFound)), rides)
    ensures driverUsername in accounts && rideId !in rides ==> step == Step(Err(NotFound(RideNotFound)), rides)
    ensures driverUsername in accounts && rideId in rides && rides[rideId].status != Requested ==>
      step == Step(Err(BadRequest(NotRequested)), rides)
    ensures step.result.Ok? <==> driverUsername in accounts && rideId in rides && rides[rideId].status == Requested
    ensures step.result.Ok? ==>
      && step.result.value.status == Accepted
      && step.result.value.driverId == Some(accounts[driverUsername].id)
      && step.result.value.id == rides[rideId].id
      && step.result.value.userId == rides[rideId].userId
      && step.result.value.pickupLocation == rides[rideId].pickupLocation
      && step.result.value.dropLocation == rides[rideId].dropLocation
      && step.result.value.createdAt == rides[rideId].createdAt
      && step.rides == rides[rideId := step.result.value]
    ensures WellFormedStore(rides) ==> WellFormedStore(step.rides)
  {
    match Users.FindUser(accounts, driverUsername)
    case Err(e) => Step(Err(e), rides)
    case Ok(driver) =>
      if rideId !in rides then Step(Err(NotFound(RideNotFound)), rides)
      else
        var target := rides[rideId];
        if target.status != Requested then Step(Err(BadRequest(NotRequested)), rides)
        else
          var accepted := target.(driverId := Some(driver.id), status := Accepted);
          Step(Ok(accepted), rides[rideId := accepted])
  }

  /** completeRide: the acting user is looked up before the ride; a user
      who is neither the passenger nor the driver is refused with
      BadRequest, as the source does. */
  function CompleteOutcome(accounts: Users.Accounts, rides: RideStore, rideId: string, username: string): (step: Step)
    ensures username !in accounts ==> step == Step(Err(NotFound(Users.UserNotFound)), rides)
    ensures username in accounts && rideId !in rides ==> step == Step(Err(NotFound(RideNotFound)), rides)
    ensures username in accounts && rideId in rides && rides[rideId].status != Accepted ==>
      step == Step(Err(BadRequest(NotAccepted)), rides)
    ensures (&& username in accounts && rideId in rides && rides[rideId].status == Accepted
             && accounts[username].id != rides[rideId].userId
             && rides[rideId].driverId != Some(accounts[username].id)) ==>
      step == Step(Err(BadRequest(NotParticipant)), rides)
    ensures step.result.Ok? <==>
      && username in accounts && rideId in rides && rides[rideId].status == Accepted
      && (accounts[username].id == rides[rideId].userId || rides[rideId].driverId == Some(accounts[username].id))
    ensures step.result.Ok? ==>
      && step.result.value == rides[rideId].(status := Completed)
      && step.rides == rides[rideId := step.result.value]
    ensures WellFormedStore(rides) ==> WellFormedStore(step.rides)
  {
    match Users.FindUser(accounts, username)
    case Err(e) => Step(Err(e), rides)
    case Ok(actor) =>
      if rideId !in rides then Step(Err(NotFound(RideNotFound)), rides)
      else
        var target := rides[rideId];
        if target.status != Accepted then Step(Err(BadRequest(NotAccepted)), rides)
        else if target.userId != actor.id && target.driverId != Some(actor.id) then
          Step(Err(BadRequest(NotParticipant)), rides)
        else
          var completed := target.(status := Completed);
          Step(Ok(completed), rides[rideId := completed])
  }

  /** findByStatus("REQUESTED"). */
  function Pending(rides: RideStore): (pending: set<Ride>)
    ensures forall ride :: ride in pending <==> ride in rides.Values && ride.status == Requested
  {
    set id | id in rides && rides[id].status == Requested :: rides[id]
  }

  /** getUserRides: the named account's rides, whatever their status. */
  function RidesOfUser(accounts: Users.Accounts, rides: RideStore, username: string): (found: Result<set<Ride>>)
    ensures username !in accounts ==> found == Err(NotFound(Users.UserNotFound))
    ensures username in accounts ==>
      found.Ok? && forall ride :: ride in found.value <==> ride in rides.Values && ride.userId == accounts[username].id
  {
    match Users.FindUser(accounts, username)
    case Err(e) => Err(e)
    case Ok(rider) => Ok(set id | id in rides && rides[id].userId == rider.id :: rides[id])
  }

  /** A stored ride is listed as pending exactly when a known driver's
      accept of it succeeds. */
  lemma PendingIffAcceptable(accounts: Users.Accounts, rides: RideStore, rideId: string, driverUsername: string)
    requires driverUsername in accounts && rideId in rides
    ensures rides[rideId] in Pending(rides) <==> AcceptOutcome(accounts, rides, rideId, driverUsername).result.Ok?
  {
  }

  /** A ride just created is pending and is listed among its passenger's
      rides. */
  lemma CreatedRideListed(accounts: Users.Accounts, rides: RideStore, request: CreateRideRequest,
                          passengerUsername: string, rideId: string, now: int)
    requires rideId !in rides && passengerUsername in accounts
    ensures var step := CreateOutcome(accounts, rides, request, passengerUsername, rideId, now);
      && step.result.value in Pending(step.rides)
      && step.result.value in RidesOfUser(accounts, step.rides, passengerUsername).value
  {
  }

  /** After a successful accept the ride is no longer pending, and a second
      accept of it, by any known driver, fails with BadRequest. */
  lemma AcceptOnlyOnce(accounts: Users.Accounts, rides: RideStore, rideId: string, first: string, second: string)
    requires WellFormedStore(rides)
    requires AcceptOutcome(accounts, rides, rideId, first).result.Ok?
    requires second in accounts
    ensures var after := AcceptOutcome(accounts, rides, rideId, first).rides;
      && after[rideId] !in Pending(after)
      && AcceptOutcome(accounts, after, rideId, second) == Step(Err(BadRequest(NotRequested)), after)
  {
  }

  /** The service object: the ride repository as a map that the operations
      replace, and the account service used to resolve usernames. */
  class RideService {
    var rides: RideStore
    const users: Users.UserService

    ghost predicate Valid()
      reads this
    {
      WellFormedStore(rides)
    }

    constructor (users: Users.UserService)
      ensures Valid() && rides == map[] && this.users == users
    {
      this.rides := map[];
      this.users := users;
    }

    method CreateRide(request: CreateRideRequest, passengerUsername: string, rideId: string, now: int)
      returns (result: Result<Ride>)
      requires Valid() && rideId !in rides
      modifies this
      ensures Valid()
      ensures Step(result, rides) == CreateOutcome(users.accounts, old(rides), request, passengerUsername, rideId, now)
    {
      var found := users.FindByUsername(passengerUsername);
      if found.Err? {
        return Err(found.error);
      }
      var passenger := found.value;
      var ride := Ride(rideId, passenger.id, None, request.pickupLocation, request.dropLocation, Requested, now);
      rides := rides[rideId := ride];
      result := Ok(ride);
    }

    method GetPendingRides() returns (pending: set<Ride>)
      ensures pending == Pending(rides)
    {
      pending := set id | id in rides && rides[id].status == Requested :: rides[id];
    }

    method AcceptRide(rideId: string, driverUsername: string) returns (result: Result<Ride>)
      requires Valid()
      modifies this
      ensures Valid()
      ensures Step(result, rides) == AcceptOutcome(users.accounts, old(rides), rideId, driverUsername)
    {
      var found := users.FindByUsername(driverUsername);
      if found.Err? {
        return Err(found.error);
      }
      var driver := found.value;
      if rideId !in rides {
        return Err(NotFound(RideNotFound));
      }
      var target := rides[rideId];
      if target.status != Requested {
        return Err(BadRequest(NotRequested));
      }
      target := target.(driverId := Some(driver.id));
      target := target.(status := Accepted);
      rides := rides[rideId := target];
      result := Ok(target);
    }

    method CompleteRide(rideId: string, username: string) returns (result: Result<Ride>)
      requires Valid()
      modifies this
      ensures Valid()
      ensures Step(result, rides) == CompleteOutcome(users.accounts, old(rides), rideId, username)
    {
      var found := users.FindByUsername(username);
      if found.Err? {
        return Err(found.error);
      }
      var actor := found.value;
      if rideId !in rides {
        return Err(NotFound(RideNotFound));
      }
      var target := rides[rideId];
      if target.status != Accepted {
        return Err(BadRequest(NotAccepted));
      }
      if target.userId != actor.id && target.driverId != Some(actor.id) {
        return Err(BadRequest(NotParticipant));
      }
      target := target.(status := Completed);
      rides := rides[rideId := target];
      result := Ok(target);
    }

    method GetUserRides(username: string) returns (found: Result<set<Ride>>)
      ensures found == RidesOfUser(users.accounts, rides, username)
    {
      var rider := users.FindByUsername(username);
      if rider.Err? {
        return Err(rider.error);
      }
      var riderId := rider.value.id;
      found := Ok(set id | id in rides && rides[id].userId == riderId :: rides[id]);
    }
  }
}

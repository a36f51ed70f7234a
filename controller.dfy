/** The ride endpoints (RideController). Each endpoint is guarded by the
    authority its @PreAuthorize annotation demands (hasRole('USER') is the
    authority "ROLE_USER", hasRole('DRIVER') is "ROLE_DRIVER") and passes
    the authenticated principal's name, never request input, to the ride
    service, returning the service's answer unchanged. */
module Controller {
  import opened Outcomes
  import Filter
  import Users
  import Rides

  datatype Endpoint = CreateRide | GetUserRides | GetPendingRides | AcceptRide | CompleteRide

  /** The authorities any one of which lets a principal call the endpoint. */
  function RequiredAuthorities(endpoint: Endpoint): (roles: set<string>)
    ensures roles != {} && roles <= {Users.ROLE_USER, Users.ROLE_DRIVER}
  {
    match endpoint
    case CreateRide => {Users.ROLE_USER}
    case GetUserRides => {Users.ROLE_USER}
    case GetPendingRides => {Users.ROLE_DRIVER}
    case AcceptRide => {Users.ROLE_DRIVER}
    case CompleteRide => {Users.ROLE_USER, Users.ROLE_DRIVER}
  }

  /** The method-security decision for one call. */
  predicate Permits(endpoint: Endpoint, authentication: Option<Filter.Authentication>)
    ensures Permits(endpoint, authentication) ==>
      && authentication.Some?
      && (Users.ROLE_USER in authentication.value.authorities || Users.ROLE_DRIVER in authentication.value.authorities)
  {
    && authentication.Some?
    && exists i :: 0 <= i < |authentication.value.authorities|
                && authentication.value.authorities[i] in RequiredAuthorities(endpoint)
  }

  /** The role table as seen by a principal holding one authority, which is
      what the filter grants: riders may request rides and list their own,
      drivers may list pending rides and accept them, and both may
      complete. */
  lemma SingleAuthorityAccess(endpoint: Endpoint, name: string, role: string)
    ensures var principal := Some(Filter.Authentication(name, [role]));
      && (role == Users.ROLE_USER ==>
            (Permits(endpoint, principal) <==> endpoint in {CreateRide, GetUserRides, CompleteRide}))
      && (role == Users.ROLE_DRIVER ==>
            (Permits(endpoint, principal) <==> endpoint in {GetPendingRides, AcceptRide, CompleteRide}))
      && (!Users.IsRole(role) ==> !Permits(endpoint, principal))
  {
    var principal := Some(Filter.Authentication(name, [role]));
    assert Permits(endpoint, principal) <==> role in RequiredAuthorities(endpoint) by {
      assert principal.value.authorities[0] == role;
    }
  }

  /** What an endpoint answers: refused by the role guard, or the service's
      result. */
  datatype Response<+T> = Denied | Served(result: Result<T>)

  class RideController {
    const rideService: Rides.RideService

    constructor (rideService: Rides.RideService)
      ensures this.rideService == rideService
    {
      this.rideService := rideService;
    }

    method CreateRide(payload: Rides.CreateRideRequest, authentication: Option<Filter.Authentication>,
                      rideId: string, now: int) returns (response: Response<Rides.Ride>)
      requires rideService.Valid() && rideId !in rideService.rides
      modifies rideService
      ensures rideService.Valid()
      ensures !Permits(Endpoint.CreateRide, authentication) ==>
        response == Denied && rideService.rides == old(rideService.rides)
      ensures Permits(Endpoint.CreateRide, authentication) ==>
        && response.Served?
        && Rides.Step(response.result, rideService.rides)
           == Rides.CreateOutcome(rideService.users.accounts, old(rideService.rides), payload,
                                  authentication.value.name, rideId, now)
    {
      if !Permits(Endpoint.CreateRide, authentication) {
        return Denied;
      }
      var ride := rideService.CreateRide(payload, authentication.value.name, rideId, now);
      response := Served(ride);
    }

    method GetUserRides(authentication: Option<Filter.Authentication>) returns (response: Response<set<Rides.Ride>>)
      ensures !Permits(Endpoint.GetUserRides, authentication) ==> response == Denied
      ensures Permits(Endpoint.GetUserRides, authentication) ==>
        response == Served(Rides.RidesOfUser(rideService.users.accounts, rideService.rides, authentication.value.name))
    {
      if !Permits(Endpoint.GetUserRides, authentication) {
        return Denied;
      }
      var rides := rideService.GetUserRides(authentication.value.name);
      response := Served(rides);
    }

    method GetPendingRides(authentication: Option<Filter.Authentication>) returns (response: Response<set<Rides.Ride>>)
      ensures !Permits(Endpoint.GetPendingRides, authentication) ==> response == Denied
      ensures Permits(Endpoint.GetPendingRides, authentication) ==>
        response == Served(Ok(Rides.Pending(rideService.rides)))
    {
      if !Permits(Endpoint.GetPendingRides, authentication) {
        return Denied;
      }
      var pending := rideService.GetPendingRides();
      response := Served(Ok(pending));
    }

    method AcceptRide(rideId: string, authentication: Option<Filter.Authentication>) returns (response: Response<Rides.Ride>)
      requires rideService.Valid()
      modifies rideService
      ensures rideService.Valid()
      ensures !Permits(Endpoint.AcceptRide, authentication) ==>
        response == Denied && rideService.rides == old(rideService.rides)
      ensures Permits(Endpoint.AcceptRide, authentication) ==>
        && response.Served?
        && Rides.Step(response.result, rideService.rides)
           == Rides.AcceptOutcome(rideService.users.accounts, old(rideService.rides), rideId, authentication.value.name)
    {
      if !Permits(Endpoint.AcceptRide, authentication) {
        return Denied;
      }
      var ride := rideService.AcceptRide(rideId, authentication.value.name);
      response := Served(ride);
    }

    method CompleteRide(rideId: string, authentication: Option<Filter.Authentication>) returns (response: Response<Rides.Ride>)
      requires rideService.Valid()
      modifies rideService
      ensures rideService.Valid()
      ensures !Permits(Endpoint.CompleteRide, authentication) ==>
        response == Denied && rideService.rides == old(rideService.rides)
      ensures Permits(Endpoint.CompleteRide, authentication) ==>
        && response.Served?
        && Rides.Step(response.result, rideService.rides)
           == Rides.CompleteOutcome(rideService.users.accounts, old(rideService.rides), rideId, authentication.value.name)
    {
      if !Permits(Endpoint.CompleteRide, authentication) {
        return Denied;
      }
      var ride := rideService.CompleteRide(rideId, authentication.value.name);
      response := Served(ride);
    }
  }
}

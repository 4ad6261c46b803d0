/**
 * The ride lifecycle as pure state transitions.
 *
 * A `RideState` is a snapshot of the fields of one `Ride` object and a
 * `DriverState` a snapshot of one `Driver` object. The only mutable state the
 * lifecycle touches outside the ride is each driver's availability flag, so a
 * `World` pairs the ride with the drivers it can reach, keyed by object
 * identity `D`. The rider is carried as an opaque reference `R`: nothing in
 * the lifecycle reads or writes it.
 *
 * Java's null driver is `None`. Where the program would dereference it, the
 * operation yields `NullDereference` together with the state as it stands at
 * the throw: the writes made before the failing statement are kept. The
 * driver is the only nullable reference: rider, locations, vehicle type and
 * status are always values here.
 */
module Lifecycle {
  import opened Geometry

  datatype VehicleType = Bike | Sedan | Suv | Auto

  datatype RideStatus =
    | Requested
    | Confirmed
    | DriverOnTheWay
    | InProgress
    | Completed
    | Cancelled

  datatype Option<+T> = None | Some(value: T)

  /** The identifier drawn at construction; the random draw itself is the caller's. */
  datatype RideId = RideId(value: nat)

  datatype DriverState = DriverState(
    name: string,
    phone: string,
    location: Location,
    available: bool,
    vehicleType: VehicleType,
    rating: real)

  datatype RideState<R, D> = RideState(
    id: RideId,
    rider: R,
    pickup: Location,
    drop: Location,
    vehicleType: VehicleType,
    driver: Option<D>,
    status: RideStatus,
    fare: real)

  datatype World<R, D> = World(ride: RideState<R, D>, drivers: map<D, DriverState>)

  /** How an operation ends: normally, or with a null-pointer fault after the writes it made. */
  datatype Outcome<R, D> = Normal(world: World<R, D>) | NullDereference(world: World<R, D>)

  const BaseFare: real := 50.0
  const RatePerUnit: real := 10.0

  /** The final fields of a ride, fixed at construction, agree. */
  predicate SameTrip<R(==), D(==)>(r: RideState<R, D>, r': RideState<R, D>) {
    && r'.id == r.id
    && r'.rider == r.rider
    && r'.pickup == r.pickup
    && r'.drop == r.drop
    && r'.vehicleType == r.vehicleType
  }

  /** Every non-null reference denotes a live object: the bound driver is one of the world's drivers. */
  predicate Valid<R, D(==)>(w: World<R, D>) {
    w.ride.driver.Some? ==> w.ride.driver.value in w.drivers
  }

  /** The two drivers' maps agree everywhere except possibly at `d`. */
  predicate SameExceptAt<D(==)>(m: map<D, DriverState>, m': map<D, DriverState>, d: D) {
    && m'.Keys == m.Keys
    && forall x :: x in m && x != d ==> m'[x] == m[x]
  }

  /** A new driver object: every constructor argument is kept and the driver starts available. */
  function NewDriver(name: string, phone: string, location: Location, vehicleType: VehicleType, rating: real)
    : (d: DriverState)
    ensures d.available
    ensures d.name == name && d.phone == phone && d.location == location
    ensures d.vehicleType == vehicleType && d.rating == rating
  {
    DriverState(name, phone, location, true, vehicleType, rating)
  }

  /** A new ride object: requested, with no driver and the Java default fare of zero. */
  function NewRide<R, D>(id: RideId, rider: R, pickup: Location, drop: Location, vehicleType: VehicleType)
    : (r: RideState<R, D>)
    ensures r.status == Requested && r.driver.None? && r.fare == 0.0
    ensures r.id == id && r.rider == rider && r.pickup == pickup && r.drop == drop
    ensures r.vehicleType == vehicleType
  {
    RideState(id, rider, pickup, drop, vehicleType, None, Requested, 0.0)
  }

  /** `setAvailable(flag)` on the driver object `d`. */
  function SetAvailable<D(==)>(drivers: map<D, DriverState>, d: D, flag: bool): (m: map<D, DriverState>)
    requires d in drivers
    ensures d in m && m[d].available == flag
    ensures m[d] == drivers[d].(available := flag)
    ensures SameExceptAt(drivers, m, d)
  {
    drivers[d := drivers[d].(available := flag)]
  }

  /** The two writes `assignDriver` makes to the ride itself; an earlier driver is overwritten. */
  function BindDriver<R(==), D(==)>(r: RideState<R, D>, d: Option<D>): (r': RideState<R, D>)
    ensures r'.driver == d && r'.status == Confirmed
    ensures SameTrip(r, r') && r'.fare == r.fare
  {
    r.(driver := d, status := Confirmed)
  }

  /** `updateStatus(s)`: any status may follow any other, and nothing but the status changes. */
  function UpdateStatus<R(==), D(==)>(r: RideState<R, D>, s: RideStatus): (r': RideState<R, D>)
    ensures r'.status == s
    ensures SameTrip(r, r') && r'.driver == r.driver && r'.fare == r.fare
  {
    r.(status := s)
  }

  /** The fare for a trip of length `distance`: a base of 50 plus 10 per unit. */
  function Fare(distance: real): (fare: real)
    ensures 0.0 <= distance ==> BaseFare <= fare
    ensures distance == 0.0 ==> fare == BaseFare
  {
    BaseFare + RatePerUnit * distance
  }

  /**
   * `calculateFare()`, where `dist` is what `pickup.distanceTo(drop)` returns.
   * The fare is at least the base fare, and equals it exactly when pickup and
   * drop share their coordinates.
   */
  function CalculateFare<R(==), D(==)>(r: RideState<R, D>, dist: real): (r': RideState<R, D>)
    requires IsDistance(r.pickup, r.drop, dist)
    ensures r'.fare == Fare(dist)
    ensures BaseFare <= r'.fare
    ensures r'.fare == BaseFare <==> SameSpot(r.pickup, r.drop)
    ensures SameTrip(r, r') && r'.driver == r.driver && r'.status == r.status
  {
    ZeroDistanceIffSameSpot(r.pickup, r.drop, dist);
    r.(fare := Fare(dist))
  }

  /**
   * `assignDriver(d)`: bind `d`, confirm the ride, and mark `d` unavailable.
   * With a null `d` the ride is still bound and confirmed, then the call to
   * `setAvailable` faults. No other driver changes, and a previously bound
   * driver is left as it was.
   */
  function AssignDriver<R(==), D(==)>(w: World<R, D>, d: Option<D>): (o: Outcome<R, D>)
    requires d.Some? ==> d.value in w.drivers
    ensures o.Normal? <==> d.Some?
    ensures o.world.ride.driver == d && o.world.ride.status == Confirmed
    ensures SameTrip(w.ride, o.world.ride) && o.world.ride.fare == w.ride.fare
    ensures d.Some? ==> d.value in o.world.drivers && !o.world.drivers[d.value].available
    ensures d.Some? ==> o.world.drivers[d.value] == w.drivers[d.value].(available := false)
    ensures d.Some? ==> SameExceptAt(w.drivers, o.world.drivers, d.value)
    ensures d.None? ==> o.world.drivers == w.drivers
    ensures Valid(o.world)
  {
    var ride := BindDriver(w.ride, d);
    match d
    case None => NullDereference(World(ride, w.drivers))
    case Some(x) => Normal(World(ride, SetAvailable(w.drivers, x, false)))
  }

  /**
   * `completeRide()`: set the status to COMPLETED, compute the fare, then
   * release the bound driver. Without a bound driver the first two writes
   * happen and the release faults.
   */
  function CompleteRide<R(==), D(==)>(w: World<R, D>, dist: real): (o: Outcome<R, D>)
    requires Valid(w)
    requires IsDistance(w.ride.pickup, w.ride.drop, dist)
    ensures o.Normal? <==> w.ride.driver.Some?
    ensures o.world.ride.status == Completed
    ensures o.world.ride.fare == Fare(dist)
    ensures SameTrip(w.ride, o.world.ride) && o.world.ride.driver == w.ride.driver
    ensures o.Normal? ==> w.ride.driver.value in o.world.drivers && o.world.drivers[w.ride.driver.value].available
    ensures o.Normal? ==> o.world.drivers[w.ride.driver.value] == w.drivers[w.ride.driver.value].(available := true)
    ensures o.Normal? ==> SameExceptAt(w.drivers, o.world.drivers, w.ride.driver.value)
    ensures o.NullDereference? ==> o.world.drivers == w.drivers
    ensures Valid(o.world)
  {
    var ride := CalculateFare(UpdateStatus(w.ride, Completed), dist);
    match w.ride.driver
    case None => NullDereference(World(ride, w.drivers))
    case Some(x) => Normal(World(ride, SetAvailable(w.drivers, x, true)))
  }
}

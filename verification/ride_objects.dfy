/**
 * The program's objects as Dafny classes, and the demonstration in `main`.
 *
 * Each class exposes its fields as a `Snapshot()` value, and each mutator
 * promises that the snapshots after the call are what the pure transition of
 * `Lifecycle` makes of the snapshots before it. The `modifies` clauses are
 * the frames: `assignDriver` and `completeRide` write the ride and the one
 * driver they touch, `updateStatus` and `calculateFare` the ride alone.
 */
module RideObjects {
  import opened Geometry
  import opened Lifecycle

  class Rider {
    const name: string
    const phone: string
    var location: Location

    constructor (name: string, phone: string, location: Location)
      ensures this.name == name && this.phone == phone && this.location == location
    {
      this.name := name;
      this.phone := phone;
      this.location := location;
    }
  }

  class Driver {
    const name: string
    const phone: string
    var location: Location
    var available: bool
    var vehicleType: VehicleType
    var rating: real

    function Snapshot(): DriverState
      reads this
    {
      DriverState(name, phone, location, available, vehicleType, rating)
    }

    constructor (name: string, phone: string, location: Location, vehicleType: VehicleType, rating: real)
      ensures Snapshot() == NewDriver(name, phone, location, vehicleType, rating)
    {
      this.name := name;
      this.phone := phone;
      this.location := location;
      this.available := true;
      this.vehicleType := vehicleType;
      this.rating := rating;
    }

    method SetAvailable(flag: bool)
      modifies this
      ensures Snapshot() == old(Snapshot()).(available := flag)
    {
      available := flag;
    }
  }

  class Ride {
    const id: RideId
    const rider: Rider
    const pickup: Location
    const drop: Location
    const vehicleType: VehicleType
    var driver: Driver?
    var status: RideStatus
    var fare: real

    function Snapshot(): RideState<Rider, Driver>
      reads this
    {
      RideState(id, rider, pickup, drop, vehicleType,
                if driver == null then None else Some(driver as Driver), status, fare)
    }

    /** The world this ride sees when `d` is the only driver it can reach. */
    function WorldWith(d: Driver): World<Rider, Driver>
      reads this, d
    {
      World(Snapshot(), map[d := d.Snapshot()])
    }

    /** `id` stands for the UUID the program draws at construction. */
    constructor (id: RideId, rider: Rider, pickup: Location, drop: Location, vehicleType: VehicleType)
      ensures Snapshot() == NewRide(id, rider, pickup, drop, vehicleType)
    {
      this.id := id;
      this.rider := rider;
      this.pickup := pickup;
      this.drop := drop;
      this.vehicleType := vehicleType;
      this.status := Requested;
      this.fare := 0.0;
      this.driver := null;
    }

    method AssignDriver(d: Driver)
      modifies this, d
      ensures Lifecycle.AssignDriver(old(WorldWith(d)), Some(d)) == Normal(WorldWith(d))
    {
      driver := d;
      status := Confirmed;
      d.SetAvailable(false);
    }

    method UpdateStatus(s: RideStatus)
      modifies this
      ensures Snapshot() == Lifecycle.UpdateStatus(old(Snapshot()), s)
    {
      status := s;
    }

    /** `dist` is the value of `pickup.distanceTo(drop)`. */
    method CalculateFare(dist: real)
      requires IsDistance(pickup, drop, dist)
      modifies this
      ensures Snapshot() == Lifecycle.CalculateFare(old(Snapshot()), dist)
    {
      fare := Fare(dist);
    }

    /** The program dereferences `driver` here; the model asks for one to be bound. */
    method CompleteRide(dist: real)
      requires driver != null
      requires IsDistance(pickup, drop, dist)
      modifies this, driver
      ensures driver == old(driver)
      ensures Lifecycle.CompleteRide(old(WorldWith(driver)), dist) == Normal(WorldWith(driver))
    {
      UpdateStatus(Completed);
      CalculateFare(dist);
      driver.SetAvailable(true);
    }
  }

  const CityCenter: Location := Location("City Center", 0.0, 0.0)
  const Suburb: Location := Location("Suburb", 5.0, 5.0)
  const RemoteArea: Location := Location("Remote Area", 100.0, 100.0)

  /**
   * The demonstration in `main`: one ride from the city centre to the suburb,
   * driven by the first driver through the whole lifecycle. `dist` is the
   * value of `Math.sqrt(50)` and `id` the UUID drawn for the ride.
   * The first driver's availability after each step is `availability`; the
   * final check of `main`, whether neither driver is available, is
   * `noneAvailable`.
   */
  method Scenario(id: RideId, dist: real)
    returns (status: RideStatus, fare: real, availability: seq<bool>, secondAvailable: bool, noneAvailable: bool)
    requires IsDistance(CityCenter, Suburb, dist)
    ensures status == Completed
    ensures fare == Fare(dist) && BaseFare < fare
    ensures availability == [true, false, false, false, true]
    ensures secondAvailable
    ensures !noneAvailable
  {
    var driver1 := new Driver("Alice", "111-222", CityCenter, Sedan, 4.9);
    var driver2 := new Driver("Bob", "333-444", Suburb, Suv, 4.7);
    var rider1 := new Rider("Charlie", "555-666", CityCenter);
    var rider2 := new Rider("Dave", "777-888", RemoteArea);

    var ride1 := new Ride(id, rider1, CityCenter, Suburb, Sedan);
    availability := [driver1.available];
    ride1.AssignDriver(driver1);
    availability := availability + [driver1.available];
    ride1.UpdateStatus(DriverOnTheWay);
    availability := availability + [driver1.available];
    ride1.UpdateStatus(InProgress);
    availability := availability + [driver1.available];
    ride1.CompleteRide(dist);
    availability := availability + [driver1.available];

    status := ride1.status;
    fare := ride1.fare;
    secondAvailable := driver2.available;
    noneAvailable := !driver1.available && !secondAvailable;
  }
}

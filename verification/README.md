# Ride lifecycle of the Humsafar ride-hailing simulation

A Dafny model of the one piece of behaviour in `Main.java`: the lifecycle of a
`Ride`. A ride is created REQUESTED with no driver and a zero fare;
`assignDriver` binds a driver, confirms the ride and marks the driver
unavailable; `updateStatus` sets any status at all; `completeRide` sets
COMPLETED, computes `fare = 50 + 10 * distance(pickup, drop)` and marks the
bound driver available again. The driver's availability flag lives on a
separate `Driver` object, so the lifecycle has a side effect outside the ride.

Files and modules:

- `geometry.dfy`, module `Geometry`: `Location` and the Euclidean distance.
  `Math.sqrt` has no counterpart over Dafny's reals, so a distance is a value
  `d` characterised by `IsDistance(a, b, d)`: `d >= 0` and
  `d * d == dx * dx + dy * dy`. Symmetry, uniqueness and "zero exactly at the
  same coordinates" are proved from that.
- `lifecycle.dfy`, module `Lifecycle`: the enums, value snapshots of the
  `Driver` and `Ride` objects, and each operation as a pure transition. A
  `World` is the ride plus the drivers it can reach, keyed by object identity.
  A Java `null` driver is `None`; where the program dereferences it, the
  transition ends in `NullDereference` carrying the writes made before the
  throw (the ride is already CONFIRMED, or already COMPLETED with its fare).
- `runs.dfy`, module `Runs`: sequences of calls on one ride, stopping at the
  first fault, and properties over whole sequences: which drivers can change,
  that only `completeRide` releases a driver, when a fault can happen.
- `ride_objects.dfy`, module `RideObjects`: the program's classes as Dafny
  classes with `modifies` frames. Each mutator is proved to leave the objects
  in the state the corresponding `Lifecycle` transition describes. `Scenario`
  replays the demonstration in `main`.

The model follows the code, not a hardened design. `assignDriver` on a ride
that already has a driver silently overwrites the binding and leaves the
earlier driver unavailable. `updateStatus` accepts every transition, including
REQUESTED to COMPLETED. Cancelling a ride does not release its driver. None of
these is an error in the code, so none is an error here; the lemmas
`Runs.ReassignKeepsFirstDriverBusy`, `Runs.StatusUpdatesOnlySetStatus`,
`Runs.CancelKeepsDriverBusy` and `Runs.OnlyCompletionReleases` state them.

## Model

| member | source | states |
|---|---|---|
| Geometry.SquaredDistance | Main.java:28-32 | the radicand of `distanceTo` is non-negative and is zero exactly when both coordinates agree |
| Geometry.DistanceSymmetric | Main.java:28-32 | `a.distanceTo(b)` and `b.distanceTo(a)` are the same value |
| Geometry.DistanceUnique | Main.java:28-32 | two non-negative roots of the same radicand are equal, so the distance is a function of the two locations |
| Geometry.ZeroDistanceIffSameSpot | Main.java:28-32 | the distance is 0 exactly when pickup and drop have equal coordinates |
| Geometry.SameSpotIsDistanceZero | Main.java:28-32 | two locations with equal coordinates are at distance 0 |
| Lifecycle.NewDriver | Main.java:82-88 | a new driver keeps every constructor argument and starts available |
| Lifecycle.NewRide | Main.java:111-122 | a new ride is REQUESTED with no driver and fare 0 and keeps its id, rider, pickup, drop and vehicle type |
| Lifecycle.SetAvailable | Main.java:92 | `setAvailable` sets the flag of one driver and leaves every other driver as it was |
| Lifecycle.BindDriver | Main.java:124-126 | the ride side of `assignDriver`: the driver becomes the given one, the status CONFIRMED, the fare and final fields stay |
| Lifecycle.UpdateStatus | Main.java:130-132 | the status becomes exactly the requested one from any status; binding, fare and final fields stay |
| Lifecycle.Fare | Main.java:136 | a non-negative distance gives a fare of at least 50, and distance 0 gives exactly 50 |
| Lifecycle.CalculateFare | Main.java:134-137 | the fare becomes `50 + 10 * distance(pickup, drop)`, is at least 50, and equals 50 exactly when pickup and drop share coordinates; nothing else changes |
| Lifecycle.AssignDriver | Main.java:124-128 | binds the driver, confirms the ride and makes that driver unavailable, no other driver changes; a null driver faults after binding and confirming |
| Lifecycle.CompleteRide | Main.java:134-143 | sets COMPLETED and the fare, then makes the bound driver available, no other driver changes; with non-null pickup and drop it faults exactly when no driver is bound, after the status and fare were written |
| Runs.Step | Main.java:124-143 | one call keeps the set of drivers and the final fields; with non-null locations and status it faults only on `assignDriver(null)` or on `completeRide` without a driver |
| Runs.Run | Main.java:124-143 | a sequence of calls keeps the set of drivers, the final fields and every reference live |
| Runs.UnboundDriverUntouched | Main.java:124-143 | a driver neither bound nor passed to `assignDriver` keeps its state through any sequence of calls |
| Runs.OnlyCompletionReleases | Main.java:124-143 | without `completeRide`, an unavailable driver stays unavailable, whatever statuses are set |
| Runs.BoundRideNeverFaults | Main.java:139-143 | once a driver is bound, no sequence of calls without `assignDriver(null)` faults, for non-null pickup and drop |
| Runs.StatusUpdatesOnlySetStatus | Main.java:130-132 | any sequence of status updates succeeds, ends in the last status given and changes nothing else |
| Runs.UpdateStatusLastWins | Main.java:130-132 | two updates keep only the second; updating to the current status changes nothing |
| Runs.CalculateFareIdempotent | Main.java:134-137 | recomputing the fare gives the same ride: the fare is not applied twice |
| Runs.AssignThenCompleteRestoresDrivers | Main.java:124-143 | assigning an available driver and completing the ride leaves every driver as it started |
| Runs.ReassignKeepsFirstDriverBusy | Main.java:124-128 | a second `assignDriver` overwrites the binding and the first driver stays unavailable |
| Runs.CancelKeepsDriverBusy | Main.java:124-132 | assigning a driver and then cancelling leaves the ride CANCELLED with that driver bound and still unavailable |
| RideObjects.Driver.SetAvailable | Main.java:92 | the driver object's flag is set and its other fields stay |
| RideObjects.Ride.AssignDriver | Main.java:124-128 | the ride and driver objects end as `Lifecycle.AssignDriver` prescribes; only they are written |
| RideObjects.Ride.UpdateStatus | Main.java:130-132 | the ride object ends as `Lifecycle.UpdateStatus` prescribes; only it is written |
| RideObjects.Ride.CalculateFare | Main.java:134-137 | the ride object ends as `Lifecycle.CalculateFare` prescribes; only it is written |
| RideObjects.Ride.CompleteRide | Main.java:139-143 | the ride and its driver end as `Lifecycle.CompleteRide` prescribes; only they are written |
| RideObjects.Scenario | Main.java:157-177 | in the demonstration the ride ends COMPLETED with a fare above 50, the first driver's availability runs true, false, false, false, true, the second driver stays available, so the check in `main` finds a driver available |

## Left out

- Console output in `main`: printing only; `Scenario` returns the values that are printed.
- `UUID.randomUUID()`: a random draw; the ride's id is a `RideId` passed to the constructor and never changed.
- `Math.sqrt` and `double` arithmetic: floating point; fares are exact reals, the distance is a parameter characterised by its square, and no decimal fare such as 120.71 is computed.
- Geometry.ZeroDistanceIffSameSpot: "distance 0 only at the same spot" holds for exact reals, not for doubles; a coordinate difference of 1e-200 squares to 0.0 by underflow, so distinct spots can be at distance 0.
- Lifecycle.CalculateFare: "fare 50 only at the same spot" holds for exact reals, not for doubles; `50 + 10 * 1e-17` rounds to 50.0, and the underflow above also gives 50.
- Null references other than the driver: the rider, pickup, drop, vehicle type and status are non-null values in the model. The code accepts null for each of them in the `Ride` constructor and in `updateStatus`. A null pickup or drop makes `calculateFare` throw, inside `completeRide` after COMPLETED is already written; that exception is not modelled.
- Lifecycle.CompleteRide: faults exactly when no driver is bound only for non-null pickup and drop; a null location would fault earlier, in `calculateFare`.
- Runs.Step: names `assignDriver(null)` and a driverless `completeRide` as the only faults, which holds for non-null pickup and drop only.
- Runs.BoundRideNeverFaults: holds for non-null pickup and drop only.
- Getters of `Location`, `User`, `Rider`, `Driver` and `Ride`: plain field reads; they are the fields of the snapshots.
- `Driver.setLocation`, `Driver.setRating` and `Rider.setLocation`: plain setters that no lifecycle operation calls and that touch no ride state.
- Driver matching: the code has none; the availability test at the end of `main` is a print, modelled only as the `noneAvailable` result of `Scenario`.
- RideObjects.Ride.CompleteRide: requires a bound driver, where the code throws a null-pointer exception after setting the status and fare; that faulting path is modelled by `Lifecycle.CompleteRide`.
- RideObjects.Ride.AssignDriver: takes a non-null driver, where the code accepts null and throws after binding and confirming; that path is modelled by `Lifecycle.AssignDriver`.

/**
 * Sequences of calls on one ride, and what they do to the drivers.
 *
 * A Java exception ends the calling sequence, so `Run` stops at the first
 * `NullDereference` and returns the state at the throw.
 */
module Runs {
  import opened Geometry
  import opened Lifecycle

  /** One public mutator call on the ride object. */
  datatype Call<D> =
    | AssignDriverCall(driver: Option<D>)
    | UpdateStatusCall(status: RideStatus)
    | CalculateFareCall
    | CompleteRideCall

  /** Every driver passed to `assignDriver` is null or one of the world's drivers. */
  predicate RefersTo<D(==)>(calls: seq<Call<D>>, drivers: map<D, DriverState>) {
    forall i :: 0 <= i < |calls| && calls[i].AssignDriverCall? && calls[i].driver.Some? ==>
      calls[i].driver.value in drivers
  }

  /** One call; the driver objects stay the same set and every reference stays live. */
  function Step<R(==), D(==)>(w: World<R, D>, c: Call<D>, dist: real): (o: Outcome<R, D>)
    requires Valid(w) && IsDistance(w.ride.pickup, w.ride.drop, dist)
    requires c.AssignDriverCall? && c.driver.Some? ==> c.driver.value in w.drivers
    ensures o.world.drivers.Keys == w.drivers.Keys
    ensures Valid(o.world) && SameTrip(w.ride, o.world.ride)
    ensures o.NullDereference? ==> c == AssignDriverCall(None) || (c == CompleteRideCall && w.ride.driver == None)
  {
    match c
    case AssignDriverCall(d) => AssignDriver(w, d)
    case UpdateStatusCall(s) => Normal(w.(ride := UpdateStatus(w.ride, s)))
    case CalculateFareCall => Normal(w.(ride := CalculateFare(w.ride, dist)))
    case CompleteRideCall => CompleteRide(w, dist)
  }

  /** The calls in order, up to the first fault. */
  function Run<R(==), D(==)>(w: World<R, D>, calls: seq<Call<D>>, dist: real): (o: Outcome<R, D>)
    requires Valid(w) && IsDistance(w.ride.pickup, w.ride.drop, dist) && RefersTo(calls, w.drivers)
    ensures o.world.drivers.Keys == w.drivers.Keys
    ensures Valid(o.world) && SameTrip(w.ride, o.world.ride)
    decreases |calls|
  {
    if |calls| == 0 then Normal(w)
    else
      match Step(w, calls[0], dist)
      case NullDereference(w') => NullDereference(w')
      case Normal(w') => Run(w', calls[1..], dist)
  }

  /**
   * A driver that is not bound to the ride and is never passed to
   * `assignDriver` is never written: the lifecycle touches no driver but the
   * one it binds.
   */
  lemma {:induction false} UnboundDriverUntouched<R, D>(
    w: World<R, D>, calls: seq<Call<D>>, dist: real, x: D)
    requires Valid(w) && IsDistance(w.ride.pickup, w.ride.drop, dist) && RefersTo(calls, w.drivers)
    requires x in w.drivers && w.ride.driver != Some(x)
    requires forall i :: 0 <= i < |calls| ==> calls[i] != AssignDriverCall(Some(x))
    ensures Run(w, calls, dist).world.drivers[x] == w.drivers[x]
    decreases |calls|
  {
    if |calls| > 0 {
      match Step(w, calls[0], dist)
      case NullDereference(w') =>
      case Normal(w') =>
        assert w'.drivers[x] == w.drivers[x];
        UnboundDriverUntouched(w', calls[1..], dist, x);
    }
  }

  /**
   * Only `completeRide` makes a driver available: without it, a busy driver
   * stays busy however the status moves, to CANCELLED or COMPLETED included.
   */
  lemma {:induction false} OnlyCompletionReleases<R, D>(
    w: World<R, D>, calls: seq<Call<D>>, dist: real, x: D)
    requires Valid(w) && IsDistance(w.ride.pickup, w.ride.drop, dist) && RefersTo(calls, w.drivers)
    requires x in w.drivers && !w.drivers[x].available
    requires forall i :: 0 <= i < |calls| ==> calls[i] != CompleteRideCall
    ensures !Run(w, calls, dist).world.drivers[x].available
    decreases |calls|
  {
    if |calls| > 0 {
      match Step(w, calls[0], dist)
      case NullDereference(w') =>
      case Normal(w') =>
        assert !w'.drivers[x].available;
        OnlyCompletionReleases(w', calls[1..], dist, x);
    }
  }

  /**
   * Once a driver is bound, no call faults unless `assignDriver(null)` is
   * among them: the null dereference in `completeRide` needs a ride that
   * never had a driver.
   */
  lemma {:induction false} BoundRideNeverFaults<R, D>(
    w: World<R, D>, calls: seq<Call<D>>, dist: real)
    requires Valid(w) && IsDistance(w.ride.pickup, w.ride.drop, dist) && RefersTo(calls, w.drivers)
    requires w.ride.driver.Some?
    requires forall i :: 0 <= i < |calls| ==> calls[i] != AssignDriverCall(None)
    ensures Run(w, calls, dist).Normal?
    decreases |calls|
  {
    if |calls| > 0 {
      match Step(w, calls[0], dist)
      case NullDereference(w') =>
        assert calls[0] != AssignDriverCall(None);
      case Normal(w') =>
        assert w'.ride.driver.Some?;
        BoundRideNeverFaults(w', calls[1..], dist);
    }
  }

  /**
   * A run of status updates alone never faults, leaves every driver, the
   * binding and the fare as they were, and ends in the last status given,
   * whatever the order: no transition is refused.
   */
  lemma {:induction false} StatusUpdatesOnlySetStatus<R, D>(
    w: World<R, D>, calls: seq<Call<D>>, dist: real)
    requires Valid(w) && IsDistance(w.ride.pickup, w.ride.drop, dist) && RefersTo(calls, w.drivers)
    requires |calls| > 0
    requires forall i :: 0 <= i < |calls| ==> calls[i].UpdateStatusCall?
    ensures Run(w, calls, dist).Normal?
    ensures Run(w, calls, dist).world.drivers == w.drivers
    ensures Run(w, calls, dist).world.ride.driver == w.ride.driver
    ensures Run(w, calls, dist).world.ride.fare == w.ride.fare
    ensures Run(w, calls, dist).world.ride.status == calls[|calls| - 1].status
    decreases |calls|
  {
    var w' := w.(ride := UpdateStatus(w.ride, calls[0].status));
    assert Step(w, calls[0], dist) == Normal(w');
    if |calls| > 1 {
      StatusUpdatesOnlySetStatus(w', calls[1..], dist);
    }
  }

  /** Setting a status twice keeps only the second; setting the current one changes nothing. */
  lemma UpdateStatusLastWins<R, D>(r: RideState<R, D>, a: RideStatus, b: RideStatus)
    ensures UpdateStatus(UpdateStatus(r, a), b) == UpdateStatus(r, b)
    ensures UpdateStatus(r, r.status) == r
  {
  }

  /** Recomputing the fare gives the same fare: it is not applied twice. */
  lemma CalculateFareIdempotent<R, D>(r: RideState<R, D>, dist: real)
    requires IsDistance(r.pickup, r.drop, dist)
    ensures CalculateFare(CalculateFare(r, dist), dist) == CalculateFare(r, dist)
  {
  }

  /**
   * Assigning a driver and completing the ride releases that driver: if it
   * was available before, the drivers end exactly as they started.
   */
  lemma AssignThenCompleteRestoresDrivers<R, D>(w: World<R, D>, x: D, dist: real)
    requires Valid(w) && IsDistance(w.ride.pickup, w.ride.drop, dist)
    requires x in w.drivers && w.drivers[x].available
    ensures AssignDriver(w, Some(x)).Normal?
    ensures CompleteRide(AssignDriver(w, Some(x)).world, dist).Normal?
    ensures CompleteRide(AssignDriver(w, Some(x)).world, dist).world.drivers == w.drivers
    ensures CompleteRide(AssignDriver(w, Some(x)).world, dist).world.ride.driver == Some(x)
  {
    var m := CompleteRide(AssignDriver(w, Some(x)).world, dist).world.drivers;
    assert m[x] == w.drivers[x];
    assert forall y :: y in w.drivers ==> m[y] == w.drivers[y];
  }

  /**
   * Assigning a second driver overwrites the first binding without releasing
   * the first driver: both end unavailable.
   */
  lemma ReassignKeepsFirstDriverBusy<R, D>(w: World<R, D>, p: D, q: D)
    requires Valid(w) && p in w.drivers && q in w.drivers
    ensures AssignDriver(w, Some(p)).Normal?
    ensures AssignDriver(AssignDriver(w, Some(p)).world, Some(q)).world.ride.driver == Some(q)
    ensures !AssignDriver(AssignDriver(w, Some(p)).world, Some(q)).world.drivers[p].available
    ensures !AssignDriver(AssignDriver(w, Some(p)).world, Some(q)).world.drivers[q].available
  {
  }

  /**
   * Assigning a driver and then cancelling the ride keeps the driver bound and
   * unavailable: cancellation releases nobody.
   */
  lemma CancelKeepsDriverBusy<R, D>(w: World<R, D>, x: D, dist: real)
    requires Valid(w) && IsDistance(w.ride.pickup, w.ride.drop, dist) && x in w.drivers
    ensures var o := Run(w, [AssignDriverCall(Some(x)), UpdateStatusCall(Cancelled)], dist);
      && o.Normal?
      && o.world.ride.status == Cancelled
      && o.world.ride.driver == Some(x)
      && !o.world.drivers[x].available
  {
    var calls := [AssignDriverCall(Some(x)), UpdateStatusCall(Cancelled)];
    var w1 := AssignDriver(w, Some(x)).world;
    assert Step(w, calls[0], dist) == Normal(w1);
    var w2 := w1.(ride := UpdateStatus(w1.ride, Cancelled));
    assert Step(w1, calls[1..][0], dist) == Normal(w2);
    assert calls[1..][1..] == [];
    assert Run(w2, calls[1..][1..], dist) == Normal(w2);
  }
}

/**
 * The ride store: trip planning (pickup, destination, ride type, fare estimate, shared-ride
 * split), the loyalty balance with its threshold discount, and the booking lifecycle
 * (book, cancel, complete).
 *
 * Money is an exact `real`; `Math.round(x * 100) / 100` is `RoundToCents`. A fare can also be
 * NaN, because the rate table has no entry for the `Auto` ride type and JavaScript turns
 * `distance * undefined` into NaN. `Math.sqrt` is not computed: the store is given a square-root
 * function of which only non-negativity is assumed.
 */
module Rides {
  import opened Wrappers

  datatype RideType = Economy | Auto | Premium | Suv | Bike

  datatype Location = Location(lat: real, lng: real, address: string)

  datatype RideStatus = Pending | Confirmed | InProgress | Completed | Cancelled

  /** A JavaScript number as the store can hold it: a finite value or NaN. */
  datatype JsNumber = Num(value: real) | NaN {
    /** JavaScript truthiness: 0 and NaN are falsy. */
    predicate Truthy() {
      Num? && value != 0.0
    }
  }

  datatype Ride = Ride(
    id: string,
    userId: string,
    driverId: Option<string>,
    driverName: Option<string>,
    driverAvatar: Option<string>,
    driverRating: Option<real>,
    pickup: Location,
    destination: Location,
    rideType: RideType,
    fare: JsNumber,
    sharedRide: Option<bool>,
    splitCount: Option<int>,
    status: RideStatus,
    createdAt: string,
    completedAt: Option<string>,
    rating: Option<int>,
    feedback: Option<string>)

  const BaseFare: real := 5.0
  const KmPerDegree: real := 111.0
  const LoyaltyDiscountPercent: int := 10
  const LoyaltyDiscountThreshold: int := 100
  const DefaultSplitCount: int := 2
  const PointsPerRide: int := 20
  const InitialLoyaltyPoints: int := 40

  /** FARE_RATES, per km. The table has no entry for `Auto`, so the lookup is partial. */
  function FareRate(t: RideType): (r: Option<real>)
    ensures r.None? <==> t == Auto
    ensures r.Some? ==> r.value > 0.0
  {
    match t
    case Economy => Some(1.5)
    case Premium => Some(2.5)
    case Suv => Some(3.0)
    case Bike => Some(0.8)
    case Auto => None
  }

  /** `x` is a whole number of cents. */
  predicate IsCents(x: real) {
    (x * 100.0).Floor as real == x * 100.0
  }

  /** `Math.round(x * 100) / 100`: the nearest whole cent, halves rounded up. */
  function RoundToCents(x: real): (r: real)
    ensures IsCents(r)
    ensures x - 0.005 < r <= x + 0.005
  {
    ((x * 100.0 + 0.5).Floor as real) / 100.0
  }

  /** Rounding is the identity on amounts that are already whole cents. */
  lemma RoundToCentsKeepsCents(x: real)
    requires IsCents(x)
    ensures RoundToCents(x) == x
  {
    var k := (x * 100.0).Floor;
    assert (x * 100.0 + 0.5).Floor == k;
  }

  /** Rounding to cents is monotone. */
  lemma RoundToCentsMonotone(x: real, y: real)
    requires x <= y
    ensures RoundToCents(x) <= RoundToCents(y)
  {
    var a, b := (x * 100.0 + 0.5).Floor, (y * 100.0 + 0.5).Floor;
    assert x * 100.0 <= y * 100.0;
    assert a as real <= y * 100.0 + 0.5 < b as real + 1.0;
    assert a <= b;
    assert RoundToCents(x) == a as real / 100.0 && RoundToCents(y) == b as real / 100.0;
  }

  /** A fare of at least the base fare still is after rounding. */
  lemma RoundedFareAtLeastBase(exact: real)
    ensures exact >= BaseFare ==> RoundToCents(exact) >= BaseFare
  {
    if exact >= BaseFare {
      RoundToCentsMonotone(BaseFare, exact);
      RoundToCentsKeepsCents(BaseFare);
    }
  }

  /** The stand-in for `Math.sqrt`: it never returns a negative number for a non-negative argument. */
  ghost predicate SqrtNonNegative(sqrt: real -> real) {
    forall x :: 0.0 <= x ==> 0.0 <= sqrt(x)
  }

  /** The "simplified" distance: Euclidean distance in degrees, times 111 km per degree. */
  function Distance(pickup: Location, destination: Location, sqrt: real -> real): (d: real)
    ensures SqrtNonNegative(sqrt) ==> d >= 0.0
  {
    var dLat, dLng := destination.lat - pickup.lat, destination.lng - pickup.lng;
    assert dLat * dLat + dLng * dLng >= 0.0;
    sqrt(dLat * dLat + dLng * dLng) * KmPerDegree
  }

  /**
   * The fare `calculateFare` stores: 0 without both locations, NaN for a ride type without a
   * rate, otherwise base fare plus distance times rate, rounded to cents.
   */
  function EstimateFare(pickup: Option<Location>, destination: Option<Location>, t: RideType,
                        sqrt: real -> real): (r: JsNumber)
    ensures pickup.None? || destination.None? ==> r == Num(0.0)
    ensures pickup.Some? && destination.Some? && t == Auto ==> r == NaN
    ensures pickup.Some? && destination.Some? && FareRate(t).Some? ==>
      var exact := BaseFare + Distance(pickup.value, destination.value, sqrt) * FareRate(t).value;
      r.Num? && IsCents(r.value) && exact - 0.005 < r.value <= exact + 0.005
    ensures pickup.Some? && destination.Some? && FareRate(t).Some? && SqrtNonNegative(sqrt) ==>
      r.Num? && r.value >= BaseFare
  {
    if pickup.None? || destination.None? then Num(0.0)
    else
      var distance := Distance(pickup.value, destination.value, sqrt);
      match FareRate(t)
      case None => NaN
      case Some(rate) =>
        var exact := BaseFare + distance * rate;
        RoundedFareAtLeastBase(exact);
        Num(RoundToCents(exact))
  }

  /** `getLoyaltyDiscountPercent`: 10 from 100 points on, 0 below. */
  function DiscountPercent(points: int): (r: int)
    ensures r == 0 || r == LoyaltyDiscountPercent
    ensures r == LoyaltyDiscountPercent <==> points >= LoyaltyDiscountThreshold
  {
    if points >= LoyaltyDiscountThreshold then LoyaltyDiscountPercent else 0
  }

  /** `applyLoyaltyDiscount`: unchanged below the threshold, otherwise 90% rounded to cents. */
  function ApplyDiscount(points: int, fare: JsNumber): (r: JsNumber)
    ensures points < LoyaltyDiscountThreshold ==> r == fare
    ensures r.NaN? <==> fare.NaN?
    ensures points >= LoyaltyDiscountThreshold && fare.Num? ==>
      IsCents(r.value) && fare.value * 0.9 - 0.005 < r.value <= fare.value * 0.9 + 0.005
  {
    var percent := DiscountPercent(points);
    if percent == 0 then fare
    else
      match fare
      case NaN => NaN
      case Num(f) => Num(RoundToCents(f * (1.0 - percent as real / 100.0)))
  }

  /** The discount never makes a non-negative whole-cent fare more expensive. */
  lemma DiscountNeverRaisesFare(points: int, f: real)
    requires IsCents(f) && f >= 0.0
    ensures ApplyDiscount(points, Num(f)).value <= f
  {
    if points >= LoyaltyDiscountThreshold {
      var c := (f * 100.0).Floor;
      assert c >= 0;
      var k := (f * 0.9 * 100.0 + 0.5).Floor;
      assert f * 0.9 * 100.0 == 0.9 * c as real;
      assert k as real <= 0.9 * c as real + 0.5 < c as real + 1.0;
      assert ApplyDiscount(points, Num(f)).value == k as real / 100.0;
    }
  }

  /** `Math.max(2, Math.min(4, count))`: the split count is kept within 2..4. */
  function ClampSplitCount(count: int): (r: int)
    ensures 2 <= r <= 4
    ensures 2 <= count <= 4 ==> r == count
    ensures count < 2 ==> r == 2
    ensures count > 4 ==> r == 4
  {
    var upper := if count < 4 then count else 4;
    if 2 < upper then upper else 2
  }

  /** The history entry `completeRide` makes of the current ride. */
  function CompletedRide(ride: Ride, rating: int, feedback: Option<string>, completedAt: string): (r: Ride)
    ensures r.status == Completed && r.rating == Some(rating) && r.feedback == feedback
    ensures r.completedAt == Some(completedAt)
    ensures r.(status := ride.status, rating := ride.rating, feedback := ride.feedback,
               completedAt := ride.completedAt) == ride
  {
    ride.(status := Completed, completedAt := Some(completedAt), rating := Some(rating), feedback := feedback)
  }

  /** The two fixed rides `loadRideHistory` installs. */
  function MockHistory(): seq<Ride> {
    [ Ride("ride-1", "1", Some("driver-1"), Some("Rajesh Kumar"), None, Some(4.9),
           Location(28.6139, 77.209, "Connaught Place, New Delhi"),
           Location(28.5535, 77.2588, "Nehru Place, New Delhi"),
           Premium, Num(450.0), None, None, Completed,
           "2026-02-13T10:30:00Z", Some("2026-02-13T11:00:00Z"), Some(5), None),
      Ride("ride-2", "1", Some("driver-2"), Some("Priya Sharma"), None, Some(4.7),
           Location(28.5562, 77.1, "IGI Airport Terminal 3, Delhi"),
           Location(28.6304, 77.2177, "India Gate, New Delhi"),
           Economy, Num(650.0), None, None, Completed,
           "2026-02-10T14:00:00Z", Some("2026-02-10T15:30:00Z"), Some(4), None) ]
  }

  class RideStore {
    /** Stands for `Math.sqrt` in the distance formula. */
    const sqrt: real -> real

    var currentRide: Option<Ride>
    var rideHistory: seq<Ride>
    var pickup: Option<Location>
    var destination: Option<Location>
    var selectedRideType: RideType
    var estimatedFare: JsNumber
    var sharedRide: bool
    var splitCount: int
    var loyaltyPoints: int
    var pointsPerRide: int
    var isLoading: bool

    /** The store's invariant: the estimate is always the fare of the current trip fields. */
    ghost predicate Valid()
      reads this
    {
      && SqrtNonNegative(sqrt)
      && estimatedFare == EstimateFare(pickup, destination, selectedRideType, sqrt)
      && 2 <= splitCount <= 4
      && pointsPerRide == PointsPerRide
    }

    /** Every field except the two locations and the estimate derived from them. */
    ghost function TripSettings(): (RideType, Option<Ride>, seq<Ride>, bool, int, int, bool)
      reads this
    {
      (selectedRideType, currentRide, rideHistory, sharedRide, splitCount, loyaltyPoints, isLoading)
    }

    constructor (sqrt: real -> real)
      requires SqrtNonNegative(sqrt)
      ensures Valid() && this.sqrt == sqrt
      ensures currentRide == None && rideHistory == [] && pickup == None && destination == None
      ensures selectedRideType == Economy && estimatedFare == Num(0.0)
      ensures !sharedRide && splitCount == DefaultSplitCount
      ensures loyaltyPoints == InitialLoyaltyPoints && pointsPerRide == PointsPerRide && !isLoading
    {
      this.sqrt := sqrt;
      currentRide := None;
      rideHistory := [];
      pickup := None;
      destination := None;
      selectedRideType := Economy;
      estimatedFare := Num(0.0);
      sharedRide := false;
      splitCount := DefaultSplitCount;
      loyaltyPoints := InitialLoyaltyPoints;
      pointsPerRide := PointsPerRide;
      isLoading := false;
    }

    /** `calculateFare`: stores the estimate for the current pickup, destination and ride type. */
    method CalculateFare()
      modifies this`estimatedFare
      ensures estimatedFare == EstimateFare(pickup, destination, selectedRideType, sqrt)
    {
      if pickup.None? || destination.None? {
        estimatedFare := Num(0.0);
        return;
      }
      var distance := Distance(pickup.value, destination.value, sqrt);
      var rate := FareRate(selectedRideType);
      if rate.None? {
        estimatedFare := NaN;
      } else {
        estimatedFare := Num(RoundToCents(BaseFare + distance * rate.value));
      }
    }

    /** `setPickup`; clearing the pickup field passes `None`. */
    method SetPickup(location: Option<Location>)
      requires Valid()
      modifies this
      ensures Valid()
      ensures pickup == location
      ensures estimatedFare == EstimateFare(location, destination, selectedRideType, sqrt)
      ensures destination == old(destination) && selectedRideType == old(selectedRideType)
      ensures currentRide == old(currentRide) && rideHistory == old(rideHistory)
      ensures sharedRide == old(sharedRide) && splitCount == old(splitCount)
      ensures loyaltyPoints == old(loyaltyPoints) && isLoading == old(isLoading)
    {
      pickup := location;
      CalculateFare();
    }

    /** `setDestination`; clearing the destination field passes `None`. */
    method SetDestination(location: Option<Location>)
      requires Valid()
      modifies this
      ensures Valid()
      ensures destination == location
      ensures estimatedFare == EstimateFare(pickup, location, selectedRideType, sqrt)
      ensures pickup == old(pickup) && selectedRideType == old(selectedRideType)
      ensures currentRide == old(currentRide) && rideHistory == old(rideHistory)
      ensures sharedRide == old(sharedRide) && splitCount == old(splitCount)
      ensures loyaltyPoints == old(loyaltyPoints) && isLoading == old(isLoading)
    {
      destination := location;
      CalculateFare();
    }

    /** `setRideType`. */
    method SetRideType(t: RideType)
      requires Valid()
      modifies this
      ensures Valid()
      ensures selectedRideType == t
      ensures estimatedFare == EstimateFare(pickup, destination, t, sqrt)
      ensures pickup == old(pickup) && destination == old(destination)
      ensures currentRide == old(currentRide) && rideHistory == old(rideHistory)
      ensures sharedRide == old(sharedRide) && splitCount == old(splitCount)
      ensures loyaltyPoints == old(loyaltyPoints) && isLoading == old(isLoading)
    {
      selectedRideType := t;
      CalculateFare();
    }

    /** `setSharedRide`. */
    method SetSharedRide(shared: bool)
      requires Valid()
      modifies this`sharedRide
      ensures Valid() && sharedRide == shared
    {
      sharedRide := shared;
    }

    /** `setSplitCount`: out-of-range requests are clamped into 2..4. */
    method SetSplitCount(count: int)
      requires Valid()
      modifies this`splitCount
      ensures Valid() && splitCount == ClampSplitCount(count)
    {
      var upper := if count < 4 then count else 4;
      splitCount := if 2 < upper then upper else 2;
    }

    /**
     * `bookRide`: the booked ride is confirmed, carries the discounted estimate, and records a
     * split count only for a shared ride. The id and the creation time are supplied by the caller.
     */
    method BookRide(id: string, createdAt: string)
      requires Valid() && pickup.Some? && destination.Some?
      modifies this`currentRide, this`isLoading
      ensures Valid() && !isLoading
      ensures currentRide == Some(Ride(id, "1", Some("driver-1"), Some("Michael Smith"),
        Some("/assets/driver.png"), Some(4.8), pickup.value, destination.value, selectedRideType,
        ApplyDiscount(loyaltyPoints, estimatedFare), Some(sharedRide),
        if sharedRide then Some(splitCount) else None, Confirmed, createdAt, None, None, None))
    {
      isLoading := true;
      var fare := ApplyDiscount(loyaltyPoints, estimatedFare);
      var split := if sharedRide then Some(splitCount) else None;
      var ride := Ride(id, "1", Some("driver-1"), Some("Michael Smith"), Some("/assets/driver.png"),
        Some(4.8), pickup.value, destination.value, selectedRideType, fare, Some(sharedRide), split,
        Confirmed, createdAt, None, None, None);
      currentRide := Some(ride);
      isLoading := false;
    }

    /** `cancelRide`: only the current ride's status changes. */
    method CancelRide()
      requires Valid()
      modifies this`currentRide
      ensures Valid()
      ensures old(currentRide).None? ==> currentRide == None
      ensures old(currentRide).Some? ==> currentRide == Some(old(currentRide).value.(status := Cancelled))
    {
      if currentRide.Some? {
        currentRide := Some(currentRide.value.(status := Cancelled));
      }
    }

    /**
     * `completeRide`: the current ride (if any) goes to the front of the history with its rating
     * and feedback, the points grow by `pointsPerRide` in any case, and the trip fields reset.
     */
    method CompleteRide(rating: int, feedback: Option<string>, completedAt: string)
      requires Valid()
      modifies this
      ensures Valid()
      ensures loyaltyPoints == old(loyaltyPoints) + PointsPerRide
      ensures currentRide == None
      ensures old(currentRide).None? ==> rideHistory == old(rideHistory)
      ensures old(currentRide).Some? ==>
        rideHistory == [CompletedRide(old(currentRide).value, rating, feedback, completedAt)] + old(rideHistory)
      ensures pickup == None && destination == None && estimatedFare == Num(0.0)
      ensures !sharedRide && splitCount == DefaultSplitCount
      ensures selectedRideType == old(selectedRideType) && isLoading == old(isLoading)
    {
      var updatedPoints := loyaltyPoints + pointsPerRide;
      if currentRide.Some? {
        rideHistory := [CompletedRide(currentRide.value, rating, feedback, completedAt)] + rideHistory;
      }
      currentRide := None;
      pickup := None;
      destination := None;
      estimatedFare := Num(0.0);
      sharedRide := false;
      splitCount := DefaultSplitCount;
      loyaltyPoints := updatedPoints;
    }

    /** `loadRideHistory`: replaces the history with the fixed mock rides. */
    method LoadRideHistory()
      requires Valid()
      modifies this`rideHistory, this`isLoading
      ensures Valid() && rideHistory == MockHistory() && !isLoading
    {
      isLoading := true;
      rideHistory := MockHistory();
      isLoading := false;
    }
  }
}

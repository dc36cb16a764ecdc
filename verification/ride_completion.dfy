/**
 * The ride-completed screen: the fare summary derived from the store, the tip and rating choices,
 * the compliment toggles, and the submit that completes the ride in the store.
 */
module RideCompletion {
  import opened Wrappers
  import opened Lists
  import Rides

  const TipAmounts: seq<int> := [0, 20, 50, 100]

  const Compliments: seq<string> := [
    "Great driving", "Clean car", "Friendly", "Good conversation", "Safe driver", "On time"
  ]

  /** The fare shown when neither the ride nor the estimate has a usable one. */
  const FallbackFare: real := 15.5

  function OtherCompliment(c: string): string -> bool {
    (x: string) => x != c
  }

  /**
   * `handleCompliment`: a selected compliment is removed (every occurrence of it), an unselected
   * one is added at the end.
   */
  function ToggleCompliment(selected: seq<string>, c: string): (r: seq<string>)
    ensures c in selected ==> (forall x :: x in r <==> x in selected && x != c) && Subsequence(r, selected)
    ensures c !in selected ==> r == selected + [c]
  {
    if c in selected then
      FilterIsSubsequence(selected, OtherCompliment(c));
      Filter(selected, OtherCompliment(c))
    else selected + [c]
  }

  /** Toggling an unselected compliment twice restores the selection. */
  lemma ToggleTwice(selected: seq<string>, c: string)
    requires c !in selected
    ensures ToggleCompliment(ToggleCompliment(selected, c), c) == selected
  {
    var keep := OtherCompliment(c);
    FilterConcat(selected, [c], keep);
    FilterKeepsAll(selected, keep);
    assert Filter([c], keep) == [];
  }

  /** A selection without repeats stays without repeats. */
  predicate NoRepeats(s: seq<string>) {
    forall i, j :: 0 <= i < j < |s| ==> s[i] != s[j]
  }

  lemma {:induction false} FilterNoRepeats(s: seq<string>, keep: string -> bool)
    requires NoRepeats(s)
    ensures NoRepeats(Filter(s, keep))
    decreases |s|
  {
    if s != [] {
      FilterNoRepeats(s[1..], keep);
      if keep(s[0]) {
        var r := Filter(s, keep);
        assert r[1..] == Filter(s[1..], keep);
        forall j | 1 <= j < |r| ensures r[0] != r[j] {
          assert r[j] in Filter(s[1..], keep);
          assert r[j] in s[1..];
        }
      }
    }
  }

  lemma ToggleKeepsNoRepeats(selected: seq<string>, c: string)
    requires NoRepeats(selected)
    ensures NoRepeats(ToggleCompliment(selected, c))
  {
    if c in selected {
      FilterNoRepeats(selected, OtherCompliment(c));
    }
  }

  /**
   * `currentRide?.fare || estimatedFare || 15.5`: the first truthy one of the ride's fare and the
   * estimate, else 15.5. Zero and NaN are skipped, so the shown fare is never zero or NaN.
   */
  function DisplayedFare(currentRide: Option<Rides.Ride>, estimatedFare: Rides.JsNumber): (f: real)
    ensures f != 0.0
    ensures currentRide.Some? && currentRide.value.fare.Truthy() ==> f == currentRide.value.fare.value
    ensures !(currentRide.Some? && currentRide.value.fare.Truthy()) && estimatedFare.Truthy() ==>
      f == estimatedFare.value
    ensures !(currentRide.Some? && currentRide.value.fare.Truthy()) && !estimatedFare.Truthy() ==>
      f == FallbackFare
  {
    if currentRide.Some? && currentRide.value.fare.Truthy() then currentRide.value.fare.value
    else if estimatedFare.Truthy() then estimatedFare.value
    else FallbackFare
  }

  /** An auto ride has no fare rate, so the screen shows the 15.5 placeholder for it. */
  lemma AutoRideShowsFallbackFare(ride: Rides.Ride, points: int, sqrt: real -> real)
    requires ride.rideType == Rides.Auto
    requires ride.fare == Rides.ApplyDiscount(points, Rides.EstimateFare(Some(ride.pickup), Some(ride.destination), Rides.Auto, sqrt))
    ensures DisplayedFare(Some(ride), Rides.EstimateFare(Some(ride.pickup), Some(ride.destination), Rides.Auto, sqrt)) == FallbackFare
  {
  }

  /** `currentRide?.splitCount || 2`. */
  function DisplayedSplitCount(currentRide: Option<Rides.Ride>): (n: int)
    ensures n != 0
    ensures currentRide.Some? && currentRide.value.splitCount.Some? && currentRide.value.splitCount.value != 0 ==>
      n == currentRide.value.splitCount.value
    ensures !(currentRide.Some? && currentRide.value.splitCount.Some? && currentRide.value.splitCount.value != 0) ==>
      n == Rides.DefaultSplitCount
  {
    if currentRide.Some? && currentRide.value.splitCount.Some? && currentRide.value.splitCount.value != 0 then
      currentRide.value.splitCount.value
    else Rides.DefaultSplitCount
  }

  /** `currentRide?.sharedRide`, truthy only when present and true. */
  predicate IsShared(currentRide: Option<Rides.Ride>) {
    currentRide.Some? && currentRide.value.sharedRide == Some(true)
  }

  /** The rider's share: the fare split evenly when shared, the whole fare otherwise. */
  function PerPersonFare(fare: real, shared: bool, splitCount: int): (p: real)
    requires splitCount != 0
    ensures shared ==> p * (splitCount as real) == fare
    ensures !shared ==> p == fare
  {
    if shared then fare / (splitCount as real) else fare
  }

  /** A positive fare split among 2 to 4 riders leaves each a positive share no larger than half the fare. */
  lemma ShareBounds(fare: real, splitCount: int)
    requires fare > 0.0 && 2 <= splitCount <= 4
    ensures 0.0 < PerPersonFare(fare, true, splitCount) <= fare / 2.0
  {
    var p := PerPersonFare(fare, true, splitCount);
    assert p * (splitCount as real) == fare;
  }

  /** The amount shown as the total: the share plus the tip. */
  function Total(perPerson: real, tip: int): (t: real)
    requires tip in TipAmounts
    ensures perPerson <= t <= perPerson + 100.0
    ensures t - perPerson == tip as real
  {
    perPerson + tip as real
  }

  /** The screen's state beside the ride store. */
  class CompletePage {
    const store: Rides.RideStore
    var rating: int
    var selectedTip: int
    var selectedCompliments: seq<string>
    var feedback: string

    /** The star rating stays within 1..5, the tip is one of the offered amounts, no compliment is selected twice. */
    ghost predicate Valid()
      reads this
    {
      1 <= rating <= 5 && selectedTip in TipAmounts && NoRepeats(selectedCompliments)
    }

    constructor (store: Rides.RideStore)
      ensures Valid() && this.store == store
      ensures rating == 5 && selectedTip == 0 && selectedCompliments == [] && feedback == ""
    {
      this.store := store;
      rating := 5;
      selectedTip := 0;
      selectedCompliments := [];
      feedback := "";
    }

    /** The fare line: the store's current ride fare, else its estimate, else 15.5. */
    function Fare(): real
      reads this, store
    {
      DisplayedFare(store.currentRide, store.estimatedFare)
    }

    /** The total line: the rider's share plus the chosen tip. */
    function ShownTotal(): (t: real)
      requires Valid()
      reads this, store
      ensures t >= PerPersonFare(Fare(), IsShared(store.currentRide), DisplayedSplitCount(store.currentRide))
    {
      Total(PerPersonFare(Fare(), IsShared(store.currentRide), DisplayedSplitCount(store.currentRide)), selectedTip)
    }

    /** A star button; only the five stars 1..5 exist. */
    method SetRating(star: int)
      requires Valid() && 1 <= star <= 5
      modifies this`rating
      ensures Valid() && rating == star
    {
      rating := star;
    }

    /** A tip button; only the offered amounts exist. */
    method SelectTip(amount: int)
      requires Valid() && amount in TipAmounts
      modifies this`selectedTip
      ensures Valid() && selectedTip == amount
    {
      selectedTip := amount;
    }

    /** `handleCompliment`. */
    method HandleCompliment(c: string)
      requires Valid()
      modifies this`selectedCompliments
      ensures Valid() && selectedCompliments == ToggleCompliment(old(selectedCompliments), c)
    {
      ToggleKeepsNoRepeats(selectedCompliments, c);
      selectedCompliments := ToggleCompliment(selectedCompliments, c);
    }

    method SetFeedback(text: string)
      modifies this`feedback
      ensures feedback == text
    {
      feedback := text;
    }

    /**
     * `handleSubmit`: completes the ride in the store with the chosen rating and the feedback text
     * (the empty string when none was typed). The tip and compliments are not sent.
     */
    method HandleSubmit(completedAt: string)
      requires Valid() && store.Valid()
      modifies store
      ensures store.Valid() && store.currentRide == None
      ensures store.loyaltyPoints == old(store.loyaltyPoints) + Rides.PointsPerRide
      ensures old(store.currentRide).Some? ==>
        store.rideHistory == [Rides.CompletedRide(old(store.currentRide).value, rating, Some(feedback), completedAt)]
          + old(store.rideHistory)
      ensures old(store.currentRide).None? ==> store.rideHistory == old(store.rideHistory)
      ensures store.pickup == None && store.destination == None && store.estimatedFare == Rides.Num(0.0)
      ensures !store.sharedRide && store.splitCount == Rides.DefaultSplitCount
      ensures store.selectedRideType == old(store.selectedRideType) && store.isLoading == old(store.isLoading)
    {
      store.CompleteRide(rating, Some(feedback), completedAt);
    }
  }
}

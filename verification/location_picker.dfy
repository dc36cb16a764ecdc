/**
 * The pickup/destination picker: the place search over the recent searches and the handlers that
 * write the chosen place into the ride store and into the two text fields.
 */
module LocationPicker {
  import opened Wrappers
  import opened Lists
  import opened Text
  import Rides

  datatype Place = Place(id: string, name: string, address: string, lat: real, lng: real)

  const RecentSearches: seq<Place> := [
    Place("1", "India Gate", "India Gate, Rajpath, New Delhi", 28.6129, 77.2295),
    Place("2", "Connaught Place", "Connaught Place, New Delhi", 28.6315, 77.2167),
    Place("3", "Hauz Khas Village", "Hauz Khas Village, New Delhi", 28.5494, 77.2001)
  ]

  /** The filter's test: the name or the address contains the query, both lower-cased. */
  function PlaceMatches(query: string): Place -> bool {
    (p: Place) => Contains(ToLower(p.name), ToLower(query)) || Contains(ToLower(p.address), ToLower(query))
  }

  /** Some recent place matches the query. */
  predicate AnyMatch(query: string) {
    exists i :: 0 <= i < |RecentSearches| && PlaceMatches(query)(RecentSearches[i])
  }

  /**
   * The results `handleSearch` settles on: nothing for a blank query, otherwise the matching recent
   * places, or every recent place when none matches.
   */
  function SearchResults(query: string): (r: seq<Place>)
    ensures IsBlank(query) <==> r == []
    ensures forall p :: p in r ==> p in RecentSearches
    ensures !IsBlank(query) && AnyMatch(query) ==>
      forall p :: p in r <==> p in RecentSearches && PlaceMatches(query)(p)
    ensures !IsBlank(query) && !AnyMatch(query) ==> r == RecentSearches
  {
    if IsBlank(query) then []
    else
      var found := Filter(RecentSearches, PlaceMatches(query));
      assert AnyMatch(query) ==> found != [] by {
        if AnyMatch(query) {
          var i :| 0 <= i < |RecentSearches| && PlaceMatches(query)(RecentSearches[i]);
          assert RecentSearches[i] in found;
        }
      }
      if |found| > 0 then found else RecentSearches
  }

  /** The results keep the order of the recent-search list. */
  lemma SearchResultsInOrder(query: string)
    ensures Subsequence(SearchResults(query), RecentSearches)
  {
    FilterIsSubsequence(RecentSearches, PlaceMatches(query));
    SubsequenceOfItself(RecentSearches);
  }

  /** The store location a place stands for. */
  function LocationOf(p: Place): (l: Rides.Location)
    ensures l.lat == p.lat && l.lng == p.lng && l.address == p.address
  {
    Rides.Location(p.lat, p.lng, p.address)
  }

  /** What the results become once every armed search timer has fired: the newest timer's results. */
  function Settled(results: seq<Place>, armed: seq<string>): seq<Place> {
    if armed == [] then results else SearchResults(armed[|armed| - 1])
  }

  /**
   * `handleSearch`: a blank query empties the results at once; any other arms a 300 ms timer that
   * will show the results for that query. Earlier timers are not cancelled. `armed` holds the
   * queries of the timers that have not fired yet, oldest first.
   */
  function HandleSearch(results: seq<Place>, armed: seq<string>, query: string): (r: (seq<Place>, seq<string>))
    ensures IsBlank(query) ==> r.0 == [] && r.1 == armed
    ensures !IsBlank(query) ==> r.0 == results && r.1 == armed + [query]
    ensures !IsBlank(query) ==> Settled(r.0, r.1) == SearchResults(query)
  {
    if IsBlank(query) then ([], armed) else (results, armed + [query])
  }

  /** The timers share one delay, so they fire oldest first, and firing one keeps what the list settles on. */
  lemma FireKeepsSettled(results: seq<Place>, armed: seq<string>)
    requires armed != []
    ensures Settled(SearchResults(armed[0]), armed[1..]) == Settled(results, armed)
  {
  }

  /**
   * A timer armed for some text still fires after the field is cleared: the list is emptied at
   * once, then filled again under the blank field.
   */
  lemma ClearedFieldShowsStaleResults(results: seq<Place>, query: string)
    requires !IsBlank(query)
    ensures HandleSearch(HandleSearch(results, [], query).0, HandleSearch(results, [], query).1, "").0 == []
    ensures Settled([], [query]) != [] && Settled([], [query]) == SearchResults(query)
  {
  }

  /**
   * The search state's invariant for the text of the active field: every armed timer is for a
   * query that is not blank, and a field that holds text settles on the results for that text.
   */
  predicate SearchValid(results: seq<Place>, armed: seq<string>, text: string) {
    && (forall i :: 0 <= i < |armed| ==> !IsBlank(armed[i]))
    && (!IsBlank(text) ==> Settled(results, armed) == SearchResults(text))
  }

  /** A search timer firing keeps the invariant. */
  lemma FireKeepsValid(results: seq<Place>, armed: seq<string>, text: string)
    requires armed != [] && SearchValid(results, armed, text)
    ensures SearchValid(SearchResults(armed[0]), armed[1..], text)
  {
    FireKeepsSettled(results, armed);
    var rest := armed[1..];
    assert forall i :: 0 <= i < |rest| ==> rest[i] == armed[i + 1];
  }

  /** Running the search on the active text establishes the invariant for that text. */
  lemma SearchEstablishesValid(results: seq<Place>, armed: seq<string>, text: string)
    requires forall i :: 0 <= i < |armed| ==> !IsBlank(armed[i])
    ensures SearchValid(HandleSearch(results, armed, text).0, HandleSearch(results, armed, text).1, text)
  {
    var r := HandleSearch(results, armed, text);
    assert forall i :: 0 <= i < |armed| ==> r.1[i] == armed[i];
  }

  datatype Field = PickupField | DestinationField

  const CurrentLocation := "Current Location"

  /** The page's own state beside the ride store it writes into. */
  class LocationPage {
    const store: Rides.RideStore
    var activeField: Field
    var pickupText: string
    var destinationText: string
    var searchResults: seq<Place>
    /** The queries of the search timers armed and not yet fired, oldest first. */
    var armedSearches: seq<string>

    /** The text the search effect runs on: the active field's. */
    function ActiveText(): string
      reads this
    {
      if activeField == PickupField then pickupText else destinationText
    }

    /** Every armed timer is for a query that is not blank. */
    predicate ArmedNonBlank()
      reads this
    {
      forall i :: 0 <= i < |armedSearches| ==> !IsBlank(armedSearches[i])
    }

    /**
     * Whenever the active field holds text, the list settles, once the armed timers have fired, on
     * the results for that text. A blank field has no such promise: a stale timer may still fill it.
     */
    ghost predicate Valid()
      reads this
    {
      SearchValid(searchResults, armedSearches, ActiveText())
    }

    /**
     * The search effect after a handler, from the texts, focus and search state before it: it runs
     * `handleSearch` on the active text only when a text or the focus changed.
     */
    predicate SearchEffect(pickup0: string, destination0: string, field0: Field, results0: seq<Place>, armed0: seq<string>)
      reads this
    {
      if pickupText == pickup0 && destinationText == destination0 && activeField == field0 then
        searchResults == results0 && armedSearches == armed0
      else
        (searchResults, armedSearches) == HandleSearch(results0, armed0, ActiveText())
    }

    /**
     * `destinationParam` is the `destination` search parameter; a missing or empty one gives "".
     * The search effect's first run is on the empty pickup text.
     */
    constructor (store: Rides.RideStore, destinationParam: Option<string>)
      ensures Valid()
      ensures this.store == store && activeField == PickupField && pickupText == ""
      ensures destinationText == destinationParam.GetOr("")
      ensures searchResults == [] && armedSearches == []
    {
      this.store := store;
      activeField := PickupField;
      pickupText := "";
      destinationText := destinationParam.GetOr("");
      searchResults := [];
      armedSearches := [];
    }

    /** Runs the search effect when a text or the focus differs from the given earlier values. */
    method RunSearchEffect(pickup0: string, destination0: string, field0: Field)
      requires ArmedNonBlank()
      requires pickupText == pickup0 && destinationText == destination0 && activeField == field0 ==> Valid()
      modifies this`searchResults, this`armedSearches
      ensures Valid()
      ensures SearchEffect(pickup0, destination0, field0, old(searchResults), old(armedSearches))
    {
      if pickupText != pickup0 || destinationText != destination0 || activeField != field0 {
        var text := ActiveText();
        var r := HandleSearch(searchResults, armedSearches, text);
        SearchEstablishesValid(searchResults, armedSearches, text);
        searchResults, armedSearches := r.0, r.1;
        assert ActiveText() == text;
      }
    }

    /** A search timer fires: the results for its query are shown. */
    method SearchTimerFires()
      requires Valid() && armedSearches != []
      modifies this`searchResults, this`armedSearches
      ensures Valid()
      ensures searchResults == SearchResults(old(armedSearches)[0]) && armedSearches == old(armedSearches)[1..]
    {
      var text := ActiveText();
      var shown, rest := SearchResults(armedSearches[0]), armedSearches[1..];
      FireKeepsValid(searchResults, armedSearches, text);
      searchResults, armedSearches := shown, rest;
      assert ActiveText() == text;
    }

    /** The pickup input's `onChange`. */
    method EditPickupText(text: string)
      requires Valid()
      modifies this`pickupText, this`searchResults, this`armedSearches
      ensures Valid() && pickupText == text
      ensures SearchEffect(old(pickupText), destinationText, activeField, old(searchResults), old(armedSearches))
    {
      var pickup0 := pickupText;
      pickupText := text;
      RunSearchEffect(pickup0, destinationText, activeField);
    }

    /** The destination input's `onChange`. */
    method EditDestinationText(text: string)
      requires Valid()
      modifies this`destinationText, this`searchResults, this`armedSearches
      ensures Valid() && destinationText == text
      ensures SearchEffect(pickupText, old(destinationText), activeField, old(searchResults), old(armedSearches))
    {
      var destination0 := destinationText;
      destinationText := text;
      RunSearchEffect(pickupText, destination0, activeField);
    }

    /**
     * `handleSelectPlace`: with the pickup field active the place becomes the pickup and the focus
     * moves on to the destination; otherwise it becomes the destination and the focus stays.
     */
    method SelectPlace(place: Place)
      requires Valid() && store.Valid()
      modifies this`activeField, this`pickupText, this`destinationText, this`searchResults, this`armedSearches, store
      ensures Valid() && store.Valid() && store.TripSettings() == old(store.TripSettings())
      ensures old(activeField) == PickupField ==>
        store.pickup == Some(LocationOf(place)) && store.destination == old(store.destination)
        && pickupText == place.name && destinationText == old(destinationText)
      ensures old(activeField) == DestinationField ==>
        store.destination == Some(LocationOf(place)) && store.pickup == old(store.pickup)
        && destinationText == place.name && pickupText == old(pickupText)
      ensures activeField == DestinationField
      ensures SearchEffect(old(pickupText), old(destinationText), old(activeField), old(searchResults), old(armedSearches))
    {
      var pickup0, destination0, field0 := pickupText, destinationText, activeField;
      if activeField == PickupField {
        store.SetPickup(Some(LocationOf(place)));
        pickupText := place.name;
        activeField := DestinationField;
      } else {
        store.SetDestination(Some(LocationOf(place)));
        destinationText := place.name;
      }
      RunSearchEffect(pickup0, destination0, field0);
    }

    /**
     * `handleMapClick`: the clicked point becomes the active field's location and text; the other
     * field and the focus stay. `address` is the click's formatted coordinates.
     */
    method MapClick(lat: real, lng: real, address: string)
      requires Valid() && store.Valid()
      modifies this`pickupText, this`destinationText, this`searchResults, this`armedSearches, store
      ensures Valid() && store.Valid() && store.TripSettings() == old(store.TripSettings())
      ensures activeField == PickupField ==>
        store.pickup == Some(Rides.Location(lat, lng, address)) && store.destination == old(store.destination)
        && pickupText == address && destinationText == old(destinationText)
      ensures activeField == DestinationField ==>
        store.destination == Some(Rides.Location(lat, lng, address)) && store.pickup == old(store.pickup)
        && destinationText == address && pickupText == old(pickupText)
      ensures SearchEffect(old(pickupText), old(destinationText), activeField, old(searchResults), old(armedSearches))
    {
      var pickup0, destination0 := pickupText, destinationText;
      var location := Rides.Location(lat, lng, address);
      if activeField == PickupField {
        store.SetPickup(Some(location));
        pickupText := address;
      } else {
        store.SetDestination(Some(location));
        destinationText := address;
      }
      RunSearchEffect(pickup0, destination0, activeField);
    }

    /** The geolocation effect on mount: the position becomes the pickup, the focus stays. */
    method LocateOnMount(lat: real, lng: real)
      requires Valid() && store.Valid()
      modifies this`pickupText, this`searchResults, this`armedSearches, store
      ensures Valid() && store.Valid() && store.TripSettings() == old(store.TripSettings())
      ensures store.pickup == Some(Rides.Location(lat, lng, CurrentLocation))
      ensures store.destination == old(store.destination) && pickupText == CurrentLocation
      ensures SearchEffect(old(pickupText), destinationText, activeField, old(searchResults), old(armedSearches))
    {
      var pickup0 := pickupText;
      store.SetPickup(Some(Rides.Location(lat, lng, CurrentLocation)));
      pickupText := CurrentLocation;
      RunSearchEffect(pickup0, destinationText, activeField);
    }

    /**
     * The success callback of `handleUseCurrentLocation`. The callback tests the field that was
     * active when the button was clicked (`fieldAtClick`, captured by its closure), not the one
     * active when the position arrives: only when it was the pickup does the position become the
     * pickup, moving the focus to the destination; otherwise nothing changes.
     */
    method UseCurrentLocation(fieldAtClick: Field, lat: real, lng: real)
      requires Valid() && store.Valid()
      modifies this`pickupText, this`activeField, this`searchResults, this`armedSearches, store
      ensures Valid() && store.Valid() && store.TripSettings() == old(store.TripSettings())
      ensures fieldAtClick == DestinationField ==>
        activeField == old(activeField) && pickupText == old(pickupText)
        && store.pickup == old(store.pickup) && store.destination == old(store.destination)
      ensures fieldAtClick == PickupField ==>
        store.pickup == Some(Rides.Location(lat, lng, CurrentLocation))
        && store.destination == old(store.destination)
        && pickupText == CurrentLocation && activeField == DestinationField
      ensures SearchEffect(old(pickupText), destinationText, old(activeField), old(searchResults), old(armedSearches))
    {
      var pickup0, field0 := pickupText, activeField;
      if fieldAtClick == PickupField {
        store.SetPickup(Some(Rides.Location(lat, lng, CurrentLocation)));
        pickupText := CurrentLocation;
        activeField := DestinationField;
      }
      RunSearchEffect(pickup0, destinationText, field0);
    }

    /** The pickup field's clear button: empties the text and the store's pickup. */
    method ClearPickup()
      requires Valid() && store.Valid()
      modifies this`pickupText, this`searchResults, this`armedSearches, store
      ensures Valid() && store.Valid() && store.TripSettings() == old(store.TripSettings())
      ensures pickupText == "" && store.pickup == None && store.destination == old(store.destination)
      ensures store.estimatedFare == Rides.Num(0.0)
      ensures SearchEffect(old(pickupText), destinationText, activeField, old(searchResults), old(armedSearches))
    {
      var pickup0 := pickupText;
      pickupText := "";
      store.SetPickup(None);
      RunSearchEffect(pickup0, destinationText, activeField);
    }

    /** The destination field's clear button: empties the text and the store's destination. */
    method ClearDestination()
      requires Valid() && store.Valid()
      modifies this`destinationText, this`searchResults, this`armedSearches, store
      ensures Valid() && store.Valid() && store.TripSettings() == old(store.TripSettings())
      ensures destinationText == "" && store.destination == None && store.pickup == old(store.pickup)
      ensures store.estimatedFare == Rides.Num(0.0)
      ensures SearchEffect(pickupText, old(destinationText), activeField, old(searchResults), old(armedSearches))
    {
      var destination0 := destinationText;
      destinationText := "";
      store.SetDestination(None);
      RunSearchEffect(pickupText, destination0, activeField);
    }

    /** Focusing an input makes its field the active one. */
    method Focus(field: Field)
      requires Valid()
      modifies this`activeField, this`searchResults, this`armedSearches
      ensures Valid() && activeField == field
      ensures SearchEffect(pickupText, destinationText, old(activeField), old(searchResults), old(armedSearches))
    {
      var field0 := activeField;
      activeField := field;
      RunSearchEffect(pickupText, destinationText, field0);
    }

    /** `handleConfirm`: moves on to the ride choice only when both locations are set. */
    method Confirm() returns (proceed: bool)
      ensures proceed <==> store.pickup.Some? && store.destination.Some?
    {
      proceed := store.pickup.Some? && store.destination.Some?;
    }
  }
}

/**
 * The saved places list: deleting a place, adding one from the two-field form, and the icon shown
 * for each place.
 */
module Favorites {
  import opened Wrappers
  import opened Lists
  import opened Text

  datatype PlaceType = Home | Work | Other

  datatype FavoritePlace = FavoritePlace(id: string, name: string, address: string, kind: PlaceType)

  const InitialFavorites: seq<FavoritePlace> := [
    FavoritePlace("1", "Home", "B-42, Vasant Kunj, New Delhi", Home),
    FavoritePlace("2", "Work", "Tower A, Cyber City, Gurugram", Work),
    FavoritePlace("3", "Gym", "Gold's Gym, Hauz Khas, Delhi", Other),
    FavoritePlace("4", "Parents Home", "Sector 15, Noida, UP", Other)
  ]

  datatype PlaceIcon = GymIcon | HomeIcon | WorkIcon | StarIcon

  const GymKey := "gym"

  /**
   * `getIcon`: the name is looked at first, so any name containing "gym" in any case gets the gym
   * icon whatever its type; otherwise home and work have their own icons and the rest a star.
   */
  function GetIcon(kind: PlaceType, name: string): (icon: PlaceIcon)
    ensures icon == GymIcon <==> Contains(ToLower(name), GymKey)
    ensures !Contains(ToLower(name), GymKey) ==>
      (icon == HomeIcon <==> kind == Home) && (icon == WorkIcon <==> kind == Work)
      && (icon == StarIcon <==> kind == Other)
  {
    if Contains(ToLower(name), GymKey) then GymIcon
    else match kind
      case Home => HomeIcon
      case Work => WorkIcon
      case Other => StarIcon
  }

  /** The icon does not depend on the case of the name. */
  lemma GetIconCaseInsensitive(kind: PlaceType, name: string)
    ensures GetIcon(kind, ToLower(name)) == GetIcon(kind, name)
  {
    ToLowerIdempotent(name);
  }

  /** The home icon follows the type, not the name: a place named "... Home" of type other gets none. */
  lemma HomeIconNeedsHomeType(kind: PlaceType, name: string)
    requires GetIcon(kind, name) == HomeIcon
    ensures kind == Home
  {
  }

  function OtherPlace(id: string): FavoritePlace -> bool {
    (p: FavoritePlace) => p.id != id
  }

  /** `handleDelete`'s filter: the places without the id, in their order, untouched. */
  function WithoutPlace(favorites: seq<FavoritePlace>, id: string): (r: seq<FavoritePlace>)
    ensures forall p :: p in r <==> p in favorites && p.id != id
    ensures Subsequence(r, favorites)
    ensures |r| == CountWhere(favorites, OtherPlace(id))
  {
    FilterIsSubsequence(favorites, OtherPlace(id));
    FilterLength(favorites, OtherPlace(id));
    Filter(favorites, OtherPlace(id))
  }

  /** An absent id deletes nothing. */
  lemma DeleteAbsentId(favorites: seq<FavoritePlace>, id: string)
    requires forall p :: p in favorites ==> p.id != id
    ensures WithoutPlace(favorites, id) == favorites
  {
    FilterKeepsAll(favorites, OtherPlace(id));
  }

  /** `handleAddPlace`'s guard: both fields non-empty. There is no trim. */
  predicate CanAdd(name: string, address: string) {
    name != "" && address != ""
  }

  /** White space alone passes the guard. */
  lemma WhitespaceAccepted(name: string, address: string)
    requires IsBlank(name) && IsBlank(address) && |name| > 0 && |address| > 0
    ensures CanAdd(name, address)
  {
  }

  /** The place a successful add appends. */
  function NewFavorite(id: string, name: string, address: string): (p: FavoritePlace)
    ensures p.kind == Other && p.id == id && p.name == name && p.address == address
  {
    FavoritePlace(id, name, address, Other)
  }

  /** Deleting a freshly added place restores the list as it was before the add. */
  lemma AddThenDelete(favorites: seq<FavoritePlace>, id: string, name: string, address: string)
    requires forall p :: p in favorites ==> p.id != id
    ensures WithoutPlace(favorites + [NewFavorite(id, name, address)], id) == favorites
  {
    var keep := OtherPlace(id);
    FilterConcat(favorites, [NewFavorite(id, name, address)], keep);
    FilterKeepsAll(favorites, keep);
    assert Filter([NewFavorite(id, name, address)], keep) == [];
  }

  /** The page's state. */
  class FavoritesPage {
    var favorites: seq<FavoritePlace>
    var showMenu: Option<string>
    var showAddModal: bool
    var newName: string
    var newAddress: string

    constructor ()
      ensures favorites == InitialFavorites && showMenu == None && !showAddModal
      ensures newName == "" && newAddress == ""
    {
      favorites := InitialFavorites;
      showMenu := None;
      showAddModal := false;
      newName := "";
      newAddress := "";
    }

    /** `handleDelete`: removes the place with the id and closes the menu. */
    method HandleDelete(id: string)
      modifies this`favorites, this`showMenu
      ensures favorites == WithoutPlace(old(favorites), id) && showMenu == None
    {
      favorites := WithoutPlace(favorites, id);
      showMenu := None;
    }

    /**
     * `handleAddPlace`: with an empty field nothing changes; otherwise the new place is appended
     * after the existing ones and the form is reset and closed. `id` is the clock reading.
     */
    method HandleAddPlace(id: string) returns (added: bool)
      modifies this`favorites, this`newName, this`newAddress, this`showAddModal
      ensures added <==> CanAdd(old(newName), old(newAddress))
      ensures !added ==>
        favorites == old(favorites) && newName == old(newName) && newAddress == old(newAddress)
        && showAddModal == old(showAddModal)
      ensures added ==>
        favorites == old(favorites) + [NewFavorite(id, old(newName), old(newAddress))]
        && newName == "" && newAddress == "" && !showAddModal
    {
      if newName == "" || newAddress == "" {
        return false;
      }
      favorites := favorites + [NewFavorite(id, newName, newAddress)];
      newName := "";
      newAddress := "";
      showAddModal := false;
      added := true;
    }

    /** The form's inputs. */
    method EditNewPlace(name: string, address: string)
      modifies this`newName, this`newAddress
      ensures newName == name && newAddress == address
    {
      newName := name;
      newAddress := address;
    }

    method OpenAddModal()
      modifies this`showAddModal
      ensures showAddModal
    {
      showAddModal := true;
    }

    /** Cancel: the form is reset and closed. */
    method CancelAdd()
      modifies this`newName, this`newAddress, this`showAddModal
      ensures newName == "" && newAddress == "" && !showAddModal
    {
      newName := "";
      newAddress := "";
      showAddModal := false;
    }

    /** The menu's Edit item and the backdrop behind an open menu both close it. */
    method CloseMenu()
      modifies this`showMenu
      ensures showMenu == None
    {
      showMenu := None;
    }

    /** The menu button: opens the place's menu, or closes it when it is the open one. */
    method ToggleMenu(id: string)
      modifies this`showMenu
      ensures showMenu == if old(showMenu) == Some(id) then None else Some(id)
    {
      showMenu := if showMenu == Some(id) then None else Some(id);
    }
  }
}

/**
 * The results page (src/pages/Index.tsx): three pieces of state changed by
 * the search handler, the "new search" button and clicks on a parcel
 * outline, and the parcel index derived from them.
 */
module IndexPage {
  import opened Wrappers
  import opened LandData

  /**
   * Fuse's fuzzy search over the catalogue addresses, as the catalogue
   * positions (`refIndex`) of its hits, best first. Fuse is a foreign
   * library; the model only needs it to be a deterministic function whose
   * hits are catalogue positions.
   */
  type Search = string -> seq<nat>

  ghost predicate HitsInRange(search: Search)
  {
    forall q, n :: n in search(q) ==> n < |MockLands()|
  }

  /** `selectedLandIndex` is either unset or a catalogue position. */
  ghost predicate SelectionInRange(selected: Option<int>)
  {
    selected.Some? ==> 0 <= selected.value < |MockLands()|
  }

  /** `selectedLandIndex` does not pick a parcel: it is null or negative. */
  predicate Unselected(selected: Option<int>)
  {
    selected.None? || selected.value < 0
  }

  /** `filteredLands`: the whole catalogue before any search, otherwise the hits' entries in rank order. */
  function FilteredLands(search: Search, searchedAddress: string): (lands: seq<LandAndPricing>)
    requires HitsInRange(search)
    ensures searchedAddress == "" ==> lands == MockLands()
    ensures searchedAddress != "" ==> |lands| == |search(searchedAddress)|
    ensures searchedAddress != "" ==>
              forall k :: 0 <= k < |lands| ==>
                search(searchedAddress)[k] in search(searchedAddress) &&
                lands[k] == MockLands()[search(searchedAddress)[k]]
  {
    if searchedAddress == "" then MockLands()
    else
      var hits := search(searchedAddress);
      seq(|hits|, k requires 0 <= k < |hits| => assert hits[k] in hits; MockLands()[hits[k]])
  }

  /**
   * `landIndex`: the selected index if there is one, else the catalogue
   * position of the first filtered entry, else -1. There is no fallback to
   * entry 0 when a search finds nothing.
   */
  function LandIndexOf(search: Search, searchedAddress: string, selected: Option<int>): (r: int)
    requires HitsInRange(search)
    ensures SelectionInRange(selected) ==> -1 <= r < |MockLands()|
    ensures !Unselected(selected) ==> r == selected.value
    ensures r == -1 <==> Unselected(selected) && searchedAddress != "" && search(searchedAddress) == []
    ensures Unselected(selected) && searchedAddress != "" && search(searchedAddress) != [] ==>
              r == search(searchedAddress)[0]
    ensures Unselected(selected) && searchedAddress == "" ==> r == 0
  {
    var filtered := FilteredLands(search, searchedAddress);
    if !Unselected(selected) then selected.value
    else if |filtered| > 0 then
      var hits := search(searchedAddress);
      assert searchedAddress != "" ==> hits[0] in hits && filtered[0] == MockLands()[hits[0]];
      FindIndexOfEntry(MockLands(), if searchedAddress == "" then 0 else hits[0]);
      FindIndex(MockLands(), filtered[0])
    else -1
  }

  /** What the page shows. */
  datatype Screen =
    | SearchScreen
    | ParcelPanels(query: string, landIndex: nat)
    | NotFound(query: string)

  /**
   * Only the search form until a search is made; then the map and parcel
   * panels when `mockLands[landIndex]` exists, otherwise the "not found"
   * message (`Không tìm thấy thông tin lô đất.`).
   */
  function ScreenOf(showResults: bool, searchedAddress: string, landIndex: int): (s: Screen)
    ensures s == SearchScreen <==> !showResults
    ensures s.ParcelPanels? <==> showResults && 0 <= landIndex < |MockLands()|
    ensures s.ParcelPanels? ==> s.landIndex == landIndex
    ensures !s.SearchScreen? ==> s.query == searchedAddress
  {
    if !showResults then SearchScreen
    else if 0 <= landIndex < |MockLands()| then ParcelPanels(searchedAddress, landIndex)
    else NotFound(searchedAddress)
  }

  /** The `Index` component's state. */
  class Index {
    const search: Search
    var searchedAddress: string
    var showResults: bool
    var selectedLandIndex: Option<int>

    ghost predicate Valid()
      reads this
    {
      HitsInRange(search) && SelectionInRange(selectedLandIndex)
    }

    /** The state `useState` starts from, and the one "new search" returns to. */
    predicate IsInitial()
      reads this
    {
      !showResults && searchedAddress == "" && selectedLandIndex == None
    }

    constructor(search: Search)
      requires HitsInRange(search)
      ensures Valid() && this.search == search && IsInitial()
      ensures Screen() == SearchScreen
    {
      this.search := search;
      searchedAddress := "";
      showResults := false;
      selectedLandIndex := None;
    }

    /** `landIndex`. */
    function LandIndex(): int
      reads this
      requires Valid()
    {
      LandIndexOf(search, searchedAddress, selectedLandIndex)
    }

    /** `selectedLand`: the catalogue entry at `landIndex`, if there is one. */
    function SelectedLand(): (land: Option<LandAndPricing>)
      reads this
      requires Valid()
      ensures land.Some? <==> LandIndex() != -1
      ensures land.Some? ==> land.value == MockLands()[LandIndex()]
    {
      var i := LandIndex();
      if 0 <= i < |MockLands()| then Some(MockLands()[i]) else None
    }

    function Screen(): Screen
      reads this
      requires Valid()
    {
      ScreenOf(showResults, searchedAddress, LandIndex())
    }

    /** `handleSearch(address)`: record the query, show results and select Fuse's best hit, if any. */
    method HandleSearch(address: string)
      requires Valid()
      modifies this
      ensures Valid()
      ensures searchedAddress == address && showResults
      ensures selectedLandIndex == if search(address) != [] then Some(search(address)[0]) else None
      ensures search(address) != [] ==> Screen() == ParcelPanels(address, search(address)[0])
      ensures address != "" && search(address) == [] ==> LandIndex() == -1 && Screen() == NotFound(address)
      ensures address == "" && search(address) == [] ==> Screen() == ParcelPanels(address, 0)
    {
      searchedAddress := address;
      showResults := true;
      var results := search(address);
      if |results| > 0 {
        assert results[0] in results;
        selectedLandIndex := Some(results[0]);
      } else {
        selectedLandIndex := None;
      }
    }

    /** `handleBackToSearch`: from any state, back to the initial one. */
    method HandleBackToSearch()
      requires Valid()
      modifies this
      ensures Valid() && IsInitial()
      ensures Screen() == SearchScreen
    {
      showResults := false;
      searchedAddress := "";
      selectedLandIndex := None;
    }

    /** `onSelectLand(idx)`, called when the outline of catalogue entry `idx` is clicked. */
    method OnSelectLand(idx: nat)
      requires Valid()
      requires idx < |MockLands()|
      modifies this`selectedLandIndex
      ensures Valid()
      ensures selectedLandIndex == Some(idx)
      ensures searchedAddress == old(searchedAddress) && showResults == old(showResults)
      ensures LandIndex() == idx
      ensures Screen() == if showResults then ParcelPanels(searchedAddress, idx) else SearchScreen
    {
      selectedLandIndex := Some(idx);
    }
  }
}

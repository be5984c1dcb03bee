/**
 * The map panel (src/components/MiniMap.tsx): which parcel it centres on and
 * highlights, the user's click markers, and the marker that follows the
 * address typed while the map is a background. Drawing is left to the map
 * library and is not modelled.
 */
module MiniMap {
  import opened Wrappers
  import opened Text
  import opened LandData

  /** Where the map is centred when the selected index names no catalogue entry: Hà Nội. */
  const HanoiFallback: LatLng := LatLng(21.0285, 105.8542)

  /** `selectedIndex`: the `landIndex` prop when it is given, else 0. */
  function SelectedIndex(landIndex: Option<int>): (i: int)
    ensures landIndex.Some? ==> i == landIndex.value
    ensures landIndex.None? ==> i == 0
  {
    if landIndex.Some? then landIndex.value else 0
  }

  /** `center`: the selected parcel's location when that entry exists, else the Hà Nội fallback. */
  function Center(landIndex: Option<int>): (c: LatLng)
    ensures 0 <= SelectedIndex(landIndex) < |MockLands()| ==>
              c == MockLands()[SelectedIndex(landIndex)].landInfo.location
    ensures !(0 <= SelectedIndex(landIndex) < |MockLands()|) ==> c == HanoiFallback
    ensures landIndex.None? ==> c == MockLands()[0].landInfo.location
  {
    var i := SelectedIndex(landIndex);
    if 0 <= i < |MockLands()| then MockLands()[i].landInfo.location else HanoiFallback
  }

  /** Leaflet's `pathOptions` for a parcel outline. */
  datatype PathOptions = PathOptions(color: string, weight: nat, fillOpacity: real)

  const Highlighted: PathOptions := PathOptions("#ff9800", 4, 0.5)
  const Plain: PathOptions := PathOptions("#2563eb", 2, 0.3)
  /** Every outline on the full-screen background map, which highlights none. */
  const Faint: PathOptions := PathOptions("#2563eb", 2, 0.15)

  /** The style of outline `idx`: only the selected parcel is highlighted, and none in background mode. */
  function PolygonStyle(background: bool, idx: nat, selectedIndex: int): (p: PathOptions)
    ensures p == Highlighted <==> !background && idx == selectedIndex
    ensures p == Faint <==> background
    ensures !background && idx != selectedIndex ==> p == Plain
  {
    if background then Faint
    else if idx == selectedIndex then Highlighted
    else Plain
  }

  /** The styles of all catalogue outlines, in catalogue order. */
  function PolygonStyles(background: bool, selectedIndex: int): (styles: seq<PathOptions>)
    ensures |styles| == |MockLands()|
    ensures forall i :: 0 <= i < |styles| ==> styles[i] == PolygonStyle(background, i, selectedIndex)
  {
    seq(|MockLands()|, i requires 0 <= i < |MockLands()| => PolygonStyle(background, i, selectedIndex))
  }

  /** How many of `styles` are the highlight. */
  function CountHighlighted(styles: seq<PathOptions>): nat
  {
    if styles == [] then 0
    else (if styles[0] == Highlighted then 1 else 0) + CountHighlighted(styles[1..])
  }

  /** Counting over the styles of outlines `from` up to `|MockLands()|`. */
  lemma {:induction false} CountHighlightedFrom(background: bool, selectedIndex: int, from: nat)
    requires from <= |MockLands()|
    ensures CountHighlighted(PolygonStyles(background, selectedIndex)[from..]) ==
              if !background && from <= selectedIndex < |MockLands()| then 1 else 0
    decreases |MockLands()| - from
  {
    var styles := PolygonStyles(background, selectedIndex);
    if from < |MockLands()| {
      assert styles[from..][1..] == styles[from + 1..];
      CountHighlightedFrom(background, selectedIndex, from + 1);
    }
  }

  /** Exactly one outline is highlighted when the selected index is a catalogue entry, and none otherwise. */
  lemma ExactlyOneHighlighted(background: bool, selectedIndex: int)
    ensures CountHighlighted(PolygonStyles(background, selectedIndex)) ==
              if !background && 0 <= selectedIndex < |MockLands()| then 1 else 0
  {
    var styles := PolygonStyles(background, selectedIndex);
    assert styles[0..] == styles;
    CountHighlightedFrom(background, selectedIndex, 0);
  }

  /** A marker the user dropped by clicking the map; the caption is its formatted coordinates. */
  datatype Marker = Marker(id: string, latlng: LatLng, address: string)

  /** `markers.filter(marker => marker.id !== id)`. */
  function WithoutId(markers: seq<Marker>, id: string): (kept: seq<Marker>)
    ensures |kept| <= |markers|
    ensures forall m :: m in kept <==> m in markers && m.id != id
  {
    if markers == [] then []
    else if markers[0].id == id then WithoutId(markers[1..], id)
    else [markers[0]] + WithoutId(markers[1..], id)
  }

  /** Filtering works piecewise, so the markers it keeps stay in their original order. */
  lemma {:induction false} WithoutIdAppend(a: seq<Marker>, b: seq<Marker>, id: string)
    ensures WithoutId(a + b, id) == WithoutId(a, id) + WithoutId(b, id)
  {
    if a == [] {
      assert a + b == b;
    } else {
      assert (a + b)[1..] == a[1..] + b;
      WithoutIdAppend(a[1..], b, id);
    }
  }

  /** Removing an id no marker carries changes nothing. */
  lemma {:induction false} WithoutAbsentId(markers: seq<Marker>, id: string)
    requires forall m :: m in markers ==> m.id != id
    ensures WithoutId(markers, id) == markers
  {
    if markers != [] {
      assert markers == [markers[0]] + markers[1..];
      WithoutAbsentId(markers[1..], id);
    }
  }

  /** Removing a marker just added under a fresh id gives back the earlier list. */
  lemma RemoveUndoesAdd(markers: seq<Marker>, m: Marker)
    requires forall k :: k in markers ==> k.id != m.id
    ensures WithoutId(markers + [m], m.id) == markers
  {
    WithoutIdAppend(markers, [m], m.id);
    WithoutAbsentId(markers, m.id);
    assert WithoutId([m], m.id) == [];
  }

  /** The temporary marker that follows the address being typed. */
  datatype SearchMarker = SearchMarker(lat: real, lng: real, address: string)

  /** `lower(addr).includes(lower(query))`, with the host's case folding passed in as `lower`. */
  predicate AddressMatches(lower: string -> string, land: LandAndPricing, query: string)
  {
    Includes(lower(land.landInfo.address), lower(query))
  }

  /** `lands.find(...)`, from position `from` on: the position of the first match. */
  function FirstMatch(lower: string -> string, lands: seq<LandAndPricing>, query: string, from: nat): (r: Option<nat>)
    requires from <= |lands|
    ensures r.Some? ==> from <= r.value < |lands| && AddressMatches(lower, lands[r.value], query)
    ensures r.Some? ==> forall j :: from <= j < r.value ==> !AddressMatches(lower, lands[j], query)
    ensures r.None? ==> forall j :: from <= j < |lands| ==> !AddressMatches(lower, lands[j], query)
    decreases |lands| - from
  {
    if from == |lands| then None
    else if AddressMatches(lower, lands[from], query) then Some(from)
    else FirstMatch(lower, lands, query, from + 1)
  }

  /** Entry `i` is the first of `lands` whose address contains `query`, ignoring case. */
  ghost predicate IsFirstMatch(lower: string -> string, lands: seq<LandAndPricing>, query: string, i: int)
  {
    && 0 <= i < |lands|
    && AddressMatches(lower, lands[i], query)
    && forall j :: 0 <= j < i ==> !AddressMatches(lower, lands[j], query)
  }

  /** The search marker placed on catalogue entry `i`. */
  function MarkerOn(i: nat): SearchMarker
    requires i < |MockLands()|
  {
    var land := MockLands()[i].landInfo;
    SearchMarker(land.location.lat, land.location.lng, land.address)
  }

  /**
   * What the `searchMarker` effect computes: in background mode with a
   * non-empty address, the location and address of the first catalogue entry
   * whose address contains it, ignoring case; otherwise no marker.
   */
  function SearchMarkerFor(lower: string -> string, background: bool, searchingAddress: string): (r: Option<SearchMarker>)
    ensures r.Some? ==> background && searchingAddress != ""
    ensures r.Some? <==>
              (&& background && searchingAddress != ""
               && exists i :: 0 <= i < |MockLands()| && AddressMatches(lower, MockLands()[i], searchingAddress))
    ensures r.Some? ==>
              exists i :: IsFirstMatch(lower, MockLands(), searchingAddress, i) && r.value == MarkerOn(i)
  {
    if background && searchingAddress != "" then
      match FirstMatch(lower, MockLands(), searchingAddress, 0)
      case Some(i) => Some(MarkerOn(i))
      case None => None
    else None
  }

  /** The background map centres on the search marker when there is one. */
  function BackgroundCenter(searchMarker: Option<SearchMarker>, landIndex: Option<int>): (c: LatLng)
    ensures searchMarker.Some? ==> c == LatLng(searchMarker.value.lat, searchMarker.value.lng)
    ensures searchMarker.None? ==> c == Center(landIndex)
  {
    match searchMarker
    case Some(m) => LatLng(m.lat, m.lng)
    case None => Center(landIndex)
  }

  /** While typing finds a parcel, the background map's `center` prop is the first matching parcel's location. */
  lemma BackgroundCentresOnMatch(lower: string -> string, searchingAddress: string, landIndex: Option<int>)
    requires SearchMarkerFor(lower, true, searchingAddress).Some?
    ensures exists i :: IsFirstMatch(lower, MockLands(), searchingAddress, i) &&
              BackgroundCenter(SearchMarkerFor(lower, true, searchingAddress), landIndex) ==
                MockLands()[i].landInfo.location
  {
    var i :| IsFirstMatch(lower, MockLands(), searchingAddress, i) &&
             SearchMarkerFor(lower, true, searchingAddress).value == MarkerOn(i);
    assert BackgroundCenter(SearchMarkerFor(lower, true, searchingAddress), landIndex) ==
             MockLands()[i].landInfo.location;
  }

  /** The clear-all button is offered only while there are markers to clear. */
  function ClearButtonShown(markers: seq<Marker>): (shown: bool)
    ensures shown <==> markers != []
  {
    |markers| > 0
  }

  /**
   * The `MiniMap` component's state. The props are fields too: a re-render
   * with new props keeps the component's own state, the click markers.
   */
  class Map {
    var landIndex: Option<int>
    var background: bool
    /** The `searchingAddress` prop; an absent prop is the empty string, which is just as falsy. */
    var searchingAddress: string
    var customMarkers: seq<Marker>
    var searchMarker: Option<SearchMarker>

    /** The first render, before any effect has run. */
    constructor(landIndex: Option<int>, background: bool, searchingAddress: string)
      ensures this.landIndex == landIndex && this.background == background
      ensures this.searchingAddress == searchingAddress
      ensures customMarkers == [] && searchMarker == None
      ensures !ClearButtonShown(customMarkers)
    {
      this.landIndex := landIndex;
      this.background := background;
      this.searchingAddress := searchingAddress;
      customMarkers := [];
      searchMarker := None;
    }

    /** A re-render with a new `landIndex` prop: only the prop changes. */
    method ReceiveLandIndex(newLandIndex: Option<int>)
      modifies this`landIndex
      ensures landIndex == newLandIndex
      ensures customMarkers == old(customMarkers) && searchMarker == old(searchMarker)
      ensures background == old(background) && searchingAddress == old(searchingAddress)
    {
      landIndex := newLandIndex;
    }

    /**
     * The effect on `[searchingAddress, background]`, run with the current
     * props. React runs it once after mounting, so a mounted map is the
     * constructor followed by this method, and again after every change of
     * either prop (`UpdateSearchMarker`).
     */
    method RunSearchMarkerEffect(lower: string -> string)
      modifies this`searchMarker
      ensures searchMarker == SearchMarkerFor(lower, background, searchingAddress)
      ensures customMarkers == old(customMarkers) && landIndex == old(landIndex)
      ensures background == old(background) && searchingAddress == old(searchingAddress)
    {
      if background && searchingAddress != "" {
        var found := FirstMatch(lower, MockLands(), searchingAddress, 0);
        if found.Some? {
          searchMarker := Some(MarkerOn(found.value));
        } else {
          searchMarker := None;
        }
      } else {
        searchMarker := None;
      }
    }

    /**
     * New `searchingAddress` or `background` props, and the effect that then
     * re-runs: the search marker follows the new props, the click markers stay.
     */
    method UpdateSearchMarker(lower: string -> string, newAddress: string, newBackground: bool)
      modifies this`searchingAddress, this`background, this`searchMarker
      ensures searchingAddress == newAddress && background == newBackground
      ensures searchMarker == SearchMarkerFor(lower, newBackground, newAddress)
      ensures customMarkers == old(customMarkers) && landIndex == old(landIndex)
    {
      searchingAddress := newAddress;
      background := newBackground;
      RunSearchMarkerEffect(lower);
    }

    /**
     * `handleAddMarker`, on a click at `latlng`. The id (`marker-` and the
     * clock reading) and the caption (the coordinates printed with `toFixed`)
     * come from the host and are passed in.
     */
    method AddMarker(id: string, latlng: LatLng, caption: string)
      modifies this`customMarkers
      ensures customMarkers == old(customMarkers) + [Marker(id, latlng, caption)]
      ensures ClearButtonShown(customMarkers)
      ensures searchMarker == old(searchMarker)
    {
      customMarkers := customMarkers + [Marker(id, latlng, caption)];
    }

    /** `handleRemoveMarker(id)`: drop every marker with this id, keeping the others in order. */
    method RemoveMarker(id: string)
      modifies this`customMarkers
      ensures customMarkers == WithoutId(old(customMarkers), id)
      ensures forall m :: m in customMarkers <==> m in old(customMarkers) && m.id != id
      ensures searchMarker == old(searchMarker)
    {
      customMarkers := WithoutId(customMarkers, id);
    }

    /** `handleClearMarkers`. */
    method ClearMarkers()
      modifies this`customMarkers
      ensures customMarkers == [] && !ClearButtonShown(customMarkers)
      ensures searchMarker == old(searchMarker)
    {
      customMarkers := [];
    }
  }
}

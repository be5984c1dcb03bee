# Land parcel lookup: a Dafny model of its decision logic

The application is a single-page web app. A user types an address, picks a
parcel from a fixed catalogue of three, and sees the parcel's details, its
outline on a map, and a mock valuation. Fuzzy matching is done by Fuse.js and
drawing by react-leaflet. This project models what is left around those
libraries, and proves its properties:

- the catalogue and the unit choice of `formatVND` (`land_data.dfy`, module `LandData`);
- the results page's selection state and the parcel index derived from it
  (`index_page.dfy`, module `IndexPage`, class `Index`);
- the search box's address, suggestions and their visibility, and the query
  each handler passes to `onSearch` (`search_form.dfy`, module `SearchForm`,
  class `Form`);
- the map's selected index, centre, outline highlight, click markers and
  background search marker (`mini_map.dfy`, module `MiniMap`, class `Map`);
- the legal-status and expansion classifiers of the parcel panel
  (`land_info.dfy`, module `LandInfoView`).

`text.dfy` (module `Text`) defines JavaScript's `String.prototype.includes`
and `String.prototype.trim` exactly, with their reference meanings.
`wrappers.dfy` holds the `Option` type.

Components that keep React state are classes whose fields are that state.
Their handlers are methods whose `ensures` give the whole new state. Derived
values (`landIndex`, `filteredLands`, `center`, styles, classifiers) are
functions.

A search that Fuse cannot match sets `selectedLandIndex` to null
(src/pages/Index.tsx:29-30). `landIndex` is then -1 and the page shows
"Không tìm thấy thông tin lô đất." (src/pages/Index.tsx:107); there is no
fallback to entry 0 (`IndexPage.LandIndexOf`, `IndexPage.Index.HandleSearch`).

In the parcel panel, the colours computed by `getExpansionColor`
(src/components/LandInfo.tsx:68) are never applied: the expansion line is
always styled `text-green-700` (src/components/LandInfo.tsx:160), and the
`title` of the legal-status palette is unused as well.
`LandInfoView.ExpansionColor` models the function as written.

Parameters stand in for what the host or a library supplies:

- Fuse is a function `search: string -> seq<nat>` from the query to the catalogue positions (`refIndex`) of its hits, best first.
  The page and the search box each build their own Fuse instance, with identical options over the same
  catalogue (src/pages/Index.tsx:12-15, src/components/SearchForm.tsx:13-16), so both compute the same
  function.
  `IndexPage.HitsInRange` requires every hit to be a catalogue position.
- Unicode `toLowerCase` is a parameter `lower: string -> string`.
- The number text of `formatVND` is a parameter `digits`.
- A marker's id (`Date.now()` based) and its coordinate caption are parameters.

## Model

| member | source | states |
|---|---|---|
| `Text.IncludesIsSubstring` | src/components/LandInfo.tsx:26 | the left-to-right scan used for `includes` is true exactly when some window of the string equals the searched text |
| `Text.TrimStart` | src/components/SearchForm.tsx:45 | the result is a suffix of the input; everything removed is white space; the result is empty or starts with a non-space |
| `Text.TrimEnd` | src/components/SearchForm.tsx:45 | the result is a prefix of the input; everything removed is white space; the result is empty or ends with a non-space |
| `Text.TrimEmptyIff` | src/components/SearchForm.tsx:45 | `trim()` gives the empty string exactly when every character is JavaScript white space |
| `Text.TrimShape` | src/components/SearchForm.tsx:46 | the trimmed text occurs in the original, is no longer, and neither starts nor ends with white space |
| `Text.TrimIdempotent` | src/components/SearchForm.tsx:46 | trimming an already trimmed text changes nothing |
| `LandData.MockLands` | src/services/landData.ts:45-223 | the catalogue has exactly three entries, each pairing one parcel with one valuation; every outline has at least 3 vertices, every price trend 6 months and every entry 2 comparable sales; the addresses are pairwise different |
| `LandData.FindIndex` | src/pages/Index.tsx:50 | `findIndex` gives -1 exactly when the entry is absent, and otherwise the first position holding it |
| `LandData.FindIndexOfEntry` | src/pages/Index.tsx:42-50 | because addresses are distinct, looking up the entry at position k finds k, so the first filtered land's position is its Fuse `refIndex` |
| `LandData.UnitOf` | src/services/landData.ts:225-232 | amounts of at least 10^9 use tỷ, amounts from 10^6 up to 10^9 use triệu, smaller amounts use plain VNĐ; these are the only branches and exactly one applies |
| `LandData.FormatVND` | src/services/landData.ts:225-232 | the formatted text ends in the suffix of the chosen unit, and that unit can be read back from it |
| `LandData.ParseUnitOfSuffix` | src/services/landData.ts:227-231 | a space-free number text followed by any of the three suffixes parses back to that suffix's unit; the suffixes cannot be confused |
| `IndexPage.FilteredLands` | src/pages/Index.tsx:41-43 | with no query, the whole catalogue; otherwise one entry per Fuse hit, in rank order, each the catalogue entry at the hit's position |
| `IndexPage.LandIndexOf` | src/pages/Index.tsx:41-51 | `landIndex` is the selected index when it is set and non-negative. Otherwise it is the top Fuse hit after a non-empty search, or 0 with no query. It is -1 exactly when nothing is selected and a non-empty search has no hits. With hits in range it is always -1 or a catalogue position |
| `IndexPage.ScreenOf` | src/pages/Index.tsx:55-108 | only the search form until results are requested; then the parcel panels exactly when `mockLands[landIndex]` exists, otherwise the not-found message; the query is shown in the header |
| `IndexPage.Index.constructor` | src/pages/Index.tsx:18-20 | starts with no results shown, an empty address and no selection, on the search screen |
| `IndexPage.Index.SelectedLand` | src/pages/Index.tsx:53 | `selectedLand` exists exactly when `landIndex` is not -1, and is then that catalogue entry |
| `IndexPage.Index.HandleSearch` | src/pages/Index.tsx:22-32 | always stores the query and shows results. The selection is the top hit, or null when there is none. A non-empty query without hits ends on the not-found message with `landIndex` -1. A query with hits shows the top hit's panels |
| `IndexPage.Index.HandleBackToSearch` | src/pages/Index.tsx:34-38 | from any state, restores exactly the initial state and the search screen |
| `IndexPage.Index.OnSelectLand` | src/pages/Index.tsx:91 | a click on outline `idx` makes `idx` the selection and `landIndex`, and changes nothing else |
| `SearchForm.Suggestions` | src/components/SearchForm.tsx:27 | the suggestions are the first min(5, hits) Fuse hits, in rank order |
| `SearchForm.SubmitQuery` | src/components/SearchForm.tsx:45-46 | submit makes a search exactly when the address is not all white space. The query is then the trimmed, non-empty address, with no white space at either end |
| `SearchForm.SubmitDisabled` | src/components/SearchForm.tsx:107 | the submit button is disabled exactly when the address is all white space, that is exactly when submitting would not search |
| `SearchForm.QuickSearches` | src/components/SearchForm.tsx:58 | the sample addresses are the catalogue addresses in catalogue order |
| `SearchForm.ListVisible` | src/components/SearchForm.tsx:86 | the suggestion list is rendered exactly when it is meant to be shown and has at least one suggestion |
| `SearchForm.Form.constructor` | src/components/SearchForm.tsx:19-21 | starts with an empty address, no suggestions, the list hidden and submit disabled |
| `SearchForm.Form.HandleChange` | src/components/SearchForm.tsx:23-34 | stores the typed value. A non-empty value gets at most five suggestions, which are shown. An empty value clears and hides them |
| `SearchForm.Form.HandleSelect` | src/components/SearchForm.tsx:36-41 | sets the address to the chosen suggestion, empties and hides the suggestions, and searches for that exact, untrimmed text |
| `SearchForm.Form.HandleQuickSearch` | src/components/SearchForm.tsx:51-56 | same four effects as selecting a suggestion, for a sample address |
| `SearchForm.Form.HandleSubmit` | src/components/SearchForm.tsx:43-49 | searches for the trimmed address only when it is not blank and then hides the suggestions; address and suggestion list are left as they were |
| `SearchForm.Form.HandleFocus` | src/components/SearchForm.tsx:83-86 | focus re-shows the suggestions only when the address is non-empty; the list is visible exactly when it is meant to be shown and is non-empty |
| `SearchForm.Form.HandleBlurTimeout` | src/components/SearchForm.tsx:84 | when the deferred blur callback runs, the suggestions are hidden and nothing else changes |
| `SearchForm.SubmitToPage` | src/components/SearchForm.tsx:43-49 | with the results page as `onSearch`, a blank address leaves the page and the suggestion list unchanged. Any other address closes the suggestions and makes the page search for the trimmed text: the page selects Fuse's top hit for it and shows that parcel's panels, or selects nothing and shows the not-found message when there is no hit |
| `MiniMap.SelectedIndex` | src/components/MiniMap.tsx:146 | the selected index is the `landIndex` prop when one is given, and 0 otherwise |
| `MiniMap.Center` | src/components/MiniMap.tsx:146-152 | the computed `center` handed to `MapContainer` is the selected entry's location when the selected index (the `landIndex` prop, else 0) is a catalogue position, otherwise Hà Nội (21.0285, 105.8542); with no prop, entry 0's location |
| `MiniMap.PolygonStyle` | src/components/MiniMap.tsx:272-343 | an outline gets the highlight (orange, weight 4, opacity 0.5) exactly when it is the selected index and the map is not the background; every other outline of a foreground map is plain blue (weight 2, opacity 0.3); the background map (lines 272-276) styles every outline faint blue (weight 2, opacity 0.15); the foreground styles are lines 341-343 |
| `MiniMap.PolygonStyles` | src/components/MiniMap.tsx:336-349 | one style per catalogue outline, in catalogue order |
| `MiniMap.ExactlyOneHighlighted` | src/components/MiniMap.tsx:341-343 | on the foreground map, exactly one outline is highlighted when the selected index is a catalogue position, none otherwise; the background map highlights none |
| `MiniMap.WithoutId` | src/components/MiniMap.tsx:192 | the kept markers are exactly those without the id |
| `MiniMap.WithoutIdAppend` | src/components/MiniMap.tsx:192 | filtering distributes over concatenation, so the kept markers stay in their original order |
| `MiniMap.WithoutAbsentId` | src/components/MiniMap.tsx:192 | removing an id that no marker has changes nothing |
| `MiniMap.RemoveUndoesAdd` | src/components/MiniMap.tsx:176-193 | removing a marker just added under a fresh id gives back the earlier list |
| `MiniMap.FirstMatch` | src/components/MiniMap.tsx:160 | `find` returns the first entry whose case-folded address contains the case-folded query, or nothing when none does |
| `MiniMap.SearchMarkerFor` | src/components/MiniMap.tsx:158-173 | a search marker exists only in background mode with a non-empty address, exactly when some entry matches; it is then placed on the first matching entry |
| `MiniMap.BackgroundCenter` | src/components/MiniMap.tsx:199 | the `center` prop handed to the background `MapContainer` is the search marker's position when there is one, and otherwise the computed centre |
| `MiniMap.BackgroundCentresOnMatch` | src/components/MiniMap.tsx:158-199 | when typing finds a parcel, the `center` prop handed to the background `MapContainer` is the location of the first matching catalogue entry |
| `MiniMap.ClearButtonShown` | src/components/MiniMap.tsx:285 | the clear-all button is rendered exactly when there is at least one click marker |
| `MiniMap.Map.constructor` | src/components/MiniMap.tsx:141-155 | the first render, before any effect: stores the props and starts with no click markers, no search marker and no clear button |
| `MiniMap.Map.RunSearchMarkerEffect` | src/components/MiniMap.tsx:158-173 | the effect run with the current props, once after mounting (so mounting is the constructor followed by this method) and after each prop change: the search marker becomes the one `SearchMarkerFor` describes, or null; props and click markers are kept |
| `MiniMap.Map.ReceiveLandIndex` | src/components/MiniMap.tsx:141-143 | a new `landIndex` prop changes only that prop; the click markers and the search marker are kept |
| `MiniMap.Map.UpdateSearchMarker` | src/components/MiniMap.tsx:158-173 | new `searchingAddress` or `background` props are stored, and the effect re-runs and sets the search marker to the one `SearchMarkerFor` describes for them, or null; the click markers are kept |
| `MiniMap.Map.AddMarker` | src/components/MiniMap.tsx:176-183 | appends exactly one marker at the end, keeps the earlier ones, and makes the clear button appear |
| `MiniMap.Map.RemoveMarker` | src/components/MiniMap.tsx:191-193 | removes every marker with the id and keeps all others in order |
| `MiniMap.Map.ClearMarkers` | src/components/MiniMap.tsx:186-188 | empties the list, after which the clear button is not offered |
| `LandInfoView.LegalColor` | src/components/LandInfo.tsx:25-48 | a status containing "đầy đủ" is green; one containing "chờ" but not "đầy đủ" is yellow; any other is gray. The three cases cover every status and the "đầy đủ" test wins |
| `LandInfoView.CatalogueLegalGreen` | src/services/landData.ts:60 | every catalogue parcel's status "Sổ đỏ đầy đủ" gets the green badge |
| `LandInfoView.ExpansionColor` | src/components/LandInfo.tsx:50-64 | green exactly when the parcel can expand, red exactly when it cannot |
| `LandInfoView.ExpansionText` | src/components/LandInfo.tsx:161 | the expansion line starts with ✔ exactly when `expansion_potential` holds, and with ❌ otherwise |

## Left out

- Fuse.js scoring: the edit-distance matching and the 0.4 threshold are not modelled. Only the hits are, through the `search` parameter.
- IndexPage.Index.HandleSearch: the `refIndex ?? 0` default is not modelled. Every Fuse hit carries its catalogue position, and the model's hits are always positions.
- LandData.FindIndex: `findIndex` compares objects by identity; the model compares entries as values. This agrees on the catalogue because its entries are pairwise different (`LandData.FindIndexOfEntry`).
- IndexPage.Index.OnSelectLand: requires a catalogue position. Its only caller passes the index of a drawn outline.
- LandData.FormatVND: the digits written by `toFixed` and `toLocaleString("vi-VN")` are host float and locale formatting. They are a parameter, and the model only assumes they contain no space.
- Case folding: Unicode `toLowerCase` is a parameter of `MiniMap.FirstMatch` and `MiniMap.SearchMarkerFor`.
- Timing: the 150 ms `setTimeout` on blur is timing behaviour. `SearchForm.Form.HandleBlurTimeout` models only the effect of the callback once it runs.
- Marker ids and captions depend on `Date.now()` and `toFixed`. They are parameters of `MiniMap.Map.AddMarker`.
- The map's view: react-leaflet's `MapContainer` reads its `center` prop only when the map is created (src/components/MiniMap.tsx:199 and the foreground maps), and on that first render `searchMarker` is still null. So the model speaks of the prop value, not of where the displayed map is centred; a later search marker or `onSelectLand` moves the markers and highlight, not the view.
- The map library: tile layers, layer controls, icon setup, `ResetViewButton` (float tolerances and map events) and the drawing of markers and outlines are foreign UI.
- `src/components/PricingInfo.tsx` renders numbers and charts and makes no decisions. The chart tick formatter and `toLocaleDateString` are locale formatting.
- JSX markup, Tailwind class strings (except the classifier palettes), and framer-motion animation are presentation only.
- Coordinates, areas and prices are `real` constants. Nothing does arithmetic on them.

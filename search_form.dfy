/**
 * The search box (src/components/SearchForm.tsx): the typed address, the
 * autocomplete suggestions and their visibility, and the query each handler
 * hands to `onSearch`.
 */
module SearchForm {
  import opened Wrappers
  import opened Text
  import opened LandData
  import opened IndexPage

  /** At most this many suggestions are listed. */
  const MaxSuggestions: nat := 5

  /** `fuse.search(value).slice(0, 5)`: Fuse's best hits, in rank order, at most five. */
  function Suggestions(search: Search, value: string): (hits: seq<nat>)
    ensures |hits| <= MaxSuggestions
    ensures |hits| <= |search(value)|
    ensures |hits| == |search(value)| || |hits| == MaxSuggestions
    ensures hits == search(value)[..|hits|]
  {
    var all := search(value);
    if |all| <= MaxSuggestions then all else all[..MaxSuggestions]
  }

  /** The query `handleSubmit` sends: the trimmed address, and nothing when it trims to empty. */
  function SubmitQuery(address: string): (q: Option<string>)
    ensures q.None? <==> AllWhiteSpace(address)
    ensures q.Some? ==> q.value == Trim(address) && q.value != ""
    ensures q.Some? ==> !IsWhiteSpace(q.value[0]) && !IsWhiteSpace(q.value[|q.value| - 1])
  {
    TrimEmptyIff(address);
    TrimShape(address);
    var t := Trim(address);
    if t != "" then Some(t) else None
  }

  /** `disabled={!address.trim()}`: the submit button is disabled exactly when the address is all white space. */
  function SubmitDisabled(address: string): (disabled: bool)
    ensures disabled <==> AllWhiteSpace(address)
    ensures disabled <==> SubmitQuery(address).None?
  {
    TrimEmptyIff(address);
    Trim(address) == ""
  }

  /** `quickSearches`: the catalogue addresses in catalogue order. */
  function QuickSearches(): (addresses: seq<string>)
    ensures |addresses| == |MockLands()|
    ensures forall i :: 0 <= i < |addresses| ==> addresses[i] == MockLands()[i].landInfo.address
  {
    seq(|MockLands()|, i requires 0 <= i < |MockLands()| => MockLands()[i].landInfo.address)
  }

  /** The suggestion list is drawn only while it is meant to be shown and has something in it. */
  function ListVisible(showSuggestions: bool, suggestions: seq<nat>): (visible: bool)
    ensures visible <==> showSuggestions && suggestions != []
  {
    showSuggestions && |suggestions| > 0
  }

  /** The `SearchForm` component's state; `onSearch` is the value each handler returns. */
  class Form {
    const search: Search
    var address: string
    var suggestions: seq<nat>
    var showSuggestions: bool

    constructor(search: Search)
      ensures this.search == search
      ensures address == "" && suggestions == [] && !showSuggestions
      ensures !SuggestionListVisible() && SubmitButtonDisabled()
    {
      this.search := search;
      address := "";
      suggestions := [];
      showSuggestions := false;
    }

    function SuggestionListVisible(): bool
      reads this
    {
      ListVisible(showSuggestions, suggestions)
    }

    function SubmitButtonDisabled(): bool
      reads this
    {
      SubmitDisabled(address)
    }

    /** `handleChange`: store the typed text and refresh the suggestions from it. */
    method HandleChange(value: string)
      modifies this
      ensures address == value
      ensures |value| > 0 ==> suggestions == Suggestions(search, value) && showSuggestions
      ensures |value| == 0 ==> suggestions == [] && !showSuggestions && !SuggestionListVisible()
    {
      address := value;
      if |value| > 0 {
        suggestions := Suggestions(search, value);
        showSuggestions := true;
      } else {
        suggestions := [];
        showSuggestions := false;
      }
    }

    /** `handleSelect` (a suggestion picked) and `handleQuickSearch` (a sample address picked) behave alike. */
    method Choose(chosen: string) returns (searched: string)
      modifies this
      ensures address == chosen && suggestions == [] && !showSuggestions
      ensures searched == chosen
    {
      address := chosen;
      suggestions := [];
      showSuggestions := false;
      searched := chosen;
    }

    /** `handleSelect(address)`: `onSearch` is called with the suggestion's address, untrimmed. */
    method HandleSelect(chosen: string) returns (searched: string)
      modifies this
      ensures address == chosen && suggestions == [] && !showSuggestions
      ensures !SuggestionListVisible()
      ensures searched == chosen
    {
      searched := Choose(chosen);
    }

    /** `handleQuickSearch(quickAddress)`. */
    method HandleQuickSearch(quickAddress: string) returns (searched: string)
      modifies this
      ensures address == quickAddress && suggestions == [] && !showSuggestions
      ensures !SuggestionListVisible()
      ensures searched == quickAddress
    {
      searched := Choose(quickAddress);
    }

    /**
     * `handleSubmit`: when the address trims to something, `onSearch` gets the
     * trimmed text and the suggestions are hidden; otherwise nothing happens.
     */
    method HandleSubmit() returns (searched: Option<string>)
      modifies this`showSuggestions
      ensures searched == SubmitQuery(address)
      ensures searched.None? <==> SubmitButtonDisabled()
      ensures address == old(address) && suggestions == old(suggestions)
      ensures showSuggestions == if searched.Some? then false else old(showSuggestions)
    {
      var t := Trim(address);
      if t != "" {
        searched := Some(t);
        showSuggestions := false;
      } else {
        searched := None;
      }
    }

    /** `onFocus`: re-show the suggestions, but only when something has been typed. */
    method HandleFocus()
      modifies this`showSuggestions
      ensures address == old(address) && suggestions == old(suggestions)
      ensures showSuggestions == (old(showSuggestions) || address != "")
      ensures SuggestionListVisible() <==> (old(showSuggestions) || address != "") && |suggestions| > 0
    {
      if address != "" {
        showSuggestions := true;
      }
    }

    /** The callback `onBlur` defers by 150 ms, at the moment it runs: the suggestions are hidden. */
    method HandleBlurTimeout()
      modifies this`showSuggestions
      ensures address == old(address) && suggestions == old(suggestions)
      ensures !showSuggestions && !SuggestionListVisible()
    {
      showSuggestions := false;
    }
  }

  /**
   * Submitting the form with the results page behind it as `onSearch`: the
   * page searches for the trimmed address and the suggestions close; a blank
   * address leaves the page and the form as they were.
   */
  method SubmitToPage(form: Form, page: Index)
    requires page.Valid()
    modifies form`showSuggestions, page
    ensures page.Valid()
    ensures form.address == old(form.address) && form.suggestions == old(form.suggestions)
    ensures AllWhiteSpace(form.address) ==>
              && page.searchedAddress == old(page.searchedAddress)
              && page.showResults == old(page.showResults)
              && page.selectedLandIndex == old(page.selectedLandIndex)
              && form.showSuggestions == old(form.showSuggestions)
    ensures !AllWhiteSpace(form.address) ==>
              && page.showResults
              && page.searchedAddress == Trim(form.address)
              && !form.showSuggestions
              && page.selectedLandIndex ==
                   (if page.search(Trim(form.address)) != [] then Some(page.search(Trim(form.address))[0]) else None)
              && page.Screen() ==
                   (if page.search(Trim(form.address)) != []
                    then ParcelPanels(Trim(form.address), page.search(Trim(form.address))[0])
                    else NotFound(Trim(form.address)))
  {
    var searched := form.HandleSubmit();
    if searched.Some? {
      page.HandleSearch(searched.value);
    }
  }
}

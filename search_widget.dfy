/**
 * `search-widget.js`: the `<search-widget>` element. A new search starts at
 * page 0 with the results cleared; "More" asks for the next page. A search
 * is a request, made only for a non-empty query, followed later by its
 * settlement: results are appended (or "No more results." replaces them,
 * or an error text does), and on every path the spinner is hidden, the
 * search button shown and the input enabled again.
 */
module SearchWidget {
  import opened Wrappers

  /** The endpoint used when the element has no `endpoint` attribute. */
  const DefaultEndpoint: string := "/public/search"
  const NoMoreResults: string := "No more results."
  const SearchError: string := "Error performing search. Please try again."

  /** The body of a search request, with the endpoint it is posted to. */
  datatype SearchRequest = SearchRequest(endpoint: string, query: string, source: string, offset: nat)

  /** How a request settles: the `results` HTML of the parsed reply, or a rejection anywhere in the chain. */
  datatype Outcome = Results(results: string) | Failed

  /** The documentation source the forum checkbox selects. */
  function SourceFor(forumChecked: bool): (s: string)
    ensures s == "public-with-forum" <==> forumChecked
    ensures s == "public-without-forum" <==> !forumChecked
  {
    if forumChecked then "public-with-forum" else "public-without-forum"
  }

  /** `get endpoint`: the attribute when it is set and non-empty, else the public search route. */
  function EndpointOf(attribute: Option<string>): (e: string)
    ensures e != ""
    ensures attribute.Some? && attribute.value != "" ==> e == attribute.value
    ensures attribute.None? || attribute.value == "" ==> e == DefaultEndpoint
  {
    if attribute.Some? && attribute.value != "" then attribute.value else DefaultEndpoint
  }

  class Widget {
    /** The element's `endpoint` attribute. */
    const endpointAttribute: Option<string>
    /** `searchInput.value` and `sourceCheckbox.checked`. */
    var query: string
    var forumChecked: bool
    var offset: nat
    var numResults: nat
    /** `searchResults.innerHTML`. */
    var results: string
    /** The UI flags: `searching` class, disabled input, and which of the button, spinner and More are displayed. */
    var searching: bool
    var inputDisabled: bool
    var buttonShown: bool
    var spinnerShown: bool
    var moreShown: bool
    /** The `show-controls` class. */
    var controlsShown: bool
    /** Whether a request is outstanding. */
    var pending: bool
    /** Every request made, in order. */
    var requests: seq<SearchRequest>

    /** The UI shows the searching state exactly while a request is outstanding, and no More button then. */
    predicate Valid()
      reads this
    {
      && (searching <==> pending)
      && (inputDisabled <==> pending)
      && (spinnerShown <==> pending)
      && (buttonShown <==> !pending)
      && (pending ==> !moreShown)
    }

    /** The constructor: page 0, no results, the spinner and More hidden by the stylesheet. */
    constructor (endpointAttribute: Option<string>)
      ensures Valid() && this.endpointAttribute == endpointAttribute
      ensures offset == 0 && numResults == 0 && results == "" && requests == []
      ensures !pending && !moreShown && !controlsShown && query == "" && !forumChecked
    {
      this.endpointAttribute := endpointAttribute;
      query := "";
      forumChecked := false;
      offset := 0;
      numResults := 0;
      results := "";
      searching := false;
      inputDisabled := false;
      buttonShown := true;
      spinnerShown := false;
      moreShown := false;
      controlsShown := false;
      pending := false;
      requests := [];
    }

    /** Focusing the input shows the controls. */
    method Focus()
      modifies this
      ensures controlsShown
      ensures query == old(query) && offset == old(offset) && results == old(results) && requests == old(requests)
      ensures pending == old(pending) && moreShown == old(moreShown)
      ensures searching == old(searching) && inputDisabled == old(inputDisabled)
      ensures buttonShown == old(buttonShown) && spinnerShown == old(spinnerShown)
    {
      controlsShown := true;
    }

    /** `handleOutsideClick`: a click outside the element hides the controls. */
    method HandleOutsideClick(inside: bool)
      modifies this
      ensures controlsShown == (old(controlsShown) && inside)
      ensures query == old(query) && offset == old(offset) && results == old(results) && requests == old(requests)
      ensures pending == old(pending) && moreShown == old(moreShown)
      ensures searching == old(searching) && inputDisabled == old(inputDisabled)
      ensures buttonShown == old(buttonShown) && spinnerShown == old(spinnerShown)
    {
      if !inside {
        controlsShown := false;
      }
    }

    /**
     * The synchronous part of `performSearch`: an empty query changes
     * nothing; otherwise the UI enters the searching state and one request
     * for the query, the selected source and the current page is made.
     */
    method PerformSearch() returns (issued: bool)
      requires Valid() && !pending
      modifies this
      ensures Valid()
      ensures issued <==> query != ""
      ensures query == old(query) && forumChecked == old(forumChecked) && offset == old(offset)
      ensures results == old(results) && numResults == old(numResults) && controlsShown == old(controlsShown)
      ensures !issued ==> requests == old(requests) && !pending && moreShown == old(moreShown)
      ensures issued ==>
        && pending && !moreShown
        && requests == old(requests) + [SearchRequest(EndpointOf(endpointAttribute), query, SourceFor(forumChecked), offset)]
    {
      if |query| == 0 {
        return false;
      }
      var source := SourceFor(forumChecked);
      searching := true;
      inputDisabled := true;
      buttonShown := false;
      spinnerShown := true;
      moreShown := false;
      requests := requests + [SearchRequest(EndpointOf(endpointAttribute), query, source, offset)];
      pending := true;
      issued := true;
    }

    /**
     * The request settles: non-empty results are appended and More is
     * shown, empty ones replace the results with "No more results." and
     * hide More, a failure replaces them with the error text; then (the
     * `finally`) the UI leaves the searching state.
     */
    method Settle(outcome: Outcome)
      requires Valid() && pending
      modifies this
      ensures Valid() && !pending && buttonShown && !spinnerShown && !inputDisabled && !searching
      ensures query == old(query) && offset == old(offset) && requests == old(requests) && controlsShown == old(controlsShown)
      ensures outcome.Results? && outcome.results != "" ==>
        results == old(results) + outcome.results && numResults == |outcome.results| && moreShown
      ensures outcome.Results? && outcome.results == "" ==>
        results == NoMoreResults && numResults == old(numResults) && !moreShown
      ensures outcome.Failed? ==>
        results == SearchError && numResults == old(numResults) && moreShown == old(moreShown)
    {
      match outcome {
        case Results(html) =>
          if |html| > 0 {
            results := results + html;
            numResults := |html|;
            moreShown := true;
          } else {
            results := NoMoreResults;
            moreShown := false;
          }
        case Failed =>
          results := SearchError;
      }
      searching := false;
      spinnerShown := false;
      buttonShown := true;
      inputDisabled := false;
      pending := false;
    }

    /** `performNewSearch` (the search button, or Enter): page 0, results cleared, then a search. */
    method PerformNewSearch() returns (issued: bool)
      requires Valid() && !pending
      modifies this
      ensures Valid() && offset == 0 && results == ""
      ensures issued <==> query != ""
      ensures query == old(query) && forumChecked == old(forumChecked) && controlsShown == old(controlsShown)
      ensures !issued ==> requests == old(requests) && !pending
      ensures issued ==>
        && pending
        && requests == old(requests) + [SearchRequest(EndpointOf(endpointAttribute), query, SourceFor(forumChecked), 0)]
    {
      offset := 0;
      results := "";
      issued := PerformSearch();
    }

    /** `handleSearch`: only Enter starts a new search. */
    method HandleSearch(key: string) returns (issued: bool)
      requires Valid() && !pending
      modifies this
      ensures Valid()
      ensures issued <==> key == "Enter" && query != ""
      ensures key != "Enter" ==> requests == old(requests) && results == old(results) && offset == old(offset)
      ensures key == "Enter" ==> offset == 0 && results == ""
    {
      issued := false;
      if key == "Enter" {
        issued := PerformNewSearch();
      }
    }

    /** `handleMore`: the next page, whatever the query; an empty one still moves the page on. */
    method HandleMore() returns (issued: bool)
      requires Valid() && !pending
      modifies this
      ensures Valid() && offset == old(offset) + 1 && results == old(results)
      ensures issued <==> query != ""
      ensures query == old(query) && forumChecked == old(forumChecked) && controlsShown == old(controlsShown)
      ensures !issued ==> requests == old(requests) && !pending
      ensures issued ==>
        && pending
        && requests == old(requests) + [SearchRequest(EndpointOf(endpointAttribute), query, SourceFor(forumChecked), old(offset) + 1)]
    {
      offset := offset + 1;
      issued := PerformSearch();
    }
  }
}

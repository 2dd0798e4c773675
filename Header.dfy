/**
 * The header's flight search box (src/components/Header.tsx): the stored query, the filtered
 * list of four mock flight suggestions and the flag that shows them.
 */
module Header {
  import opened Seqs
  import opened Text

  datatype FlightSuggestion = FlightSuggestion(id: int, from: string, to: string, date: string)

  const AllFlightSuggestions: seq<FlightSuggestion> := [
    FlightSuggestion(1, "New York", "London", "2023-07-15"),
    FlightSuggestion(2, "Paris", "Tokyo", "2023-07-20"),
    FlightSuggestion(3, "Los Angeles", "Sydney", "2023-07-25"),
    FlightSuggestion(4, "Dubai", "Singapore", "2023-07-30")
  ]

  /** The filter's test for an already lowercased query: `from` or `to` contains it ignoring
      case, or `date` contains it as it is. */
  predicate SuggestionMatches(s: FlightSuggestion, query: string) {
    Contains(Lower(s.from), query) || Contains(Lower(s.to), query) || Contains(s.date, query)
  }

  function MatchesQuery(query: string): FlightSuggestion -> bool {
    s => SuggestionMatches(s, query)
  }

  function FilterSuggestions(query: string): seq<FlightSuggestion> {
    Filter(AllFlightSuggestions, MatchesQuery(query))
  }

  /** The filtered suggestions are exactly the matching ones, as an order-preserving sublist. */
  lemma FilterSuggestionsSpec(query: string, s: FlightSuggestion)
    ensures s in FilterSuggestions(query) <==> s in AllFlightSuggestions && SuggestionMatches(s, query)
    ensures IsSubsequence(FilterSuggestions(query), AllFlightSuggestions)
  {
    FilterMember(AllFlightSuggestions, MatchesQuery(query), s);
    FilterIsSubsequence(AllFlightSuggestions, MatchesQuery(query));
  }

  /** The empty query is contained in every date, so it matches every suggestion. */
  lemma EmptyQueryKeepsAll()
    ensures FilterSuggestions("") == AllFlightSuggestions
  {
    forall i | 0 <= i < |AllFlightSuggestions| ensures MatchesQuery("")(AllFlightSuggestions[i]) {
      ContainsEmpty(AllFlightSuggestions[i].date);
    }
    FilterKeepsAll(AllFlightSuggestions, MatchesQuery(""));
  }

  /** The list a query shows: the whole list for an empty query, the filtered one otherwise. */
  function SuggestionsFor(query: string): seq<FlightSuggestion> {
    if query != "" then FilterSuggestions(query) else AllFlightSuggestions
  }

  /** The special case for the empty query shows what the filter would have kept anyway. */
  lemma SuggestionsForIsFilter(query: string)
    ensures SuggestionsFor(query) == FilterSuggestions(query)
  {
    if query == "" {
      EmptyQueryKeepsAll();
    }
  }

  /** `"<from> to <to>"`, the text a clicked suggestion puts in the box. */
  function SuggestionLabel(s: FlightSuggestion): string {
    s.from + " to " + s.to
  }

  /** The text of a selected suggestion names both ends of the route. */
  lemma SuggestionLabelNamesRoute(s: FlightSuggestion)
    ensures Contains(SuggestionLabel(s), s.from) && Contains(SuggestionLabel(s), s.to)
  {
    var text := SuggestionLabel(s);
    assert s.from <= text[0..];
    assert s.to <= text[|s.from| + 4..];
  }

  class HeaderSearch {
    var searchQuery: string
    var filteredSuggestions: seq<FlightSuggestion>
    var showSuggestions: bool

    constructor ()
      ensures searchQuery == "" && filteredSuggestions == AllFlightSuggestions && !showSuggestions
    {
      searchQuery, filteredSuggestions, showSuggestions := "", AllFlightSuggestions, false;
    }

    /** The drop-down is on screen. */
    function SuggestionsVisible(): bool
      reads this
    {
      showSuggestions && |filteredSuggestions| > 0
    }

    /** `handleSearchFocus`. */
    method HandleSearchFocus()
      modifies this`showSuggestions
      ensures showSuggestions && (SuggestionsVisible() <==> filteredSuggestions != [])
    {
      showSuggestions := true;
    }

    /** `handleSearchChange`: store the lowercased input, filter by it (all four for an empty
        query), and show the suggestions. */
    method HandleSearchChange(input: string)
      modifies this
      ensures searchQuery == Lower(input)
      ensures filteredSuggestions == SuggestionsFor(searchQuery)
      ensures showSuggestions
      ensures searchQuery == "" ==> SuggestionsVisible()
    {
      var value := Lower(input);
      searchQuery := value;
      filteredSuggestions := SuggestionsFor(value);
      showSuggestions := true;
    }

    /** A click on a suggestion: put its route in the box and hide the list. */
    method SelectSuggestion(s: FlightSuggestion)
      modifies this`searchQuery, this`showSuggestions
      ensures searchQuery == SuggestionLabel(s) && !showSuggestions && !SuggestionsVisible()
    {
      searchQuery := SuggestionLabel(s);
      showSuggestions := false;
    }

    /** A mouse-down outside the search box hides the list. */
    method ClickOutside()
      modifies this`showSuggestions
      ensures !showSuggestions && !SuggestionsVisible()
    {
      showSuggestions := false;
    }
  }
}

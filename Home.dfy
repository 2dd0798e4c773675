/**
 * The search form of the home page (src/pages/Home.tsx): each of the two city inputs keeps its
 * typed value, a suggestion list filtered from twenty cities and a show flag; the swap button
 * exchanges the two cities. The background video effect is left out.
 */
module Home {
  import opened Seqs
  import opened Text

  const Cities: seq<string> := [
    "New York", "Los Angeles", "Chicago", "Houston", "Phoenix", "Philadelphia",
    "San Antonio", "San Diego", "Dallas", "San Jose", "Austin", "Jacksonville",
    "San Francisco", "Columbus", "Fort Worth", "Indianapolis", "Charlotte", "Seattle",
    "Denver", "Washington D.C."
  ]

  function CityMatches(value: string): string -> bool {
    city => ContainsIgnoreCase(city, value)
  }

  /** The cities whose lowercase form contains the lowercase input, in list order. */
  function CitySuggestions(value: string): seq<string> {
    Filter(Cities, CityMatches(value))
  }

  /** The suggestions are exactly the cities containing the input, ignoring case, in list order,
      each once, since no city is listed twice. */
  lemma CitySuggestionsSpec(value: string, city: string)
    ensures city in CitySuggestions(value) <==> city in Cities && ContainsIgnoreCase(city, value)
    ensures IsSubsequence(CitySuggestions(value), Cities)
    ensures Distinct(CitySuggestions(value))
  {
    assert Distinct(Cities);
    FilterDistinct(Cities, CityMatches(value));
    FilterMember(Cities, CityMatches(value), city);
    FilterIsSubsequence(Cities, CityMatches(value));
  }

  /** One city input: the value the `setCity`, `setSuggestions` and `setShowSuggestions`
      arguments of the shared handlers write. */
  class CityField {
    var city: string
    var suggestions: seq<string>
    var showSuggestions: bool

    constructor ()
      ensures city == "" && suggestions == [] && !showSuggestions
    {
      city, suggestions, showSuggestions := "", [], false;
    }

    /** `handleCityChange`: the typed value is stored verbatim; a non-empty value refreshes and
        shows the suggestions, an empty one hides them and keeps the old list. */
    method HandleCityChange(value: string)
      modifies this
      ensures city == value
      ensures |value| > 0 ==> suggestions == CitySuggestions(value) && showSuggestions
      ensures |value| == 0 ==> suggestions == old(suggestions) && !showSuggestions
    {
      city := value;
      if |value| > 0 {
        suggestions := CitySuggestions(value);
        showSuggestions := true;
      } else {
        showSuggestions := false;
      }
    }

    /** `handleCitySelect`: take the clicked suggestion and hide the list. */
    method HandleCitySelect(selected: string)
      modifies this`city, this`showSuggestions
      ensures city == selected && !showSuggestions
    {
      city := selected;
      showSuggestions := false;
    }

    /** The input's `onFocus` shows the list it already holds. */
    method Focus()
      modifies this`showSuggestions
      ensures showSuggestions
    {
      showSuggestions := true;
    }

    /** A mouse-down outside the input hides the list and keeps it. */
    method ClickOutside()
      modifies this`showSuggestions
      ensures !showSuggestions
    {
      showSuggestions := false;
    }
  }

  /** The departure and arrival inputs. */
  class SearchForm {
    const departure: CityField
    const arrival: CityField

    ghost predicate Valid()
      reads this
    {
      departure != arrival
    }

    constructor ()
      ensures Valid() && fresh(departure) && fresh(arrival)
      ensures departure.city == "" && arrival.city == ""
    {
      departure := new CityField();
      arrival := new CityField();
    }

    /** `swapCities`: both setters read the values of the same render, so the cities trade places. */
    method SwapCities()
      requires Valid()
      modifies departure`city, arrival`city
      ensures departure.city == old(arrival.city) && arrival.city == old(departure.city)
    {
      var d, a := departure.city, arrival.city;
      departure.city := a;
      arrival.city := d;
    }
  }

  /** Swapping twice restores both cities. */
  method SwapTwiceRestores(form: SearchForm)
    requires form.Valid()
    modifies form.departure`city, form.arrival`city
    ensures form.departure.city == old(form.departure.city)
    ensures form.arrival.city == old(form.arrival.city)
  {
    form.SwapCities();
    form.SwapCities();
  }
}

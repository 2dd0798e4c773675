/**
 * The flight listing page (src/pages/Flights.tsx): the API record mapper, the search and
 * status filter, the copy-then-sort by one of three keys, pagination by fifteen with
 * clamped previous/next, and the local seat update after a booking.
 * Departure and arrival times are abstract integer timestamps and prices are integers.
 */
module Flights {
  import opened Wrappers
  import opened Seqs
  import opened Text

  /** A flight as the API sends it. */
  datatype ApiFlight = ApiFlight(
    CreatedAt: string,
    DeletedAt: Option<string>,
    id: int,
    UpdatedAt: string,
    arrivalAirport: Option<string>,
    arrivalTime: int,
    availableSeats: int,
    capacity: int,
    departureAirport: Option<string>,
    departureTime: int,
    flightNumber: Option<string>,
    price: int,
    status: string)

  /** A flight as the page holds it. The three searched fields may be absent (`?.`). */
  datatype Flight = Flight(
    ID: int,
    FlightNumber: Option<string>,
    DepartureAirport: Option<string>,
    ArrivalAirport: Option<string>,
    DepartureTime: int,
    ArrivalTime: int,
    Capacity: int,
    AvailableSeats: int,
    Price: int,
    Status: string)

  /** `parseApiResponseToFlight`: rename the ten flight fields, drop the three bookkeeping times. */
  function ParseApiResponseToFlight(a: ApiFlight): Flight {
    Flight(a.id, a.flightNumber, a.departureAirport, a.arrivalAirport, a.departureTime,
           a.arrivalTime, a.capacity, a.availableSeats, a.price, a.status)
  }

  /** The API record a flight came from, given the three fields the mapper drops. */
  function ToApiFlight(f: Flight, createdAt: string, updatedAt: string, deletedAt: Option<string>): ApiFlight {
    ApiFlight(createdAt, deletedAt, f.ID, updatedAt, f.ArrivalAirport, f.ArrivalTime, f.AvailableSeats,
              f.Capacity, f.DepartureAirport, f.DepartureTime, f.FlightNumber, f.Price, f.Status)
  }

  /** The mapper loses exactly CreatedAt, UpdatedAt and DeletedAt: with those three given back
      the API record is restored, and every flight is the image of such a record. */
  lemma ParseFlightRoundTrip(a: ApiFlight, f: Flight, createdAt: string, updatedAt: string, deletedAt: Option<string>)
    ensures ToApiFlight(ParseApiResponseToFlight(a), a.CreatedAt, a.UpdatedAt, a.DeletedAt) == a
    ensures ParseApiResponseToFlight(ToApiFlight(f, createdAt, updatedAt, deletedAt)) == f
  {
  }

  /** The fetched response mapped record by record. */
  function ParseAll(response: seq<ApiFlight>): (r: seq<Flight>)
    ensures |r| == |response|
    ensures forall i :: 0 <= i < |r| ==> r[i] == ParseApiResponseToFlight(response[i])
  {
    if response == [] then [] else [ParseApiResponseToFlight(response[0])] + ParseAll(response[1..])
  }

  // ---------------------------------------------------------------- filter

  /** A present field contains the term ignoring case; an absent field never matches. */
  predicate FieldMatches(field: Option<string>, term: string) {
    field.Some? && ContainsIgnoreCase(field.value, term)
  }

  /** The search test: one of the three searched fields contains the term ignoring case, and
      the status filter is unset or equal to the flight's status. */
  predicate MatchesSearch(f: Flight, term: string, status: Option<string>) {
    && (FieldMatches(f.DepartureAirport, term) || FieldMatches(f.ArrivalAirport, term)
        || FieldMatches(f.FlightNumber, term))
    && (status.None? || f.Status == status.value)
  }

  function SearchPredicate(term: string, status: Option<string>): Flight -> bool {
    f => MatchesSearch(f, term, status)
  }

  function FilterFlights(flights: seq<Flight>, term: string, status: Option<string>): seq<Flight> {
    Filter(flights, SearchPredicate(term, status))
  }

  /** The filter keeps a flight, with its multiplicity and in its order, exactly when it matches. */
  lemma FilterFlightsSpec(flights: seq<Flight>, term: string, status: Option<string>, f: Flight)
    ensures f in FilterFlights(flights, term, status) <==> f in flights && MatchesSearch(f, term, status)
    ensures multiset(FilterFlights(flights, term, status))[f] ==
            if MatchesSearch(f, term, status) then multiset(flights)[f] else 0
    ensures IsSubsequence(FilterFlights(flights, term, status), flights)
  {
    FilterMember(flights, SearchPredicate(term, status), f);
    FilterCount(flights, SearchPredicate(term, status), f);
    FilterIsSubsequence(flights, SearchPredicate(term, status));
  }

  predicate HasSearchableField(f: Flight) {
    f.DepartureAirport.Some? || f.ArrivalAirport.Some? || f.FlightNumber.Some?
  }

  /** An empty search term with no status filter keeps exactly the flights that have a searched
      field: every present field contains the empty term, and an absent one never matches. */
  lemma {:induction false} EmptySearchKeepsSearchable(flights: seq<Flight>)
    ensures FilterFlights(flights, "", None) == Filter(flights, HasSearchableField)
  {
    if flights != [] {
      var f := flights[0];
      EmptySearchKeepsSearchable(flights[1..]);
      if f.DepartureAirport.Some? {
        ContainsEmpty(Lower(f.DepartureAirport.value));
      }
      if f.ArrivalAirport.Some? {
        ContainsEmpty(Lower(f.ArrivalAirport.value));
      }
      if f.FlightNumber.Some? {
        ContainsEmpty(Lower(f.FlightNumber.value));
      }
      assert SearchPredicate("", None)(f) == HasSearchableField(f);
    }
  }

  /** Hence a list whose every flight has a searched field passes an empty search unchanged. */
  lemma EmptySearchKeepsAll(flights: seq<Flight>)
    requires forall i :: 0 <= i < |flights| ==> HasSearchableField(flights[i])
    ensures FilterFlights(flights, "", None) == flights
  {
    EmptySearchKeepsSearchable(flights);
    FilterKeepsAll(flights, HasSearchableField);
  }

  // ---------------------------------------------------------------- sort

  datatype SortKey = ByPrice | ByDepartureTime | ByAvailableSeats

  /** The comparator of the sort for each key: negative or zero keeps `a` first. */
  function Compare(a: Flight, b: Flight, key: SortKey): int {
    match key
    case ByPrice => a.Price - b.Price
    case ByDepartureTime => a.DepartureTime - b.DepartureTime
    case ByAvailableSeats => b.AvailableSeats - a.AvailableSeats
  }

  /** Each neighbour pair is in comparator order. */
  ghost predicate Sorted(s: seq<Flight>, key: SortKey) {
    forall i :: 0 < i < |s| ==> Compare(s[i - 1], s[i], key) <= 0
  }

  /** Insert `x` before the first element it does not follow. */
  function Insert(x: Flight, t: seq<Flight>, key: SortKey): (r: seq<Flight>)
    requires Sorted(t, key)
    ensures |r| == |t| + 1
    ensures multiset(r) == multiset(t) + multiset{x}
    ensures r[0] == x || (t != [] && r[0] == t[0])
    ensures Sorted(r, key)
  {
    if t == [] || Compare(x, t[0], key) <= 0 then [x] + t
    else
      var rest := Insert(x, t[1..], key);
      assert Compare(t[0], rest[0], key) <= 0 by {
        if rest[0] == x {
          assert Compare(t[0], x, key) == -Compare(x, t[0], key);
        } else {
          assert Compare(t[0], t[1], key) <= 0;
        }
      }
      InsertAfter(t[0], rest, key);
      assert t == [t[0]] + t[1..];
      [t[0]] + rest
  }

  /** Putting an element in front of a sorted list that it precedes keeps it sorted. */
  lemma InsertAfter(y: Flight, rest: seq<Flight>, key: SortKey)
    requires Sorted(rest, key) && rest != [] && Compare(y, rest[0], key) <= 0
    ensures Sorted([y] + rest, key)
  {
    var r := [y] + rest;
    forall i | 0 < i < |r| ensures Compare(r[i - 1], r[i], key) <= 0 {
      if i > 1 {
        assert r[i - 1] == rest[i - 2] && r[i] == rest[i - 1];
      }
    }
  }

  /** `[...flightsToSort].sort(comparator)`: a sorted permutation of a copy of the input. */
  function SortFlights(s: seq<Flight>, key: SortKey): (r: seq<Flight>)
    ensures |r| == |s|
    ensures multiset(r) == multiset(s)
    ensures Sorted(r, key)
  {
    if s == [] then []
    else
      assert s == [s[0]] + s[1..];
      Insert(s[0], SortFlights(s[1..], key), key)
  }

  /** Neighbour order extends to every pair, since the comparator orders by one integer. */
  lemma {:induction false} SortedPairwise(s: seq<Flight>, key: SortKey, i: int, j: int)
    requires Sorted(s, key)
    requires 0 <= i < j < |s|
    ensures Compare(s[i], s[j], key) <= 0
    decreases j - i
  {
    if i + 1 < j {
      SortedPairwise(s, key, i, j - 1);
    }
  }

  /** The sorted list is a permutation of its input, ascending by price, ascending by departure
      time, or descending by available seats. */
  lemma SortFlightsSpec(s: seq<Flight>, key: SortKey)
    ensures multiset(SortFlights(s, key)) == multiset(s)
    ensures key == ByPrice ==> forall i, j :: 0 <= i < j < |s| ==>
      SortFlights(s, key)[i].Price <= SortFlights(s, key)[j].Price
    ensures key == ByDepartureTime ==> forall i, j :: 0 <= i < j < |s| ==>
      SortFlights(s, key)[i].DepartureTime <= SortFlights(s, key)[j].DepartureTime
    ensures key == ByAvailableSeats ==> forall i, j :: 0 <= i < j < |s| ==>
      SortFlights(s, key)[i].AvailableSeats >= SortFlights(s, key)[j].AvailableSeats
  {
    var r := SortFlights(s, key);
    forall i, j | 0 <= i < j < |s| ensures Compare(r[i], r[j], key) <= 0 {
      SortedPairwise(r, key, i, j);
    }
  }

  /** `filteredAndSortedFlights`. */
  function FilteredAndSortedFlights(flights: seq<Flight>, term: string, status: Option<string>, key: SortKey): seq<Flight> {
    SortFlights(FilterFlights(flights, term, status), key)
  }

  /** The filtered and sorted list holds exactly the matching flights, each as often as before. */
  lemma FilteredAndSortedSpec(flights: seq<Flight>, term: string, status: Option<string>, key: SortKey, f: Flight)
    ensures multiset(FilteredAndSortedFlights(flights, term, status, key))[f] ==
            if MatchesSearch(f, term, status) then multiset(flights)[f] else 0
  {
    FilterFlightsSpec(flights, term, status, f);
  }

  /** `displayFlights`: the full fetched list until Search is pressed. */
  function DisplayFlights(flights: seq<Flight>, isFiltered: bool, term: string, status: Option<string>, key: SortKey): seq<Flight> {
    if isFiltered then FilteredAndSortedFlights(flights, term, status, key) else flights
  }

  // ---------------------------------------------------------------- pagination

  const FlightsPerPage := 15

  /** The number of pages: n divided by the page size, rounded up. */
  function TotalPages(n: nat): (t: nat)
    ensures n == 0 ==> t == 0
    ensures n > 0 ==> FlightsPerPage * (t - 1) < n <= FlightsPerPage * t
  {
    (n + FlightsPerPage - 1) / FlightsPerPage
  }

  /** The flights on page p >= 1: indices (p-1)*15 up to p*15, both ends clamped to the
      length of the list. */
  function PageOf<T>(list: seq<T>, page: int): (r: seq<T>)
    requires page >= 1
    ensures |r| <= FlightsPerPage
    ensures |r| > 0 ==> (page - 1) * FlightsPerPage + |r| <= |list|
    ensures forall j :: 0 <= j < |r| ==> r[j] == list[(page - 1) * FlightsPerPage + j]
    ensures page <= TotalPages(|list|) ==> |r| == Min(FlightsPerPage, |list| - (page - 1) * FlightsPerPage) > 0
    ensures page > TotalPages(|list|) ==> r == []
  {
    var last := page * FlightsPerPage;
    var first := last - FlightsPerPage;
    list[Min(first, |list|)..Min(last, |list|)]
  }

  /** Pages `page`, `page + 1`, ..., up to the last page, concatenated. */
  function PagesFrom<T>(list: seq<T>, page: int): seq<T>
    requires page >= 1
    decreases TotalPages(|list|) + 1 - page
  {
    if page > TotalPages(|list|) then [] else PageOf(list, page) + PagesFrom(list, page + 1)
  }

  lemma {:induction false} PagesFromSuffix<T>(list: seq<T>, page: int)
    requires page >= 1
    ensures PagesFrom(list, page) == list[Min((page - 1) * FlightsPerPage, |list|)..]
    decreases TotalPages(|list|) + 1 - page
  {
    if page <= TotalPages(|list|) {
      PagesFromSuffix(list, page + 1);
      var a, b := (page - 1) * FlightsPerPage, Min(page * FlightsPerPage, |list|);
      assert list[a..] == list[a..b] + list[b..];
    }
  }

  /** Pages 1 to totalPages, in order, reproduce the displayed list: no gaps, no overlaps. */
  lemma PagesReassemble<T>(list: seq<T>)
    ensures PagesFrom(list, 1) == list
  {
    PagesFromSuffix(list, 1);
  }

  /** The Previous button's target: one page back, but never below page 1. */
  function PreviousTarget(page: int): int { Max(page - 1, 1) }

  /** The Next button's target: one page on, but never past the last page. */
  function NextTarget(page: int, totalPages: int): int { Min(page + 1, totalPages) }

  /** From a page in [1, totalPages] both buttons lead to a page in [1, totalPages]; they move by
      one except at the ends, where they stay. */
  lemma NavigationStaysInRange(page: int, totalPages: int)
    requires 1 <= page <= totalPages
    ensures 1 <= PreviousTarget(page) <= totalPages && 1 <= NextTarget(page, totalPages) <= totalPages
    ensures PreviousTarget(page) == if page == 1 then 1 else page - 1
    ensures NextTarget(page, totalPages) == if page == totalPages then totalPages else page + 1
  {
  }

  // ---------------------------------------------------------------- booking

  /** The local seat update of `handleBookFlight`: every flight with the booked ID loses one seat,
      with no check against zero; every other flight, and every other field, is unchanged. */
  function DecrementSeats(flights: seq<Flight>, id: int): (r: seq<Flight>)
    ensures |r| == |flights|
    ensures forall i :: 0 <= i < |r| ==> r[i].(AvailableSeats := flights[i].AvailableSeats) == flights[i]
    ensures forall i :: 0 <= i < |r| ==>
      r[i].AvailableSeats == flights[i].AvailableSeats - (if flights[i].ID == id then 1 else 0)
  {
    if flights == [] then []
    else
      var f := flights[0];
      var g := if f.ID == id then f.(AvailableSeats := f.AvailableSeats - 1) else f;
      [g] + DecrementSeats(flights[1..], id)
  }

  function SeatsTotal(flights: seq<Flight>): int {
    if flights == [] then 0 else flights[0].AvailableSeats + SeatsTotal(flights[1..])
  }

  function CountWithId(flights: seq<Flight>, id: int): nat {
    if flights == [] then 0 else (if flights[0].ID == id then 1 else 0) + CountWithId(flights[1..], id)
  }

  /** A booking takes exactly one seat per flight carrying the booked ID, none elsewhere. */
  lemma {:induction false} DecrementSeatsTotal(flights: seq<Flight>, id: int)
    ensures SeatsTotal(DecrementSeats(flights, id)) == SeatsTotal(flights) - CountWithId(flights, id)
  {
    if flights != [] {
      DecrementSeatsTotal(flights[1..], id);
      var r := DecrementSeats(flights, id);
      assert r[1..] == DecrementSeats(flights[1..], id);
    }
  }

  // ---------------------------------------------------------------- page state

  /** The state of the `Flights` component. */
  class FlightsPage {
    var flights: seq<Flight>
    var searchTerm: string
    var sortBy: SortKey
    var filterStatus: Option<string>
    var isFiltered: bool
    var currentPage: int
    var selectedFlight: Option<Flight>
    var isModalOpen: bool

    ghost predicate Valid()
      reads this
    {
      currentPage >= 1
    }

    constructor ()
      ensures Valid()
      ensures flights == [] && searchTerm == "" && sortBy == ByPrice && filterStatus == None
      ensures !isFiltered && currentPage == 1 && selectedFlight == None && !isModalOpen
    {
      flights, searchTerm, sortBy, filterStatus := [], "", ByPrice, None;
      isFiltered, currentPage, selectedFlight, isModalOpen := false, 1, None, false;
    }

    /** The list the page shows, filtered and sorted only after Search was pressed. */
    function Display(): seq<Flight>
      reads this
    {
      DisplayFlights(flights, isFiltered, searchTerm, filterStatus, sortBy)
    }

    /** `currentFlights`: the slice of the displayed list on the current page. */
    function CurrentFlights(): (r: seq<Flight>)
      reads this
      requires Valid()
      ensures |r| <= FlightsPerPage
    {
      PageOf(Display(), currentPage)
    }

    function PageCount(): nat
      reads this
    {
      TotalPages(|Display()|)
    }

    /** The fetched response, mapped and stored. */
    method FlightsLoaded(response: seq<ApiFlight>)
      requires Valid()
      modifies this`flights
      ensures Valid() && flights == ParseAll(response)
    {
      flights := ParseAll(response);
    }

    method SetSearchTerm(term: string)
      requires Valid()
      modifies this`searchTerm
      ensures Valid() && searchTerm == term
    {
      searchTerm := term;
    }

    method SetSortBy(key: SortKey)
      requires Valid()
      modifies this`sortBy
      ensures Valid() && sortBy == key
    {
      sortBy := key;
    }

    method SetFilterStatus(status: Option<string>)
      requires Valid()
      modifies this`filterStatus
      ensures Valid() && filterStatus == status
    {
      filterStatus := status;
    }

    /** `handleSearch`: switch to the filtered and sorted list and go back to page 1. */
    method HandleSearch()
      requires Valid()
      modifies this`isFiltered, this`currentPage
      ensures Valid() && isFiltered && currentPage == 1
      ensures Display() == FilteredAndSortedFlights(flights, searchTerm, filterStatus, sortBy)
    {
      isFiltered := true;
      currentPage := 1;
    }

    /** `changePage`, from a numbered page button or from Previous/Next. */
    method ChangePage(newPage: int)
      requires Valid() && newPage >= 1
      modifies this`currentPage
      ensures Valid() && currentPage == newPage
    {
      currentPage := newPage;
    }

    /** The Previous button. */
    method GoToPrevious()
      requires Valid()
      modifies this`currentPage
      ensures Valid() && currentPage == PreviousTarget(old(currentPage))
    {
      ChangePage(PreviousTarget(currentPage));
    }

    /** The Next button, rendered only when there is more than one page. */
    method GoToNext()
      requires Valid() && PageCount() > 1
      modifies this`currentPage
      ensures Valid() && currentPage == NextTarget(old(currentPage), PageCount())
    {
      ChangePage(NextTarget(currentPage, PageCount()));
    }

    /** `handleSelectFlight`. */
    method SelectFlight(f: Flight)
      requires Valid()
      modifies this`selectedFlight, this`isModalOpen
      ensures Valid() && selectedFlight == Some(f) && isModalOpen
    {
      selectedFlight := Some(f);
      isModalOpen := true;
    }

    /** `handleCloseModal`. */
    method CloseModal()
      requires Valid()
      modifies this`selectedFlight, this`isModalOpen
      ensures Valid() && selectedFlight == None && !isModalOpen
    {
      isModalOpen := false;
      selectedFlight := None;
    }

    /** `handleBookFlight`: without a selected flight nothing happens; otherwise the flights with
        its ID lose a seat and the modal closes. */
    method BookFlight()
      requires Valid()
      modifies this`flights, this`selectedFlight, this`isModalOpen
      ensures Valid()
      ensures old(selectedFlight) == None ==>
        flights == old(flights) && selectedFlight == None && isModalOpen == old(isModalOpen)
      ensures old(selectedFlight).Some? ==>
        && flights == DecrementSeats(old(flights), old(selectedFlight).value.ID)
        && selectedFlight == None && !isModalOpen
    {
      if selectedFlight == None {
        return;
      }
      flights := DecrementSeats(flights, selectedFlight.value.ID);
      isModalOpen := false;
      selectedFlight := None;
    }
  }
}

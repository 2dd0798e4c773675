# Airline front-end: verified model of its list, string and index logic

This project models the logic inside the React front-end of a small airline booking site. It covers:

- **Card entry** (`src/components/StripePaymentForm.tsx`):
  - the checkout form's card-number and expiry formatters;
  - the login guards: the mount-time redirect, and the submit handler's own check;
  - the second payment path through the PayPal, Apple Pay and Google Pay buttons, which has no login check of its own.
- **Flight listing** (`src/pages/Flights.tsx`):
  - the API record mapper;
  - the case-insensitive search with its status filter;
  - the copy-then-sort by price, departure time or free seats;
  - pagination by fifteen, with clamped Previous/Next buttons;
  - the local seat update after a booking.
- **Destination carousel.** A cyclic active index and a toggle-set of favourites (`src/components/FeaturedDestinations.tsx`).
- **Notifications pop-up.** Its initial list, delete-one and delete-all (`src/components/NotificationModal.tsx`).
- **Live chat log.** A guarded append of our own message, the delivered/seen status updates of the last message, incoming messages and the open flag (`src/components/LiveChat.tsx`).
- **Home page search.** The two city inputs: filtered suggestions, selection and swap (`src/pages/Home.tsx`).
- **Header search box.** The lowercased query, the filtered suggestions and a click on a suggestion (`src/components/Header.tsx`).
- **Bookings page.** The reservation mapper and the status-to-colour classifier (`src/pages/Bookings.tsx`).

The code takes two forms:

- **Pure functions and lemmas** model the pure code:
  - the formatters, filters, sort, slicing and mappers;
  - the page and index arithmetic.
- **Classes** model the component state that the handlers replace: `FlightsPage`, `Carousel`, `NotificationsModal`, `ChatWidget`, `CityField`/`SearchForm`, `HeaderSearch` and `CheckoutForm`.
  - Their fields hold what the `useState` hooks hold.
  - Their methods state the whole new state.
  - Where a field has an invariant, `Valid()` holds it, e.g. the carousel index is in range and the favourites are distinct.

`formatCardNumber` builds its result with a loop that pushes four-digit parts. `PaymentForm.FormatCardNumber` keeps that loop and is proved equal to the specification function `CardNumberFormat`. The lemmas then state the properties of that function.

Three helper modules hold the shared pieces:

- `Wrappers` (in `Seqs.dfy`): the `Option` type for optional fields and props.
- `Seqs`: a generic order-preserving `Filter`, with lemmas on membership, multiplicity, sublists, concatenation, idempotence and distinctness.
- `Text`: ASCII digits, `toLowerCase`, `includes` and `trim() === ''`.

Four behaviours of the source are visible in the model:

- The checkout form renders nothing for a logged-out user and redirects such a user to the login page when it mounts. The logged-out branch of the submit handler is therefore a second, defensive guard. The other payment buttons start a payment without any login check; only the form not being drawn keeps a logged-out user away from them. `PaymentForm.OtherPaymentCompletes` states this.
- `formatCardNumber` returns the raw, uncleaned input when fewer than four digits remain. `PaymentForm.CardNumberFormatSpec` states this case.
- The page number is reset only by Search. If the search term or status changes while the filtered list is shown, the list can shrink below the current page. That page is then empty: `Flights.PageOf` gives `[]` beyond the last page.
- The delivered and seen timers rewrite the status of whichever message is last when they fire. That need not be the message that started them. `LiveChat.SetLastStatus` models exactly this.

## Model

| member | source | states |
|---|---|---|
| PaymentForm.Digits | src/components/StripePaymentForm.tsx:58 | cleaning leaves only ASCII digits and never lengthens the input; DigitsSpec states which digits remain |
| PaymentForm.DigitsSpec | src/components/StripePaymentForm.tsx:58 | cleaning keeps every digit of the input, as often as it occurs and in its order, and nothing else |
| PaymentForm.CardNumberFormat | src/components/StripePaymentForm.tsx:57-70 | the card-number format as a function; its meaning is stated by CardNumberFormatSpec and CardNumberFormatIdempotent, and FormatCardNumber computes it |
| PaymentForm.ChunksAt | src/components/StripePaymentForm.tsx:62-63 | one loop step: the parts from index i are the substring i..i+4 followed by the parts after it |
| PaymentForm.JoinChunks | src/components/StripePaymentForm.tsx:62-66 | joining the pushed four-digit parts with single spaces gives the grouped layout |
| PaymentForm.FormatCardNumber | src/components/StripePaymentForm.tsx:57-70 | the parts loop computes the card-number format: the raw input when fewer than 4 digits remain, else the kept digits grouped |
| PaymentForm.GroupLayout | src/components/StripePaymentForm.tsx:62-66 | in a grouped number the character at i is a space iff i mod 5 = 4, and a digit otherwise |
| PaymentForm.GroupLength | src/components/StripePaymentForm.tsx:62-66 | n grouped digits take n + (n-1)/4 characters, and the length is never a multiple of 5 (no trailing space) |
| PaymentForm.GroupStrip | src/components/StripePaymentForm.tsx:62-66 | deleting the spaces, or all non-digits, from a grouped number gives back exactly its digits |
| PaymentForm.CardNumberFormatSpec | src/components/StripePaymentForm.tsx:57-70 | fewer than 4 digits: the input unchanged; otherwise the output's digits are the first min(n,16) input digits in order, stripping spaces gives them back, length 4..19, spaces exactly at every fifth position, no trailing space |
| PaymentForm.CardNumberFormatIdempotent | src/components/StripePaymentForm.tsx:57-70 | re-formatting a formatted card number returns it unchanged, which keeps the self-formatting field stable |
| PaymentForm.FormatExpiry | src/components/StripePaymentForm.tsx:72-78 | at most 5 characters; its digits are the first four input digits; a '/' appears exactly at index 2 when more than 2 digits were typed; every other character is a digit; with at most 2 digits the result is exactly the cleaned digits |
| PaymentForm.FormatExpiryIdempotent | src/components/StripePaymentForm.tsx:72-78 | re-formatting a formatted expiry returns it unchanged |
| PaymentForm.CheckoutForm.constructor | src/components/StripePaymentForm.tsx:19 | the form starts idle, with no payment completed and no redirect |
| PaymentForm.CheckoutForm.HandleSubmit | src/components/StripePaymentForm.tsx:37-44 | logged out: one redirect to login and processing does not start; logged in: processing starts; no payment completes synchronously |
| PaymentForm.CheckoutForm.Mounted | src/components/StripePaymentForm.tsx:31-35 | on mount a logged-out user is redirected to the login page once; a logged-in user is not |
| PaymentForm.CheckoutForm.OtherPaymentMethod | src/components/StripePaymentForm.tsx:93-94 | another payment button starts processing whatever the login state |
| PaymentForm.CheckoutForm.PaymentSettled | src/components/StripePaymentForm.tsx:46-54 | after the delay the completion callback runs once and the processing flag is cleared |
| PaymentForm.LoggedOutSubmitCompletesNothing | src/components/StripePaymentForm.tsx:39-43 | a logged-out submit never calls the completion callback and never enters processing |
| PaymentForm.OtherPaymentCompletes | src/components/StripePaymentForm.tsx:93-104 | another payment button followed by the settled delay completes exactly one payment and clears the processing flag, with no login check and no redirect |
| Flights.ParseApiResponseToFlight | src/pages/Flights.tsx:38-52 | the record mapper; ParseFlightRoundTrip states that it keeps the ten flight fields and loses exactly the three bookkeeping fields |
| Flights.ParseFlightRoundTrip | src/pages/Flights.tsx:38-52 | the mapper keeps all ten flight fields and loses exactly CreatedAt, UpdatedAt and DeletedAt; it is a bijection once those are supplied |
| Flights.ParseAll | src/pages/Flights.tsx:74 | the response is mapped element by element, same length and order |
| Flights.MatchesSearch | src/pages/Flights.tsx:113-117 | the search test: a present departure airport, arrival airport or flight number contains the term ignoring case, and the status filter is unset or equal; used by FilterFlightsSpec |
| Flights.FilterFlights | src/pages/Flights.tsx:112-118 | the filter; FilterFlightsSpec, EmptySearchKeepsSearchable and EmptySearchKeepsAll state what it keeps |
| Flights.FilterFlightsSpec | src/pages/Flights.tsx:112-118 | a flight is kept iff its departure airport, arrival airport or flight number contains the term ignoring case (absent fields never match) and the status filter is unset or equal; kept flights keep their multiplicity and relative order |
| Flights.EmptySearchKeepsSearchable | src/pages/Flights.tsx:112-118 | for any list, an empty term with no status filter keeps exactly the flights with at least one searched field, in order, and drops those with none |
| Flights.EmptySearchKeepsAll | src/pages/Flights.tsx:112-118 | corollary: a list whose every flight has a searched field passes an empty search unchanged |
| Flights.Insert | src/pages/Flights.tsx:100-108 | inserting into a list sorted by the comparator yields a sorted list holding one more copy of the element |
| Flights.SortFlights | src/pages/Flights.tsx:99-109 | the sorted copy has the same length and elements (a permutation) and is in comparator order |
| Flights.SortedPairwise | src/pages/Flights.tsx:100-108 | neighbour order of a sorted list extends to every pair of positions |
| Flights.SortFlightsSpec | src/pages/Flights.tsx:101-107 | the sort is a permutation, ascending by Price, ascending by departure time, or descending by AvailableSeats, per key |
| Flights.FilteredAndSortedFlights | src/pages/Flights.tsx:111-120 | filter then sort; FilteredAndSortedSpec and SortFlightsSpec state its contents and order |
| Flights.FilteredAndSortedSpec | src/pages/Flights.tsx:111-120 | the filtered and sorted list holds exactly the matching flights, each as often as in the fetched list |
| Flights.DisplayFlights | src/pages/Flights.tsx:127 | the fetched list until Search is pressed, then the filtered and sorted list; FlightsPage.HandleSearch switches it |
| Flights.TotalPages | src/pages/Flights.tsx:133 | the page count is the ceiling of n/15: zero for no flights, otherwise the least t with n <= 15t |
| Flights.PageOf | src/pages/Flights.tsx:129-131 | page p holds exactly the items at indices (p-1)*15 .. min(15p, n)-1: at most 15, non-empty up to the last page, empty beyond it |
| Flights.PagesFromSuffix | src/pages/Flights.tsx:129-133 | pages p..totalPages concatenated are the list from index (p-1)*15 on |
| Flights.PagesReassemble | src/pages/Flights.tsx:129-133 | pages 1..totalPages concatenated reproduce the displayed list, with no gap and no overlap |
| Flights.PreviousTarget | src/pages/Flights.tsx:346 | Previous's target max(p-1, 1); NavigationStaysInRange states its range and step |
| Flights.NextTarget | src/pages/Flights.tsx:365 | Next's target min(p+1, totalPages); NavigationStaysInRange states its range and step |
| Flights.NavigationStaysInRange | src/pages/Flights.tsx:343-366 | from a page in [1, totalPages] Previous targets max(p-1,1) and Next min(p+1,totalPages), both within [1, totalPages] |
| Flights.DecrementSeats | src/pages/Flights.tsx:179-185 | every flight whose ID equals the booked ID loses exactly one seat, with no check against zero; every other flight and every other field is unchanged |
| Flights.DecrementSeatsTotal | src/pages/Flights.tsx:179-185 | the total of free seats drops by exactly the number of flights carrying the booked ID |
| Flights.FlightsPage.constructor | src/pages/Flights.tsx:55-67 | the page starts empty, unfiltered, sorted by price, with no status filter, on page 1, with no flight selected |
| Flights.FlightsPage.CurrentFlights | src/pages/Flights.tsx:129-131 | the current page never shows more than 15 flights |
| Flights.FlightsPage.FlightsLoaded | src/pages/Flights.tsx:74-75 | the fetched response is stored as the mapped flight list |
| Flights.FlightsPage.SetSearchTerm | src/pages/Flights.tsx:219 | the search input stores the term as typed |
| Flights.FlightsPage.SetSortBy | src/pages/Flights.tsx:225 | the sort select stores the key |
| Flights.FlightsPage.SetFilterStatus | src/pages/Flights.tsx:234 | the status select stores the status, 'all' being no filter |
| Flights.FlightsPage.HandleSearch | src/pages/Flights.tsx:122-127 | Search switches the display to the filtered and sorted list and resets the page to 1 |
| Flights.FlightsPage.ChangePage | src/pages/Flights.tsx:153-159 | the chosen page becomes current |
| Flights.FlightsPage.GoToPrevious | src/pages/Flights.tsx:346 | Previous moves to max(p-1, 1) |
| Flights.FlightsPage.GoToNext | src/pages/Flights.tsx:365 | Next moves to min(p+1, totalPages) |
| Flights.FlightsPage.SelectFlight | src/pages/Flights.tsx:161-164 | the flight is selected and the booking modal opens |
| Flights.FlightsPage.CloseModal | src/pages/Flights.tsx:166-169 | the modal closes and the selection is cleared |
| Flights.FlightsPage.BookFlight | src/pages/Flights.tsx:171-195 | without a selection nothing changes; otherwise the selected ID's flights lose one seat, the modal closes and the selection is cleared |
| FeaturedDestinations.NextIndex | src/components/FeaturedDestinations.tsx:20 | the next index modulo n; StepCases, NextPrevInverse and FullCycle state its meaning |
| FeaturedDestinations.PrevIndex | src/components/FeaturedDestinations.tsx:24 | the previous index modulo n; StepCases and NextPrevInverse state its meaning |
| FeaturedDestinations.StepCases | src/components/FeaturedDestinations.tsx:19-25 | next and prev keep the index in [0, n); next from n-1 wraps to 0, prev from 0 wraps to n-1, otherwise they move by one |
| FeaturedDestinations.NextPrevInverse | src/components/FeaturedDestinations.tsx:19-25 | prev after next, and next after prev, restore the index |
| FeaturedDestinations.AdvanceByValue | src/components/FeaturedDestinations.tsx:20 | k <= n calls to next from i land on i+k, wrapped once past n |
| FeaturedDestinations.FullCycle | src/components/FeaturedDestinations.tsx:20 | n calls to next return to the starting destination |
| FeaturedDestinations.Toggle | src/components/FeaturedDestinations.tsx:35-39 | remove the id when present, append it when absent; ToggleSpec and ToggleTwice state its meaning |
| FeaturedDestinations.ToggleSpec | src/components/FeaturedDestinations.tsx:35-39 | toggling flips the id's membership, leaves every other id's membership unchanged, and keeps the list free of duplicates |
| FeaturedDestinations.ToggleTwice | src/components/FeaturedDestinations.tsx:35-39 | toggling the same id twice restores its membership, and restores the very list when the id was absent |
| FeaturedDestinations.Carousel.constructor | src/components/FeaturedDestinations.tsx:14-16 | the carousel starts on the first destination with no favourites |
| FeaturedDestinations.Carousel.NextDestination | src/components/FeaturedDestinations.tsx:19-21 | the index becomes (i+1) mod n and stays in range; from the last destination it shows the first |
| FeaturedDestinations.Carousel.PrevDestination | src/components/FeaturedDestinations.tsx:23-25 | the index becomes (i-1+n) mod n and stays in range; from the first destination it shows the last |
| FeaturedDestinations.Carousel.SelectDot | src/components/FeaturedDestinations.tsx:180 | a dot makes its own index and destination active |
| FeaturedDestinations.Carousel.ToggleFavorite | src/components/FeaturedDestinations.tsx:35-39 | the favourites become the toggled list, the heart state flips, and duplicates never appear |
| NotificationModal.InitialNotifications | src/components/NotificationModal.tsx:46-49 | the initial list is the prop when it is non-empty, otherwise the four mock notifications; never empty |
| NotificationModal.DeleteSingle | src/components/NotificationModal.tsx:57 | the list without the id's notifications; DeleteSingleSpec, DeleteAbsentIsNoop and DeleteTwice state its meaning |
| NotificationModal.DeleteSingleSpec | src/components/NotificationModal.tsx:55-59 | every notification with the id is gone; every other one stays as often as before and in its original relative order |
| NotificationModal.DeleteAbsentIsNoop | src/components/NotificationModal.tsx:57 | deleting an id no notification has changes nothing |
| NotificationModal.DeleteTwice | src/components/NotificationModal.tsx:57 | deleting the same id twice equals deleting it once |
| NotificationModal.NotificationsModal.constructor | src/components/NotificationModal.tsx:47-49 | the displayed list starts as the initial list |
| NotificationModal.NotificationsModal.HandleDeleteAll | src/components/NotificationModal.tsx:51-53 | the list becomes empty, the empty-state message shows and the delete-all button is hidden |
| NotificationModal.NotificationsModal.HandleDeleteSingle | src/components/NotificationModal.tsx:55-59 | the list becomes the list without the id's notifications |
| LiveChat.AppendOutgoing | src/components/LiveChat.tsx:65-73 | our message, from "You" with status sent, appended; StepExtends states that it only extends the log |
| LiveChat.AppendIncoming | src/components/LiveChat.tsx:39-44 | a received message with status seen appended; StepExtends states that it only extends the log |
| LiveChat.SetLastStatus | src/components/LiveChat.tsx:78-82 | only the last message's status changes; the length and every other message are unchanged |
| LiveChat.StepExtends | src/components/LiveChat.tsx:39-91 | each log operation appends one message or rewrites the last status, keeping every message's text, sender and time |
| LiveChat.ReplayExtends | src/components/LiveChat.tsx:39-91 | any run of log operations only grows the log and never changes an earlier message's text, sender or time |
| LiveChat.ChatWidget.constructor | src/components/LiveChat.tsx:6-10 | the chat starts closed, with an empty input and a log of exactly the support greeting, status seen |
| LiveChat.ChatWidget.ToggleChat | src/components/LiveChat.tsx:16-23 | the open flag flips, and the connection follows it |
| LiveChat.ChatWidget.SetMessage | src/components/LiveChat.tsx:219 | the input holds the typed text |
| LiveChat.ChatWidget.HandleSubmit | src/components/LiveChat.tsx:61-74 | a blank message or no connection changes nothing; otherwise exactly one message from "You" with status sent is appended and the input is cleared |
| LiveChat.ChatWidget.MarkLastMessage | src/components/LiveChat.tsx:76-92 | the delivered or seen timer rewrites only the last message's status |
| LiveChat.ChatWidget.MessageReceived | src/components/LiveChat.tsx:34-46 | an incoming message is appended with its text and sender and status seen |
| Home.CitySuggestions | src/pages/Home.tsx:74-76 | the city filter; CitySuggestionsSpec states exactly which cities it keeps and in what order |
| Home.CitySuggestionsSpec | src/pages/Home.tsx:74-76 | the suggestions are exactly the cities whose lowercase form contains the lowercase input, in list order and each once |
| Home.CityField.constructor | src/pages/Home.tsx:10-18 | an input starts empty, with no suggestions, hidden |
| Home.CityField.HandleCityChange | src/pages/Home.tsx:70-82 | the typed value is stored verbatim; non-empty input shows the filtered cities; empty input hides the list and keeps the previous one |
| Home.CityField.HandleCitySelect | src/pages/Home.tsx:84-87 | selecting a suggestion sets the city to it and hides the list |
| Home.CityField.Focus | src/pages/Home.tsx:167 | focusing the input shows its list |
| Home.CityField.ClickOutside | src/pages/Home.tsx:34-41 | a mouse-down outside the input hides its list |
| Home.SearchForm.constructor | src/pages/Home.tsx:10-11 | both cities start empty, in two distinct inputs |
| Home.SearchForm.SwapCities | src/pages/Home.tsx:95-98 | departure and arrival cities are exchanged |
| Home.SwapTwiceRestores | src/pages/Home.tsx:95-98 | swapping twice restores both cities |
| Header.FilterSuggestions | src/components/Header.tsx:50-55 | the suggestion filter; FilterSuggestionsSpec states exactly what it keeps |
| Header.FilterSuggestionsSpec | src/components/Header.tsx:50-55 | a suggestion is kept iff its lowercased from or to contains the (already lowercased) query, or its date contains it; the result is an order-preserving sublist |
| Header.EmptyQueryKeepsAll | src/components/Header.tsx:49-59 | the empty query matches every suggestion |
| Header.SuggestionsFor | src/components/Header.tsx:49-59 | all four for an empty query, the filter result otherwise; SuggestionsForIsFilter shows the two cases agree |
| Header.SuggestionsForIsFilter | src/components/Header.tsx:49-59 | restoring the full list for an empty query agrees with filtering by it |
| Header.SuggestionLabel | src/components/Header.tsx:115 | the "<from> to <to>" text; SuggestionLabelNamesRoute states that it names both ends |
| Header.SuggestionLabelNamesRoute | src/components/Header.tsx:115 | the text a clicked suggestion puts in the box contains both its origin and its destination |
| Header.HeaderSearch.constructor | src/components/Header.tsx:10-26 | the box starts empty, hidden, with all four suggestions |
| Header.HeaderSearch.HandleSearchFocus | src/components/Header.tsx:41-43 | focusing sets the show flag; the drop-down appears exactly when the list is non-empty |
| Header.HeaderSearch.HandleSearchChange | src/components/Header.tsx:45-62 | the stored query is the lowercased input; the list is the filter result (all four for an empty query); the suggestions are shown, and for an empty query the drop-down is on screen |
| Header.HeaderSearch.SelectSuggestion | src/components/Header.tsx:114-117 | a click sets the query to "<from> to <to>" and hides the drop-down |
| Header.HeaderSearch.ClickOutside | src/components/Header.tsx:28-33 | a mouse-down outside the box hides the drop-down |
| Bookings.ParseApiReservation | src/pages/Bookings.tsx:37-50 | the record mapper; ParseReservationRoundTrip states that it keeps the ten fields and loses exactly the three bookkeeping fields |
| Bookings.ParseReservationRoundTrip | src/pages/Bookings.tsx:37-50 | the mapper copies the ten fields to their renamed counterparts and loses exactly CreatedAt, UpdatedAt and DeletedAt |
| Bookings.GetStatusColor | src/pages/Bookings.tsx:79-91 | always one of four classes; green, yellow, red exactly for confirmed, pending, cancelled in any letter case; grey for a missing, empty or other status |
| Bookings.StatusColorIgnoresCase | src/pages/Bookings.tsx:81 | the colour of a status equals the colour of its lowercase form |

## Left out

- Network I/O is not modelled: the axios/fetch calls and the booking POST. The fetched lists enter as parameters (`FlightsLoaded`, `ParseAll`). Token storage is left out.
- The WebSocket, speech synthesis and every `setTimeout`/`setInterval` delay are not modelled. Each timer's state update is one atomic method, and the clock's readings (`time` strings) are parameters. Interleavings are not modelled.
- LiveChat.ChatWidget.HandleSubmit: `send` on a socket that is still connecting throws in a browser. The model treats any open socket as ready.
- Date parsing, `toLocaleString`, hour rounding, `toFixed` prices and the video playback effects are not modelled. Departure times are abstract integers, so an unparseable date (NaN in the comparator) is out of scope.
- Text.Lower: `toLowerCase` is modelled on ASCII letters only, and `includes` as ordinary substring search.
- Text.IsBlank: `trim()` is modelled as removing the ASCII whitespace characters only. Unicode spaces and line separators are not treated as blank.
- Flights.SortFlights: it is proved a sorted permutation. The relative order of flights with equal keys (stability) is not stated.
- Flights.SortFlights: Price is an always-present integer. The source holds a possibly undefined floating-point price, and an undefined price (NaN in the comparator) is out of scope.
- Flights.FlightsPage.GoToNext: modelled only when more than one page exists, because the button is rendered only then.
- PaymentForm.CheckoutForm.PaymentSettled: the payment itself is a fixed delay in the source and cannot fail. The `catch` branch that shows an alert is not modelled.
- PaymentForm.CheckoutForm: the login state is a parameter of each handler. The form rendering nothing for a logged-out user (`return null`) is not modelled as state.
- Dark mode, the typing indicator, the success icon, modals' open/close animation, routing and all styling are presentation and are not modelled.

# Worker search and booking: a Dafny model

This project models the search-and-book controller of the `WorkerSearch`
component of a service marketplace front end (`src/components/WorkerSearch.jsx`).
A client edits filters, presses "Search Workers", and gets a list of workers.
The client selects one worker, fills in a booking form and presses "Book Now".
The model covers four parts of that component:

- **Query builder** (`query.dfy`, module `Query`). The filter state has seven
  strings and the hourly-rate slider `[priceLo, priceHi]`. It becomes an
  ordered list of `(key, value)` parameters. `Params` is the list as the
  component appends it. `ParamValue` is an independent, key-by-key reference
  definition. `Lookup` plays the part of `URLSearchParams.get`. The lemmas
  prove that the list agrees with the reference for every key. They also prove
  the fixed key order, that no key repeats, that the price pair is all or
  nothing, and that the default filter sends nothing. Parameter names are an
  enumeration `Key`; `Name` gives each one's name on the wire, and `KeyOfName`
  reads it back.
- **Integer rendering** (`text.dfy`, module `Text`). The slider values are sent
  as `priceLo.toString()` and `priceHi.toString()`. `IntToString` renders an
  integer in decimal, and `ParseInt` is its inverse. The round trip is proved.
- **Controller state** (`controller.dfy`, class `Controller.WorkerSearch`). The
  class holds the component's `useState` values: the filter, `isSearching`,
  the selected worker and the booking draft. The result list is not a
  `useState` value: it is the search query's data, cached per query key. The
  key is the filter, so the class holds a `cache` from filters to result
  lists and the key `fetchKey` of the last search started. `Workers()` is the
  list on the page: the current filter's entry, or `[]` when there is none.
  Editing a filter therefore hides the results, and undoing the edit brings
  them back. A response stored after an edit goes under the old key and is
  not shown. The class also holds the toasts raised so far (`notices`) and, as a ghost field, every
  request issued (`sent`). Each event handler is a method whose `ensures`
  clauses give the whole new state. The search is split into `BeginSearch`,
  the click up to the fetch, and `CompleteSearch`, the response. Network
  outcomes are method parameters. `Valid()` is the invariant that every
  handler keeps: when a worker is selected, the draft carries that worker's id.
- **Booking values and display rules** (`booking.dfy`, `display.dfy`). These
  are the POST body, the success toast and its broker or independent wording,
  the card badge, phone visibility, the address line, the experience line and
  the rate labels.

The model follows the code:

- `rating`, `yearsOfExperience` and `education` are sent whenever their
  string is non-empty. So the "Any" options, whose values are `"any"`, `"0"`
  and `"any"`, are sent as they are.
- When a search fails, the results become empty. The old results are not kept.
- The slider values are stored as given. Nothing clamps or orders them, and
  there is no clear-filters operation.
- Book Now checks only the title and the description. The `required`
  attributes on the form inputs are not inside a `<form>`, so nothing enforces
  the address fields.
- Book Now has no guard against a booking that is already in flight. The
  selection is never checked again against new search results.

## Model

| member | source | states |
|---|---|---|
| `Text.NatToStringRoundTrip` | src/components/WorkerSearch.jsx:72-73 | The decimal rendering of a natural number is non-empty, all digits, has no leading zero, and parses back to the number. |
| `Text.IntToStringRoundTrip` | src/components/WorkerSearch.jsx:72-73 | `ParseInt(IntToString(i)) == i` for every integer, negative ones included, so a price bound reaches the server unchanged. |
| `Text.IntToStringInjective` | src/components/WorkerSearch.jsx:72-73 | Two different slider values never render to the same string. |
| `Query.NameRoundTrip` | src/components/WorkerSearch.jsx:66-76 | Every parameter name reads back as its own key, so the nine names are distinct. |
| `Query.Params` | src/components/WorkerSearch.jsx:65-76 | The query parameters the search builds, in append order. What they contain is stated by `Query.ParamsMatchReference`, `Query.ParamsInOrder` and the lemmas after them. |
| `Query.ParamsMatchReference` | src/components/WorkerSearch.jsx:65-76 | For every key, looking it up in the built list gives exactly the value the reference definition asks for: present with that value, or absent. |
| `Query.ParamsInOrder` | src/components/WorkerSearch.jsx:65-76 | The built keys follow the fixed order query, skills, city, state, rating, minPrice, maxPrice, experience, education. |
| `Query.ParamsKeysDistinct` | src/components/WorkerSearch.jsx:65-76 | No key appears twice in the built list. |
| `Query.StringFilterSentIffNonEmpty` | src/components/WorkerSearch.jsx:66-76 | Each of the seven string filters is sent under its key if and only if it is non-empty, and then with its value unchanged. |
| `Query.AnyOptionsAreSent` | src/components/WorkerSearch.jsx:70-76 | The "Any" option values `"any"` (rating), `"0"` (experience) and `"any"` (education) are sent, not omitted. |
| `Query.PricePairTogether` | src/components/WorkerSearch.jsx:71-74 | `minPrice` and `maxPrice` are both present or both absent. They are present if and only if `priceLo > 0` or `priceHi < 100`. Then they carry the two bounds, next to each other and in that order. |
| `Query.ParamsEmptyIff` | src/components/WorkerSearch.jsx:65-76 | The list is empty if and only if every string filter is empty and the price range is not moved in from `[0, 100]`. |
| `Query.DefaultFilterSendsNothing` | src/components/WorkerSearch.jsx:38-76 | The filter state the component starts with produces no parameters. |
| `Booking.WithWorker` | src/components/WorkerSearch.jsx:108-111 | Selecting a worker sets the draft's `workerId` to the worker's id and keeps title, description and location. |
| `Booking.WithWorkerIdempotent` | src/components/WorkerSearch.jsx:106-112 | Selecting the same worker again leaves the draft as the first selection left it. |
| `Booking.OrderBody` | src/components/WorkerSearch.jsx:130-137 | The POST body has the worker's id and broker id, and the draft's title, description and location. Its category is the skill filter when that is set and `"other"` otherwise, so it is never empty. |
| `Booking.SuccessNotice` | src/components/WorkerSearch.jsx:146-151 | The success toast uses the broker wording if and only if the worker's `brokerId` is truthy, and the independent-worker wording otherwise. |
| `Display.Badge` | src/components/WorkerSearch.jsx:348-349 | The badge reads "Broker Managed" (outline) if and only if the worker is broker-managed, and "Independent" (secondary) otherwise. |
| `Display.ShowsPhone` | src/components/WorkerSearch.jsx:394-406 | A phone line is shown exactly for an independent worker with a non-empty phone number, so it never appears next to the "Managed by a broker" line. |
| `Display.KeepTruthy` | src/components/WorkerSearch.jsx:358 | `filter(Boolean)` keeps only present, non-empty parts: every kept string is one of the parts, every truthy part is kept, and none is empty. |
| `Display.KeepTruthyAppend` | src/components/WorkerSearch.jsx:358 | Filtering a concatenation gives the filtered halves in order. With the one-element cases above, this fixes `filter(Boolean)` exactly: the truthy parts, in order, each as often as it occurs. |
| `Display.AddressLine` | src/components/WorkerSearch.jsx:358 | The address text of a card: the truthy parts of city and state, joined with ", ". Its four cases are stated by `Display.AddressLineCases`. |
| `Display.AddressLineCases` | src/components/WorkerSearch.jsx:358 | The address line is "city, state", or the one part that is given, or empty. It never has a dangling separator. |
| `Display.ExperienceLabel` | src/components/WorkerSearch.jsx:383 | The label is the number followed by " year experience" when the number is 1 and by " years experience" otherwise. |
| `Display.ExperienceLineAsWritten` | src/components/WorkerSearch.jsx:380-385 | As written, the card shows the bare text "0" if and only if the years are 0. It shows the line if and only if the years are present and non-zero, and then its text is `ExperienceLabel(years)`. |
| `Display.ExperienceLine` | src/components/WorkerSearch.jsx:380-385 | As intended, the line is shown if and only if the years are present and non-zero, with the text `ExperienceLabel(years)`. Nothing is shown otherwise. |
| `Display.ExperienceLineFixesOnlyZero` | src/components/WorkerSearch.jsx:380-385 | The intended line agrees with the written one everywhere except where the written one leaves a stray "0". |
| `Display.RateLabels` | src/components/WorkerSearch.jsx:277-278 | The lower label is `$lo`. The upper label is exactly `$hi`, or `$hi+ ` when the upper bound is 100: it starts with `$hi`, ends in "+ " if and only if the bound is 100, and has no other characters. |
| `Controller.WorkerSearch.constructor` | src/components/WorkerSearch.jsx:38-57 | The component starts with the default filter and is not searching. It has an empty result cache, so no results, no selection and an empty draft, and nothing has been sent. |
| `Controller.WorkerSearch.SetSearchQuery` | src/components/WorkerSearch.jsx:185 | Typing in the search box changes only `searchQuery`. |
| `Controller.WorkerSearch.SetSkills` | src/components/WorkerSearch.jsx:192 | Choosing a skill changes only `skills`. |
| `Controller.WorkerSearch.SetCity` | src/components/WorkerSearch.jsx:212 | Typing a city changes only `city`. |
| `Controller.WorkerSearch.SetState` | src/components/WorkerSearch.jsx:222 | Typing a state changes only `state`. |
| `Controller.WorkerSearch.SetRating` | src/components/WorkerSearch.jsx:250 | Choosing a rating option changes only `rating`. |
| `Controller.WorkerSearch.SetYearsOfExperience` | src/components/WorkerSearch.jsx:289 | Choosing an experience option changes only `yearsOfExperience`. |
| `Controller.WorkerSearch.SetEducation` | src/components/WorkerSearch.jsx:308 | Choosing an education option changes only `education`. |
| `Controller.WorkerSearch.HandlePriceRangeChange` | src/components/WorkerSearch.jsx:102-104 | The slider stores both values exactly as given, with no clamping. |
| `Controller.WorkerSearch.BuildQuery` | src/components/WorkerSearch.jsx:65-76 | Appending the parameters one by one gives exactly `Params` of the current filter. |
| `Controller.WorkerSearch.BeginSearch` | src/components/WorkerSearch.jsx:60-78 | Starting a search sets `isSearching`, takes the current filter as the key its response will be cached under, and issues exactly one request carrying that filter's parameters. |
| `Controller.WorkerSearch.CompleteSearch` | src/components/WorkerSearch.jsx:60-93 | An ok response is cached under the search's key and raises no toast. A non-ok or failed response caches `[]` there and raises "Search Error". In every case `isSearching` ends false. The page shows the response only if the filter still equals that key; otherwise the list on the page is unchanged. |
| `Controller.WorkerSearch.Workers` | src/components/WorkerSearch.jsx:60-61 | `data: workers = []`: the list on the page is the cached result for the current filter, or empty when that filter was never searched. `CompleteSearch`, `HandleSearch` and the client `ResultsFollowTheFilter` state how it follows filter edits and responses. |
| `Controller.WorkerSearch.HandleSearch` | src/components/WorkerSearch.jsx:97-100 | One click of the search button issues one request with the current parameters, caches the outcome under the current filter, and shows it. It ends with `isSearching` false, and the invariant is kept. |
| `Controller.WorkerSearch.HandleSelectWorker` | src/components/WorkerSearch.jsx:106-112 | The worker becomes the selection, and only `workerId` changes in the draft. Selecting the already-selected worker leaves the draft unchanged. |
| `Controller.WorkerSearch.Cancel` | src/components/WorkerSearch.jsx:500 | Cancel clears the selection and changes nothing else, the draft included. |
| `Controller.WorkerSearch.SetTitle` | src/components/WorkerSearch.jsx:438 | Editing the title changes only the draft's title. |
| `Controller.WorkerSearch.SetDescription` | src/components/WorkerSearch.jsx:449 | Editing the description changes only the draft's description. |
| `Controller.WorkerSearch.SetLocationAddress` | src/components/WorkerSearch.jsx:460-463 | Editing the address changes only the draft location's address. |
| `Controller.WorkerSearch.SetLocationCity` | src/components/WorkerSearch.jsx:475-478 | Editing the city changes only the draft location's city. |
| `Controller.WorkerSearch.SetLocationState` | src/components/WorkerSearch.jsx:489-492 | Editing the state changes only the draft location's state. |
| `Controller.WorkerSearch.HandleBookNow` | src/components/WorkerSearch.jsx:114-168 | With an empty title or description, Book Now raises "Missing Information", sends nothing and changes nothing else. Otherwise, with a worker selected, it sends exactly one order, with `OrderBody`. With no worker selected, reading the worker's id throws before the request, so it raises "Booking Error" and sends nothing; the booking form is shown only for a selection (line 424). On success it raises the success toast, clears the selection and resets the draft to empty with no `workerId`. On failure it raises "Booking Error" and keeps the selection and the draft. |

## Left out

- `src/store/useAuthStore.js` is not part of this model. It is a thin wrapper over a persisted store library, and nothing in it has logic of its own.
- `src/pages/SearchPage.jsx` is not part of this model. It is a static page that only renders the component.
- Rendering, layout, icons, the Select and Slider widgets, and the advanced-filters toggle (lines 50, 231, 243) are left out. They are presentation only.
- Also left out, as presentation only: the skill badges (363-371), the hourly-rate and education lines (373-391), and the highlight of the selected card (338, 411-414).
- The cache keyed on `queryKey` (lines 60-61) is modelled as a map from filters to result lists. Left out of it: the removal of unused entries after the library's garbage-collection delay (a clock), deduplication, the cancelling of an in-flight fetch by `refetch()`, and `isLoading`. They are library behaviour. A search is one trigger followed by one outcome, and other filter edits may happen between the two.
- `fetch`, JSON parsing, URL percent-encoding and the toast display are I/O or library calls. Responses are method parameters, and a toast is a value appended to `notices`. A response body that cannot be parsed throws inside the `try` blocks, as a failed request does. So `SearchThrew` and `OrderThrew` stand for both cases.
- `worker.rating.toFixed(1)` (line 345) is floating-point formatting and is left out. `console.error` is left out too.
- Controller.WorkerSearch.BeginSearch: requires that no search is running. The submit button is disabled while `isSearching` is true (line 237), and a second trigger during a fetch would be the library's refetch cancellation.
- Two Book Now clicks that overlap while a request is pending are not modelled. Each handler call is atomic here. The code has no in-flight guard, so a second click would post a second order.
- JavaScript's stale closures are not modelled: each handler reads the state as it is when the handler is called.
- Worker records carry only the fields the controller and the modelled display rules read. Ids are always-present strings. `brokerId` and `phone` are optional strings, judged by JavaScript truthiness.
- The hourly-rate line (373) uses the same `{value && ...}` pattern as the experience line. It is left out with the rest of the presentation, because the rate need not be an integer.

## Findings

| source | as written | input that shows it | evidently intended | confidence | as-written member | corrected member |
|---|---|---|---|---|---|---|
| src/components/WorkerSearch.jsx:380 | `{worker.yearsOfExperience && (...)}`: for the number 0 the expression's value is 0, which React renders as the text "0" | a worker with `yearsOfExperience: 0` gets a bare "0" on its card (`Display.ZeroYearsShowsStrayZero`) | nothing shown when the years are 0 or missing | high, not executed | `Display.ExperienceLineAsWritten` | `Display.ExperienceLine` |

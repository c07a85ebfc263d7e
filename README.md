# Apprenticeship listing widget — a verified model

This project models the logic of a small web widget. The widget lists
apprenticeship postings for metal-working trades in Switzerland. The model
covers four parts of it:

- **The listing element** (`src/js/components/DataList.js`). It keeps the
  fetched postings and an index from canton to ZIP codes, which it builds from
  a ZIP → canton map. It narrows the postings by the selected canton and the
  selected profession, and shows them ten to a page.
- **The pager** (`src/js/components/Pagination.js`). It computes the number
  of pages and shows nothing for a single page. Otherwise it shows Prev, a
  window of at most seven page numbers around the current page, and Next.
- **The older listing element** (`src/js/components/list.js`). It has one
  dataset, no filters and a loading text. Its pagination repeats the pager
  logic, so the model reuses `Pager`.
- **The contact details of the detail overlay** (`src/js/components/Modal.js`).
  These are the fallback chains that choose a contact name, e-mail address,
  phone number and web address. They also include the normalisation of a
  phone number to a Swiss `+41` number.

JavaScript's values are modelled explicitly (module `JsCore`):

- `null`, `undefined` and `""` are all falsy. An optional string is an
  `Option<string>`, and `Truthy` means present and non-empty.
- `a || b` is `OrElse`.
- An awaited fetch either resolves with a value or rejects with a message.
  This is `Outcome`.
- `Array.prototype.slice`, with its clipping, is `JsSlice`.
- `Array.prototype.filter` is `Sequences.Filter`. It is proved to keep an
  order-preserving subsequence, exactly the accepted elements, and each with
  its multiplicity.

The code does not group postings into open and other places.
`src/js/components/Card.js` only colours an indicator by whether school years
are present, so the model has no partition.

Where the code is imperative, the model is imperative too:

- `groupCantons` is a loop that builds a map of sets.
- `renderPagination` clamps its window with reassignments and appends buttons
  in a loop.
- `formatPhoneNumber` strips a prefix through an if-chain.
- The two elements are classes whose methods update their fields.

Each method is proved against a function that specifies it, and the
properties are proved about those functions.

## Model

| member | source | states |
|---|---|---|
| JsCore.OrElse | src/js/components/Modal.js:56-59 | `a \|\| b` is truthy iff either operand is, and is the left operand whenever that one is truthy |
| JsCore.JsSlice | src/js/components/DataList.js:116-118 | `slice(start, end)` with `0 <= start <= end` is the part of `[start, end)` inside the array: never longer than the array or than `end - start`, empty when `start` is past the end, and made of elements of the array |
| Sequences.Filter | src/js/components/DataList.js:91-103 | `filter` never lengthens the array, and an element is in the result iff it is in the input and the predicate accepts it |
| Sequences.FilterIsSubsequence | src/js/components/DataList.js:91-103 | the filtered array is an order-preserving subsequence of the input |
| Sequences.FilterCounts | src/js/components/DataList.js:91-103 | each accepted element occurs in the result as often as in the input, and a rejected one never does |
| Sequences.FilterIdempotent | src/js/components/DataList.js:91-103 | filtering a filtered array again with the same predicate changes nothing |
| Sequences.FilterCommute | src/js/components/DataList.js:91-103 | two filters applied one after the other give the same array in either order |
| Sequences.FilterConcat | src/js/components/Modal.js:94 | filtering a concatenation is concatenating the filtered parts |
| Sequences.FilterKeepsAll | src/js/components/DataList.js:97 | a predicate that accepts every element keeps the array unchanged |
| Sequences.FilterRejectsAll | src/js/components/DataList.js:93-95 | a predicate that accepts no element yields the empty array |
| Postings.Decimal | src/js/components/DataList.js:94 | `String(zip)` for a numeric ZIP code is a non-empty string of decimal digits, longer than one digit exactly when the number is at least 10 |
| Postings.DecimalRoundTrip | src/js/components/DataList.js:94 | reading back the decimal form of a number gives the number |
| Postings.DecimalInjective | src/js/components/DataList.js:94 | distinct numeric ZIP codes have distinct string forms, so the index lookup cannot confuse them |
| Pager.TotalPages | src/js/components/Pagination.js:8 | the page count is `ceil(totalItems / itemsPerPage)`: the pages hold all items and the last page is not empty |
| Pager.TotalPagesUnique | src/js/components/Pagination.js:8 | any count meeting both bounds of the ceiling is the page count |
| Pager.PageItemsBounds | src/js/components/DataList.js:116-118 | the current page is `items[(page-1)*ipp, page*ipp)` clipped to the array; it has at most `itemsPerPage` items, and is empty past the last page |
| Pager.PageShift | src/js/components/DataList.js:116-118 | page `p + 1` of the items is page `p` of the items without the first page |
| Pager.PagesPartitionItems | src/js/components/DataList.js:116-118 | the pages 1 to the page count, put together in order, are exactly the items: no item is lost or shown twice |
| Pager.LastPageLength | src/js/components/DataList.js:116-118 | the last page holds the remainder of the division, or a full page when the division is exact |
| Pager.TwentyThreeItems | src/js/components/DataList.js:116-118 | 23 items at ten per page make three pages of 10, 10 and 3 items |
| Pager.Window | src/js/components/Pagination.js:38-45 | the window lies within `[1, totalPages]`, is `min(7, totalPages)` pages wide, and contains the current page when that page is in range |
| Pager.RenderPagination | src/js/components/Pagination.js:8-58 | the early return for at most one page, the clamp of the window and the button loop produce exactly the navigation `NavButtons` describes |
| Pager.NavShape | src/js/components/Pagination.js:34-58 | with two or more pages the buttons are Prev, then `min(7, totalPages)` enabled page buttons numbered upwards within range, then Next. Prev leads to the page before and is disabled exactly on page 1. Next leads to the page after and is disabled exactly on the last page |
| Pager.ExactlyOneActive | src/js/components/Pagination.js:47-49 | for a page in range, the current page's button is active and no other button is |
| Pager.EnabledTargetsInRange | src/js/components/Pagination.js:34-58 | every enabled button leads to a page in `[1, totalPages]`; the page before is reachable iff the current page is not the first, and the page after iff it is not the last |
| Listing.CantonIndex | src/js/components/DataList.js:57-66 | the index has one key per canton of the map; every ZIP code is in its own canton's set, and every set holds only ZIP codes mapped to that canton |
| Listing.CantonIndexInsert | src/js/components/DataList.js:60-63 | adding one ZIP code creates its canton's set on first sight and otherwise adds to the existing set, leaving every other set as it was |
| Listing.GroupCantons | src/js/components/DataList.js:57-66 | the loop over the map's entries builds exactly the index `CantonIndex` |
| Listing.FilterPostingsSpec | src/js/components/DataList.js:91-105 | the filtered postings are an order-preserving subsequence of the data; they hold exactly the items in the selected canton's ZIP set (when a canton is selected) and with the selected profession (when one is selected), each as often as in the data |
| Listing.UnknownCantonYieldsNothing | src/js/components/DataList.js:91-96 | a selected canton absent from the index (`?.has` on undefined) keeps nothing |
| Listing.NoSelectionKeepsAll | src/js/components/DataList.js:91-103 | with no canton and no profession selected, whether null or the empty "all" choice, every posting is kept in order |
| Listing.FilterPostingsIdempotent | src/js/components/DataList.js:90-107 | filtering the filtered postings again with the same selections changes nothing |
| Listing.CantonFilterFollowsMapping | src/js/components/DataList.js:91-96 | on the index built from a ZIP → canton map, the canton filter keeps a posting iff the map assigns its ZIP code to the selected canton |
| Listing.ZurichScenario | src/js/components/DataList.js:91-96 | selecting a canton whose set holds "8000" keeps the posting at numeric ZIP 8000 and drops the one at 9000 |
| Listing.DataList.constructor | src/js/components/DataList.js:21-37 | the element starts with no data, fetching, no error, page 1, ten items per page, an empty index, the three professions and no selections |
| Listing.DataList.FetchData | src/js/components/DataList.js:43-55 | the dataset is stored as soon as it resolves, even if the map fetch then rejects; a rejection stores its message; when both resolve, the canton index built from the map and the unfiltered list are stored too; fetching ends either way, and page and selections are kept |
| Listing.DataList.ApplyFilters | src/js/components/DataList.js:90-107 | the filtered list becomes `FilterPostings` of the data and selections, the page is reset to 1, and data, index and selections are unchanged |
| Listing.DataList.HandleCantonChange | src/js/components/DataList.js:68-77 | after a canton is chosen, the selection is that canton, the list is filtered by it and the kept profession, the page is 1 and fetching has ended |
| Listing.DataList.HandleProfessionChange | src/js/components/DataList.js:79-88 | after a profession is chosen, the selection is that profession, the list is filtered by it and the kept canton, the page is 1 and fetching has ended |
| Listing.DataList.OnPageChange | src/js/components/DataList.js:139-147 | choosing an enabled page button makes its page current, which stays in `[1, totalPages]`, and ends fetching; nothing else changes |
| Listing.DataList.Render | src/js/components/DataList.js:109-150 | an error is shown alone; otherwise the cards are exactly the current page of the filtered list (at most ten postings), and the navigation over the filtered list is shown with them |
| Listing.DataList.CardsMatchSelection | src/js/components/DataList.js:109-118 | every card on screen is a posting of the data that passes the selected filters |
| LegacyListing.DataList.constructor | src/js/components/list.js:13-20 | the element starts with no data, fetching, no error, page 1 and ten items per page |
| LegacyListing.DataList.FetchData | src/js/components/list.js:26-35 | a resolved fetch stores the data and a rejected one its message; fetching ends either way |
| LegacyListing.DataList.RenderPagination | src/js/components/list.js:92-160 | the navigation over all the data is the one the pager builds |
| LegacyListing.DataList.Render | src/js/components/list.js:37-63 | while fetching only the loading text is shown; otherwise an error alone; otherwise at most ten items of the current page and the navigation |
| LegacyListing.DataList.Click | src/js/components/list.js:114-120 | clicking an enabled button on screen makes its page current, which lies in `[1, totalPages]`, and changes nothing else |
| Contact.Preferred | src/js/components/Modal.js:68-71 | the first truthy candidate of a fallback chain, or none exactly when no candidate is truthy |
| Contact.PreferredOfThree | src/js/components/Modal.js:68-71 | a chain `a \|\| b \|\| c` shows what `Preferred` picks |
| Contact.ContactName | src/js/components/Modal.js:55-65 | first and last name are chosen independently, the application person before the location contact; the name is "first last" when both exist, the single part when one exists, and nothing otherwise |
| Contact.Email | src/js/components/Modal.js:67-78 | the e-mail address is the first school year's, else the application's, else the location's, else none |
| Contact.PhoneToFormat | src/js/components/Modal.js:81 | the phone number is the application's, else the location's, else none |
| Contact.Url | src/js/components/Modal.js:125-137 | the link goes to the first school year's URL, else the application's, else the location's, with the location name as its text; there is no link when none exists |
| Contact.FormatPhoneNumber | src/js/components/Modal.js:92-112 | keeping the digits, dropping one prefix through the if-chain and grouping produces exactly `PhoneLinkOf` |
| Contact.NationalDigitsDropPrefix | src/js/components/Modal.js:96-103 | exactly one prefix is dropped, the first that matches among `0041`, `41` and `0`, and none when none matches |
| Contact.PhoneHref | src/js/components/Modal.js:94-105 | the dialled number is `+41` followed only by digits; those digits are the input's digits less a `0041`, `41` or `0` prefix, or all of them |
| Contact.PhoneFormatted | src/js/components/Modal.js:106-109 | with nine or more national digits the shown text carries `41` and the national digits; with fewer it is those digits alone |
| Contact.GroupedDigits | src/js/components/Modal.js:106-109 | grouping nine or more digits 2-3-2-2 after `+41 ` only adds the country code and spaces: the digits of the result are `41` and the input |
| Contact.DigitsOnlyOfDigits | src/js/components/Modal.js:94 | removing non-digits from a string of digits leaves it unchanged |
| Contact.RenderPhone | src/js/components/Modal.js:80-90 | there is no phone link exactly when neither phone is truthy; otherwise the link is the formatted chosen number |
| Contact.FormattedNumberIsFixpoint | src/js/components/Modal.js:92-112 | formatting the shown text of a number with nine or more national digits again gives the same dialled number and the same text |

## Left out

- Fetching (`src/js/lib/fetchData.js`, `src/js/lib/fetchCantons.js`) is not part of this model. Each awaited result is a parameter that resolves with a value or rejects with a message.
- The `delay(300)` transitions are not modelled. Nor are the intermediate renders that `handleCantonChange`, `handleProfessionChange` and `onPageChange` make while `fetching` is set, or how several of them could interleave. Each handler is modelled by its net effect once its await completes.
- HTML strings, DOM construction, event registration, `scrollIntoView`, custom-element registration and the modal's open and close handling are left out. `Filters.js` and `Card.js` build markup only and are not part of this model. The sorting of canton options in the filter is markup order.
- `render` passes `fetching` to `renderCard`, but `renderCard` takes only the item and ignores it. `Listing.Screen` records the flag in its `fetching` field, and it has no effect on what a card shows.
- The `console.log` of each posting's profession in the older element's `render` is a side effect on the console and is left out.
- Listing.DataList.FetchData: the model proves that the filtered list agrees with the selections only when the fetch starts from the constructed state, with no selections and page 1. The element fetches when it is attached to the page. If it is attached again after a selection, it stores the unfiltered data while the selection stays.
- LegacyListing.DataList.FetchData: the model proves that the page stays in range only when the fetch starts on page 1, as it does after construction.
- `groupCantons` walks the ZIP map's key set in an arbitrary order, not in `Object.entries` order. The index it builds does not depend on the order.
- The index is a map, not a plain object. A canton named like an inherited object property (for example `constructor`) is not modelled.
- `Math.ceil` of a floating-point quotient is modelled as exact integer ceiling division, which agrees for the sizes a dataset has.
- `null` entries in `apprenticeshipPlaceSchoolYears` are not modelled: an entry is always a record whose e-mail and URL may be absent.
- Contact fields are strings or absent. A numeric phone value, on which `replace` would throw, is not modelled.
- Regular expressions are modelled by what these two do: `\D` removal is a filter on decimal digits, and the unanchored 2-3-2-2 pattern on an all-digit string matches the first nine digits exactly when there are at least nine.
- The rejection of a fetch is modelled by its message only.

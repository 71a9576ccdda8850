# Groupie tracker: join and filter engine

A model of the request-level logic of a small web front end. The front end
lists music artists and shows one artist's concerts. Four remote endpoints
supply artists, locations, dates and relations (date/location pairs). Two
handlers sit on top of them:

- the listing handler (`/`) filters the artists by a case-insensitive name
  query (`q`) and by a member-count selector (`members`);
- the detail handler (`/artist`) validates an `id`, finds the artist and
  joins it with the locations, dates and relations stored under that id.

Modules:

- `Wrappers` (wrappers.dfy): `Option` and `Result`.
- `Text` (text.dfy): ASCII lower-casing, substring search, `%d` formatting
  and `strconv.Atoi`, with round-trip lemmas.
- `Catalog` (catalog.dfy): the `Artist` record.
- `Filters` (filters.dfy): the name filter loop, the member-count loop and
  the id-lookup loop. Each loop is a method proved equal to a specification
  function (`Keep`, `NameFiltered`, `MembersFiltered`, `FirstWithId`), and
  lemmas state what those functions keep.
- `Index` (index.dfy): the loops that turn each endpoint's `index` array into
  a map keyed by the `%d` form of the id, and the relation formatting
  `date → location`. A lookup miss gives an empty list.
- `Errors` (errors.dfy): the title switch of the error page.
- `Handlers` (handlers.dfy): the checks each handler runs in order and the
  whole handlers. The handlers are written twice. The methods
  `HandleIndex` and `HandleArtist` run the steps as the source does. The
  functions `IndexExchange` and `ArtistExchange` specify them, and the lemmas
  are stated about those functions.

A request is modelled as an `Exchange`, which has three parts:

- the endpoints fetched, in order;
- the status code, where the first one written wins;
- the pages written to the body, in order.

What the four endpoints return for the request is an input (`Upstream`): the
decoded data, or `None` when the fetch or the decoding failed.

Two behaviours of the code are easy to misread; the model follows the code:

- A member selector other than `""` and `"1"`..`"5"` matches no `case` of the
  switch, so the listing is empty. It is not a no-op filter.
  `MembersFilterBuckets` states this.
- A query of 30 or more characters writes the 400 "Limit reached" page and
  then carries on. The listing is filtered as usual and written after the
  error page, under the 400 status. `IndexListing` states this.

## Model

| member | source | states |
|---|---|---|
| `Text.ToLower` | main.go:130 | lower-casing keeps the length, maps each character through the ASCII lower-case map and leaves no upper-case letter |
| `Text.ContainsBounds` | main.go:137 | the empty string occurs in every name, and a match needs the query no longer than the name |
| `Text.NatToDecimal` | main.go:290 | `%d` of a natural number is a non-empty string of digits without a leading zero |
| `Text.DigitsRoundTrip` | main.go:290 | reading back the digits `%d` wrote gives the number |
| `Text.FormatParseRoundTrip` | main.go:248 | parsing the `%d` form of any integer gives the integer back |
| `Text.DecimalFormatInjective` | main.go:248-254 | two ids have the same `%d` key exactly when they are equal |
| `Text.Atoi` | main.go:217-221 | an id is accepted exactly when it is an optional sign and decimal digits (leading zeros allowed) whose value fits in 64 bits, and then with that value |
| `Text.FormatAtoiRoundTrip` | main.go:217 | every 64-bit id, written in decimal, is accepted with its own value |
| `Filters.Keep` | main.go:136-140 | a filter loop's result is no longer than its input and holds exactly the input's accepted artists |
| `Filters.KeptPositionsEmbed` | main.go:136-140 | the positions the loop keeps are increasing and pick out exactly the filtered list |
| `Filters.KeepIsSubsequence` | main.go:136-140 | a filter only removes elements; the rest keep their relative order |
| `Filters.SubsequenceTransitive` | main.go:150-177 | applying the member filter after the name filter still only removes elements of the fetched list |
| `Filters.KeepCounts` | main.go:150-177 | each accepted artist is kept as many times as it occurs, and no other artist is kept |
| `Filters.KeepAll` | main.go:141-143 | a criterion that accepts every artist returns the list unchanged |
| `Filters.KeepNone` | main.go:153-174 | a criterion that accepts no artist returns the empty list |
| `Filters.NameFilterExact` | main.go:130-143 | the name filter keeps, in order and with their multiplicity, exactly the artists whose lower-cased name contains the query; the empty query keeps all |
| `Filters.MembersFilterBuckets` | main.go:145-178 | empty selector: unchanged; "1".."4": exactly that many members; "5": five or more; any other selector: empty; always a subsequence, each kept artist as many times as it occurs |
| `Filters.FilterByName` | main.go:130-143 | the loop lower-cases the query, raises the limit flag exactly for 30 or more characters and returns the name-filtered list whatever the flag |
| `Filters.FilterByMembers` | main.go:145-178 | the switch loop returns the member-filtered list |
| `Filters.FirstWithIdIsFirstMatch` | main.go:229-242 | the lookup misses exactly when no artist has the id, and otherwise finds the earliest artist with it |
| `Filters.FindArtist` | main.go:229-237 | the search loop reports found exactly when some artist has the id, returns the first one, and otherwise leaves the zero record |
| `Index.IndexMapKeys` | main.go:288-291 | the built map has a key for an id exactly when some index entry carries that id, and has no other keys |
| `Index.IndexMapLastWins` | main.go:288-291 | the value under an id is the data of the last entry with that id |
| `Index.BuildIndex` | main.go:307-310 | the locations and dates loops build exactly the map of their index |
| `Index.LookupInIndex` | main.go:248-254 | looking an id up gives the last matching entry's data, or the empty list when no entry matches |
| `Index.FormatPairs` | main.go:328-331 | one `date → location` string per pair, in the pairs' order |
| `Index.FormatEntries` | main.go:326-333 | each relation entry keeps its id and gets its pairs formatted |
| `Index.FormatAll` | main.go:328-331 | the inner loop appends exactly the formatted pairs |
| `Index.BuildRelationIndex` | main.go:326-333 | the relation loop builds the map of the formatted entries |
| `Index.LookupInRelations` | main.go:254 | an artist's relation list has one formatted string per pair of its last relation entry, and is empty when there is no entry |
| `Errors.GenericTitle` | main.go:360-361 | a code other than 400, 404 and 500 gets the title "Error " followed by its decimal form, from which the code reads back |
| `Errors.TitleDeterminesCode` | main.go:353-362 | two codes share a title exactly when they are equal |
| `Errors.MethodNotAllowedTitle` | main.go:360-361 | the 405 page is titled "Error 405" |
| `Handlers.FetchIndex` | main.go:276-293 | a locations or dates fetch returns the built map, or an empty map and a failure |
| `Handlers.FetchRelations` | main.go:314-335 | the relation fetch returns the built map of formatted pairs, or an empty map and a failure |
| `Handlers.HandleIndex` | main.go:112-191 | the listing handler, run step by step, produces the exchange its specification describes |
| `Handlers.HandleArtist` | main.go:199-255 | the detail handler, run step by step, produces the exchange its specification describes |
| `Handlers.IndexCheckOrder` | main.go:114-128 | wrong path: 404; then non-GET: 405; then failed artist fetch: 500; nothing is fetched before the first two checks pass |
| `Handlers.IndexListing` | main.go:130-191 | the listing shows, in order and with their multiplicity, exactly the artists matching the query and the selector, with the lower-cased query, the selector and the three auxiliary maps; a long query writes the 400 "Limit reached" page and then the same listing, two parts in all |
| `Handlers.ListedExact` | main.go:130-178 | the two filters together keep, in order and with their multiplicity, exactly the artists matching both |
| `Handlers.IndexToleratesAuxiliaryFailures` | main.go:180-191 | a failed locations, dates or relation fetch, alone or all three together, leaves status, fetches and listing unchanged except that each failed fetch's map is empty |
| `Handlers.DegradeListing` | main.go:180-191 | failing any set of auxiliary fetches only empties their maps in the listing |
| `Handlers.ArtistCheckOrder` | main.go:201-227 | wrong path: 404; then non-GET: 405; then no id: 400 "Missing artist id"; then an unparsable id: 400 "Invalid artist id"; then a failed artists fetch: 500 "Failed to fetch artists" after that one fetch; nothing is fetched before the four request checks pass |
| `Handlers.ArtistLookup` | main.go:229-255 | 404 "Artist not found" exactly when no artist has the id; otherwise the first artist with it, joined with its last locations, dates and relation entries, or empty lists |
| `Handlers.ErrorScenarios` | main.go:119-221 | the id "abc" gives 400 "Invalid artist id"; a POST to `/` gives 405 "Method Not Allowed" titled "Error 405" |

## Left out

- Network fetching and JSON decoding (`fetchArtists` and the first half of
  the other three fetchers) are not modelled. Each fetch's outcome is a field
  of `Upstream`: the decoded records, or `None` for a transport or decoding
  error.
- Template loading and execution, `http.Error` and response writing are not
  modelled. Every template execution is assumed to succeed, so the 500
  "Failed to render template" and "Failed to render artist page" pages are
  not modelled. The pages written are recorded as `Part`s of the body.
- Server start-up, route registration and static file serving are not
  modelled. Neither is the concurrency between requests, which the HTTP
  server owns.
- `Text.Atoi`: assumes a 64-bit `int`. On a 32-bit build `strconv.Atoi` also rejects values outside the 32-bit range.
- `Text.ToLower`: models `strings.ToLower` for ASCII letters only, not full
  Unicode case mapping.
- `Filters.FilterByName`: characters are counted as Dafny characters, not
  bytes. For non-ASCII queries this differs from Go's `len`.
- Strings are sequences of characters, not UTF-8 bytes. The em dash in the
  titles and the arrow in the relation strings are single characters.
- The order of Go map iteration over a relation entry's date/location map is
  unspecified. The model takes the pairs as an arbitrary sequence, and
  `FormatPairs` keeps that sequence's order.
- The two identical loops of the locations and dates fetchers are modelled
  by one generic `Index.BuildIndex`.

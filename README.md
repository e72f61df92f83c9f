# Stock-investment items core, in Dafny

This project models the logic of the items service of the Stock-investment
application and proves properties of it:

- **`Money`** (backend/models/item.go) is the monetary amount that the
  backend accepts as a JSON number or as a string such as `"$1,234.50"`,
  and that it stores as a float in CockroachDB, reached through the
  `lib/pq` PostgreSQL driver (backend/database/connection.go:11, 21-25).
  The model covers its JSON
  decoder (`UnmarshalJSON`), its JSON encoder, its SQL `Value`/`Scan` pair
  and the shape of an `Item`.
- **`ItemHandler`** (backend/handlers/item_handler.go) holds the HTTP
  handlers over the `items` table. The centre is `UpdateItems`, the
  synchronisation that runs in this order:
  1. It checks the API key.
  2. It deletes every row.
  3. It follows the upstream feed page by page from a fixed base URL.
  4. It inserts each record, skipping the ones whose INSERT fails.
  5. It stops on the first request or decode failure, or at the page whose
     `next_page` is nil or empty.

  `CreateItem`, `GetItem` and `GetItems` are the smaller handlers.
- **The Pinia items store** (frontend/src/stores/items.ts) holds the
  frontend state:
  - the filter merge and reset;
  - the distinct-value getters that feed the filter drop-downs;
  - the `items`/`loading` transitions of `fetchItems` and `syncItems`.

Files:

- `wrappers.dfy`: `Option` and `Result`.
- `strings.dfy`: Go's `strings.TrimSpace` and single-character `strings.ReplaceAll`.
- `models.dfy`: `Money` and `Item`.
- `handlers.dfy`: the handlers, the `items` table and the synchronisation.
- `store.dfy`: the frontend store.

Representation choices:

- A float64 amount is a `real`.
- `strconv.ParseFloat(s, 64)` is a parameter `parse: string -> Option<real>`.
- The upstream feed is a value of type `Upstream`, and the database's
  per-statement outcomes are a value of type `Database`. Both are
  parameters: the handlers see only what these collaborators return.
- Each in-place update of the source becomes a method of a class:
  - `Money.UnmarshalJSON` and `Money.Scan` write their pointer receiver, here
    the field `amount`;
  - the handler's table is the field `table`;
  - the store's refs are fields of `Store`.

  Each method is specified against a pure function: `DecodeJSON`,
  `DecodeStorage`, `Paginate`/`Sync`, `FetchStep`, `Inserted` or `Merge`.
  The properties are proved as lemmas about that function.
- `UpdateItems` loops with `for {}` and has no bound of its own. The model
  takes a ghost bound `n` and a precondition that the feed reaches a
  stopping page within `n` fetches (`EndsWithin`). `BoundIrrelevant`
  proves that the run does not depend on which such bound is chosen.
- A ghost field `fetched` records the URLs requested from the feed, so
  that the contracts can say which pages were fetched and in what order.
- The shape of a run (`IsTrace`, `Chained`, `Harvest`, `Stopped`) is stated for any
  function from a URL to what fetching it comes to; `Steps(up, parse)` is
  that function for the feed `up`.

Error handling in the code, which the model follows:

- A money string that is not a number fails with an error carrying the
  cleaned string (item.go:55), not the string that was received. The
  model's `InvalidFormat` carries the cleaned string too.
- `CreateItem` binds `models.Item` (item_handler.go:32), not
  `CreateItemRequest`, so the `binding:"required"` tags are never applied.
  A missing field is not an error. The only 400s are a body that does not
  bind and a money field that `UnmarshalJSON` refuses.
- During a sync, a failed `client.Do` answers 502 (item_handler.go:158).
  Only a request that `http.NewRequest` refuses answers 500
  (item_handler.go:150).
- A money field that `UnmarshalJSON` refuses inside a feed page makes the
  page undecodable, because `Money` decoding runs inside
  `json.Decoder.Decode` (item_handler.go:171). The sync then aborts with 502.

Three more behaviours of the code as written, stated by lemmas:

- Cleaning a money string is not idempotent: `Clean("$ 42")` is `" 42"`,
  and cleaning that again gives `"42"` (`CleanNotIdempotent`). The model
  keeps the code's behaviour. It proves what does hold:
  - the `$`/`,` deletion is idempotent;
  - a second cleaning only trims;
  - cleaning is idempotent exactly when its result is already trimmed.
- `"$ 42"` is therefore refused by `UnmarshalJSON` whenever ParseFloat
  refuses `" 42"`, as Go's does (`DollarSpaceRefused`).
- `GetItems` answers JSON `null`, not `[]`, for an empty table. It appends
  to a nil slice and never allocates one; the model answers
  `ItemList(None)`.

## Model

| member | source | states |
|---|---|---|
| Strings.TrimSpace | backend/models/item.go:44 | the trimmed string has no white space at either end, is no longer than the input, holds only characters of the input, and equals an input that was already trimmed; `TrimSpaceInfix` adds that it is the infix left after removing the white space at both ends |
| Strings.TrimSpaceInfix | backend/models/item.go:44 | the trimmed string is `s[i..j]` for some `i <= j`, and every character of `s` before `i` and from `j` on is white space |
| Strings.TrimSpaceIdempotent | backend/models/item.go:44 | trimming twice is trimming once |
| Strings.Remove | backend/models/item.go:45-46 | deleting every occurrence of one character leaves no occurrence of it and no new character; `RemoveCounts` and `RemoveAppend` pin down the count and the order of the rest |
| Strings.RemoveCounts | backend/models/item.go:45-46 | every other character is kept exactly as many times as it occurs: the multiset of the result is the input's with the deleted character's count set to 0 |
| Strings.RemoveAppend | backend/models/item.go:45-46 | deletion splits over concatenation, so the kept characters stay in input order |
| Strings.RemoveAbsent | backend/models/item.go:45-46 | deleting a character that does not occur changes nothing |
| Strings.RemoveIdempotent | backend/models/item.go:45-46 | deleting the same character twice is deleting it once |
| Models.StripSymbols | backend/models/item.go:45-46 | after the two deletions no `$` and no `,` remain, and no new character appears; `StripSymbolsCounts` and `StripSymbolsAppend` give the count and order of the rest |
| Models.StripSymbolsCounts | backend/models/item.go:45-46 | every character other than `$` and `,` survives as many times as it occurs |
| Models.StripSymbolsAppend | backend/models/item.go:45-46 | the deletions split over concatenation, so the surviving characters keep their order |
| Models.CleanLeavesNoSymbols | backend/models/item.go:44-46 | the cleaned string contains no `$` and no `,` |
| Models.StripSymbolsIdempotent | backend/models/item.go:45-46 | the `$`/`,` deletion is idempotent |
| Models.CleanTwice | backend/models/item.go:44-46 | cleaning a cleaned string only trims it: the trim runs before the deletions |
| Models.CleanIdempotentIff | backend/models/item.go:44-46 | cleaning is idempotent on an input exactly when the cleaned form has no white space at either end |
| Models.CleanNotIdempotent | backend/models/item.go:44-46 | "$ 42" cleans to " 42", which cleans again to "42": cleaning is not idempotent in general |
| Models.CleanOfTrimmed | backend/models/item.go:44-46 | on an input already trimmed, cleaning is just the deletions |
| Models.CleanDollarPrefix | backend/models/item.go:44-46 | a `$` in front of a symbol-free text that does not end in white space is cleaned away and the text is kept |
| Models.NullIsZero | backend/models/item.go:25-28 | JSON null decodes to 0 with no error |
| Models.NumberTakenAsIs | backend/models/item.go:31-35 | a bare JSON number is stored unchanged, 42.5 included, whatever ParseFloat does |
| Models.StringOutcome | backend/models/item.go:37-58 | a string fails exactly when its cleaned form is non-empty and not a number, with the cleaned form in the error; a string that cleans to empty gives 0; otherwise the parsed value |
| Models.BlankAmountsAreZero | backend/models/item.go:48-51 | "", "$" and " , " decode to 0 with no error |
| Models.DollarAmount | backend/models/item_test.go:11-19 | "$42.00" decodes to 42.0 when ParseFloat reads "42.00" as 42.0 |
| Models.DollarSpaceRefused | backend/models/item.go:44-56 | "$ 42" is refused with the error naming " 42" when ParseFloat refuses a leading space |
| Models.Value | backend/models/item.go:66-68 | `Value` always yields the amount itself as a float, and no error |
| Models.MarshalRoundTrip | backend/models/item.go:61-63 | what `MarshalJSON` writes, `UnmarshalJSON` reads back unchanged |
| Models.BytesToText | backend/models/item.go:80-81 | `string(v)` of a byte slice has one character per byte |
| Models.AsciiBytes | backend/models/item.go:80-81 | the bytes of an ASCII text convert back to the same text |
| Models.ScanCases | backend/models/item.go:71-96 | `Scan` of nil gives 0, of a float64 gives that float, and of any other type the "unexpected type" error |
| Models.ScanBytesAsString | backend/models/item.go:80-93 | a `[]byte` and a `string` holding the same text scan to the same result |
| Models.ScanDoesNotClean | backend/models/item.go:87-93 | `Scan` of a string succeeds exactly when ParseFloat accepts the string as it is, with ParseFloat's value |
| Models.ScanRefusesDollar | backend/models/item.go:44-93 | a `$`-prefixed amount decodes from JSON to the value of the text after `$` (the cleaning at lines 44-46), but `Scan` refuses it with ParseFloat's error (lines 87-93 pass the text on uncleaned) |
| Models.ValueRoundTrip | backend/models/item_test.go:42-59 | what `Value` writes, `Scan` reads back unchanged |
| Models.Money.UnmarshalJSON | backend/models/item.go:23-59 | on success the receiver holds the decoded amount and no error is returned; on failure the error is returned and the receiver keeps its previous amount |
| Models.Money.Scan | backend/models/item.go:71-97 | on success the receiver holds the scanned amount; on failure the error is returned and the receiver keeps its previous amount |
| Models.DecodeItem | backend/models/item.go:99-111 | an item binds exactly when both money fields decode; `DecodeItemFields` states what it binds to |
| Models.DecodeItemFields | backend/models/item.go:99-111 | a refused item fails with a refused money field's error, and the model reports `target_from`'s error first when both are refused; a bound item carries every other field unchanged and each amount as `UnmarshalJSON` decodes it |
| Models.ItemJsonRoundTrip | backend/models/item_test.go:80-112 | an item survives JSON encoding and decoding unchanged |
| Handlers.DecodeItemsSpec | backend/handlers/item_handler.go:165-175 | a page decodes exactly when every item does, item by item in order; otherwise the error is that of the first item that does not decode |
| Handlers.InsertedAppend | backend/handlers/item_handler.go:179-189 | inserting a page in two parts is inserting it at once |
| Handlers.InsertedIsFilter | backend/handlers/item_handler.go:179-189 | every record of a page is attempted: the ones whose INSERT succeeds are in the table, and nothing else is |
| Handlers.InsertedAllOk | backend/handlers/item_handler.go:179-189 | when every INSERT succeeds the page's rows are all added, in page order |
| Handlers.HarvestCons | backend/handlers/item_handler.go:179-189 | the rows of one more page fetched first come first in the table |
| Handlers.ChainedCons | backend/handlers/item_handler.go:192-204 | a page that is not the last, put in front of a chain of fetches starting at its next URL, still forms a chain |
| Handlers.TraceExtend | backend/handlers/item_handler.go:146-207 | one pass over a page that is not the last, followed by a run from its next URL, is a run from the page's own URL |
| Handlers.AdvancePaginates | backend/handlers/item_handler.go:146-205 | one pass of the loop either ends the run with the run's own table, fetches and answer, or leaves the rest of the run to the pass at the next URL |
| Handlers.PaginateTrace | backend/handlers/item_handler.go:146-207 | a loop run from a URL fetches that URL first; each later fetch is the next URL of the page before, which was not a last page; the table gains, in fetch order, the rows of fetched pages whose INSERT succeeded; the run answers 200 exactly when its last fetch was a last page; no fetch means the first request was refused, with that 500; otherwise the run stops at its last fetch because that fetch failed (with that failure's answer), or was a last page (200), or had a next URL whose request was refused (500) |
| Handlers.MissingKeyTouchesNothing | backend/handlers/item_handler.go:126-130 | an empty API key answers 500 before the table or the feed is touched |
| Handlers.DeleteFailureFetchesNothing | backend/handlers/item_handler.go:140-143 | a failed delete-all answers 500, fetches no page and leaves the table as it was |
| Handlers.FailuresAreBadGateway | backend/handlers/item_handler.go:156-175 | a sent request that fails, by a transport error or a body that does not decode, answers 502 |
| Handlers.SyncTrace | backend/handlers/item_handler.go:134-207 | once the table is cleared: the first fetch is the base URL; each later fetch is the next URL of the non-last page before it; a fetch or decode failure is the last fetch, and the earlier pages' rows stay; the final table holds, in fetch order, the rows of the fetched pages whose INSERT succeeded; success exactly when the last page was reached; the answer is the stop's own: 500 when no page was fetched or the next request was refused, the fetch failure's 502, or 200 after the last page |
| Handlers.NextPageRule | backend/handlers/item_handler.go:192-204 | the loop continues exactly when `next_page` is neither nil nor empty; the next URL is the token itself when it has a scheme and a host, and otherwise the base URL (never the previous URL) with the token as the `next_page` query parameter |
| Handlers.StatusIgnored | backend/handlers/item_handler.go:156-171 | the upstream HTTP status is never looked at: changing every status leaves the run unchanged |
| Handlers.InsertFailuresDoNotStopPaging | backend/handlers/item_handler.go:182-188 | failed INSERTs never change which pages are fetched or what is answered |
| Handlers.BoundIrrelevant | backend/handlers/item_handler.go:146 | the run does not depend on the termination bound chosen for it |
| Handlers.ScanItem | backend/handlers/item_handler.go:100-102 | a row scans exactly when both money columns do; a refused row fails with the first refused column's error (`target_from` first); a scanned row keeps every other column unchanged and holds each amount as `Money.Scan` reads it |
| Handlers.GetItem | backend/handlers/item_handler.go:93-113 | no rows is 404; a query error or a refused column is 500; otherwise 200 with the scanned item |
| Handlers.GetItems | backend/handlers/item_handler.go:70-91 | a query error is 500; 200 exactly when every row scans, with the items in row order, and JSON null when there are none; otherwise 500 with the first failing row's error |
| Handlers.Created | backend/handlers/item_handler.go:53-63 | the created item has every column of the request unchanged plus the store's id and creation time |
| Handlers.ItemHandler.FetchPage | backend/handlers/item_handler.go:148-176 | a request `http.NewRequest` refuses is 500 and fetches nothing; otherwise the URL is fetched and the transport error (502), the undecodable body (502) or the decoded page and `next_page` is returned, leaving the table alone |
| Handlers.ItemHandler.InsertPage | backend/handlers/item_handler.go:179-189 | the table gains the page's rows whose INSERT succeeds, in page order |
| Handlers.ItemHandler.CreateItem | backend/handlers/item_handler.go:31-66 | a body that does not bind is 400 and a failed INSERT is 500, both leaving the table unchanged; otherwise the row is added and 201 echoes the request with the store's id and creation time |
| Handlers.ItemHandler.Advance | backend/handlers/item_handler.go:146-205 | one pass of the loop does what `FetchStep` says: stop with the error, stop with 200 after inserting a last page, or insert the page and continue at the next URL |
| Handlers.ItemHandler.FetchAll | backend/handlers/item_handler.go:146-207 | the loop leaves the table, the fetch log and the answer that `Paginate` gives from the start URL |
| Handlers.ItemHandler.UpdateItems | backend/handlers/item_handler.go:124-208 | the sync leaves the table, the fetch log and the answer that `Sync` gives, and hence every property proved of `Sync` |
| ItemsStore.MergeKeys | frontend/src/stores/items.ts:78-80 | each key present in the patch takes the patch's value, and each absent key keeps its old value |
| ItemsStore.MergeIdentityAndIdempotence | frontend/src/stores/items.ts:78-80 | merging an empty patch changes nothing, and merging the same patch twice is merging it once |
| ItemsStore.MergeTwice | frontend/src/stores/items.ts:78-80 | two merges in a row are one merge of the combined patch, the later patch winning |
| ItemsStore.FirstIndex | frontend/src/stores/items.ts:44-46 | the index found holds the value, and no earlier index does |
| ItemsStore.Distinct | frontend/src/stores/items.ts:44-46 | spreading a `Set` of a list gives no duplicates and exactly the values of the list |
| ItemsStore.DistinctOrder | frontend/src/stores/items.ts:44-46 | the `Set` lists the values in first-occurrence order |
| ItemsStore.FirstOccurrenceOrderUnique | frontend/src/stores/items.ts:44-46 | two lists of the same values in first-occurrence order are equal |
| ItemsStore.DistinctUnique | frontend/src/stores/items.ts:44-46 | the `Set` spread is the only duplicate-free list of the values in first-occurrence order |
| ItemsStore.Actions | frontend/src/stores/items.ts:44 | the mapped list holds each item's action, in item order |
| ItemsStore.Brokerages | frontend/src/stores/items.ts:45 | the mapped list holds each item's brokerage, in item order |
| ItemsStore.Ratings | frontend/src/stores/items.ts:46 | the mapped list holds each item's target rating, in item order |
| ItemsStore.Store.ListAcciones | frontend/src/stores/items.ts:44 | no duplicates, exactly the actions of the items, in first-occurrence order |
| ItemsStore.Store.ListBroker | frontend/src/stores/items.ts:45 | no duplicates, exactly the brokerages of the items, in first-occurrence order |
| ItemsStore.Store.ListRating | frontend/src/stores/items.ts:46 | no duplicates, exactly the target ratings of the items, in first-occurrence order |
| ItemsStore.Store.TotalItems | frontend/src/stores/items.ts:47 | the count is the number of items, bounds each distinct-value list, and is 0 exactly when there are no actions |
| ItemsStore.Store.constructor | frontend/src/stores/items.ts:33-41 | the store starts with no items, not loading, and the default filters |
| ItemsStore.Store.UpdateFilters | frontend/src/stores/items.ts:78-80 | the filters become the shallow merge of the old filters and the patch; items and loading are unchanged |
| ItemsStore.Store.ResetFilters | frontend/src/stores/items.ts:82-90 | the filters become the initial defaults whatever they were, so resetting twice is resetting once; items and loading are unchanged |
| ItemsStore.Store.FetchItems | frontend/src/stores/items.ts:50-63 | items are replaced by the answer only on success; on failure the error is rethrown and items are unchanged; loading ends false and the filters are unchanged |
| ItemsStore.Store.SyncItems | frontend/src/stores/items.ts:65-76 | a failed PUT is rethrown and items are unchanged; otherwise it ends as `fetchItems` does; loading ends false either way |
| Models.Clean | backend/models/item.go:44-46 | no contract of its own; `CleanLeavesNoSymbols`, `CleanTwice`, `CleanIdempotentIff` and `CleanNotIdempotent` state its properties |
| Models.DecodeJSON | backend/models/item.go:23-59 | no contract of its own; `NullIsZero`, `NumberTakenAsIs`, `StringOutcome` and `MarshalRoundTrip` state its properties, and `Money.UnmarshalJSON` is proved against it |
| Models.MarshalJSON | backend/models/item.go:61-63 | no contract of its own; `MarshalRoundTrip` states that `DecodeJSON` reads its output back |
| Models.DecodeStorage | backend/models/item.go:71-97 | no contract of its own; `ScanCases`, `ScanBytesAsString`, `ScanDoesNotClean` and `ValueRoundTrip` state its properties, and `Money.Scan` is proved against it |
| Handlers.DecodeItems | backend/handlers/item_handler.go:165-175 | no contract of its own; `DecodeItemsSpec` states its properties |
| Handlers.Request | backend/handlers/item_handler.go:148-176 | no contract of its own; `ItemHandler.FetchPage` is proved against it and `StatusIgnored` states that it never reads the status |
| Handlers.FetchStep | backend/handlers/item_handler.go:148-204 | no contract of its own; `NextPageRule` states its next-page rule and `ItemHandler.Advance` is proved against it |
| Handlers.NextURL | backend/handlers/item_handler.go:196-204 | no contract of its own; `NextPageRule` states it |
| Handlers.Inserted | backend/handlers/item_handler.go:179-189 | no contract of its own; `InsertedAppend`, `InsertedIsFilter` and `InsertedAllOk` state its properties, and `ItemHandler.InsertPage` is proved against it |
| Handlers.Paginate | backend/handlers/item_handler.go:146-207 | no contract of its own; `PaginateTrace`, `StatusIgnored`, `InsertFailuresDoNotStopPaging` and `BoundIrrelevant` state its properties, and `ItemHandler.FetchAll` is proved against it |
| Handlers.Sync | backend/handlers/item_handler.go:124-208 | no contract of its own; `MissingKeyTouchesNothing`, `DeleteFailureFetchesNothing` and `SyncTrace` state its properties, and `ItemHandler.UpdateItems` is proved against it |
| ItemsStore.Merge | frontend/src/stores/items.ts:79 | no contract of its own; `MergeKeys`, `MergeIdentityAndIdempotence` and `MergeTwice` state its properties, and `Store.UpdateFilters` is proved against it |

## Left out

- I/O is left out: HTTP transport, Gin's request/response plumbing, `log.Println` (the API key printed by `UpdateItems` included), `console.log`/`console.error` and axios. The collaborators' results are parameters.
- Float precision and formatting are left out. Amounts are real numbers, ParseFloat is an abstract partial function, and `MarshalJSON`'s exact digits are not modelled.
- Models.DecodeJSON: does not model non-finite amounts. `strconv.ParseFloat` accepts "NaN", "Inf" and "Infinity", so `UnmarshalJSON` and `Scan` can store a non-finite float64, which a `real` cannot hold; `MarshalJSON` then fails with `json.UnsupportedValueError`, an error path the model's `MarshalJSON` does not have. The model's `parse` yields only real numbers.
- A JSON number outside the float64 range is not modelled. `json.Unmarshal` into float64 refuses it and `UnmarshalJSON` then fails; the model takes every JSON number as its value.
- The internals of `url.Parse`, `url.Values.Encode`/`url.QueryEscape`, `http.NewRequest`, `json.Decoder` and the JSON decoding of `time.Time` are left out. Each is an abstract function or an already-decoded value.
- The `ORDER BY created_at DESC` of `GetItems` is computed by the database. The model takes the rows in the order the query returns them.
- `rows.Err()` is not checked by `GetItems`. The model likewise sees only the rows returned.
- Non-money columns always scan in `GetItem`/`GetItems`. Only the money columns go through `Money.Scan`.
- Models.BytesToText: converts one byte to one character, as for ASCII text. It does not model UTF-8 decoding of multi-byte sequences.
- Handlers.ItemHandler.UpdateItems: covers only feeds that reach a stopping page (the ghost bound `n`). A feed that never stops makes the source loop for ever, which the model does not represent.
- Handlers.ItemHandler.CreateItem: its INSERT's outcome is a parameter `stored` (the id and creation time the store returns, or its error), independent of the sync's `Database.insertOk`. The model does not relate the two abstractions of the same INSERT statement.
- Whether an INSERT succeeds is a function of the row alone (`Database.insertOk`). Constraint failures that depend on the rows already in the table are not distinguished.
- `CreateItemRequest` and its `binding:"required"` validation are not modelled, because `CreateItem` never uses them.
- Concurrency is left out: overlapping syncs, readers seeing the emptied or partly refilled table, and the frontend's awaits interleaving. The store methods run their `loading := true … loading := false` as one step.
- Error message texts are not modelled. Causes are constructors, and the comments next to them quote the Spanish messages.
- backend/database/connection.go and backend/main.go are not part of this model: they hold the connection pool, the DDL, the routing and the CORS set-up.
- ItemsStore.Store.FetchItems: takes `response.data` to be a list of items, so it does not model the `null` that `GetItems` answers for an empty table. On `null` the source stores `null` in `items` (items.ts:55), reading its `length` then throws a TypeError (items.ts:56), that error is rethrown, and `loading` still ends false (items.ts:61); the model's `items` cannot hold `null`.
- Models.DecodeItemFields: `encoding/json` decodes an object's members in the order their keys appear in the text and returns the first `UnmarshalJSON` error. The model's `WireItem` has no key order, so when both amounts are refused it reports `target_from`'s error. The cause in `CreateItem`'s 400 or the sync's 502 can then differ from the source when `target_to` comes first in the text.
- `Partial<Filters>` with a key present but explicitly `undefined` is not modelled.

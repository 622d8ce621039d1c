# LotRepository: a Dafny model

This project models the in-memory logic of `LotRepository`, the PostgreSQL store of the flat-rental
service. Each of its operations assembles SQL text, sends it and then stitches the returned rows back
into nested `Lot` → `Room` → `LivingPlace` values:

- **GetFlats** lists the listings one page at a time. It builds the WHERE clause from an optional
  spatial search (a list of S2 cell ids), free-form `key → "op value"` filters, a visibility test for
  non-owners and the type test `is_constructor = true|false`. It counts the pages, fetches one
  LIMIT/OFFSET window of lots and attaches every lot's rooms through a dictionary keyed by the room's
  flat id.
- **GetFlatAd** reads one listing by id under the same visibility and type tests. It fetches its
  rooms, builds a `$1, $2, …` placeholder list for those room ids and attaches each room's living
  places through a dictionary keyed by the decimal text of the room id.
- **Create** inserts a listing, then each of its rooms under the listing's new id, then each room's
  living places under the room's new id. Every generated id is written back into the caller's value.
- **UpdateFlat** and **CreateAd** render a `map[string]interface{}` of column updates as a SET
  clause. Integers go through `Itoa` and booleans through `FormatBool`. An empty text becomes `' '`.
  Each entry is written `key = 'value', ` and the final `, ` is cut off. CreateAd first forces
  `is_constructor = false` on the listing, then updates every room the same way.

The modules follow the parts of `lotrepository.go`, and all of them are imperative where the Go code is:

- `Outcomes`: `Option`, `Result` and the error kinds.
- `Text`: `Itoa`, `FormatBool`, `strings.Join`, and Go map enumeration. An `order` sequence
  enumerates each key exactly once. Go's iteration order is unspecified, so every property holds
  for every such order.
- `Models`: the records, and the `int(uint64)` cell-id conversion.
- `Conditions`: the WHERE clause.
- `Stitching`: the dictionary joins.
- `Placeholders`: the `$n` list.
- `Pagination`: the page count and the LIMIT/OFFSET window.
- `SetClause`: UpdateFlat and CreateAd.
- `Repository`: a `Database` class whose tables and id counters stand in for the stored rows and
  the `RETURNING id` sequences, plus Create.
- `Queries`: GetFlats and GetFlatAd over those tables, and the round trip Create → GetFlatAd.

The `models` package is not part of this model. The records carry a subset of its fields:
- `Lot`: id, owner id, address, coordinates, price, area, the visibility and type flags, and the rooms.
- `Room`: id, flat id, maximum residents, area and the living places.
- `LivingPlace`: id, room id and number of berths.
The ids, foreign keys, coordinates, flags and nested collections are what the repository's own logic
reads or writes. The owner id, address, area, maximum residents and number of berths are stored and
read back as given. A new listing's price, visibility and type are the table defaults
(`Repository.Database.InsertFlat`).

Behaviour of the code that the model keeps as it is:

- The rooms query of GetFlats selects `WHERE ID IN (<lot ids>)`, that is, by the room's own id and
  not by `flat_id` (line 126). The model takes the rows this query returns as an input to GetFlats
  and stitches them by `FlatID` exactly as lines 133-147 do.
- Both flat queries select `long` twice, so the scanned Y coordinate is the longitude (lines 90 and
  169). `Queries.Scanned` states this.
- The cell id is not selected by either flat query, so a scanned lot has cell id 0.
- A string value that is empty renders as `key = '' ''`, because the replacement text `' '` is
  itself put inside quotes (`SetClause.EmptyStringAssignment`).
- A spatial search whose cell union is empty yields `cell_id IN ()`, which PostgreSQL cannot parse; GetFlats then fails with `SyntaxError`.
- Create does not set `Room.FlatID` or `LivingPlace.RoomID` in the caller's value; only the ids
  change (`Repository.SameLot`).

## Model

| member | source | states |
|---|---|---|
| Text.Itoa | internal/app/store/postgres/lotrepository.go:116 | the decimal text is non-empty, starts with `-` exactly for negative numbers and is otherwise all digits |
| Text.DecimalRoundTrip | internal/app/store/postgres/lotrepository.go:116 | reading the digits back gives the number, so `Itoa` loses nothing |
| Text.ItoaInjective | internal/app/store/postgres/lotrepository.go:243-247 | two ids with the same text are the same id, so a dictionary keyed by `Itoa(id)` groups exactly by id |
| Text.FormatBool | internal/app/store/postgres/lotrepository.go:349-350 | a boolean renders as `true` or `false` and nothing else |
| Text.ParseBool | internal/app/store/postgres/lotrepository.go:349-350 | the inverse of FormatBool: it accepts exactly `true` and `false`, and gives back the boolean that renders to its input |
| Text.TerminatedIsJoinedPlusSep | internal/app/store/postgres/lotrepository.go:361-363 | appending every part followed by the separator and then cutting the last separator equals joining the parts |
| Text.EnumerationSize | internal/app/store/postgres/lotrepository.go:343 | a range over a map visits as many keys as the map holds |
| Text.EnumerationIndex | internal/app/store/postgres/lotrepository.go:343 | every key of the map is visited at exactly one position |
| Models.CellIdAsInt | internal/app/store/postgres/lotrepository.go:50 | `int(item)` of a uint64 cell id lies in the signed 64-bit range, is congruent to the cell id modulo 2^64 and equals it exactly below 2^63 |
| Models.IntAsCellId | internal/app/store/postgres/lotrepository.go:50 | on the signed 64-bit range, the uint64 conversion yields a cell id that `CellIdAsInt` maps back to the same value |
| Conditions.CellIdTexts | internal/app/store/postgres/lotrepository.go:48-51 | the loop yields the decimal text of every cell id of the union, in order |
| Conditions.AppendFilters | internal/app/store/postgres/lotrepository.go:62-64 | the loop extends the condition by one `key+value AND ` term per filter in visiting order |
| Conditions.BuildCondition | internal/app/store/postgres/lotrepository.go:44-79 | the assembled WHERE clause equals the reference clause `Condition` for every iteration order of the filters |
| Conditions.FilterTermsEndWithBlank | internal/app/store/postgres/lotrepository.go:63 | the filter terms, when present, end in a blank, so the following test stays a separate token |
| Conditions.FilterTermsContain | internal/app/store/postgres/lotrepository.go:62-64 | every visited filter's `key+value` term appears in the terms |
| Conditions.ConditionStartsWithWhere | internal/app/store/postgres/lotrepository.go:44-79 | the condition starts with `WHERE ` in all four combinations of spatial search and filters |
| Conditions.SpatialConditionPrefix | internal/app/store/postgres/lotrepository.go:45-55 | a search with a non-zero longitude, latitude or radius starts with `WHERE cell_id IN (<cells joined by ,>) AND ` |
| Conditions.PlainConditionShape | internal/app/store/postgres/lotrepository.go:57-79 | without a spatial search the condition is `WHERE ` followed by the filter terms and the visibility and type tests |
| Conditions.ConditionHasEveryFilter | internal/app/store/postgres/lotrepository.go:57-65 | every filter of the map takes part in the condition, whatever the iteration order |
| Conditions.ConditionEndsWithType | internal/app/store/postgres/lotrepository.go:75-79 | the condition ends with `is_constructor = true` exactly when construction templates are asked for, and with `= false` otherwise |
| Conditions.ConditionVisibility | internal/app/store/postgres/lotrepository.go:69-79 | the condition ends with the `is_visible = true AND` test exactly when the caller is not the owner |
| Conditions.FlatAdConditionVisibility | internal/app/store/postgres/lotrepository.go:173-184 | the single-listing query tests visibility exactly for non-owners and always ends with the type test |
| Conditions.FlatAdCondition | internal/app/store/postgres/lotrepository.go:169-180 | the single-row condition always begins with `WHERE id = $1 AND `, binding the listing id first |
| Stitching.Select | internal/app/store/postgres/lotrepository.go:142 | a dictionary entry holds only rows of the input, all with the entry's key |
| Stitching.SelectAppend | internal/app/store/postgres/lotrepository.go:142 | appending rows to the dictionary keeps earlier rows before later ones under each key |
| Stitching.SelectCount | internal/app/store/postgres/lotrepository.go:142 | a row occurs under its own key exactly as often as among the input rows, and under no other key |
| Stitching.SelectAfterFilter | internal/app/store/postgres/lotrepository.go:225-243 | filtering the rows by a test that every row of the key passes leaves the key's entry unchanged |
| Stitching.FreshGroup | internal/app/store/postgres/lotrepository.go:243 | when only newly appended rows carry a key, its entry is exactly those rows |
| Stitching.TextKeyIsIntKey | internal/app/store/postgres/lotrepository.go:243-247 | grouping living places under `Itoa(RoomID)` and looking up `Itoa(room.ID)` yields the places whose room id is that room's id |
| Stitching.AttachRooms | internal/app/store/postgres/lotrepository.go:133-147 | every listing of the page gets exactly the fetched rooms whose flat id is its id, in fetch order; nothing else changes |
| Stitching.AttachLivingPlaces | internal/app/store/postgres/lotrepository.go:231-248 | every room gets exactly the fetched living places whose room id is its id, in fetch order; nothing else changes |
| Placeholders.PlaceholderList | internal/app/store/postgres/lotrepository.go:218-221 | the list holds `n` placeholders |
| Placeholders.NextPlaceholder | internal/app/store/postgres/lotrepository.go:219-221 | each pass of the loop appends `, $i` to the list so far |
| Placeholders.LivingPlacesQuery | internal/app/store/postgres/lotrepository.go:218-222 | the loop yields `LivingPlacesText(n)`: the fixed select followed by `IN ($1, …, $n)` for `n` room ids, and by `IN ($1)` when there are none |
| Placeholders.OnePerPlaceholder | internal/app/store/postgres/lotrepository.go:220 | each placeholder holds exactly one `$` |
| Placeholders.PlaceholderCount | internal/app/store/postgres/lotrepository.go:218-222 | the list names `$1` to `$n` in order and holds exactly `n` parameter markers |
| Placeholders.AsWrittenMatchesArguments | internal/app/store/postgres/lotrepository.go:218-225 | the query's parameter count equals the number of room ids passed exactly when that number is positive |
| Placeholders.SelectNamesNoParameter | internal/app/store/postgres/lotrepository.go:218 | the fixed part of the living-places query names no parameter |
| Placeholders.QueryMatchesArguments | internal/app/store/postgres/lotrepository.go:218-225 | the query text names exactly as many parameters as room ids are bound if and only if at least one room id is passed; with none PostgreSQL refuses it |
| Pagination.NumPagesAsWritten | internal/app/store/postgres/lotrepository.go:82 | `count/limit + 1` is at least one and `(pages-1)*limit <= count < pages*limit` |
| Pagination.NumPages | internal/app/store/postgres/lotrepository.go:82 | the corrected count is the least number of pages of `limit` rows that holds every row |
| Pagination.AsWrittenOvercounts | internal/app/store/postgres/lotrepository.go:82 | for a count that is a multiple `k*limit` the query reports `k+1` pages |
| Pagination.ExactPages | internal/app/store/postgres/lotrepository.go:82 | the corrected count for `k*limit` rows is `k` |
| Pagination.AsWrittenAndLeast | internal/app/store/postgres/lotrepository.go:82 | the count as written exceeds the least page count by exactly one when the rows fill their pages and equals it otherwise |
| Pagination.SqlOffset | internal/app/store/postgres/lotrepository.go:96 | the offset `$1 * ($2 - 1)` is negative for a positive limit exactly below page 1 and for a negative limit exactly above it |
| Pagination.Page | internal/app/store/postgres/lotrepository.go:96 | a page never holds more than `limit` rows |
| Pagination.PagesUpToIsPrefix | internal/app/store/postgres/lotrepository.go:96 | the first `n` pages, concatenated, are the first `n*limit` rows |
| Pagination.PagesCoverRows | internal/app/store/postgres/lotrepository.go:82-96 | all the counted pages together are exactly the rows, in order |
| Pagination.PagesInRange | internal/app/store/postgres/lotrepository.go:82-96 | a page is non-empty exactly when its number is at most the corrected page count |
| Pagination.AsWrittenLastPageEmpty | internal/app/store/postgres/lotrepository.go:82-96 | for a multiple of the limit, the last page the query counts is empty |
| Pagination.RowPage | internal/app/store/postgres/lotrepository.go:96 | row `i` is on page `i/limit + 1` at position `i % limit` |
| SetClause.Rendered | internal/app/store/postgres/lotrepository.go:344-359 | a supported value never renders as an empty text |
| SetClause.ValueText | internal/app/store/postgres/lotrepository.go:344-359 | the type switch fails exactly on a value that is neither int, string, bool nor float, and otherwise yields its rendering |
| SetClause.Assignments | internal/app/store/postgres/lotrepository.go:343-362 | one assignment per visited key |
| SetClause.RenderSetClause | internal/app/store/postgres/lotrepository.go:343-363 | the loop and the slice after it yield the reference clause `SetClauseText`: the joined assignments, an out-of-range slice for an empty map, a failed assertion for an unsupported value |
| SetClause.SetClauseHasEveryField | internal/app/store/postgres/lotrepository.go:343-363 | every field of a rendered clause is supported and its `key = 'value'` assignment appears in the clause |
| SetClause.SetClauseSize | internal/app/store/postgres/lotrepository.go:343-362 | the clause has as many assignments as the map has fields |
| SetClause.SetClauseEndsWithQuote | internal/app/store/postgres/lotrepository.go:361-363 | a rendered clause ends with the closing quote and never with a dangling `, ` |
| SetClause.EmptyStringAssignment | internal/app/store/postgres/lotrepository.go:357-361 | an empty string renders as `key = '' ''` |
| SetClause.BoolRoundTrip | internal/app/store/postgres/lotrepository.go:349-350 | a rendered boolean parses back to the same boolean |
| SetClause.IntRenderingInjective | internal/app/store/postgres/lotrepository.go:345-346 | two integers with the same rendering are equal |
| SetClause.UpdateFlat | internal/app/store/postgres/lotrepository.go:324-374 | an empty map issues nothing; otherwise one `UPDATE flats SET … WHERE id = $1` with the listing's id; it fails exactly when a value is unsupported |
| SetClause.Promoted | internal/app/store/postgres/lotrepository.go:394 | the listing's map gains or overwrites `is_constructor` with false and keeps every other field |
| SetClause.RoomUpdatesAsWritten | internal/app/store/postgres/lotrepository.go:426-457 | the room loop as written succeeds exactly when every room has at least one field and only supported values, and then issues one statement per room; otherwise it fails on the slice or on the type assertion |
| SetClause.RoomStatementsBound | internal/app/store/postgres/lotrepository.go:453 | the i-th UPDATE of the room loop is bound to the i-th room's id |
| SetClause.RoomUpdates | internal/app/store/postgres/lotrepository.go:426-457 | the corrected loop succeeds exactly when every room's values are supported, and issues one statement per room with fields |
| SetClause.RoomUpdatesAgree | internal/app/store/postgres/lotrepository.go:426-457 | when every room has fields, the corrected loop and the loop as written give the same result |
| SetClause.AsWrittenEmptyRoomAborts | internal/app/store/postgres/lotrepository.go:449 | a request whose room has an empty map aborts at the slice as written, while the corrected loop issues the listing's update alone |
| SetClause.CreateAdPromotes | internal/app/store/postgres/lotrepository.go:390-457 | a successful CreateAd with fields issues the listing's update first, with the listing's id and `is_constructor = 'false'`, then one update per room, the i-th bound to the i-th room's id |
| SetClause.UpdateRooms | internal/app/store/postgres/lotrepository.go:426-457 | the room loop as written yields `RoomUpdatesAsWritten` |
| SetClause.CreateAd | internal/app/store/postgres/lotrepository.go:377-461 | the result is `CreateAdAsWritten` |
| SetClause.CreateAdAsWritten | internal/app/store/postgres/lotrepository.go:377-461 | CreateAd as written issues nothing for an empty listing map; otherwise it fails exactly when the promoted map holds an unsupported value or some room has no field or an unsupported value, and else issues one update for the listing and one per room |
| SetClause.CreateAdOutcome | internal/app/store/postgres/lotrepository.go:377-461 | CreateAd with empty rooms skipped fails exactly when the listing map is non-empty and the promoted map or some room holds an unsupported value, and else issues one update for the listing and one per room with fields |
| SetClause.CreateAdAgrees | internal/app/store/postgres/lotrepository.go:426-457 | when every room has fields, CreateAd as written and the corrected CreateAd give the same outcome |
| SetClause.RoomUpdatesFailFrom | internal/app/store/postgres/lotrepository.go:453-456 | the first failing room ends the loop: later rooms do not change the error |
| Repository.PlaceRowsOf | internal/app/store/postgres/lotrepository.go:306-312 | one stored row per living place, with its id and the room's id |
| Repository.RoomRowsOf | internal/app/store/postgres/lotrepository.go:292-301 | one stored row per room, with its id and the listing's id |
| Repository.RowsSnoc | internal/app/store/postgres/lotrepository.go:292-317 | one more room adds its own row, its id and its places' rows at the end of what the earlier rooms produced |
| Repository.NumberedAppend | internal/app/store/postgres/lotrepository.go:301 | consecutive id runs from one sequence join into one run |
| Repository.Database.InsertFlat | internal/app/store/postgres/lotrepository.go:275-290 | the listing's row is appended with the next flat id, and the defaults for price, visibility and type; nothing else changes |
| Repository.Database.InsertRoom | internal/app/store/postgres/lotrepository.go:293-304 | the room's row is appended under the given listing with the next room id; nothing else changes |
| Repository.Database.InsertPlace | internal/app/store/postgres/lotrepository.go:307-315 | the living place's row is appended under the given room with the next place id; nothing else changes |
| Repository.CreateRoom | internal/app/store/postgres/lotrepository.go:293-316 | the room gets the next room id and its places consecutive place ids, and the tables grow by exactly their rows |
| Repository.CreateRooms | internal/app/store/postgres/lotrepository.go:292-317 | the rooms get consecutive room ids and the places consecutive place ids in visiting order; the tables grow by exactly those rows; nothing but ids changes in the rooms |
| Repository.Create | internal/app/store/postgres/lotrepository.go:256-321 | the listing gets the next flat id and its given cell id; rooms and places are numbered consecutively; the three tables grow by exactly the new rows; the store stays consistent |
| Queries.Scanned | internal/app/store/postgres/lotrepository.go:90 | a scanned listing's Y coordinate is its longitude |
| Queries.ScanFlats | internal/app/store/postgres/lotrepository.go:105-118 | the scan loop collects each fetched listing and, for each, its id as decimal text, in fetch order |
| Queries.FlatsPage | internal/app/store/postgres/lotrepository.go:82-149 | the page fails exactly for a non-positive limit or a page below 1: with division by zero exactly for a zero limit, then with a negative OFFSET (checked before LIMIT) exactly when the offset is negative; a successful page reports the requested page number, holds at most `limit` listings and reports at least one page |
| Queries.GetFlats | internal/app/store/postgres/lotrepository.go:27-149 | the WHERE clause is the reference condition; a radius search over an empty cell union fails with a syntax error (`cell_id IN ()`), and otherwise the result is `FlatsPage`; the rooms query is issued exactly for a non-empty page and lists the page's ids |
| Queries.EveryMatchIsShown | internal/app/store/postgres/lotrepository.go:82-118 | every matching listing shows up on a page within the reported page count |
| Queries.PageCountAsWritten | internal/app/store/postgres/lotrepository.go:82-96 | every page that holds listings lies within the reported count, and a page within it is empty exactly when it is the last and the matching listings fill their pages |
| Queries.FirstMatch | internal/app/store/postgres/lotrepository.go:169-192 | the found row is stored and passes the id, visibility and type tests; nothing is found exactly when no row passes them |
| Queries.FlatAd | internal/app/store/postgres/lotrepository.go:152-253 | as written: the read fails exactly when no stored row passes the id, visibility and type tests (then with NotFound) or when the listing has no rooms (then with the argument mismatch of `IN ($1)`); a listing read back has the requested id and type, is visible unless the caller is the owner, and carries its rooms, each with its living places |
| Queries.FlatAdCorrected | internal/app/store/postgres/lotrepository.go:152-253 | with the living-places query skipped for a roomless listing, the read fails exactly when no stored row passes the id, visibility and type tests, and then with NotFound; a listing read back has the requested id and type and is visible unless the caller is the owner, and carries its rooms, each with its living places |
| Queries.AsWrittenLosesRoomlessLots | internal/app/store/postgres/lotrepository.go:218-229 | the read as written differs from the corrected one exactly for a found listing without rooms |
| Queries.ScanRooms | internal/app/store/postgres/lotrepository.go:205-216 | the scan loop collects each fetched room and its id, in fetch order |
| Queries.GetFlatAd | internal/app/store/postgres/lotrepository.go:152-253 | the result is `FlatAd`; the living-places query is sent exactly when a listing is found, and its text is `LivingPlacesText` for the number of the listing's rooms |
| Queries.FreshRowIsFound | internal/app/store/postgres/lotrepository.go:169-192 | a newly appended row with a fresh id that passes the tests is the row the read finds |
| Queries.PlaceRowsOfOtherRooms | internal/app/store/postgres/lotrepository.go:243-247 | a room id that none of the rooms has collects no living places |
| Queries.PlaceRowsGroup | internal/app/store/postgres/lotrepository.go:243-247 | among rooms with distinct ids, each room collects exactly its own places' rows |
| Queries.NumberedRoomsDistinct | internal/app/store/postgres/lotrepository.go:301 | consecutively numbered rooms have distinct ids |
| Queries.NewPlacesAreGrouped | internal/app/store/postgres/lotrepository.go:306-312 | after Create, each new room's living places are exactly the rows inserted for it |
| Queries.CorrectedReadsCreatedLot | internal/app/store/postgres/lotrepository.go:256-321 | with the corrected read, a listing just stored by Create is read back for its owner with its id, its rooms in order and each room's living places; its rooms query finds exactly the rows Create inserted |
| Queries.ReadBackRooms | internal/app/store/postgres/lotrepository.go:194-216 | the rooms read back keep the created rooms' ids and carry the listing's id |
| Queries.CreatedLotIsReadBack | internal/app/store/postgres/lotrepository.go:256-321 | a listing just stored by Create with rooms is read back by GetFlatAd (lines 152-253) for its owner with its id, its rooms in order and each room's living places; one stored without rooms cannot be read: the read fails with the argument mismatch |

## Left out

- Connections, transactions, commit and rollback, contexts and every database error other than those listed below are left out. The store is the `Database` class; a query's result rows are inputs to the operation.
- Database errors that are modelled: `cell_id IN ()` is a syntax error; a zero limit divides by zero in the page count; PostgreSQL then refuses a negative OFFSET before a negative LIMIT; a missing listing is NotFound. A placeholder with no argument bound to it is ArgumentCountMismatch: PostgreSQL rejects the living-places query, GetFlatAd returns the error and the deferred `rowsLivingPlaces.Close()` on the nil rows then panics; the model stops at the error. Any other failed query or scan is not modelled. SQLSTATE codes are not modelled.
- The WHERE condition of GetFlats is rendered, but its evaluation is not. The rows it selects come in as `matching`, in stored order. PostgreSQL guarantees no order without ORDER BY.
- Queries.EveryMatchIsShown and Queries.PageCountAsWritten: both take the COUNT query and every separate LIMIT/OFFSET query to see the matching rows in one stable order. PostgreSQL promises no such order without ORDER BY, so across page requests a listing may appear twice or not at all.
- The rooms query of GetFlats (`WHERE ID IN`, line 126) is rendered but not evaluated. Its result is an input. The model does not state which rooms PostgreSQL returns for it.
- `searchCellUnion` and the S2 cell of a new listing (lines 47 and 271-273) are inputs. S2 geometry is not modelled.
- Floating-point values: coordinates are `real`, used only for the `!= 0` test. A float field of a SET clause carries its already formatted `%f` text (lines 351-354).
- The other columns the repository only passes through are not modelled: metro data, floors, amenities, timestamps, descriptions, residents, deposits and the room extras (balcony, furniture, windows, and so on). So line 235, which scans the place's deposit column into its Description field, is not modelled either.
- SQL injection: keys and values are put into the SQL text unescaped, as in the source. The model makes no claim about quoting.
- `log.Println` of the queries (lines 366, 420 and 452) is left out.
- DeleteLot (lines 464-484) is a single DELETE statement with no in-memory logic and is not modelled.
- Repository.Create: lines 273 and 287 write the cell id and the new lot id into the caller's `*Lot`. The model returns the updated lot as a new value; aliasing of the caller's lot is not modelled.
- Repository.CreateRooms: the Go loop writes each new id into the caller's `*Lot` in place. The model returns the updated rooms as a new sequence instead. The values are the same; aliasing of the caller's lot is not modelled.
- SetClause.CreateAd: line 394 writes `is_constructor` into the caller's map. The model passes the promoted map on as a value, so that aliasing is not modelled.
- Queries.GetFlatAd: neither the rooms query nor the living-places query has an ORDER BY, so PostgreSQL does not promise an order. The model returns the rows in stored order, which is the order of insertion.
- Queries.CreatedLotIsReadBack: the rooms and places come back in the order Create inserted them only under that stored-order assumption.
- Repository.Create: the ids are taken as consecutive values of each serial sequence, that is, no other session inserts between Create's statements. Concurrent writers are not modelled.
- Integer widths are unbounded except for the cell-id conversion, where the 64-bit reinterpretation is written out.
- All the tests in lotrepository_test.go need a live database and are not modelled.

## Findings

| source | as written | input that shows it | evidently intended | confidence | as-written member | corrected member |
|---|---|---|---|---|---|---|
| internal/app/store/postgres/lotrepository.go:82 | `count(id)/$1 + 1` pages | 6 matching listings with limit 3 report 3 pages; page 3 is empty | the ceiling `(count + limit - 1)/limit` | not executed | Pagination.NumPagesAsWritten | Pagination.NumPages |
| internal/app/store/postgres/lotrepository.go:426-449 | every room of the request is rendered; an empty map leaves `data` empty and `data[0:len(data)-2]` panics | `{lot: {price: 100}, rooms: [{id: 7, fields: {}}]}` | skip a room with no fields, as the listing is skipped at lines 390-392 | not executed | SetClause.CreateAdAsWritten | SetClause.CreateAdOutcome |
| internal/app/store/postgres/lotrepository.go:218-225 | the query always contains `$1`, even when no room ids are passed | a listing without rooms: `IN ($1)` with zero arguments, so GetFlatAd fails and a roomless listing cannot be read | skip the living-places query when there are no rooms | not executed | Queries.FlatAd | Queries.FlatAdCorrected |

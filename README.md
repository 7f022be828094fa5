# Redis cache over MongoDB invoices: a Dafny model

The repository is a command-line exercise for a databases course. Invoices,
clients and products are loaded from CSV files into the MongoDB database
`db2`. A set of queries then reads them. Some queries keep a Redis cache in
step with the store:

- `clientes:names:<nombre><apellido>` holds a client's number;
- `clientes:<nro_cliente>` holds the JSON text of the client's record.

This project models the following parts of the repository:

- **The ingest step of `data.js`.** It turns CSV rows into documents. Lines
  join invoices by raw text and phones by parsed number. It also writes a
  client to Redis as hashes (`insertClientRedis`).
- **Every query of `queries.js`.**
  - The bulk load.
  - The two read-through lookups by name.
  - The aggregation pipelines, as pure functions over the collections.
  - The two views.
  - The client and product operations, with their cache maintenance.
- **The pure parts of `cruds.js`.**
  - The prompt validators.
  - The `nombre_completo` labels.
  - The pick-list mappers.
  - The `search` filter.

Modules follow the program:

| module | file | what it models |
|---|---|---|
| `Js` | `js.dfy` | The JavaScript behaviour the code relies on: `parseInt`, a number's text, `trim`, `toLowerCase`, `includes`, `===` on numbers. |
| `Seqs` | `seqs.dfy` | Sequence helpers: filter, map, first index, distinct keys, grouping sorted by key. |
| `Documents` | `documents.dfy` | The three document shapes. |
| `Cache` | `cache.dfy` | Everything about the cache: the key layout, replies and parsing, the `Redis` class, and the cache effect of each write. |
| `Ingest` | `data.dfy` | `generateFacturas`, `generateClientes`, `generateProductos`, `insertClientRedis`. |
| `Aggregations` | `aggregations.dfy` | The pipelines of `queries.js`, as functions. |
| `Queries` | `queries.dfy` | The `Mongo` class and each query, as a method against `Mongo` and `Redis`. |
| `Cruds` | `cruds.dfy` | Validators, labels, mappers and pick-list sources. |

## Key modelling choices

**Numbers.** A number from `parseInt` is `Int(i)` or `NaN`.

- MongoDB equality on numbers is value equality on that datatype, so NaN
  matches NaN.
- JavaScript's `===` is `StrictEquals`, under which NaN matches nothing.
- MongoDB orders NaN below every number.
- Storing a number in Redis stores its text. `Number(...)` of that text is
  modelled as the number itself, which is what `Js.ParseIntNumText` proves
  for `parseInt`.

**Invariant on name keys.** The lookups read a number out of a
`clientes:names:` key. Each lookup therefore requires
`Cache.NameSlotsHoldIds`: every key with that prefix holds a number. Every
writer in the model is proved to preserve it. An empty cache, as left by
`loadData`, satisfies it.

**Failed `JSON.parse` reads.**

- In `updateClient` and `deleteClient`, a failed read throws before any
  cache write. The exception is caught, so the cache stays as it was. The
  store update, which ran first, is kept.
- The model also follows a record read as a bare number. In that case the
  name key `clientes:names:undefinedundefined` is deleted.

**`getMaxClientNumber`** is modelled without its `catch`. Its `$sort`
descending with `$limit: 1` is the maximum under MongoDB's order.

## Model

| member | source | states |
|---|---|---|
| Js.TrimEmptyIff | src/cruds.js:8 | `value.trim()` is empty exactly when every character is ECMAScript white space |
| Js.ParseIntNumText | src/queries.js:300-301 | the text a number is cached as reads back as that number, so `Number(client)` of a cached number is the number |
| Js.NumTextInjective | src/queries.js:288 | different client numbers give different texts, so different record keys |
| Js.ParseIntDigits | src/data.js:13 | a non-empty string of decimal digits reads as its decimal value |
| Js.ParseIntLeadingZero | src/data.js:40-41 | `parseInt` reads a decimal digit string the same with a leading zero as without it, for every such string |
| Js.NumLessStrictTotalOrder | src/queries.js:641-651 | MongoDB's order on the numbers, with NaN lowest, is a strict total order, so a descending sort has a first element |
| Js.ToLower | src/cruds.js:107 | `toLowerCase` keeps the length and lowers each ASCII letter in place |
| Cache.GetReply | src/queries.js:71 | `GET` replies nil exactly for a missing key and fails exactly on a hash |
| Cache.HSetResult | src/data.js:93 | `HSET` fails exactly on a key holding a string; otherwise the hash holds the new fields, keeps the values of its other fields, has exactly the old and the new field names, and no other key changes |
| Cache.NameKeyIsNameSlot | src/queries.js:287 | a name key has the `clientes:names:` prefix |
| Cache.IdKeyNotNameSlot | src/queries.js:288 | a record key never has the `clientes:names:` prefix |
| Cache.PhoneKeyNotNameSlot | src/data.js:95 | a phone key never has the `clientes:names:` prefix |
| Cache.IdKeyInjective | src/queries.js:288 | equal record keys mean equal client numbers |
| Cache.NameKeyConcatenation | src/queries.js:287 | two name keys are equal exactly when the concatenated names are equal, so `ab`+`c` and `a`+`bc` share a key |
| Cache.PhoneKeyNotIdKey | src/data.js:84-95 | a phone key is never a record key |
| Cache.PhoneKeyInjective | src/data.js:95 | a phone key determines its client number and index |
| Cache.RecordedNameKey | src/queries.js:713-714 | the name key that `updateClient` and `deleteClient` delete is always a name slot |
| Cache.RecordedNameKeyCases | src/queries.js:679-680 | a cached record gives its own name key; the read fails exactly when the key is missing, holds a hash, or holds the text `NaN` |
| Cache.CachedResolves | src/queries.js:90-92 | after the two writes, `GET` of the name gives the number and parsing the record key gives the record; all other keys are unchanged and the invariant is kept |
| Cache.CachedAllRecords | src/queries.js:51-57 | after the loop, each number's record key holds the last client with that number |
| Cache.CachedAllNames | src/queries.js:51-57 | after the loop, each name key holds the number of the last client with that name |
| Cache.CachedAllFrame | src/queries.js:51-57 | the loop writes no keys but these, and keeps the invariant |
| Cache.CachedAllFullRecords | src/queries.js:51-57 | with distinct numbers, every client's full record is cached |
| Cache.CacheAfterUpdateSpec | src/queries.js:713-723 | a readable old record loses its name key; the new name resolves to the number and the number to the new record; nothing else changes; otherwise nothing changes |
| Cache.CacheAfterDeleteSpec | src/queries.js:679-681 | a readable old record loses exactly its name key and record key; otherwise nothing changes |
| Cache.Redis.Get | src/queries.js:71 | `GET` returns the reply for the current entries |
| Cache.Redis.Set | src/queries.js:91-92 | `SET` overwrites one key |
| Cache.Redis.Del | src/queries.js:680-681 | `DEL` removes one key |
| Cache.Redis.Exists | src/data.js:88 | `EXISTS` holds exactly for a present key |
| Cache.Redis.HSet | src/data.js:93 | `HSET` succeeds exactly when `HSetResult` does and stores its result |
| Cache.Redis.FlushAll | src/queries.js:17 | `FLUSHALL` empties the server |
| Ingest.GenerateFacturas | src/data.js:8-24 | one invoice per row, in order: the parsed invoice and client numbers, the date as written and the three amounts through `parseFloat` |
| Ingest.GenerateFacturasLines | src/data.js:9-23 | an invoice's lines are the mapped detail rows with the same raw `nro_factura` text; those rows, before mapping, are a subsequence of the detail file, all carry that text, and each row carrying it occurs as often as in the file, so they are exactly the matching rows in file order |
| Ingest.GenerateFacturasAppend | src/data.js:8 | generating the invoices commutes with splitting the rows |
| Ingest.LinesMatchAsText | src/data.js:9-11 | detail rows match by text, not by number: invoice `7` gets no line from a detail row `07` |
| Ingest.GenerateClientes | src/data.js:38-54 | one client per row, in order: the parsed number and `activo`, the name, surname and address as written, and a phone array |
| Ingest.GenerateClientesPhones | src/data.js:39-42 | a client's phones are exactly the mapped phone rows with the same parsed client number, under `===`; a NaN number gets no phones |
| Ingest.GenerateClientesPhonesOrder | src/data.js:39-54 | a client's phones are the mapped phone rows whose parsed `nro_cliente` is `===` the client's; those rows, before mapping, are a subsequence of the phone file, all match, and each matching row occurs as often as in the file, so they are exactly the matching rows in file order |
| Ingest.PhonesMatchAsNumbers | src/data.js:39-42 | a phone row whose parsed number equals the client's is kept, whatever their texts |
| Ingest.JoinsOnLeadingZero | src/data.js:9-11 | the two joins disagree on leading zeros: a detail row `0`+`s` is no line of invoice `s`, although both parse alike, while a phone row `0`+`s` is a phone of client `s` (also lines 39-42) |
| Ingest.GenerateClientesAppend | src/data.js:38 | generating the clients commutes with splitting the rows |
| Ingest.GenerateProductos | src/data.js:67-74 | one product per row, in order: the parsed code and stock, the brand, name and description as written, and the price through `parseFloat` |
| Ingest.GenerateProductosAppend | src/data.js:67 | generating the products commutes with splitting the rows |
| Ingest.WritePhonesFrame | src/data.js:94-97 | the phone loop touches only its own keys and never a string key, and keeps the invariant |
| Ingest.PhoneKeysDistinct | src/data.js:95 | different indexes give different phone keys |
| Ingest.WritePhonesOk | src/data.js:94-97 | the phone loop completes exactly when no phone key holds a string |
| Ingest.WritePhonesStores | src/data.js:94-97 | once the loop completes, each phone's hash holds that phone's fields |
| Ingest.WritePhonesStopsAtFailure | src/data.js:94-97 | a phone key holding a string stops the loop; later phones are not written |
| Ingest.InsertClientRedis | src/data.js:82-99 | the method's writes are exactly `InsertClientEffect`, and it completes exactly when the effect does |
| Ingest.WritePhonesTail | src/data.js:94-97 | once the loop has failed, the remaining phones change nothing |
| Ingest.InsertClientSetsLegacyKey | src/data.js:83-86 | `clientes:<nombre><apellido>` ends up holding the number |
| Ingest.InsertClientExisting | src/data.js:88 | with the record key present, only the name key is written |
| Ingest.InsertClientFresh | src/data.js:88-97 | with the record key absent, the record key becomes the hash of the fields without `telefonos`; it completes exactly when phones exist and no phone key is taken by a string; on success each phone's hash holds its fields |
| Ingest.InsertClientFrame | src/data.js:82-99 | no keys outside the client's own are written, and the invariant is kept |
| Aggregations.PhonesAndClientDataSpec | src/queries.js:114-131 | `$unwind` gives one row per phone of each client: their number is the total phone count, and the rows are exactly client and phone pairs |
| Aggregations.BillsOfEmpty | src/queries.js:154-163 | the `$lookup` array is empty exactly when no invoice has the client's number |
| Aggregations.ClientsPartition | src/queries.js:151-217 | the clients with bills and the clients without bills split the clients in two; a client is listed in one exactly when it has an invoice, in the other exactly when it has none |
| Aggregations.BillsOfCount | src/queries.js:239-252 | the looked-up array's size is the number of invoices carrying the number |
| Aggregations.ClientsWithBillsCountSpec | src/queries.js:236-256 | one row per client, whose count is its number of invoices, 0 when it has none |
| Aggregations.GroupTotalIsMultiple | src/queries.js:454-471 | a group's `$sum` is the client's spending once for each client document with that key |
| Aggregations.SpentWithoutBills | src/queries.js:455-468 | a client without invoices spends 0, because `preserveNullAndEmptyArrays` keeps it and `$sum` of a missing field is 0 |
| Aggregations.ClientsWithTotalSpentCovers | src/queries.js:444-481 | every client appears with its spending times the size of its group |
| Aggregations.ClientsWithTotalSpentZero | src/queries.js:455-468 | a client without invoices appears with total 0 |
| Aggregations.ClientsWithTotalSpentLines | src/queries.js:461-479 | one row per distinct group key, each naming some client |
| Aggregations.LineProductRowsMembership | src/queries.js:325-337 | the joined rows of one invoice are exactly the products whose code is on one of its lines |
| Aggregations.BilledProductRowsMembership | src/queries.js:321-337 | the joined rows of all invoices are exactly the products billed in some invoice |
| Aggregations.ProductsWithBillsSpec | src/queries.js:319-359 | codes are strictly ascending; a code appears exactly when it is billed and some product has it; every row summarises a product |
| Aggregations.IpsumLineRowsMembership | src/queries.js:384-396 | one invoice yields its summary exactly when one of its lines joins a brand containing `ipsum`, ignoring case |
| Aggregations.IpsumRowsMembership | src/queries.js:381-396 | the matched rows are the summaries of exactly the invoices with such a line |
| Aggregations.BillsWithIpsumProductsSpec | src/queries.js:378-425 | invoice numbers are strictly ascending; a number appears exactly when an invoice with it has such a line; every row summarises such an invoice |
| Aggregations.StringLeTotal | src/queries.js:510 | the order on dates is total |
| Aggregations.StringLeTransitive | src/queries.js:510 | the order on dates is transitive |
| Aggregations.InsertByDate | src/queries.js:510 | inserting into a date-sorted list keeps it sorted and adds exactly the element |
| Aggregations.SortByDate | src/queries.js:510 | the result is sorted by date and is a permutation of the input |
| Aggregations.BillsOrderedByDate | src/queries.js:509-522 | the view lists every invoice's summary exactly once, sorted by date |
| Aggregations.ProductsNotBilledSpec | src/queries.js:556-581 | a product is listed exactly when it is absent from the billed products; the unbilled and the billed products split the products in two |
| Queries.Mongo.DropDatabase | src/queries.js:16 | `dropDatabase` empties every collection and removes the views |
| Queries.InsertMany | src/queries.js:30 | `insertMany` throws exactly on an empty batch; otherwise the documents are appended after the existing ones |
| Queries.LoadData | src/queries.js:10-37 | after the load the cache is empty and there are no views; the invoices are the generated ones; clients and products are inserted only if every earlier file was non-empty; the load completes exactly when all three files are non-empty |
| Queries.ClientAndCellphones | src/queries.js:40-64 | returns every client, and leaves the cache as `CachedAll` of the clients in order |
| Queries.ReadThroughHit | src/queries.js:71-73 | a cache hit changes nothing and the store does not affect the result |
| Queries.ReadThroughMiss | src/queries.js:73-96 | a miss shows the first matching client's full record after caching it; a miss with no match shows nothing and writes nothing |
| Queries.ReadThroughThenHit | src/queries.js:71-100 | after a miss that found the client, the next lookup is a hit giving the same result |
| Queries.ReadThroughKeepsNameSlots | src/queries.js:91 | lookups keep the invariant |
| Queries.ProbeName | src/queries.js:71-92 | the shared first half of a lookup ends in one of three cases (hit, miss with the first match cached, miss with no match), each with its exact cache state |
| Queries.FindJacobCooper | src/queries.js:67-105 | the result and the new cache are exactly `ReadThrough` for Jacob Cooper |
| Queries.BillsByNameMissThrows | src/queries.js:276-293 | as written, every miss that finds the client caches it and then throws instead of listing invoices |
| Queries.BillsByNameReadThrough | src/queries.js:276-302 | corrected, a miss lists the found client's invoices and caches the client, so the next call is a hit listing the same invoices; on a hit both versions agree |
| Queries.FindKaiBullockBills | src/queries.js:268-309 | the result and the new cache are exactly the as-written `BillsByNameAsWritten` |
| Queries.FindKaiBullockBillsFixed | src/queries.js:268-309 | the result and the new cache are exactly the corrected `BillsByName` |
| Queries.BillsOrderedByDateView | src/queries.js:493-537 | the view exists afterwards, whether or not it existed before; no collection changes; the result is the sorted view |
| Queries.ProductsNotBilledView | src/queries.js:540-596 | the view exists afterwards; no collection changes; the result is the unbilled products |
| Queries.MaxClientNumber | src/queries.js:641-657 | 0 for no clients; otherwise some client's number that no client's number exceeds |
| Queries.NewClientNumber | src/queries.js:605 | the new number is 1 for the first client; it is fresh and above all others once any number is a number; it is NaN when all numbers are NaN |
| Queries.NewRecord | src/queries.js:607-613 | the record written has no phones |
| Queries.CreateClient | src/queries.js:599-632 | one client is appended with the next number; the cache gets its name and record keys exactly as after a lookup |
| Queries.UpdatedClientes | src/queries.js:698-708 | the first client with the number gets the new fields and keeps its number and phones; every other client is unchanged; with no match nothing changes |
| Queries.UpdateClient | src/queries.js:691-731 | the store becomes `UpdatedClientes` and the cache `CacheAfterUpdate` of a record without phones |
| Queries.RemovedClientes | src/queries.js:673-675 | exactly the first client with the number is removed, the others keeping their order; with no match nothing changes |
| Queries.DeleteClient | src/queries.js:666-689 | the store becomes `RemovedClientes` and the cache `CacheAfterDelete` |
| Queries.NumberedInOrderKept | src/queries.js:741-744 | while the codes are 1, 2, … in order, count plus one is a fresh code and creating a product keeps that numbering |
| Queries.NextProductCodeCollides | src/queries.js:741-744 | once the codes have a gap, count plus one can collide: with one product coded 2, the next code is 2 again |
| Queries.CreateProduct | src/queries.js:734-759 | one product is appended with code count plus one |
| Queries.UpdatedProductos | src/queries.js:768-779 | the first product with the code gets the new fields and keeps its code; every other product is unchanged; with no match nothing changes |
| Queries.UpdateProduct | src/queries.js:761-788 | the store becomes `UpdatedProductos`; the other collections are unchanged |
| Cruds.ValidateIff | src/cruds.js:8 | a text prompt accepts a value exactly when some character is not white space (the same lambda at lines 14, 20, 40, 46, 52) |
| Cruds.ClientLabel | src/cruds.js:92 | a client's label is its first name, one space, and its last name (also line 127) |
| Cruds.ProductLabel | src/cruds.js:167 | a product's label is its brand, ` (`, its name, and `)` |
| Cruds.ClientLabelDeterminesNames | src/cruds.js:92 | when first names have no space, equal client labels mean equal first and last names |
| Cruds.ProductLabelDeterminesNames | src/cruds.js:167 | when brands have no `(`, equal product labels mean equal brands and names |
| Cruds.LabelClients | src/cruds.js:91-93 | every client is kept, in order, with its label |
| Cruds.LabelProducts | src/cruds.js:166-168 | every product is kept, in order, with its label |
| Cruds.ClientPickList | src/cruds.js:89-110 | with nothing typed, choice `i` shows client `i`'s `nombre apellido`, returns that client and is described by its address; with text typed, exactly the clients whose full name contains it, ignoring case, are offered, each shown the same way (also lines 124-145) |
| Cruds.ProductPickList | src/cruds.js:164-182 | with nothing typed, choice `i` shows product `i` as `marca (nombre)`, returns that product and is described by its description; with text typed, exactly the products whose label contains it, ignoring case, are offered, each shown the same way |
| Cruds.SourceEmptyInput | src/cruds.js:104 | with nothing typed, every entry is shown, in order (also lines 139, 178) |
| Cruds.SourceFiltered | src/cruds.js:105-109 | with text typed, the list is the mapped entries whose label contains it, ignoring case; those entries are a subsequence of the list, all match, and each matching entry occurs as often as in the list, so they are exactly the matching entries in their order (also lines 140-144, 179-181) |
| Cruds.SourceEmptyAgrees | src/cruds.js:104-109 | the empty-input branch shows what the filter would show |
| Cruds.SourceIgnoresCase | src/cruds.js:107 | typing in upper or lower case shows the same list |

## Left out

- Connections, `close`/`quit`, `console.log` output, `async` scheduling, and races between concurrent runs. Each query is one atomic sequential step.
- Reading the CSV files (`loadCSVData` in `src/utils.js`). The rows are parameters. An absent column (`undefined`) is not modelled: every column is a string.
- `parseFloat`. It is a parameter of the ingest functions, and amounts are integers. Floating-point sums in `$sum` are integer sums.
- Every ingest function's `catch`, which logs and returns `undefined`. `insertMany(undefined)` would then fail. Driver and server failure modes in general, apart from the empty batch that `Queries.InsertMany` models, and argument-type errors of the Redis client, are left out too.
- `activo`, `precio` and `stock` are typed values in the model. The prompts pass text to `createClient`, `updateClient`, `createProduct` and `updateProduct`.
- Queries.MaxClientNumber: does not model the `catch` of `getMaxClientNumber`. It returns `undefined` on a failure, which makes the new number NaN.
- The order of `$group` output and of ties in `$sort`. MongoDB does not fix either. The model picks distinct-key order for `clientsWithTotalSpent` and key order for the grouped queries. Among equal dates it puts the invoices in reverse input order.
- `$regex` beyond a literal search text with option `i`. Case folding covers the ASCII letters only. There is no Unicode normalisation.
- `JSON.stringify`/`JSON.parse` are modelled as an exact round trip of a client record. The model does not produce the JSON text itself.
- `!input` in the pick-list sources for an undefined input. Only the empty string is modelled.
- The `isNaN` validators (`src/cruds.js:58`, `64`), which depend on JavaScript's coercion of text to numbers.
- The prompts, and `queries.getAllClientsByName` and `queries.getAllProductsByName`. Those two are not defined in `src/queries.js`, so the pick-list functions take the entries as a parameter.
- `src/index.js`, `index.ts` and `src/utils.js` are not part of this model. `src/index.js` is an early draft of the first two queries that caches clients as `clients:<nro>` hashes; `index.ts`, at the repository root, is a connection sample; `src/utils.js` holds `setDbClients`, which opens the two connections, and the CSV reader `loadCSVData`.
- JavaScript numbers are doubles; the model's numbers are unbounded integers. Numbers are taken to stay below 2^53, where `parseInt` is exact and `===` tells numbers apart, and below 10^21, where `String(n)` writes plain digits, so `clientes:<nro>` and the phone keys are as modelled.
- The `Redis` and `Mongo` constructors build an empty store for the model's own use. The code connects to servers that already exist, so the constructors model no source line.
- Cache.NameSlotsHoldIds: the lookups require it. It holds after `loadData` and is kept by every writer. A cache written by other programs is not modelled.

## Findings

| source | as written | input that shows it | evidently intended | confidence | as-written member | corrected member |
|---|---|---|---|---|---|---|
| src/queries.js:293 | `client = clientID` assigns to the `const` declared at line 276, which throws a TypeError after both cache keys are written | an empty cache and a store holding one client named Kai Bullock | the miss path lists that client's invoices | not executed | Queries.BillsByNameMissThrows | Queries.BillsByNameReadThrough |

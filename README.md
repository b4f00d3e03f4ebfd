# Advertisement board: item store, list page and advertisement types

This project is a Dafny model of the logic of a small advertisement board.
It has three parts:

- **The server's in-memory item store** (`server/app.js`). An array of JSON
  records is seeded with ten advertisements, ids 1 to 10. An id counter
  starts at 0. Five handlers act on the array:
  - create (`POST /items`) validates the body and appends a record;
  - list (`GET /items`) returns the array;
  - get (`GET /items/:id`) returns the first record whose `id` is the
    number parsed from the path;
  - update (`PUT /items/:id`) merges the body into that record with
    `Object.assign`;
  - delete (`DELETE /items/:id`) removes that record with `splice`.
- **The list page's computation** (`client/src/pages/AdvertisementList.tsx`).
  It filters the fetched advertisements by a case-insensitive name search
  and a category (with an `'all'` wildcard). It then cuts out page `page`
  of `ITEMS_PER_PAGE` = 5 items and counts the pages as `ceil(n / 5)`.
- **The client's advertisement types** (`client/src/types/advertisement.ts`).
  There are three variants keyed by the `type` discriminant; some fields
  are optional.

Modules and files:

- `wrappers.dfy`: `Option`.
- `js_value.dfy` (`JsValue`): JSON values, JavaScript truthiness, and
  records as `map<string, JsVal>`.
- `js_builtins.dfy` (`JsBuiltins`): the JavaScript built-ins the code
  relies on:
  - `parseInt(s, 10)`;
  - decimal rendering of integers;
  - `toLowerCase`;
  - `includes`;
  - `slice`;
  - `filter`.
- `advertisement.dfy` (`Advertisement`): the union type, its JSON encoding,
  and the decoding that says when an object is an `Advertisement`.
- `item_store.dfy` (`ItemStore`):
  - the validation of `POST /items` and the record it builds;
  - the first-match lookup, the merge and the removal;
  - the seed data;
  - the `Counter` class and the `Store` class with one method per handler.
- `store_sessions.dfy` (`StoreSessions`): two requests in a row against a
  store in any valid state.
- `advertisement_list.dfy` (`AdvertisementList`): filtering, both of typed
  advertisements and of the objects the server sends, and pagination of
  any listing, proved for both kinds.

The store is imperative, as in the source. `Store.items` is a `seq` field
that the handler methods reassign. `Counter.count` is a field that `Next`
increments. Each method's contract states the whole new state. A ghost
field `issued` records the ids handed out. The invariant `Valid()` says that
they strictly increase and stay below the counter. The list page and the
types are pure and are modelled as functions and datatypes.

One might expect ids to be unique and a created record to be readable by
its id. In the code neither holds, and the model follows the code:

- the counter starts at 0, so the second to eleventh creates, with ids 1
  to 10, get the same ids as the seed records;
- a body that carries its own `id` overrides the counter's value, because
  `...rest` is spread after `id`;
- `find` returns the first match, so a seed record shadows a later record
  with the same id for get, update and delete.

These behaviours are stated by the following members:

- `ItemStore.BuildItem`: the stored record is `{id} + body`, so a body `id`
  wins.
- `ItemStore.SeedShadows` and `ItemStore.CreatedIsFound`: the first match
  shadows later ones.
- `StoreSessions.CreateThenGet`: for a body without its own `id`, a get of
  the new id returns an earlier record with that id if there is one.

## Model

| member | source | states |
|---|---|---|
| JsValue.Truthy | server/app.js:124 | the values `!x` rejects: the empty string, 0, false, null and undefined; specified through ItemStore.ValidateSpec and the *FieldsTruthy lemmas |
| JsValue.Get | server/app.js:121 | reading a missing property gives `undefined`; a present one gives its value |
| JsBuiltins.ParseInt | server/app.js:174 | NaN exactly when no digit follows the leading white space and optional sign |
| JsBuiltins.ParseIntOfDecimal | server/app.js:174 | the decimal text of any integer parses back to that integer, whatever non-digit text follows it |
| JsBuiltins.ParseIntOfDecimalString | server/app.js:174 | the path `${n}` parses back to `n` |
| JsBuiltins.ParseIntNoDigits | server/app.js:174 | a path with no digit after white space and sign parses to NaN |
| JsBuiltins.DecimalString | server/app.js:174 | `String(n)`: the digits of the number, after a minus sign when negative; ParseIntOfDecimalString is its inverse |
| JsBuiltins.DigitsValueOfNatToDigits | server/app.js:174 | reading a rendered natural number's digits gives the number back |
| JsBuiltins.ToLower | client/src/pages/AdvertisementList.tsx:36 | same length, no upper-case letter remains, other characters unchanged |
| JsBuiltins.LowerCaseLetters | client/src/pages/AdvertisementList.tsx:36 | each modelled capital becomes the small letter at the same place of its alphabet: A-Z to a-z, А-Я to а-я, Ѐ-Џ to ѐ-џ |
| JsBuiltins.LowerCaseExamples | client/src/pages/AdvertisementList.tsx:36 | a Latin and a Cyrillic name lower-case as expected |
| JsBuiltins.ToLowerIdempotent | client/src/pages/AdvertisementList.tsx:36 | lower-casing twice is lower-casing once |
| JsBuiltins.Includes | client/src/pages/AdvertisementList.tsx:36 | `s.includes(t)` exactly when `t` occurs in `s` at some position |
| JsBuiltins.Slice | client/src/pages/AdvertisementList.tsx:41-44 | for non-negative ordered bounds, the run between them clamped to the length; never longer than the input |
| JsBuiltins.Filter | client/src/pages/AdvertisementList.tsx:35-39 | every element kept satisfies the test and comes from the input; every input element that satisfies it is kept |
| JsBuiltins.FilterConcat | client/src/pages/AdvertisementList.tsx:35 | filtering distributes over concatenation |
| JsBuiltins.FilterIndices | client/src/pages/AdvertisementList.tsx:35 | the result is the input read at strictly increasing positions, exactly those whose element passes |
| Advertisement.Label | client/src/types/advertisement.ts:1 | the literal of each category; FromLabel is its inverse |
| Advertisement.TypeOf | client/src/types/advertisement.ts:17-32 | the discriminant each variant fixes: real estate, auto, services; ToRecord puts it under `type` |
| Advertisement.FromLabel | client/src/types/advertisement.ts:1 | a string names a category exactly when it is one of the three literals, and then names only that one |
| Advertisement.VariantRecord | client/src/types/advertisement.ts:12-34 | a variant's own properties never clash with the shared ones |
| Advertisement.ToRecord | client/src/types/advertisement.ts:3-36 | the JSON object carries the variant's discriminant and its name |
| Advertisement.FromRecord | client/src/types/advertisement.ts:3-36 | an object decoded as an advertisement has the `type` of the chosen variant and its `name`; FromRecordAgrees ties every other field to the object |
| Advertisement.FromRecordAgrees | client/src/types/advertisement.ts:3-36 | an object decoded as an advertisement holds that advertisement's JSON object property for property, besides any extra properties |
| Advertisement.FromToRecord | client/src/types/advertisement.ts:36 | every advertisement decodes from its own JSON object to itself |
| Advertisement.ReadBaseOfBaseRecord | client/src/types/advertisement.ts:3-10 | the shared fields decode back from their encoding, optional ones included |
| Advertisement.NumericIdIsNotAdvertisement | client/src/types/advertisement.ts:5 | an object whose `id` is a number, as the server assigns it, is not an `Advertisement` |
| Advertisement.MileageIsOptional | client/src/types/advertisement.ts:22 | an automotive advertisement without `mileage` is valid and its object has no `mileage` |
| ItemStore.ItemTypesAreLabels | server/app.js:5-9 | the server's category names are the client's three literals |
| ItemStore.ErrorMessage | server/app.js:125-151 | the `error` text of each rejection; ErrorMessagesDistinct shows the texts are pairwise different |
| ItemStore.ErrorMessagesDistinct | server/app.js:124-151 | the five rejections carry five different error texts |
| ItemStore.Validate | server/app.js:121-152 | the handler's checks in their order; specified by ValidateSpec |
| ItemStore.ValidateSpec | server/app.js:121-152 | rejected for common fields exactly when one of them is falsy; accepted as a category exactly when those and the category's fields are truthy; rejected for the category otherwise; invalid type exactly when `type` names no category |
| ItemStore.ValidateCategory | server/app.js:128-149 | with truthy common fields and a known `type`, accepted exactly when that category's fields are all truthy |
| ItemStore.ValidateInvalidType | server/app.js:150-151 | truthy common fields and an unknown `type` give "Invalid type" |
| ItemStore.ZeroMileageRejected | server/app.js:137 | an automotive body with `mileage: 0` is rejected for its category |
| ItemStore.NoDescriptionRejected | server/app.js:124 | a body without `description` is rejected for common fields |
| ItemStore.ValidateAdvertisement | server/app.js:121-152 | a client advertisement is accepted exactly when its checked strings are non-empty and numbers non-zero, an automotive one needing a non-zero mileage |
| ItemStore.ValidateAdvertisementBase | server/app.js:124 | an encoded advertisement passes the common check exactly when name, description and location are non-empty |
| ItemStore.RealEstateFieldsTruthy | server/app.js:130 | the real-estate fields of an encoded advertisement are truthy exactly when its type, area, rooms and price are non-empty or non-zero |
| ItemStore.AutomotiveFieldsTruthy | server/app.js:137 | an encoded car passes exactly when brand and model are non-empty, year non-zero and mileage present and non-zero |
| ItemStore.ServicesFieldsTruthy | server/app.js:144 | an encoded service passes exactly when its type is non-empty and experience and cost non-zero |
| ItemStore.AcceptedHasCommonFields | server/app.js:124 | an accepted body has the four common properties |
| ItemStore.BuildItem | server/app.js:154-161 | the stored record has the body's keys plus `id`, every body property verbatim, and the counter's id unless the body has its own |
| ItemStore.BuiltItemIsNotAdvertisement | server/app.js:154-161 | a record created from a body without `id` has a numeric `id` and so is not a client `Advertisement` |
| ItemStore.BuiltItemWithStringId | server/app.js:154-161 | a body that is an advertisement's object with a string `id` keeps that `id`, so the stored record decodes to that advertisement |
| ItemStore.HasId | server/app.js:174 | `i.id === parseInt(..)`: the record's `id` is the parsed number, and NaN matches nothing; used by the FindFirst contract |
| ItemStore.FindFirst | server/app.js:174 | the index of a record with the id, with no earlier match; none when no record matches |
| ItemStore.NoDigitsNeverMatches | server/app.js:174 | a path without leading digits finds no record |
| ItemStore.FindFirstIsFirst | server/app.js:195 | a matching position with no earlier match is the one `findIndex` returns |
| ItemStore.FindFirstConcat | server/app.js:174 | in a concatenation the first part's match wins, else the second part's shifted past it |
| ItemStore.CreatedIsFound | server/app.js:163-174 | an appended record is found by its id exactly when no earlier record has that id |
| ItemStore.Merge | server/app.js:186 | the body's properties override, the record's others stay, and no key is added beyond both |
| ItemStore.FindFirstAfterMerge | server/app.js:184-186 | a merge without `id` leaves the record found at the same place |
| ItemStore.RemoveAt | server/app.js:197 | one shorter, the records before the index unchanged, those after it moved up by one |
| ItemStore.RemoveOnlyMatch | server/app.js:195-197 | deleting the only record with an id leaves none, so a second delete finds nothing |
| ItemStore.FindFirstAfterRemove | server/app.js:195-197 | after removing the first match, the next record with that id is found, if there is one |
| ItemStore.Seed | server/app.js:16-110 | the ten seed records, property for property; specified by SeedIds, SeedLookup and the seed validation lemmas |
| ItemStore.SeedIds | server/app.js:16-110 | ten seed records with ids 1 to 10 in order |
| ItemStore.SeedAreNotAdvertisements | server/app.js:16-110 | no seed record is a client `Advertisement`, because each `id` is a number |
| ItemStore.SeedLookup | server/app.js:16-110 | in the seed, id n is found at position n-1 for n in 1..10 and nowhere else |
| ItemStore.SeedShadows | server/app.js:16-110 | whatever is appended, ids 1..10 find the seed record |
| ItemStore.AbsentFromBoth | server/app.js:174 | no match in either part means no match in their concatenation |
| ItemStore.AbsentAfterSeed | server/app.js:16-110 | an id outside 1..10 that no appended record carries is not found |
| ItemStore.SeedFlatAccepted | server/app.js:17-27 | seed record 1 would pass validation as real estate |
| ItemStore.SeedHouseAccepted | server/app.js:82-91 | seed record 8 would pass validation as real estate |
| ItemStore.SeedServicesRejected | server/app.js:53-63 | seed record 5 fails the services check |
| ItemStore.SeedMissingCommon | server/app.js:16-110 | the seven other seed records would fail the common check |
| ItemStore.StatusCode | server/app.js:125-200 | the status of each response: 201, 400, 200, 200, 204, 404; specified by StatusClasses |
| ItemStore.StatusClasses | server/app.js:120-202 | success gives 2xx; a rejected body gives 400; a missing record gives 404 |
| ItemStore.Counter.constructor | server/app.js:113 | the count starts at 0 |
| ItemStore.Counter.Next | server/app.js:114 | returns the count, then increases it by one |
| ItemStore.Store.constructor | server/app.js:16-117 | the seed records, count 0, no ids issued |
| ItemStore.Store.Create | server/app.js:120-165 | a rejected body gives its error and changes nothing; an accepted one appends exactly the built record with the next id and increases the count; issued ids keep rising |
| ItemStore.Store.List | server/app.js:168-170 | the whole array |
| ItemStore.Store.GetById | server/app.js:173-180 | the first record with the parsed id, else not found |
| ItemStore.Store.Update | server/app.js:183-191 | the first match replaced by its merge with the body and returned, all else unchanged; not found changes nothing |
| ItemStore.Store.Delete | server/app.js:194-202 | the first match removed; not found changes nothing; the counter is untouched |
| ItemStore.CarBodyAccepted | server/app.js:136-142 | a complete car body without `id` is accepted as Auto |
| StoreSessions.LookupAfterAppend | server/app.js:174 | the path of an appended record's id finds an earlier record with that id, or else the appended one |
| StoreSessions.CreateThenGet | server/app.js:120-180 | a create followed by a get of the new id returns an earlier record with that id if there is one, else the created record |
| StoreSessions.UpdateThenGet | server/app.js:183-191 | after an update without `id` the same path returns the merged record |
| StoreSessions.LookupAfterRemove | server/app.js:195-197 | after the first match is removed, the path finds the next record with that id, or nothing |
| StoreSessions.DeleteThenGet | server/app.js:194-202 | after a delete the same path finds the next record with that id, or nothing |
| AdvertisementList.FilterAds | client/src/pages/AdvertisementList.tsx:35-39 | `filteredAds`; specified by FilterAdsSpec |
| AdvertisementList.FilterAdsSpec | client/src/pages/AdvertisementList.tsx:35-39 | an advertisement is listed exactly when its lower-cased name contains the lower-cased search and the category is `'all'` or its own; the listing keeps the input's order |
| AdvertisementList.FilterRecords | client/src/pages/AdvertisementList.tsx:35-39 | `filteredAds` over the objects the server sends, reading only `name` and `type`; specified by FilterRecordsSpec |
| AdvertisementList.FilterRecordsSpec | client/src/pages/AdvertisementList.tsx:35-39 | the filter throws exactly when some object's `name` is not a string; otherwise an object is listed exactly when its lower-cased name contains the lower-cased search and the category is `'all'` or its `type` literal, in the input's order |
| AdvertisementList.KeepRecordOfAdvertisement | client/src/pages/AdvertisementList.tsx:36-38 | an advertisement and its JSON object pass the page's test alike |
| AdvertisementList.FilterRecordsOfAdvertisements | client/src/pages/AdvertisementList.tsx:35-39 | on the objects of typed advertisements the filter does not throw and lists the objects of exactly the advertisements FilterAds lists |
| AdvertisementList.FilterAdsConcat | client/src/pages/AdvertisementList.tsx:35 | filtering two runs one after another gives their listings one after another |
| AdvertisementList.EmptySearchKeepsAll | client/src/pages/AdvertisementList.tsx:36-37 | an empty search with `'all'` lists every typed advertisement |
| AdvertisementList.EmptySearchKeepsAllRecords | client/src/pages/AdvertisementList.tsx:35-38 | an empty search with `'all'` lists every object of a list whose names are all strings, and does not throw |
| AdvertisementList.PageCount | client/src/pages/AdvertisementList.tsx:46 | enough pages for n items, and one fewer would not suffice |
| AdvertisementList.PageCountLeast | client/src/pages/AdvertisementList.tsx:46 | no smaller page count holds n items; 0 items give 0 pages |
| AdvertisementList.Page | client/src/pages/AdvertisementList.tsx:41-44 | `paginatedAds` of any listing, typed or of records; specified by PageIsRun |
| AdvertisementList.PageIsRun | client/src/pages/AdvertisementList.tsx:41-44 | page p is the run of the listing from (p-1)*5 to p*5, at most 5 items, and empty beyond the page count |
| AdvertisementList.PagesArePrefix | client/src/pages/AdvertisementList.tsx:41-44 | pages 1..k together are the first 5k items |
| AdvertisementList.PagesCoverAll | client/src/pages/AdvertisementList.tsx:41-46 | pages 1..pageCount together are exactly the listing |
| AdvertisementList.PagesCoverAllRecords | client/src/pages/AdvertisementList.tsx:35-46 | for the listing of the server's objects, every page holds at most 5, pages beyond the page count are empty, and pages 1..pageCount together are exactly the listing |

## Left out

- The express wiring is not modelled: the app, `cors`, `bodyParser`, `res.status/json/send` and `app.listen`. The create, get, update and delete handlers return a `Response` value, and its status is `StatusCode`. The list handler returns the array itself.
- JavaScript numbers are modelled as integers. Floats, NaN as a value, `-0` and the precision limits of `parseInt` are left out. Truthiness of a number means non-zero.
- The contents of arrays and nested objects held as property values: no handler looks inside them, so the model carries them verbatim and states nothing about them. `Object.assign` merges only the top level, as Merge does.
- JsBuiltins.ToLower: covers Basic Latin and the capitals of the basic Cyrillic block, U+0400–U+042F, only, because full Unicode case mapping is library data the model does not carry.
- The order of keys in JSON objects is not modelled, because records are maps.
- `Object.assign` on `__proto__` and other special keys is not modelled. Merge is plain right-biased map union.
- ItemStore.BuildItem: requires the four common properties to be present. The handler only builds a record after validation has made them truthy.
- AdvertisementList.FilterAds: filters typed `Advertisement` values only. No seed record and no record created from a body without `id` is one: each carries a numeric `id`, and NumericIdIsNotAdvertisement shows that such an object does not decode (SeedAreNotAdvertisements, BuiltItemIsNotAdvertisement). Only a record whose `id` a request set to a string can be one, as BuiltItemWithStringId shows for a create. The page's own filter on those objects is FilterRecords, which reads only `name` and `type`; FilterRecordsOfAdvertisements shows the two filters agree on the objects of typed advertisements.
- AdvertisementList.FilterAdsSpec: covers typed `Advertisement` values only, for the same reason. FilterRecordsSpec states the same listing for arbitrary objects, the thrown TypeError included.
- Rendering is not modelled: React state, `useQuery` and the pagination widget. The current page number is a parameter of `Page`.
- The form page, the details page, the API client and the routing and build configuration are not part of this model. They hold UI state and library calls.
- Concurrency is not modelled. Requests are handled one at a time.

# p2pcommons sdk-js: the module metadata layer, in Dafny

This project models the metadata layer of the p2pcommons SDK (`index.js`). A
*module* is a content item or a researcher profile. Its metadata record lives in
one of two LevelDB sub-partitions, `content` and `profile`, keyed by the text of
the module's url (the hex key of its archive). Two secondary indexes over the
content partition, `by.title` and `by.description`, key the record by its
lower-cased title or description.

The model covers:

- `jsvalues.dfy`: the JavaScript values involved. This covers properties that may
  be `undefined`, truthiness, and `toString` of a url. It also holds one error
  constructor per `assert` message of `index.js` that a modelled input can
  trigger, plus the `Unknown type` error, the storage layer's NotFound and the
  TypeError of a call on a value that lacks the method. 'type is required'
  (index.js:33, 93, 172, 262) and 'type property is required' (index.js:240)
  are two constructors. The object checks 'An object is expected' and 'values
  should be an object' (index.js:236, 251) have none, because every modelled
  record is an object.
- `strings.dfy`: `endsWith`, `includes`, an ASCII `toLowerCase`, and the key
  order of LevelDB. That order is a strict total order on keys, proved
  irreflexive, asymmetric, transitive and total.
- `datjson.dfy`: the pure functions.
  - `createDatJSON` builds the default record.
  - `_getDb` picks the partition from the type's suffix.
  - `_getAvroTypeName` gives the codec tag, and only for the exact names.
- `partitions.dfy`: one sub-partition. It is a map from key to
  `(tag, record)` plus the ascending order of its keys. `db.put` overwrites.
  The value stream visits the records in key order.
- `sdk.dfy`: the store.
  - Each operation is a function of the two partitions: `saveItem`, `set`,
    `get`, `init`, and the listings `listContent` / `listProfiles`.
  - The class `Store` holds the two partitions as fields (`contentdb`,
    `profiledb`). Its methods update them in place.
  - Each method is proved to reach exactly the state the function names, and to
    leave the state alone on failure.
  - The listings are a loop over the value stream, the loop the source runs in
    its stream callbacks.
- `queries.dfy`: the indexes and the two queries.
  - `filter` is a range scan from the lower-cased query upwards. It keeps
    records whose lower-cased field contains the query. It is a loop method
    proved against its specification function.
  - `filterExact` is a single lookup.

The main proved properties:

- Routing and defaults of the record builder.
- Get-after-save.
- A frame lemma: a save touches one key of one partition.
- Idempotence of a save.
- `set` replaces the whole record, with no merge.
- `init` rejects unsupported types, and content modules whose title or
  description is neither absent nor a string. On success it stores exactly the default
  record, under the new key, in the partition of its type.
- The listings are exactly the writable records, in store order. Each `init`
  under a fresh key adds one listed record when the module is writable.
- The listing scenario of the SDK's tests: three content modules and one
  profile, created from an empty database, list as 3 and 1. The tests as
  written share one persistent database across tests and runs (no `dbPath`,
  so the default data directory), so in the source the counts are offsets
  from what that database already holds, which `Sdk.ListingScenarioOnStored`
  and `Sdk.InitAllListing` state.
- `filter`:
  - it is sound and complete for its two conditions, the key range and the
    substring match;
  - results come in index order;
  - it is case-insensitive;
  - it finds every record that starts with the query;
  - it never finds a record whose key sorts below the query, even one that
    contains it.
- `filterExact`: which result or error each input gets.

The SDK's tests expect several things that `index.js` does not do. The model
follows `index.js`:

- The tests expect `init` to reject invalid metadata with a `ValidationError`
  (tests/index.js:50-58). `index.js` calls no validator on a record. `db.put`
  encodes the value through the Avro codec built from the schemas
  (index.js:104-108, 117-123, 244); what that codec checks is left out.
- The tests expect a CC0 default license (tests/index.js:34-37). `createDatJSON`
  stores an empty `license`.
- The tests expect `version` and `lastModified` to grow on each `set`
  (tests/index.js:163-171). Records get neither.
- `filterExact` does not fold the case of its criteria (see Findings).
- The tests call `get(key)` with one argument. The code requires a type and a
  hash, so that call fails with `hash is required` (`Sdk.GetGuards`).

## Model

| member | source | states |
|---|---|---|
| JsValues.NameOf | index.js:298 | `v[feature]` reads the property spelled by the feature text |
| JsValues.NameOfSpelling | index.js:298 | a property is read by exactly one name, its own spelling |
| JsValues.ToText | index.js:244 | `url.toString('hex')` is the key: a string is its own key; `undefined` has no `toString` and fails with a TypeError; every other value has a text |
| DatJson.GetDb | index.js:92-97 | the profile partition exactly for a type ending in 'profile', the content partition exactly for one ending in 'content', an error exactly for a type with neither suffix: 'type is required' for '', `Unknown type: t` for any other type t |
| DatJson.SuffixesExclusive | index.js:94-95 | no type ends in both suffixes, so the order of the two tests never matters |
| DatJson.AvroTypeName | index.js:82-90 | a codec tag exists exactly for 'content' and 'profile'; a tag always belongs to the partition `_getDb` picks for that name |
| DatJson.CreateDatJSON | index.js:26-33 | a non-string type is rejected with 'type is required'; every string type gives a record |
| DatJson.DatJSONCommon | index.js:34-51 | modType is the raw type, type is 'profile' or 'content' by suffix, main and license are '', absent title/description/url become '', writable is copied |
| DatJson.DatJSONVariant | index.js:43-51 | a profile gets empty follows and contents and no authors or parents; any other type gets empty authors and parents and no follows or contents |
| DatJson.DatJSONKeys | index.js:34-51 | the default record has no property besides the eight common ones and the two of its variant |
| DatJson.DatJSONRoutesLikeItsType | index.js:43-51 | for a supported type the record's own `type` routes to the same partition as the raw type and always has a codec tag of that partition |
| Partitions.Put | index.js:244-247 | `db.put` replaces the entry under its key; every other key keeps its entry |
| Partitions.PutWellFormed | index.js:244-247 | after a put the partition still holds each key once, in ascending order, and its keys are the old ones plus the put key |
| Partitions.ValuesMembers | index.js:311 | the value stream yields every stored record and nothing else |
| Partitions.Lookup | index.js:265 | `db.get` finds an entry exactly under a stored key, and it is that key's entry |
| Partitions.Values | index.js:311 | the value stream has one record per key, the record of the i-th key in order at position i |
| Partitions.PutFreshValues | index.js:244-247 | putting a new key inserts exactly its record into the stream at position i, where every key before i sorts below the new key and every key from i on sorts above it |
| Partitions.PutStoredValues | index.js:244-247 | re-putting a stored key replaces its one record in place and keeps the order |
| Sdk.Target | index.js:236-244 | saveItem writes to the partition `_getDb` gives for its string type, under the text of its url; a non-string type fails with 'type property is required', an unsupported type with `_getDb`'s error, a missing url with a TypeError |
| Sdk.SaveItemSpec | index.js:234-248 | saveItem succeeds exactly when it has a target and, for the content partition, the record's title and description are strings (the index reducers lower-case both); otherwise it fails with Target's error or, in the reducers, with a TypeError (the reducers are at index.js lines 133-141) |
| Sdk.SaveItemKeepsValid | index.js:234-248 | a successful saveItem keeps both partitions holding each key once, in order |
| Sdk.GetAfterSaveItem | index.js:243-265 | after a successful saveItem(m), get(m.type, key of m.url) returns m itself |
| Sdk.SaveItemFrame | index.js:243-247 | every other key of either partition reads as before a successful saveItem |
| Sdk.SaveItemIdempotent | index.js:244-247 | saving the same record twice leaves the state of saving it once |
| Sdk.GetGuards | index.js:261-266 | get returns a record exactly when both arguments are strings, the type is supported and its partition holds the hash; that record is the stored one; otherwise it fails with 'type is required', 'hash is required', `_getDb`'s error or NotFound for the hash, checked in that order |
| Sdk.GetSpec | index.js:261-266 | as written; a success needs a string type with a supported suffix and a string hash. Its behaviour is stated by Sdk.GetGuards and Sdk.GetAfterSaveItem |
| Sdk.SetGuards | index.js:250-259 | set succeeds exactly when url is truthy, type is a string ending in 'profile' or 'content' and, for a content type, title and description are strings; it is then saveItem; otherwise it fails with the url message, a TypeError for a non-string type, "type should be 'content' or 'profile'", or the reducers' TypeError, checked in that order |
| Sdk.SetSpec | index.js:250-259 | as written; a success is saveItem's and needs a supported string type. Its behaviour is stated by Sdk.SetGuards |
| Sdk.SetReplacesWholeRecord | index.js:250-259 | after set(values), get returns `values` itself: no property of the old record survives |
| Sdk.SetSuffixTypeHasNoTag | index.js:250-259 | set accepts a suffixed type such as 'article-content' (with a string title and description) and writes its record to the content partition with `_getAvroTypeName`'s undefined as its tag; what the codec then does with that tag is outside the model |
| Sdk.InitRejects | index.js:172-176 | init fails exactly for a non-string type ('type is required'), a string type with neither suffix ("type should be 'content' or 'profile'"), or a content type whose title or description is neither absent nor a string (a TypeError in the index reducers of index.js lines 133-141) |
| Sdk.InitSpec | index.js:166-231 | as written; a success needs a supported string type. Its behaviour is stated by Sdk.InitRejects and Sdk.InitIsPutOfDefault |
| Sdk.InitStoresDefaultRecord | index.js:207-231 | for a supported type, and for a content type a title and description that are absent or strings, init succeeds; it returns the default record of its type, title, description, new key and writable flag; get finds it under the key by the raw type and by the record's type, with a codec tag; the other partition is untouched |
| Sdk.InitIsPutOfDefault | index.js:207-231 | for a supported type (and string or absent title and description when it is a content type) init changes the state by exactly one put of the tagged default record into the partition of its type; the record is listed iff the archive is writable |
| Sdk.FreshPutState | index.js:243-247 | a save under a key new to its partition keeps the store valid, adds the key, adds the record to that partition's listing iff it is writable, and leaves the other partition alone |
| Sdk.InitListing | index.js:226-231 | init under a new key adds the key to its partition and its record to that partition's listing iff it is writable; the other partition is unchanged |
| Sdk.InitCounts | index.js:166-231 | one successful init under a fresh key adds one key overall and grows the listing of its partition by one iff writable |
| Sdk.InitAllListing | tests/index.js:194-199 | any run of inits, each with its own type, title, description, key and writable flag, of supported types, with string or absent titles and descriptions for the content modules, under distinct new keys succeeds, and each listing grows by the number of writable modules of its suffix |
| Sdk.ListingScenario | tests/index.js:176-234 | three writable content modules and one writable profile, with string or absent titles and descriptions, created from an empty database list as 3 content records and 1 profile |
| Sdk.ListingScenarioOnStored | tests/index.js:176-234 | the same four inits under new, distinct keys over any valid stored database all succeed and add exactly 3 records to the content listing and 1 to the profile listing |
| Sdk.ListedMembers | index.js:308-330 | a partition's listing holds exactly its records whose writable is truthy |
| Sdk.Listed | index.js:308-330 | as written; at most one record per key, every record writable. Its contents are stated by Sdk.ListedMembers |
| Sdk.Writables | index.js:313-315 | the kept records are no more than the given ones and all writable |
| Sdk.ListWritable | index.js:308-318 | the stream loop returns the writable records of the partition in key order |
| Sdk.Store.constructor | index.js:99-124 | the store starts with the partitions the opened database already holds, each keeping each key once, in order |
| Sdk.Store.SaveItem | index.js:234-248 | the fields end in the state saveItem's function names, or are unchanged on failure, with the same error |
| Sdk.Store.Set | index.js:250-259 | the fields end in the state set's function names, or are unchanged on failure |
| Sdk.Store.Get | index.js:261-266 | returns what get's function gives on the current fields |
| Sdk.Store.Init | index.js:166-232 | returns the default record and ends in the state init's function names, or is unchanged on failure |
| Sdk.Store.ListContent | index.js:308-318 | returns the writable records of the content partition in key order |
| Sdk.Store.ListProfiles | index.js:320-330 | returns the writable records of the profile partition in key order |
| Queries.IndexFor | index.js:127-141 | only 'title' and 'description' have an index, and each is its own index |
| Queries.Filter | index.js:285-306 | the one-pass scan returns what filter's specification gives: the checks in the source's order, then the records of the visited entries that match, or a TypeError at a visited truthy non-string field |
| Queries.FilterSpec | index.js:285-306 | as written; a success needs a string feature with an index and a non-empty string query. Its behaviour is stated by Queries.FilterMembers, Queries.FilterFailsOnBadField and Queries.FilterInIndexOrder |
| Queries.ScanStep | index.js:298-301 | each visited entry either fails the query (a truthy non-string field) or adds its record exactly when its field contains the query |
| Queries.KeptMembers | index.js:294-301 | an entry is kept iff it is in the index, its key is at or above the lower-cased query and its lower-cased field contains it |
| Queries.KeptSorted | index.js:294-301 | kept entries are in index order |
| Queries.KeptRecords | index.js:298-301 | the pushed records are exactly those of visited, matching entries |
| Queries.FilterMembers | index.js:294-301 | filter returns exactly the records of entries whose key is at or above lower(q) and whose lower-cased field contains lower(q) |
| Queries.FilterFailsOnBadField | index.js:298-299 | filter fails iff some visited entry has a truthy field that is not a string |
| Queries.FilterFindsPrefixes | index.js:133-141 | over an index built by the lower-casing reducer, every record whose field starts with the query, ignoring case, is returned |
| Queries.FilterInIndexOrder | index.js:294-303 | over a sorted index the results come in ascending index-key order |
| Queries.FilterIgnoresCase | index.js:294 | queries with the same lower-casing get the same answer |
| Queries.FilterSkipsKeysBelowQuery | index.js:295-297 | a record titled 'a demo' contains 'demo' but is not found by filter('title', 'demo'): its key sorts below the query |
| Queries.Lookup | index.js:276 | the index lookup finds nothing exactly when no entry has the key |
| Queries.LookupStored | index.js:276 | in a sorted index a stored key leads to its own entry's record |
| Queries.ExactWith | index.js:276-280 | the lookup's single record comes back as a one-element list, a missing key as NotFound for that key |
| Queries.FilterExact | index.js:268-283 | as written; a success is one record, for a string feature with an index and truthy criteria. Its behaviour is stated by Queries.FilterExactOutcomes |
| Queries.FilterExactFolded | index.js:268-283 | the lookup with folded criteria; a success is one record. Its behaviour is stated by Queries.FilterExactFoldedIgnoresCase and Queries.FilterExactFoldedFinds |
| Queries.FilterExactOutcomes | index.js:268-283 | filterExact fails with 'A valid filter type is required', 'filter criteria is required', a TypeError for a feature without an index, or NotFound for the criteria's text; otherwise it returns the record stored under that text |
| Queries.FilterExactMissesUppercase | index.js:276 | over an index built by its reducer, criteria with an upper-case letter always give NotFound |
| Queries.FilterExactDemo | index.js:276 | an index holding a record titled 'demo': filterExact('title', 'DEMO') gives NotFound, the case-folded lookup gives the record |
| Queries.FilterExactFoldedIgnoresCase | index.js:268-283 | the case-folded lookup gives equal answers for criteria that fold alike, such as 'demo' and 'DEMO' |
| Queries.FilterExactFoldedFinds | index.js:268-283 | over a sorted index built by its reducer, the case-folded lookup returns the record whose field folds to the criteria |

## Left out

- File-system work of `init` and `openFile` (`ensureDir`, `writeFile`, `rename`, `open`): I/O. The archive's key and writable flag are parameters of `init`.
- Hyperswarm discovery, archive close handlers and `destroy`: networking and lifecycle. `destroy` returns early without closing the database when the swarm is disabled; this is not modelled.
- `lib/dat-helper.js` and `tests/childProcess.js`: storage-backend and process plumbing.
- The internals of `level`, `subleveldown`, `level-auto-index` and the Avro codec. The codec is an identity round-trip that stores the record next to its tag. The codec's schemas are not part of this model, so no schema validation is modelled.
- Index maintenance: the indexes are parameters of the queries and are not updated by `saveItem`. Only the reducers' TypeError on a content record without string title and description is modelled (`Sdk.SaveItemSpec`); the model then leaves both partitions unchanged, while whether `level-auto-index` has already written the record when its reducer throws is part of that library, which is not part of this model. `Queries.Indexed` states the reducer's key (the lower-cased field) as a property of an index, and `Queries.IndexSorted` states one entry per key.
- Queries.FilterExactOutcomes: an exact lookup returns one record. Several records under one index key, and a lookup result that is an array, are not modelled.
- Queries.Filter: a TypeError thrown inside the stream's `data` handler is modelled as the query failing with TypeError. How the stream and the promise then behave is not modelled.
- `toLowerCase` is ASCII-only, and keys are ordered by character code rather than by UTF-8 bytes.
- A record is a datatype with one field per property the SDK reads or writes, plus a map for any other property. An absent property and one that is `undefined` are the same here.
- JavaScript values are limited to `undefined`, booleans, strings and arrays of strings. Numbers, `null`, nested objects and Buffers are left out. A url Buffer is represented by its hex text.
- Sdk.InitAll: `Promise.all` over several `init` calls is modelled as running them one after another, and stopping at the first failure. In the source the other inits still finish their saves while the combined promise rejects; no lemma here is about a failing run. Interleaving is left out.
- `init`'s extra fields (`...rest`) only reach storage options. They do not reach the record and are dropped.
- `saveItem`'s `typeof metadata === 'object'` checks hold for every modelled record.
- Constructor configuration (paths, home directory, `persist`, `verbose`) and console output.
- Behaviour that only the tests expect and `index.js` does not implement. This covers `verify`, `register`, `list()`, versions and modification times, `SDK.errors`, a CC0 default license, keeping a `subtype`, and `set` without a type.

## Findings

| source | as written | input that shows it | evidently intended | confidence | as-written member | corrected member |
|---|---|---|---|---|---|---|
| index.js:276 | `filterExact` looks up its criteria unchanged, but the index keys are lower-cased by the reducers at index.js:133-141 | an index holding a record titled 'demo', then `filterExact('title', 'DEMO')` gives NotFound | the lookup is case-insensitive like `filter`: 'demo' and 'DEMO' give the same result | not executed | Queries.FilterExactDemo | Queries.FilterExactFoldedIgnoresCase |

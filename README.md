# Harry Potter explorer: client data layer in Dafny

This project models the client-side data layer of a React application that
browses Harry Potter characters, spells, the four Hogwarts houses and a cat
gallery. It proves what each part promises.

- **Entity models and mappers.** `Character`, `House`, `Spell` and `Cat`
  apply defaults in their constructors and have derived getters such as
  display names, colours and breed details. The DTO mappers turn API
  payloads into entities and drop falsy items. The house service serves a
  fixed catalogue of four houses and looks houses up by name, ignoring case.
- **The TTL cache** (`CacheStore.Cache`). It is a map from keys to entries
  with an optional expiry time:
  - expiry is lazy on `get`;
  - `set` and `remove` write through to a versioned snapshot in durable
    storage;
  - `clear`, `has` and `size` work as in the source;
  - a sweep deletes expired entries;
  - at start-up, a snapshot is loaded only if its version is `1.0`;
  - arrays cached under `characters:` and `spells:` keys are rebuilt as
    entities.
- **The HTTP client** (`ApiClient`). It sorts each transport result into a
  `{data, error}` outcome. GET requests are retried while the error message
  names the server (`servidor`) or the connection (`conexión`), with an
  exponential back-off. POST requests make one attempt.
- **The loader hook** (`Fetch.Loader`). Its state is `data`, `loading`,
  `error`, a mounted flag and the abort controllers. Unforced loads are served
  from the cache, and truthy results are written back to it.
- **The cat pager** (`CatsPager.Pager`). Each load either replaces the list or
  appends a batch to it, and `hasMore` records whether the batch was full.

JavaScript values are one datatype, `Js.Value`, covering `undefined`, `null`,
booleans, integers, strings, arrays and plain objects. The model spells out
truthiness, `||`, destructuring defaults, property access, indexing and
`String()`.

A class instance is a Dafny datatype. Its constructor is a function `New` over
the property bag. The instance's own-property object is `Record`, which is
what the cache stores and persists.

The clock is an explicit `now` argument. So is the result of every storage
write (`PersistFault`), every `fetch` (`ApiClient.Attempt`) and every producer
or service call (`Fetch.Settled`, `CatsPager.Batch`).

The unit test for cancelling with an already-aborted signal
(`services/apiClient.test.js:45-57`) expects the cancel message. The code does
not check a signal that is already aborted: it forwards only a later `abort`
event (`services/apiClient.js:44-46`). The model follows the code; see
`ApiClient.PreAbortedSignalIgnored` and `ApiClient.PreAbortedGetFrom`.

## Model

| member | source | states |
|---|---|---|
| Characters.Make | src/core/models/Character.js:6-48 | `alternateNames` and `alternateActors` become `[]` only when `undefined`; every other field is stored unchanged |
| Characters.New | src/core/models/Character.js:6-27 | every constructed Character has both list fields defined |
| Characters.RecordRoundTrip | src/core/models/Character.js:6-48 | constructing a Character again from its own properties gives the same Character |
| Characters.DisplayName | src/core/models/Character.js:50-52 | the name when truthy, else `Desconocido`; never falsy |
| Houses.Make | src/core/models/House.js:14-21 | `colors` falls back to `[]` when falsy, so it is always truthy; the other six fields are stored unchanged |
| Houses.New | src/core/models/House.js:6-21 | every constructed House has truthy `colors` |
| Houses.PrimaryColor | src/core/models/House.js:24-26 | `colors[0]` when truthy, else `#2a2a2a`; never falsy |
| Houses.SecondaryColor | src/core/models/House.js:28-30 | `colors[1]` when truthy, else `#4a4a4a`; never falsy |
| Houses.ColorGradient | src/core/models/House.js:32-34 | definition: `linear-gradient(135deg, <primaryColor> 0%, <secondaryColor> 100%)` |
| Houses.GradientOfTwoColors | src/core/models/House.js:32-34 | with two non-empty colours the gradient is `linear-gradient(135deg, <first> 0%, <second> 100%)` |
| Houses.GradientWithoutColors | src/core/models/House.js:32-34 | without colours the gradient uses both fallback colours |
| Spells.New | src/core/models/Spell.js:6-14 | id, name and description are stored unchanged |
| Spells.RecordRoundTrip | src/core/models/Spell.js:6-14 | constructing a Spell again from its own properties gives the same Spell |
| Spells.DisplayName | src/core/models/Spell.js:16-18 | the name when truthy, else `Hechizo Desconocido`; never falsy |
| Spells.HasDescription | src/core/models/Spell.js:20-22 | definition: the description is truthy |
| Cats.Make | src/core/models/Cat.js:6-18 | `breeds` becomes `[]` only when `undefined`; the other fields are stored unchanged |
| Cats.MainBreed | src/core/models/Cat.js:20-22 | `breeds[0]` when truthy, else `null` |
| Cats.BreedName | src/core/models/Cat.js:24-26 | the main breed's name when truthy, else `Gato Mágico`; never falsy |
| Cats.BreedText | src/core/models/Cat.js:28-42 | a main-breed property when truthy, else the empty string |
| Cats.HasBreedInfo | src/core/models/Cat.js:44-46 | definition: the breeds list has a positive length |
| Cats.BreedListGetters | src/core/models/Cat.js:20-46 | for a list of breeds: `hasBreedInfo` holds iff the list is non-empty; with no breeds every getter falls back; otherwise they read the first breed, `lifeSpan` from `life_span` |
| Js.Truthies | src/core/dtos/CharacterDTO.js:83 | `filter(Boolean)` keeps exactly the truthy items, in order, so it is never longer |
| Js.MapTruthy | src/core/dtos/CharacterDTO.js:83 | mapping and then dropping falsy results yields one result per truthy item, in order |
| HouseDto.FromLocal | src/core/dtos/HouseDTO.js:7-19 | `null` iff the record is falsy; otherwise the seven properties are copied and `colors` is defaulted |
| HouseDto.FromLocalArray | src/core/dtos/HouseDTO.js:21-24 | `[]` for a non-array; otherwise one House per truthy record, in order, never more than the input |
| SpellDto.FromAPI | src/core/dtos/SpellDTO.js:7-15 | `null` iff the payload is falsy; otherwise id, name and description are copied |
| SpellDto.FromAPIArray | src/core/dtos/SpellDTO.js:17-20 | `[]` for a non-array; otherwise one Spell per truthy item, in order |
| CatDto.FromAPI | src/core/dtos/CatDTO.js:7-17 | `null` iff the payload is falsy; id, url, width and height are copied; breeds are copied when truthy and always truthy; a missing breed list gives no breed info |
| CatDto.FromAPIArray | src/core/dtos/CatDTO.js:19-22 | `[]` for a non-array; otherwise one Cat per truthy item, in order |
| CharacterDto.HouseFor | src/core/dtos/CharacterDTO.js:52-55 | a House is built from the table iff the value is truthy and, as a property key, names a table entry; otherwise `null` |
| CharacterDto.FromAPI | src/core/dtos/CharacterDTO.js:48-79 | `null` iff the payload is falsy; the snake-case lists become `alternateNames`/`alternateActors` (defaulted to `[]`); the house is resolved by name; all other fields are copied |
| CharacterDto.FromAPIArray | src/core/dtos/CharacterDTO.js:81-84 | `[]` for a non-array; otherwise one Character per truthy item, in order |
| Characters.HasImage | src/core/models/Character.js:54-56 | definition: the image is truthy |
| Characters.IsStudent | src/core/models/Character.js:58-60 | definition: `hogwartsStudent` is the boolean `true` |
| Characters.IsStaff | src/core/models/Character.js:62-64 | definition: `hogwartsStaff` is the boolean `true` |
| CharacterDto.GettersOfBuilt | src/core/models/Character.js:50-64 | on a mapped payload, `isStudent`/`isStaff` hold iff the API flag is the boolean `true`, `hasImage` iff the image is truthy, and the display name is never falsy |
| CharacterDto.HouseByName | src/core/dtos/CharacterDTO.js:52-55 | a house string that names a table entry gets that entry's House; any other string gets `null` |
| CharacterDto.TableKeys | src/core/dtos/CharacterDTO.js:5-42 | the table holds exactly the four house names |
| HouseService.HouseDataName | src/core/services/HouseService.js:4-41 | each catalogue record is an object whose `name` is its house name |
| HouseService.GetAll | src/core/services/HouseService.js:47-50 | exactly four houses, each the DTO mapping of the catalogue record at the same position |
| HouseService.GetAllOrder | src/core/services/HouseService.js:4-50 | the houses come in the order Gryffindor, Hufflepuff, Ravenclaw, Slytherin |
| HouseService.Find | src/core/services/HouseService.js:53 | `find` returns the first record whose lower-cased name equals the lower-cased argument, or nothing iff none does |
| HouseService.GetByName | src/core/services/HouseService.js:52-55 | `null` iff no catalogue name matches ignoring case; otherwise the DTO mapping of a matching record |
| HouseService.FoundNameMatches | src/core/services/HouseService.js:53-54 | a found house's lower-cased name equals the lower-cased argument |
| HouseService.CatalogueNames | src/core/services/HouseService.js:4-41 | the catalogue's four names as the lookup compares them |
| HouseService.FirstMatchFound | src/core/services/HouseService.js:53-54 | when record k is the first match, the lookup returns record k |
| HouseService.FindIgnoresCase | src/core/services/HouseService.js:53 | names equal in lower case find the same record |
| HouseService.GetByNameIgnoresCase | src/core/services/HouseService.js:52-55 | names equal in lower case get the same house |
| HouseService.LookupLowerCase | src/core/services/HouseService.js:52-55 | `gryffindor` finds the Gryffindor record |
| Text.Lower | src/core/services/HouseService.js:53 | `toLowerCase` keeps the length and lower-cases each character (ASCII letters) |
| CacheStore.RebuildCharacters | src/core/context/CacheProvider.js:22 | item i of the result is the Character constructed from item i, and the length is kept |
| CacheStore.RebuildSpells | src/core/context/CacheProvider.js:27 | item i of the result is the Spell constructed from item i, and the length is kept |
| CacheStore.ReconstructObjects | src/core/context/CacheProvider.js:16-36 | non-arrays come back unchanged; arrays keep their length; keys with neither prefix, or an array with a nullish item (the constructor throws and the catch returns the input), come back unchanged; otherwise a `characters:` key rebuilds each item as a Character, and a `spells:` key (without the `characters:` prefix) as a Spell |
| CacheStore.ReconstructIdempotent | src/core/context/CacheProvider.js:16-36 | rebuilding what was already rebuilt changes nothing |
| CacheStore.NewEntry | src/core/context/CacheProvider.js:144-148 | the entry expires at time t iff the TTL is truthy, `now + ttl` is non-zero and `now + ttl < t`; a falsy TTL never expires |
| CacheStore.Expired | src/core/context/CacheProvider.js:117 | definition: the entry has a truthy expiry before `now` |
| CacheStore.ExpiredAt | src/core/context/CacheProvider.js:117 | definition: the key is present and its entry has expired |
| CacheStore.Read | src/core/context/CacheProvider.js:111-133 | `null` for an absent or expired key (strict `<`); otherwise the stored data rebuilt for its key |
| CacheStore.Evict | src/core/context/CacheProvider.js:117-124 | only an expired entry for the key is removed; otherwise the map is unchanged |
| CacheStore.Unexpired | src/core/context/CacheProvider.js:197-205 | exactly the entries that have not expired, with the same values |
| CacheStore.Persisted | src/core/context/CacheProvider.js:86-104 | success stores a version `1.0` snapshot of the whole map; a quota error erases the slot; any other failure leaves it |
| CacheStore.Hydrate | src/core/context/CacheProvider.js:59-81 | start-up yields a non-empty map only from a saved snapshot of the current version |
| CacheStore.AfterLoad | src/core/context/CacheProvider.js:59-81 | a corrupt slot is erased; a saved snapshot is kept iff its version is current; an absent or empty-string slot is left as it is |
| CacheStore.LoadKeepsOnlyCurrentVersion | src/core/context/CacheProvider.js:63-73 | a non-empty snapshot's entries are loaded iff its version is `1.0` |
| CacheStore.PersistThenLoad | src/core/context/CacheProvider.js:59-94 | a successful write, loaded again, gives back the same map and keeps the slot |
| CacheStore.SetThenRead | src/core/context/CacheProvider.js:111-148 | a value set is read back (rebuilt for its key) until its expiry time, inclusive; forever with a falsy TTL |
| CacheStore.SetThenExpire | src/core/context/CacheProvider.js:111-148 | after `now + ttl` a value set with a truthy TTL reads `null` |
| CacheStore.SetKeepsOthers | src/core/context/CacheProvider.js:141-153 | setting one key does not change what any other key reads |
| CacheStore.RemoveKeepsOthers | src/core/context/CacheProvider.js:159-167 | after `remove` the key reads `null` and every other key reads as before |
| CacheStore.SweepKeepsReads | src/core/context/CacheProvider.js:190-212 | a sweep at time `now` changes nothing `get` returns at that time |
| CacheStore.SweepWithoutExpiredIsIdentity | src/core/context/CacheProvider.js:207-211 | when nothing has expired the sweep keeps the map |
| CacheStore.Cache.Load | src/core/context/CacheProvider.js:59-81 | the in-memory map and the slot after start-up are `Hydrate` and `AfterLoad` of the stored slot |
| CacheStore.Cache.Persist | src/core/context/CacheProvider.js:86-104 | the slot becomes `Persisted` of the current map; the map is untouched |
| CacheStore.Cache.Get | src/core/context/CacheProvider.js:111-133 | returns `Read`; drops only an expired entry for the key, and persists only then |
| CacheStore.Cache.Set | src/core/context/CacheProvider.js:141-153 | replaces the key's entry with `NewEntry` and persists the whole map |
| CacheStore.Cache.Remove | src/core/context/CacheProvider.js:159-167 | deletes the key only and persists the whole map |
| CacheStore.Cache.Clear | src/core/context/CacheProvider.js:172-176 | empties the map and erases the slot |
| CacheStore.Cache.Has | src/core/context/CacheProvider.js:183-185 | true iff `get` would return non-`null`, with the same effect on map and slot as `get` |
| CacheStore.Cache.Size | src/core/context/CacheProvider.js:224 | zero iff the map is empty |
| CacheStore.Cache.Sweep | src/core/context/CacheProvider.js:193-212 | the map becomes exactly its unexpired entries; the slot is persisted iff something expired, else untouched |
| ApiClient.NewClient | src/core/services/apiClient.js:17-22 | omitted arguments default to no headers, a 30000 ms timeout and 2 retries |
| ApiClient.HpClient | src/core/services/apiClient.js:207 | the Harry Potter client uses all defaults |
| ApiClient.CatClient | src/core/services/apiClient.js:209-211 | the cat client sends `x-api-key`, the environment key or the empty string |
| ApiClient.Config | src/core/services/apiClient.js:36-57 | the URL is base URL then endpoint; mode `cors`, cache `no-cache`; headers are the defaults overridden key by key by the call's headers |
| ApiClient.Transport | src/core/services/apiClient.js:37-46 | when the timeout fires or the caller's signal aborts during the call, the attempt is an `AbortError` rejection; otherwise it is what the network gave |
| ApiClient.PreAbortedSignalIgnored | src/core/services/apiClient.js:44-46 | a caller signal already aborted before the call is not forwarded: the attempt is classified exactly as without a signal |
| ApiClient.AbortedTransportCancels | src/core/services/apiClient.js:41-104 | a timeout or an abort during the call yields `data: null` with the cancel message, which is not retried |
| ApiClient.PreAbortedGetFrom | src/core/services/apiClient.js:44-46 | a whole `get` with a pre-aborted caller signal returns the same outcome after the same number of requests as without it |
| ApiClient.Through | src/core/services/apiClient.js:41-61 | definition: each attempt of a `get` with the caller's signal passed through the abort wiring |
| ApiClient.AbortedDuringGet | src/core/services/apiClient.js:44-46 | a `get` whose caller aborts during the first attempt sends one request and returns the cancel message |
| ApiClient.Caught | src/core/services/apiClient.js:95-125 | data is `null`; AbortError gives the cancel message; a TypeError mentioning `fetch` gives the offline message; otherwise the error's message, or `Error desconocido` when that is empty and the error is not an HTTP error |
| ApiClient.Classify | src/core/services/apiClient.js:59-125 | no error iff the response is ok (2xx) and its body parsed, and then the data is the body; 4xx gives `Error del cliente <status>: <text>`, 5xx `Error del servidor <status>: <text>`; any other non-ok status gives the error of reading a body that `text()` already read; errors always carry `null` data |
| ApiClient.ReadAfterText | src/core/services/apiClient.js:67-89 | for a non-ok response `json()` always fails: a body that would have parsed is already used, giving a `TypeError`, and a read that fails anyway keeps its own error |
| ApiClient.NotOkBelow400Fails | src/core/services/apiClient.js:67-93 | a non-ok response below 400 (a redirect or a 304) is never a success; with a body, the error is the already-read `TypeError`, which is neither the offline message nor retried |
| ApiClient.Retryable | src/core/services/apiClient.js:144-146 | definition: an error message that contains `servidor` or `conexión` |
| ApiClient.CancelNotRetryable | src/core/services/apiClient.js:99-146 | the cancel message is never retried |
| ApiClient.CancelLacksServer | src/core/services/apiClient.js:99-104 | the cancel message does not contain `servidor` |
| ApiClient.CancelLacksConnection | src/core/services/apiClient.js:99-104 | the cancel message does not contain `conexión` |
| ApiClient.NetworkErrorRetryable | src/core/services/apiClient.js:108-146 | the offline message is retried |
| ApiClient.ServerErrorRetryable | src/core/services/apiClient.js:80-146 | every 5xx outcome is retried |
| ApiClient.ClientErrorRetryableIff | src/core/services/apiClient.js:71-146 | a 4xx outcome is retried iff its status text contains `servidor` or `conexión` |
| ApiClient.Backoff | src/core/services/apiClient.js:150 | definition: `2^k * 1000` ms before retry k+1 |
| ApiClient.BackoffDoubles | src/core/services/apiClient.js:150 | the first wait is 1000 ms and each wait is twice the one before |
| ApiClient.GetFrom | src/core/services/apiClient.js:136-156 | the recursive `get`: an error carries `null` data, and a retryable error is returned only as the outcome of the last allowed attempt (`maxRetries`, or the starting count when that is already past it) |
| ApiClient.AttemptsFrom | src/core/services/apiClient.js:136-156 | a `get` at retry count k makes at least one request and at most `maxRetries - k + 1` |
| ApiClient.GetInit | src/core/services/apiClient.js:136-141 | each GET attempt is a GET without a body |
| ApiClient.Get | src/core/services/apiClient.js:136-156 | the loop returns what the recursion returns; it sends `AttemptsFrom` requests, at most `maxRetries + 1`, all identical; it waits `2^k * 1000` ms before retry k+1, so 1000 ms first and doubling after; every outcome but the last was retryable; the result is the last outcome |
| ApiClient.FirstOutcomeFinal | src/core/services/apiClient.js:144-155 | a first outcome that is not retryable ends the call after one request |
| ApiClient.ClientErrorSentOnce | src/core/services/apiClient.js:144-155 | a 4xx without the keywords in its status text is sent once and returned |
| ApiClient.ServerErrorsExhaustRetries | src/core/services/apiClient.js:144-155 | a server that always answers 5xx is asked exactly `maxRetries + 1` times; the last answer is returned |
| ApiClient.TwoServerErrorsThenSuccess | src/core/services/apiClient.test.js:82-101 | with 2 retries, two 500s and then a success make three requests and return the success |
| ApiClient.PostInit | src/core/services/apiClient.js:166-176 | one POST with the body; `Content-Type` is `application/json` unless the caller's headers set it; the caller's headers win |
| ApiClient.Post | src/core/services/apiClient.js:166-176 | a single request whose outcome is the classification of its one attempt |
| Fetch.CharactersByHouse | src/core/hooks/useCharacters.js:40-44 | the key is `characters:house:` followed by the house name as a string, so it starts with `characters:` and keeps each house's results apart; the TTL is 10 minutes |
| Fetch.HookKeysSelectRebuild | src/core/context/CacheProvider.js:21-31 | the character and spell hooks' keys select rebuilding; cached data under `houses:all` comes back as it was stored |
| Fetch.AbortCurrent | src/core/hooks/useFetch.js:46-48 | after aborting the controller in the ref, every controller is aborted |
| Fetch.OnlyCurrentLive | src/core/hooks/useFetch.js:45-51 | a live controller is the one in the ref |
| Fetch.StartKeepsOneLive | src/core/hooks/useFetch.js:45-51 | aborting the current controller and installing a new one keeps at most one live |
| Fetch.WrittenBackServed | src/core/hooks/useFetch.js:57-85 | a truthy result written back is a cache hit for later unforced loads until it expires |
| Fetch.Loader.constructor | src/core/hooks/useFetch.js:26-36 | data `null`, loading, no error, mounted, no controller; TTL defaults to 5 minutes |
| Fetch.Loader.Start | src/core/hooks/useFetch.js:43-70 | aborts the previous controller and installs a new one; loading on, error cleared; for an unforced load with a key, a truthy cached value is returned and, if mounted, becomes data with loading off; otherwise data is unchanged and the cache is not read |
| Fetch.Loader.Resolve | src/core/hooks/useFetch.js:73-106 | unmounted: no state change and no cache write; AbortError: no change; success: written back iff key and value are truthy, then data is set and loading cleared; other errors: message or `Error desconocido` and loading cleared, then rethrown |
| Fetch.Loader.Activate | src/core/hooks/useFetch.js:112-118 | marks mounted and runs an unforced load: aborts the current controller and installs a new one; with a key the cache entry is evicted if expired (and that persisted); a truthy cached value is served as `data` and returned; otherwise the load is pending on the new controller |
| Fetch.Loader.Deactivate | src/core/hooks/useFetch.js:120-127 | marks unmounted and aborts the controller in the ref; data, loading and error are untouched |
| Fetch.Loader.Refetch | src/core/hooks/useFetch.js:133 | a forced load: the current controller is aborted and a new one appended and installed; the cache is untouched and the producer is awaited |
| CatsPager.Page | src/core/hooks/useCats.js:21 | replace gives the batch; append keeps the previous list as a prefix, followed by the batch |
| CatsPager.LoadMoreTwice | src/core/hooks/useCats.js:21-34 | two appends give previous, first batch, second batch in order; a refresh afterwards gives its batch alone |
| CatsPager.FailureMessage | src/core/hooks/useCats.js:27 | the message shown on failure is the error's own message when it has one, else `Error al cargar gatos`; never empty |
| CatsPager.Pager.constructor | src/core/hooks/useCats.js:8-12 | no cats, not loading, no error, `hasMore`; page size defaults to 10 |
| CatsPager.Pager.Begin | src/core/hooks/useCats.js:16-17 | while the batch is awaited: loading, no error, the list and `hasMore` unchanged |
| CatsPager.Pager.Finish | src/core/hooks/useCats.js:19-30 | success: list replaced or appended, `hasMore` iff the batch length equals the limit, the batch returned; failure: list and `hasMore` kept, the message or `Error al cargar gatos` shown, the error rethrown; loading ends off |
| CatsPager.Pager.LoadCats | src/core/hooks/useCats.js:14-31 | `Begin` then `Finish`: the error is cleared on success, and the batch is returned or the error rethrown |
| CatsPager.Pager.LoadMore | src/core/hooks/useCats.js:33 | the old cats stay first, in order, followed by the batch; on failure the list and `hasMore` are kept and the error set; the batch is returned or the error rethrown |
| CatsPager.Pager.Refresh | src/core/hooks/useCats.js:34 | the list becomes the batch; on failure the list and `hasMore` are kept and the error set; the batch is returned or the error rethrown |

## Left out

- Logging (`console.*`) and React mechanics are not modelled. This covers `useState` closures and batching, `useCallback` dependencies, and the `setInterval` that schedules the sweep (only its body is modelled, as `Cache.Sweep`).
- Every operation runs to completion before the next one starts. Interleavings of asynchronous completions are reached only by calling `Start` and `Resolve` in different orders.
- Functional updates (`setCache(prev => …)`, `setCats(prev => …)`) are modelled as updates of the current state. So is the `cache` captured by `get`'s closure.
- React discarding state updates on an unmounted component is not modelled. `Loader.Start` writes `loading` and `error` whether or not the loader is mounted, as the code does.
- `localStorage` is the abstract slot `Stored`. `JSON.stringify` and `JSON.parse` are not modelled, so persisting keeps values exactly. In the code, `undefined` properties are dropped and entity instances become plain objects. A slot that does not parse is the single case `Corrupt`.
- Cached Character and Spell instances are not told apart from their own-property records. In memory the code keeps the instance itself, and after a reload it rebuilds one from the record. Houses cached under `houses:all` are not rebuilt, so after a reload the code hands out plain objects without the House getters. The model cannot express getters on plain objects.
- `Date.now()` is one explicit `now` per call. In the code, `set` reads the clock twice.
- `fetch`, `response.json()`, `response.text()`, `setTimeout`, `_delay` and the timeout timer are not modelled. Each attempt's result is an input, the delays are recorded values, and whether the timer fired is an input to `TransportAborted`.
- `ApiClient.Caught` and `ApiClient.Classify` model only the errors the client can see: a name and a message. The error body read through `response.text()` is not part of the outcome and is left out. The wording of the engine's `TypeError` for a body that was already read (`ApiClient.ConsumedMessage`) is engine-specific; the model uses one fixed wording.
- `HouseService.GetByName` and `HouseService.Find` take the name as a string: a nullish or non-string name, for which `name.toLowerCase()` throws and `getByName` rejects, is not modelled.
- `request` called directly with arbitrary options is not modelled, because the services only call it through `get` and `post`. Such options could override `mode` and `cache`.
- The request body is the value before `JSON.stringify`.
- The producers (the character, spell and cat services) are not part of this model. Each is the outcome a load settles with (`Fetch.Settled`, `CatsPager.Batch`). The hooks' producers ignore the abort signal, so a superseded request's completion still updates a mounted loader. `Loader.Resolve` does not depend on which request settled.
- `ApiClient.Through` lets no attempt of a `get` time out; a timeout of one attempt is `ApiClient.Transport` with `timedOut` set, which `ApiClient.AbortedTransportCancels` covers.
- Numbers are integers: `NaN`, fractions, infinities and `-0` are absent. A non-numeric `length` on an object counts as no breed info.
- `CharacterDto.HouseFor`: property lookup on the table sees only the four own keys. Inherited `Object.prototype` names such as `constructor` are not modelled; in the code they would pass the truthiness test.
- `Text.Lower`: lower-cases ASCII letters only. Other characters, including accented capitals, are left as they are.
- `Cats.MainBreed`, `Cats.BreedName` and the other breed getters require non-nullish `breeds`. The code throws there, and the model does not produce the exception.
- `CacheStore.Cache.Size`: states only that the count is zero iff the map is empty. The count includes expired entries not yet removed.

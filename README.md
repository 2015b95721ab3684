# Inspire itinerary backend — a Dafny model

This project models the core of a small travel-itinerary backend. The
backend is an Express server that asks a language model for a JSON trip
itinerary, checks its shape, and fills in every `image` placeholder with a
photo URL from the Google place search. Before all that, it looks in a Redis
cache keyed by the requested location.

What is modelled:

- **The Redis wrapper** (`redisClient.js`): `createKey`, `readKey`, `updateKey`
  and `deleteKey`, in `redis_client.dfy`. The client is a class `Store`
  whose `entries: map<string, string>` the four methods update in place.
  Each method takes a `fault` flag that stands for the store call failing;
  every wrapper swallows that failure. `createKey` stores under
  `JSON.stringify(key)` with value `JSON.stringify(value)`; the other three
  use the raw key. `json.dfy` models `JSON.stringify` of a string, together
  with a decoder, and proves the round trip. The lemmas beside the class say
  what the key asymmetry means for callers.
- **`fetchPlacesImage`** (`photos.dfy`): what it makes of the search reply.
  - No candidate gives `"No photo available"`.
  - Otherwise it builds the photo URL from the first photo's reference, or
    from the literal `"image comming soon"` when that reference is missing.
  - Indexing a missing `photos` array throws.
- **`createItinerary`** (`generator.dfy`): the document is accepted only when
  `success` is truthy and `itinerary.trip` is present. Any other outcome,
  including a failed call or parse, becomes `{success: false, message:
  "Failed to generate itinerary"}`.
- **The enrichment loops** of `/generate-itinerary` (`enrich.dfy`):
  - For each day, in order: the accommodation, each activity, each dining
    option, then every necessary item again.
  - Each entry with a truthy image gets the lookup's answer.
  - A missing list or a lookup that throws aborts the walk.
  - The methods `EnrichList`, `EnrichDay` and `EnrichItinerary` are the loops.
    Each is proved to compute a specification function (`ListRun`, `DayRun`,
    `EnrichRun`). That function records the queries sent, in order, and the
    outcome.
  - `enrich_proofs.dfy` relates those functions to a plain reference rewrite
    (`Expected`) and to the planned list of queries (`Planned`). It proves:
    - when the walk succeeds;
    - what every image becomes;
    - how many lookups are made;
    - that nothing but images changes.
- **The two handlers** (`server.dfy`):
  - `/generate-itinerary` as a function `Respond` that returns the response and
    the external calls made. The method `GenerateItinerary` is proved equal to
    it.
  - `/redis` as the method `SeedCache` and the function `SeedReply`.
  - A cache hit answers with whatever JSON value the cached text parses to:
    a document, a string, null or another value.

The language-model reply, `JSON.parse`, the place search and the store's
failures are all inputs of the model:

- `reply`: the parsed model answer, or None.
- `parseOther`: JSON.parse of a cached text that is neither `null` nor a JSON
  string. Those two forms are parsed by the model itself: `null` gives null,
  and a JSON string text gives the string it encodes. Every value `createKey`
  writes is such a string text.
- `search`: the candidate list for a query, or `Threw`.
- the `fault` flags.

`Try<T>` (`Ok(value)` / `Threw`) stands for a JavaScript call that may throw.

## Model

| member | source | states |
|---|---|---|
| Json.Quote | redisClient.js:34 | JSON.stringify of a string is a quoted text at least two characters longer than the string |
| Json.Unquote | redisClient.js:34 | Only a quoted text decodes, and it decodes to a string shorter than the text |
| Json.UnquoteQuote | redisClient.js:34 | Decoding the stringified form of any string gives back that string (JSON.parse(JSON.stringify(s)) == s) |
| Json.UnescapeEscape | redisClient.js:34 | Decoding undoes the escaping of the string body, for every string |
| Json.QuoteInjective | redisClient.js:34 | Distinct keys (and values) are stored under distinct encodings |
| Json.QuoteChanges | redisClient.js:34 | The stringified form is at least two characters longer than the string, so it never equals it |
| RedisClient.AfterCreate | redisClient.js:32-39 | The stringified key is added with the stringified value; every other entry keeps its value |
| RedisClient.AfterUpdate | redisClient.js:56-63 | The raw key is added or overwritten with the raw value; every other entry keeps its value |
| RedisClient.AfterDelete | redisClient.js:65-72 | Exactly the raw key is removed; every remaining entry keeps its value |
| RedisClient.Lookup | redisClient.js:41-54 | A read of the store never yields undefined, and only ever returns a non-empty text; empty and missing entries read as null |
| RedisClient.Store.constructor | redisClient.js:4-10 | The client starts with the given entries |
| RedisClient.Store.CreateKey | redisClient.js:32-39 | On success the store maps the stringified key to the stringified value and is otherwise unchanged; a store error leaves it unchanged and is not reported |
| RedisClient.Store.ReadKey | redisClient.js:41-54 | A store error gives undefined; otherwise a truthy stored value is returned and a missing or empty one gives null |
| RedisClient.Store.UpdateKey | redisClient.js:56-63 | On success the raw key maps to the raw new value; a store error changes nothing |
| RedisClient.Store.DeleteKey | redisClient.js:65-72 | On success exactly the raw key is removed; a store error changes nothing |
| RedisClient.ReadMissesCreated | redisClient.js:32-54 | readKey(k) right after createKey(k, v) returns whatever was under the raw k before: null for a fresh k |
| RedisClient.CreatedUnderEncodedKey | redisClient.js:32-39 | The created entry is found under the encoded key, and both key and value decode back to the arguments |
| RedisClient.CreateKeepsOthers | redisClient.js:32-39 | createKey changes no key other than the encoded one |
| RedisClient.ReadAfterUpdate | redisClient.js:41-63 | readKey(k) after updateKey(k, v) gives v, or null when v is empty |
| RedisClient.DeleteOnlyRawKey | redisClient.js:65-72 | deleteKey(k) makes k read as null and keeps every other entry as it was |
| RedisClient.DeleteMissesCreated | redisClient.js:32-72 | deleteKey(k) does not remove the entry that createKey(k, v) made |
| Photos.FetchPlacesImage | index.js:40-54 | Search failure rethrows; no candidate gives "No photo available"; a first candidate without `photos` throws; otherwise the URL of its first photo's reference, or of "image comming soon" when that is missing; the answer is never empty and never the bare "image comming soon" |
| Photos.PhotoUrl | index.js:44 | The URL is the photo endpoint, then the reference, then `&key=` and the API key, each at a fixed position |
| Photos.FetchAnswers | index.js:40-50 | Every answer that is not a throw is the no-candidate sentinel or a photo URL |
| Photos.PhotoUrlDistinct | index.js:44 | A photo URL is never the no-candidate sentinel, and different references give different URLs |
| Generator.CreateItinerary | index.js:166-179 | The document is accepted exactly when it parsed, its `success` is truthy and its trip is present, and it is then returned unchanged; otherwise the result is the failure record with "Failed to generate itinerary", whose `success` is false |
| Enrich.EntryRun | index.js:214-218 | One entry asks for at most one lookup, with its own query, and only when its image is truthy |
| Enrich.ListRun | index.js:221-244 | A list loop asks for at most one lookup per entry and, when it completes, gives one entry per input entry |
| Enrich.DayRun | index.js:213-245 | A completed day had its accommodation, activities and dining options, and keeps its date, location and distance; the items list existed and keeps its length |
| Enrich.DaysRun | index.js:212-246 | A completed day loop gives one day per input day, and the items list existed if there was a day |
| Enrich.EnrichRun | index.js:209-249 | No trip means no lookup and the document unchanged; a completed walk keeps `success`, the totals, the trip's presence and the number of days |
| Enrich.ListRunThrewSticks | index.js:221-244 | Once a list walk has thrown, walking further entries changes neither the calls made nor the outcome |
| Enrich.DaysRunThrewSticks | index.js:212-246 | Once the day loop has thrown, further days change nothing |
| Enrich.EnrichList | index.js:221-244 | The loop over one list (activities, dining options or necessary items) makes exactly the lookups and gives exactly the outcome of ListRun |
| Enrich.EnrichDay | index.js:213-245 | One iteration of the day loop makes the lookups and gives the outcome of DayRun: accommodation, activities, dining options, then the necessary items, failing on a missing list |
| Enrich.EnrichItinerary | index.js:209-249 | The whole walk makes the lookups and gives the outcome of EnrichRun; with no trip it makes no lookup and returns the document unchanged |
| EnrichProofs.EntryRunMeaning | index.js:214-218 | One entry asks for its query exactly when its image is truthy, succeeds iff that lookup does not throw, and then holds the answer in its image |
| EnrichProofs.ListRunOk | index.js:221-244 | A list walk succeeds iff every query it plans (one per truthy image, in order) resolves |
| EnrichProofs.ListRunValue | index.js:221-244 | A successful list walk leaves the reference rewrite of every entry and has asked for exactly the planned queries, in order |
| EnrichProofs.ListRunFails | index.js:221-244 | A failed list walk has asked for a prefix of the planned queries: each earlier one resolved, and the last one threw |
| EnrichProofs.RewriteItemsTwice | index.js:238-245 | Re-resolving the already rewritten necessary items with the same answers leaves them as they are |
| EnrichProofs.WantedAfterRewrite | index.js:238-245 | After the first day, the items still wanting a lookup are among the original ones, and all of them when no answer is empty |
| EnrichProofs.DayRunOk | index.js:213-245 | One pass of the day loop succeeds iff the accommodation, activities, dining options and items list are all present and every query of the day and of the items resolves |
| EnrichProofs.DayRunValue | index.js:213-245 | A successful pass leaves the reference rewrite of the day and of the items list |
| EnrichProofs.DayRunQueries | index.js:213-245 | A successful pass had a complete day and an items list, and asked for the day's queries in order (accommodation, activities, dining options) and then the items' |
| EnrichProofs.DaysRunStep | index.js:212-246 | A successful day loop is a successful loop over all days but the last, then a successful pass over the last with the items the earlier days left |
| EnrichProofs.DaysRunValue | index.js:212-246 | A successful day loop produces the reference rewrite of every day, and the items rewritten once when there is at least one day |
| EnrichProofs.DaysRunOk | index.js:212-246 | The day loop succeeds iff every day is complete, the items list is present whenever there is a day, and every planned query resolves |
| EnrichProofs.DaysRunCalls | index.js:212-246 | When the lookup never answers an item's name with "", a successful day loop makes exactly the planned lookups in order |
| EnrichProofs.FirstDayCalls | index.js:212-246 | A successful one-day loop asks for that day's queries and then the items' |
| EnrichProofs.StepCalls | index.js:212-246 | When no item answer is empty, each further day of a successful loop adds its own queries and then the original items' queries |
| EnrichProofs.ItemsStable | index.js:238-245 | When no item answer is empty, the items list a later day sees asks for the same queries as the original list |
| EnrichProofs.PlannedHasDay | index.js:212-246 | Every query of any day, and every query of the items, is among the planned ones |
| EnrichProofs.EnrichMeaning | index.js:209-249 | For a document with a trip, enrichment succeeds iff the document is complete and every planned query resolves; it then returns the reference rewrite, and its calls are the plan when item answers are never empty |
| EnrichProofs.EnrichedImages | index.js:212-246 | After a successful walk, day by day and entry by entry: a truthy image holds the lookup's answer for "name, day location" (accommodation, dining), for the activity text alone (activity), or for the item name (item); falsy images and all other fields are untouched |
| EnrichProofs.PlannedCount | index.js:212-246 | The number of planned lookups is the days' own truthy-image entries plus, for every day, the number of necessary items with a truthy image |
| EnrichProofs.EraseExpected | index.js:212-246 | The reference rewrite differs from the input only in image fields |
| EnrichProofs.EnrichOnlyWritesImages | index.js:212-249 | A successful enrichment changes nothing but image fields |
| Server.Resolver | index.js:216-242 | The lookup each enrichment step awaits throws when the place search fails and otherwise never answers "" |
| Server.PhotoEffects | index.js:216-242 | One photo lookup per query, and no model call among them |
| Server.Hit | index.js:201 | Null and undefined reads are misses; a read text is a hit iff it is non-empty |
| Server.ParseCached | index.js:202 | JSON.parse of a cached text: `null` is null and a JSON string text is the string it encodes |
| Server.ParseStored | redisClient.js:34 | Every value createKey writes parses back to the very string it was given |
| Server.Respond | index.js:196-259 | The status is 200 or 500; a cache hit answers 200 with whatever JSON value the cached text parses to, with no external call (500 "Error occurred" when it does not parse); a miss makes exactly one model call, first; a miss whose generation fails answers 500 "Failed to generate itinerary" after that single call |
| Server.GenerateItinerary | index.js:196-259 | The handler's response and external calls are those of Respond for what readKey returned; it writes nothing to the store |
| Server.EnrichedWithPhotos | index.js:212-246 | After a successful walk with the place search, every truthy image of every entry holds the no-photo sentinel or a photo URL |
| Server.GeneratedAndEnriched | index.js:196-249 | A miss with a valid, complete document whose lookups do not throw answers 200 with the reference rewrite, after one model call and exactly the planned lookups, whose number is given by PlannedCount |
| Server.EnrichmentFails | index.js:209-257 | A miss with a valid document that lacks a list, or one of whose lookups throws, answers 500 "Error occurred" |
| Server.SeedInvisibleToGenerate | index.js:182-203 | Seeding the cache through /redis never changes what /generate-itinerary does for that location: the seed lands under the encoded key |
| Server.SeedCache | index.js:182-195 | /redis stores the stringified sample under the stringified location (unless the store fails), then replies with the parse of what the raw location reads |
| Server.SeedReply | index.js:186-192 | /redis only ever sends 200, with the parsed value; an undefined read or a text JSON.parse rejects sends nothing; a null read sends null |
| Server.SeedThenGenerateQuoted | index.js:182-203 | After /redis seeds a location, /generate-itinerary for the stringified location hits that entry and answers 200 with the sample as a JSON string, with no call |
| Server.SeedQuotedLocation | index.js:182-192 | Seeding a location and then its stringified form: the second /redis answers 200 with the first sample as a JSON string |
| Server.SeedReadsOldEntry | index.js:182-195 | /redis replies with what was under the raw location before the call, not the sample: 200 with null for a location never written raw |
| Server.SeedIdempotent | index.js:182-195 | Seeding twice with the same location leaves the same store and gives the same reply as seeding once |

## Left out

- Express routing, request bodies and CORS; the prompt text and the OpenAI call. The model's parsed answer is an input.
- The HTTP request to the place search: its reply is an input (`Try<seq<Candidate>>`). The `place_id` field is read by the source but unused; it is kept in the datatype only.
- The Redis connection lifecycle and its password, host and port (redisClient.js:4-29); each store failure is a `fault` flag.
- Logging (`console.log` / `console.error`); none of it affects results.
- Asynchrony and concurrent requests. Each handler is modelled as one uninterrupted sequence of steps.
- Full JSON.parse of a cached text other than `null` or a JSON string: it is the `parseOther` input. Only `JSON.stringify` of a string, which createKey applies to its key and value, is modelled character by character. JSON values other than documents, strings and null are collapsed into one `OtherValue`.
- `tempRes`, the fixed sample document of /redis: it is the `sample` input, already stringified once. createKey stringifies it again, as the code does.
- The `error` object in the 500 body of the outer catch: the model keeps only the status and `message`.
- JavaScript truthiness is modelled for the fields the code tests: a string is truthy iff non-empty, and `success` is a bool.
- `null` entries: a `null` day in the itinerary object, and a `null` element of `activities` or `dining_options`, make the source throw a TypeError and answer 500 "Error occurred"; a `null` element of `necessary_items` is skipped by `item?.image`. None of these is represented: the datatypes hold a day and every entry as a record, so the model does not capture those throws or that skip. Non-string image values are not represented either.
- Days are a sequence in the order `for ... in` visits them. An absent `trip.itinerary` is modelled as no days, since `for ... in` over undefined does nothing.
- Json.Unquote: decodes more than Json.Quote writes. Besides every output of Json.Quote, it accepts the escape `\/` and any `\uXXXX` escape of a non-surrogate code point, with hex digits of either case (so `"\u0041"` decodes to `A`). A `\u` escape naming half of a surrogate pair is rejected rather than paired with its partner, although JSON.parse accepts it.
- Enrich.EnrichItinerary: the walk is modelled on values, threading the rewritten items from day to day. The source mutates a freshly parsed tree that nothing else references, so in-place update and aliasing are not modelled.
- Server.GenerateItinerary: the cache write-back that the handler does not do is not modelled.
- The documentation describes a candidate without a photo as returning the bare sentinel "image coming soon". The code embeds "image comming soon" in the photo URL when the first photo or its reference is missing, and throws when the `photos` field is absent. The model follows the code.
- The documentation describes a cache read as returning the stored string or null. The code also turns an empty stored string into null, and a store error into undefined. The model follows the code.

/**
 * The two request handlers of index.js, with their external calls as inputs:
 * `reply` is the language model's parsed answer (None when the call or the
 * parse failed), `parseOther` is JSON.parse of a cached text that is neither
 * `null` nor a JSON string, `search` is the place search for a query, and the
 * fault flags stand for store calls that fail.
 */
module Server {
  import opened Wrappers
  import opened Itinerary
  import RedisClient
  import Photos
  import Generator
  import Json
  import opened Enrich
  import opened EnrichSpec
  import EnrichProofs

  /** What JSON.parse makes of a cached text: a document, a string, null, or some other JSON value. */
  datatype JsonValue = DocValue(doc: Document) | StringValue(text: string) | NullValue | OtherValue

  /** A response body: a generated document, `{success: false, message}`, or a value parsed from the cache. */
  datatype Body = Doc(doc: Document) | Failure(message: string) | Cached(value: JsonValue)

  datatype Response = Response(status: int, body: Body)

  /** A call to a paid external service: the language model, or the place search for a query. */
  datatype Effect = Generate | Photo(query: string)

  const ErrorOccurred := "Error occurred"

  /** The photo lookup the enrichment uses: the place search for the query, then fetchPlacesImage's selection. */
  function Resolver(search: string -> Try<seq<Photos.Candidate>>, apiKey: string): (r: string -> Try<string>)
    ensures forall q :: search(q).Threw? ==> r(q).Threw?
    ensures forall q :: r(q).Ok? ==> r(q).value != ""
  {
    q => Photos.FetchPlacesImage(search(q), apiKey)
  }

  function PhotoEffects(calls: seq<string>): (e: seq<Effect>)
    ensures |e| == |calls| && Generate !in e
  {
    seq(|calls|, k requires 0 <= k < |calls| => Photo(calls[k]))
  }

  /** `val?.length > 0`: a cache hit. A null or undefined read is a miss. */
  predicate Hit(read: RedisClient.Read): (b: bool)
    ensures b ==> read != RedisClient.Null && read != RedisClient.Undefined
    ensures read.Value? ==> (b <==> read.text != "")
  {
    read.Value? && |read.text| > 0
  }

  /**
   * JSON.parse of a cached text. The text `null` gives null and a JSON string
   * text gives the string it encodes; every other text is left to
   * `parseOther`, which is None where JSON.parse throws.
   */
  function ParseCached(text: string, parseOther: string -> Option<JsonValue>): (v: Option<JsonValue>)
    ensures text == "null" ==> v == Some(NullValue)
    ensures Json.Unquote(text).Some? ==> v == Some(StringValue(Json.Unquote(text).value))
  {
    if text == "null" then Some(NullValue)
    else match Json.Unquote(text)
      case Some(s) => Some(StringValue(s))
      case None => parseOther(text)
  }

  /** Every value createKey writes parses back to the string it was given. */
  lemma ParseStored(value: string, parseOther: string -> Option<JsonValue>)
    ensures ParseCached(Json.Quote(value), parseOther) == Some(StringValue(value))
  {
    Json.UnquoteQuote(value);
  }

  /**
   * The response of /generate-itinerary and the external calls it makes,
   * given what readKey returned for the request's location. A hit answers
   * from the cache alone; a miss asks the model once and, if the document is
   * valid, enriches it. Nothing is ever written to the store.
   */
  function Respond(read: RedisClient.Read, parseOther: string -> Option<JsonValue>, reply: Option<Document>,
                   resolve: string -> Try<string>): (r: (Response, seq<Effect>))
    ensures r.0.status == 200 || r.0.status == 500
    ensures Hit(read) ==> r.1 == [] && r.0 == match ParseCached(read.text, parseOther)
      case Some(v) => Response(200, Cached(v))
      case None => Response(500, Failure(ErrorOccurred))
    ensures !Hit(read) ==> |r.1| >= 1 && r.1[0] == Generate && Generate !in r.1[1..]
    ensures !Hit(read) && !Generator.CreateItinerary(reply).Generated? ==>
      r == (Response(500, Failure(Generator.GenerationFailure)), [Generate])
  {
    if Hit(read) then
      match ParseCached(read.text, parseOther)
      case Some(v) => (Response(200, Cached(v)), [])
      case None => (Response(500, Failure(ErrorOccurred)), [])
    else
      var result := Generator.CreateItinerary(reply);
      if result.Success() then
        var run := EnrichRun(result.doc, resolve);
        var effects := [Generate] + PhotoEffects(run.calls);
        assert effects[1..] == PhotoEffects(run.calls);
        match run.out
        case Ok(d) => (Response(200, Doc(d)), effects)
        case Threw => (Response(500, Failure(ErrorOccurred)), effects)
      else
        (Response(500, Failure(Generator.GenerationFailure)), [Generate])
  }

  /** POST /generate-itinerary. It has no modifies clause: the handler never writes to the store. */
  method GenerateItinerary(store: RedisClient.Store, location: string, readFault: bool,
                           parseOther: string -> Option<JsonValue>, reply: Option<Document>,
                           search: string -> Try<seq<Photos.Candidate>>, apiKey: string)
    returns (response: Response, effects: seq<Effect>)
    ensures (response, effects) ==
      Respond(if readFault then RedisClient.Undefined else RedisClient.Lookup(store.entries, location),
              parseOther, reply, Resolver(search, apiKey))
  {
    var val := store.ReadKey(location, readFault);
    if val.Value? && |val.text| > 0 {
      var cached := ParseCached(val.text, parseOther);
      effects := [];
      if cached.Some? {
        response := Response(200, Cached(cached.value));
      } else {
        response := Response(500, Failure(ErrorOccurred));
      }
      return;
    }
    var result := Generator.CreateItinerary(reply);
    effects := [Generate];
    if result.Success() {
      var run := EnrichItinerary(result.doc, Resolver(search, apiKey));
      effects := effects + PhotoEffects(run.calls);
      if run.out.Ok? {
        response := Response(200, Doc(run.out.value));
      } else {
        response := Response(500, Failure(ErrorOccurred));
      }
    } else {
      response := Response(500, Failure(Generator.GenerationFailure));
    }
  }

  /**
   * A miss whose generated document is valid and complete, with a photo lookup
   * that does not throw for any query the walk makes: the response is 200 with the enriched document, and the
   * calls are one generation, then every planned photo lookup in order: per
   * day its own entries, then each necessary item with a truthy image again.
   */
  lemma GeneratedAndEnriched(read: RedisClient.Read, parseOther: string -> Option<JsonValue>, doc: Document,
                             search: string -> Try<seq<Photos.Candidate>>, apiKey: string)
    requires !Hit(read) && doc.success && doc.trip.Some?
    requires Complete(doc.trip.value.days, doc.necessaryItems)
    requires forall q :: q in Planned(doc.trip.value.days, doc.necessaryItems) ==> Photos.FetchPlacesImage(search(q), apiKey).Ok?
    ensures var resolve := Resolver(search, apiKey);
      var r := Respond(read, parseOther, Some(doc), resolve);
      var planned := Planned(doc.trip.value.days, doc.necessaryItems);
      && r.0 == Response(200, Doc(Expected(doc, UrlOf(resolve))))
      && r.1 == [Generate] + PhotoEffects(planned)
      && |r.1| == 1 + DayNeeds(doc.trip.value.days)
                  + |doc.trip.value.days| * |Wanted(OrEmpty(doc.necessaryItems), ItemSlot())|
  {
    var resolve := Resolver(search, apiKey);
    var planned := Planned(doc.trip.value.days, doc.necessaryItems);
    assert forall q :: resolve(q) == Photos.FetchPlacesImage(search(q), apiKey);
    assert forall q :: resolve(q).Ok? ==> resolve(q).value != "";
    EnrichProofs.EnrichMeaning(doc, resolve);
    var run := EnrichRun(doc, resolve);
    assert run.out.Ok? && run.calls == planned;
    assert Generator.CreateItinerary(Some(doc)) == Generator.Generated(doc);
    EnrichProofs.PlannedCount(doc.trip.value.days, doc.necessaryItems);
  }

  /**
   * After a completed walk with the place-search lookup, every entry of day i
   * and every necessary item that had a truthy image holds the no-photo
   * sentinel or a photo URL built with the API key.
   */
  lemma EnrichedWithPhotos(doc: Document, search: string -> Try<seq<Photos.Candidate>>, apiKey: string, i: nat)
    requires doc.trip.Some? && EnrichRun(doc, Resolver(search, apiKey)).out.Ok? && i < |doc.trip.value.days|
    ensures var day := doc.trip.value.days[i]; var after := EnrichRun(doc, Resolver(search, apiKey)).out.value;
      && after.trip.Some? && |after.trip.value.days| == |doc.trip.value.days|
      && DayComplete(day) && DayComplete(after.trip.value.days[i])
      && (day.accommodation.value.image != "" ==>
            Photos.IsPhotoAnswer(after.trip.value.days[i].accommodation.value.image, apiKey))
    ensures var day := doc.trip.value.days[i]; var after := EnrichRun(doc, Resolver(search, apiKey)).out.value.trip.value.days[i];
      && |after.activities.value| == |day.activities.value|
      && forall k :: 0 <= k < |day.activities.value| && day.activities.value[k].image != "" ==>
           Photos.IsPhotoAnswer(after.activities.value[k].image, apiKey)
    ensures var day := doc.trip.value.days[i]; var after := EnrichRun(doc, Resolver(search, apiKey)).out.value.trip.value.days[i];
      && |after.diningOptions.value| == |day.diningOptions.value|
      && forall k :: 0 <= k < |day.diningOptions.value| && day.diningOptions.value[k].image != "" ==>
           Photos.IsPhotoAnswer(after.diningOptions.value[k].image, apiKey)
    ensures var after := EnrichRun(doc, Resolver(search, apiKey)).out.value;
      && doc.necessaryItems.Some? && after.necessaryItems.Some?
      && |after.necessaryItems.value| == |doc.necessaryItems.value|
      && forall k :: 0 <= k < |doc.necessaryItems.value| && doc.necessaryItems.value[k].image != "" ==>
           Photos.IsPhotoAnswer(after.necessaryItems.value[k].image, apiKey)
  {
    var resolve := Resolver(search, apiKey);
    forall q | resolve(q).Ok? ensures Photos.IsPhotoAnswer(resolve(q).value, apiKey) {
      Photos.FetchAnswers(search(q), apiKey);
    }
    EnrichProofs.EnrichedImages(doc, resolve, i);
  }

  /**
   * A miss whose generated document is valid but lacks a list the walk
   * dereferences, or one of whose lookups throws: the error is caught at the
   * outermost handler and the response is 500 "Error occurred".
   */
  lemma EnrichmentFails(read: RedisClient.Read, parseOther: string -> Option<JsonValue>, doc: Document,
                        resolve: string -> Try<string>)
    requires !Hit(read) && doc.success && doc.trip.Some?
    requires !Complete(doc.trip.value.days, doc.necessaryItems)
          || exists q :: q in Planned(doc.trip.value.days, doc.necessaryItems) && resolve(q).Threw?
    ensures Respond(read, parseOther, Some(doc), resolve).0 == Response(500, Failure(ErrorOccurred))
  {
    EnrichProofs.EnrichMeaning(doc, resolve);
  }

  /** Seeding the cache through /redis never produces a hit for /generate-itinerary: the handler reads the raw location, the seed wrote its encoding. */
  lemma SeedInvisibleToGenerate(m: map<string, string>, location: string, sample: string,
                                parseOther: string -> Option<JsonValue>, reply: Option<Document>,
                                resolve: string -> Try<string>)
    ensures Respond(RedisClient.Lookup(RedisClient.AfterCreate(m, location, sample), location), parseOther, reply, resolve)
         == Respond(RedisClient.Lookup(m, location), parseOther, reply, resolve)
  {
    RedisClient.ReadMissesCreated(m, location, sample);
  }

  /**
   * After /redis seeded `location`, /generate-itinerary for the stringified
   * location (quotation marks included) hits the seeded entry: it answers 200
   * with the sample as a JSON string, not as a document, and calls nothing.
   */
  lemma SeedThenGenerateQuoted(m: map<string, string>, location: string, sample: string,
                               parseOther: string -> Option<JsonValue>, reply: Option<Document>,
                               resolve: string -> Try<string>)
    ensures Respond(RedisClient.Lookup(RedisClient.AfterCreate(m, location, sample), Json.Quote(location)),
                    parseOther, reply, resolve)
         == (Response(200, Cached(StringValue(sample))), [])
  {
    ParseStored(sample, parseOther);
  }

  /** What /redis does with the value it reads back: a reply, or none at all when JSON.parse throws. */
  datatype Seeded = Sent(response: Response) | NoResponse

  /** `res.status(200).json(JSON.parse(val))`: JSON.parse(null) is null; JSON.parse(undefined) or of a bad text throws, and the catch sends nothing. */
  function SeedReply(read: RedisClient.Read, parseOther: string -> Option<JsonValue>): (r: Seeded)
    ensures r.Sent? ==> r.response.status == 200 && r.response.body.Cached?
    ensures read.Undefined? ==> r == NoResponse
    ensures read.Null? ==> r == Sent(Response(200, Cached(NullValue)))
    ensures read.Value? ==> (r.Sent? <==> ParseCached(read.text, parseOther).Some?)
  {
    if read.Value? then
      match ParseCached(read.text, parseOther)
      case Some(v) => Sent(Response(200, Cached(v)))
      case None => NoResponse
    else if read.Null? then Sent(Response(200, Cached(NullValue)))
    else NoResponse
  }

  /** POST /redis: createKey(location, sample), then readKey(location); `sample` is JSON.stringify of the sample document. */
  method SeedCache(store: RedisClient.Store, location: string, sample: string, parseOther: string -> Option<JsonValue>,
                   writeFault: bool, readFault: bool)
    returns (reply: Seeded)
    modifies store
    ensures store.entries == if writeFault then old(store.entries) else RedisClient.AfterCreate(old(store.entries), location, sample)
    ensures reply == SeedReply(if readFault then RedisClient.Undefined else RedisClient.Lookup(store.entries, location), parseOther)
  {
    store.CreateKey(location, sample, writeFault);
    var val := store.ReadKey(location, readFault);
    if val.Value? {
      var parsed := ParseCached(val.text, parseOther);
      if parsed.Some? {
        reply := Sent(Response(200, Cached(parsed.value)));
      } else {
        reply := NoResponse;
      }
    } else if val.Null? {
      reply := Sent(Response(200, Cached(NullValue)));
    } else {
      reply := NoResponse;
    }
  }

  /**
   * /redis answers with what was under the raw location before the call, not
   * with the sample it just stored: on a location never written raw, the
   * answer is 200 with a null body.
   */
  lemma SeedReadsOldEntry(m: map<string, string>, location: string, sample: string, parseOther: string -> Option<JsonValue>)
    ensures SeedReply(RedisClient.Lookup(RedisClient.AfterCreate(m, location, sample), location), parseOther)
         == SeedReply(RedisClient.Lookup(m, location), parseOther)
    ensures location !in m ==>
      SeedReply(RedisClient.Lookup(RedisClient.AfterCreate(m, location, sample), location), parseOther) == Sent(Response(200, Cached(NullValue)))
  {
    RedisClient.ReadMissesCreated(m, location, sample);
  }

  /** Seeding twice with the same location leaves the same store and gives the same answer as seeding once. */
  lemma SeedIdempotent(m: map<string, string>, location: string, sample: string, parseOther: string -> Option<JsonValue>)
    ensures var once := RedisClient.AfterCreate(m, location, sample);
      var twice := RedisClient.AfterCreate(once, location, sample);
      && twice == once
      && SeedReply(RedisClient.Lookup(twice, location), parseOther) == SeedReply(RedisClient.Lookup(once, location), parseOther)
  {
  }

  /**
   * Seeding `location`, then seeding its stringified form: the second /redis
   * reads the entry the first one wrote and answers 200 with the first sample
   * as a JSON string.
   */
  lemma SeedQuotedLocation(m: map<string, string>, location: string, first: string, second: string,
                           parseOther: string -> Option<JsonValue>)
    ensures var once := RedisClient.AfterCreate(m, location, first);
      var twice := RedisClient.AfterCreate(once, Json.Quote(location), second);
      SeedReply(RedisClient.Lookup(twice, Json.Quote(location)), parseOther) == Sent(Response(200, Cached(StringValue(first))))
  {
    Json.QuoteChanges(Json.Quote(location));
    ParseStored(first, parseOther);
  }
}

/**
 * The weather request handler: validate the city code, answer from the
 * cache if a live entry exists, otherwise require the API key, fetch,
 * check for a location, normalise, store in the cache and answer; every
 * failure ends in a structured error response.
 *
 * `Decide` is the handler's specification as a function of the cache
 * contents before the request, the request's city, whether an API key is
 * configured, how the upstream call would end, and the clock at the cache
 * read and at the cache write. The method `GetCityWeather` runs the steps in
 * the source's order against a `WeatherCache` object and is proved to agree
 * with it; the lemmas state the ordering and "no fetch, no cache write"
 * properties of each branch.
 */
module Handler {
  import opened Optional
  import opened Upstream
  import opened Normalizer
  import opened Cache
  import opened CityRegistry

  /** What the handler answers, one variant per exit of the procedure. */
  datatype Response =
    | WeatherData(data: Forecast, cached: bool)
    | InvalidCity(availableCities: seq<string>)
    | MissingApiKey
    | LocationNotFound(cityName: string)
    | UpstreamFailure(status: int, message: string, details: ErrorBody)
    | ServerError

  /** The HTTP status of each response: 200 exactly for data, otherwise an error status. */
  function Status(r: Response): (s: int)
    ensures !r.UpstreamFailure? ==> (s == 200 <==> r.WeatherData?)
    ensures !r.UpstreamFailure? ==> 200 <= s < 600
  {
    match r
    case WeatherData(_, _) => 200
    case InvalidCity(_) => 400
    case MissingApiKey => 500
    case LocationNotFound(_) => 404
    case UpstreamFailure(status, _, _) => status
    case ServerError => 500
  }

  /** The `error` field of an error response ("" for a success). */
  function ErrorTitle(r: Response): (t: string)
    ensures t == "" <==> r.WeatherData?
  {
    match r
    case WeatherData(_, _) => ""
    case InvalidCity(_) => "無效的縣市代碼"
    case MissingApiKey => "伺服器設定錯誤"
    case LocationNotFound(_) => "查無資料"
    case UpstreamFailure(_, _, _) => "CWA API 錯誤"
    case ServerError => "伺服器錯誤"
  }

  /** The `message` field of an error response ("" for a success). */
  function Message(r: Response): (m: string)
    ensures r.WeatherData? ==> m == ""
    ensures !r.WeatherData? && !r.UpstreamFailure? ==> m != ""
    ensures r.UpstreamFailure? ==> m == r.message
  {
    match r
    case WeatherData(_, _) => ""
    case InvalidCity(_) => "請使用有效的縣市代碼"
    case MissingApiKey => "請在 .env 檔案中設定 CWA_API_KEY"
    case LocationNotFound(name) => "無法取得" + name + "天氣資料"
    case UpstreamFailure(_, message, _) => message
    case ServerError => "無法取得天氣資料，請稍後再試"
  }

  /** The upstream body's message when it is non-empty, else a fixed text. */
  function UpstreamMessage(body: ErrorBody): (m: string)
    ensures m != ""
    ensures body.message != "" ==> m == body.message
  {
    if body.message != "" then body.message else "無法取得天氣資料"
  }

  /** The cache key of a lower-cased city code. */
  function CacheKey(code: string): string {
    "weather_" + code
  }

  /** The response, whether the provider was called, and the cache afterwards. */
  datatype Step = Step(response: Response, fetched: bool, entries: map<string, Entry>)

  /** The handler's specification: one request, start to finish. */
  function Decide(entries: map<string, Entry>, city: string, hasApiKey: bool, upstream: FetchOutcome,
                  readTime: nat, storeTime: nat): Step
  {
    var code := ToLower(city);
    match Resolve(code)
    case None => Step(InvalidCity(Codes()), false, entries)
    case Some(name) => AfterValidation(entries, CacheKey(code), name, hasApiKey, upstream, readTime, storeTime)
  }

  /** From the cache check on, for a valid code with cache key `key` and provider name `name`. */
  function AfterValidation(entries: map<string, Entry>, key: string, name: string, hasApiKey: bool,
                           upstream: FetchOutcome, readTime: nat, storeTime: nat): Step
  {
    var remaining := AfterRead(entries, key, readTime);
    match Read(entries, key, readTime)
    case Some(data) => Step(WeatherData(data, true), false, remaining)
    case None =>
      if !hasApiKey then Step(MissingApiKey, false, remaining)
      else AfterFetch(remaining, key, name, upstream, storeTime)
  }

  /** From the provider's answer on, with the cache as the read left it. */
  function AfterFetch(remaining: map<string, Entry>, key: string, name: string, upstream: FetchOutcome,
                      storeTime: nat): Step
  {
    match upstream
    case HttpError(status, body) => Step(UpstreamFailure(status, UpstreamMessage(body), body), true, remaining)
    case OtherError => Step(ServerError, true, remaining)
    case Fetched(records) =>
      if |records.location| == 0 then Step(LocationNotFound(name), true, remaining)
      else
        match NormalizeSpec(records.location[0], records.datasetDescription)
        case Malformed => Step(ServerError, true, remaining)
        case Normalized(f) => Step(WeatherData(f, false), true, Write(remaining, key, f, storeTime))
  }

  /**
   * The handler as the source runs it, with early returns; `fetched` is set
   * where the provider would be called.
   */
  method GetCityWeather(cache: WeatherCache, city: string, hasApiKey: bool, upstream: FetchOutcome,
                        readTime: nat, storeTime: nat) returns (response: Response, fetched: bool)
    modifies cache
    ensures Step(response, fetched, cache.entries) ==
            Decide(old(cache.entries), city, hasApiKey, upstream, readTime, storeTime)
  {
    var cityCode := ToLower(city);
    var cityName := Resolve(cityCode);
    if cityName.None? {
      return InvalidCity(Codes()), false;
    }
    var cacheKey := CacheKey(cityCode);
    var cachedData := cache.Get(cacheKey, readTime);
    if cachedData.Some? {
      return WeatherData(cachedData.value, true), false;
    }
    if !hasApiKey {
      return MissingApiKey, false;
    }
    fetched := true;
    match upstream {
      case HttpError(status, body) =>
        response := UpstreamFailure(status, UpstreamMessage(body), body);
      case OtherError =>
        response := ServerError;
      case Fetched(records) =>
        if |records.location| == 0 {
          return LocationNotFound(cityName.value), true;
        }
        var normalized := Normalize(records.location[0], records.datasetDescription);
        if normalized.Malformed? {
          return ServerError, true;
        }
        cache.Set(cacheKey, normalized.forecast, storeTime);
        response := WeatherData(normalized.forecast, false);
    }
  }

  // ---------------------------------------------------------------------
  // One request, branch by branch

  /**
   * A request is rejected as invalid exactly when the lower case of its code
   * is not one of the 22 codes; the rejection is a 400 listing the codes in
   * declaration order, with no cache access and no fetch.
   */
  lemma InvalidCodeRejected(entries: map<string, Entry>, city: string, hasApiKey: bool, upstream: FetchOutcome,
                            readTime: nat, storeTime: nat)
    ensures var s := Decide(entries, city, hasApiKey, upstream, readTime, storeTime);
            s.response.InvalidCity? <==> ToLower(city) !in Codes()
    ensures var s := Decide(entries, city, hasApiKey, upstream, readTime, storeTime);
            s.response.InvalidCity? ==>
              s.response.availableCities == Codes() && |Codes()| == 22 &&
              Status(s.response) == 400 && !s.fetched && s.entries == entries &&
              ErrorTitle(s.response) == "無效的縣市代碼" && Message(s.response) == "請使用有效的縣市代碼"
  {
    var code := ToLower(city);
    ResolveIffListed(code);
    if Resolve(code).None? {
      assert Decide(entries, city, hasApiKey, upstream, readTime, storeTime) == Step(InvalidCity(Codes()), false, entries);
    } else {
      assert !AfterValidation(entries, CacheKey(code), Resolve(code).value, hasApiKey, upstream, readTime, storeTime).response.InvalidCity?;
    }
  }

  /**
   * A live cache entry is served, marked as cached, before the API key is
   * looked at: whatever the key and the provider would do, nothing is
   * fetched and the cache is unchanged.
   */
  lemma CacheHitServedFirst(entries: map<string, Entry>, city: string, hasApiKey: bool, upstream: FetchOutcome,
                            readTime: nat, storeTime: nat, data: Forecast)
    requires IsValidCode(city)
    requires Read(entries, CacheKey(ToLower(city)), readTime) == Some(data)
    ensures var s := Decide(entries, city, hasApiKey, upstream, readTime, storeTime);
            s.response == WeatherData(data, true) && Status(s.response) == 200 &&
            ErrorTitle(s.response) == "" && !s.fetched && s.entries == entries
  {
  }

  /** On a miss without an API key the answer is a 500 and the provider is not called. */
  lemma MissingApiKeyNoFetch(entries: map<string, Entry>, city: string, upstream: FetchOutcome,
                             readTime: nat, storeTime: nat)
    requires IsValidCode(city)
    requires Read(entries, CacheKey(ToLower(city)), readTime).None?
    ensures var s := Decide(entries, city, false, upstream, readTime, storeTime);
            s.response == MissingApiKey && Status(s.response) == 500 && !s.fetched &&
            ErrorTitle(s.response) == "伺服器設定錯誤" &&
            Message(s.response) == "請在 .env 檔案中設定 CWA_API_KEY" &&
            s.entries == AfterRead(entries, CacheKey(ToLower(city)), readTime)
  {
  }

  /** The provider is called exactly for a valid code, on a cache miss, with an API key. */
  lemma FetchOnlyWhenNeeded(entries: map<string, Entry>, city: string, hasApiKey: bool, upstream: FetchOutcome,
                            readTime: nat, storeTime: nat)
    ensures Decide(entries, city, hasApiKey, upstream, readTime, storeTime).fetched <==>
              IsValidCode(city) && Read(entries, CacheKey(ToLower(city)), readTime).None? && hasApiKey
  {
    var code := ToLower(city);
    var key := CacheKey(code);
    if Resolve(code).Some? && Read(entries, key, readTime).None? && hasApiKey {
      AfterFetchWritesOnlyFreshData(AfterRead(entries, key, readTime), key, Resolve(code).value, upstream, storeTime);
    }
  }

  /** An upstream HTTP error is answered with its status and body, and nothing is cached. */
  lemma UpstreamErrorMirrored(entries: map<string, Entry>, city: string, status: int, body: ErrorBody,
                              readTime: nat, storeTime: nat)
    requires IsValidCode(city)
    requires Read(entries, CacheKey(ToLower(city)), readTime).None?
    ensures var s := Decide(entries, city, true, HttpError(status, body), readTime, storeTime);
            s.response == UpstreamFailure(status, UpstreamMessage(body), body) &&
            Status(s.response) == status && s.fetched &&
            ErrorTitle(s.response) == "CWA API 錯誤" &&
            Message(s.response) == (if body.message != "" then body.message else "無法取得天氣資料") &&
            s.entries == AfterRead(entries, CacheKey(ToLower(city)), readTime)
  {
  }

  /** An empty location list is answered with a 404 naming the city, and nothing is cached. */
  lemma EmptyLocationNotFound(entries: map<string, Entry>, city: string, records: Records,
                              readTime: nat, storeTime: nat)
    requires IsValidCode(city)
    requires Read(entries, CacheKey(ToLower(city)), readTime).None?
    requires records.location == []
    ensures var s := Decide(entries, city, true, Fetched(records), readTime, storeTime);
            s.response == LocationNotFound(Resolve(ToLower(city)).value) && Status(s.response) == 404 &&
            ErrorTitle(s.response) == "查無資料" &&
            Message(s.response) == "無法取得" + Resolve(ToLower(city)).value + "天氣資料" &&
            s.fetched && s.entries == AfterRead(entries, CacheKey(ToLower(city)), readTime)
  {
  }

  /**
   * A failure without an upstream response, or a payload the normaliser
   * cannot read, is answered with a generic 500, and nothing is cached.
   */
  lemma OtherFailureServerError(entries: map<string, Entry>, city: string, upstream: FetchOutcome,
                                readTime: nat, storeTime: nat)
    requires IsValidCode(city)
    requires Read(entries, CacheKey(ToLower(city)), readTime).None?
    requires upstream.OtherError? ||
             (upstream.Fetched? && |upstream.records.location| > 0 &&
              NormalizeSpec(upstream.records.location[0], upstream.records.datasetDescription).Malformed?)
    ensures var s := Decide(entries, city, true, upstream, readTime, storeTime);
            s.response == ServerError && Status(s.response) == 500 && s.fetched &&
            ErrorTitle(s.response) == "伺服器錯誤" && Message(s.response) == "無法取得天氣資料，請稍後再試" &&
            s.entries == AfterRead(entries, CacheKey(ToLower(city)), readTime)
  {
  }

  /**
   * A successful normalisation is stored under the request's key, stamped
   * with the write time, and served marked as not cached.
   */
  lemma FreshDataStoredAndServed(entries: map<string, Entry>, city: string, records: Records,
                                 readTime: nat, storeTime: nat, f: Forecast)
    requires IsValidCode(city)
    requires Read(entries, CacheKey(ToLower(city)), readTime).None?
    requires |records.location| > 0
    requires NormalizeSpec(records.location[0], records.datasetDescription) == Normalized(f)
    ensures var s := Decide(entries, city, true, Fetched(records), readTime, storeTime);
            var key := CacheKey(ToLower(city));
            s.response == WeatherData(f, false) && Status(s.response) == 200 && ErrorTitle(s.response) == "" &&
            s.fetched &&
            s.entries == Write(AfterRead(entries, key, readTime), key, f, storeTime) &&
            s.entries[key] == Entry(f, storeTime)
  {
  }

  /** After the fetch, the cache is written only when fresh data is served. */
  lemma AfterFetchWritesOnlyFreshData(remaining: map<string, Entry>, key: string, name: string,
                                      upstream: FetchOutcome, storeTime: nat)
    ensures var s := AfterFetch(remaining, key, name, upstream, storeTime);
            s.fetched &&
            if s.response.WeatherData? && !s.response.cached
            then s.entries == Write(remaining, key, s.response.data, storeTime)
            else s.entries == remaining
  {
  }

  /** The cache is written only when fresh data is served. */
  lemma WriteOnlyOnFreshData(entries: map<string, Entry>, city: string, hasApiKey: bool, upstream: FetchOutcome,
                             readTime: nat, storeTime: nat)
    ensures var s := Decide(entries, city, hasApiKey, upstream, readTime, storeTime);
            var key := CacheKey(ToLower(city));
            if s.response.WeatherData? && !s.response.cached
            then s.fetched && s.entries == Write(AfterRead(entries, key, readTime), key, s.response.data, storeTime)
            else s.entries == entries || s.entries == AfterRead(entries, key, readTime)
  {
    var code := ToLower(city);
    var key := CacheKey(code);
    if Resolve(code).Some? && Read(entries, key, readTime).None? && hasApiKey {
      AfterFetchWritesOnlyFreshData(AfterRead(entries, key, readTime), key, Resolve(code).value, upstream, storeTime);
    }
  }

  /** A request touches no cache entry but the one under its own key. */
  lemma OtherKeysUntouched(entries: map<string, Entry>, city: string, hasApiKey: bool, upstream: FetchOutcome,
                           readTime: nat, storeTime: nat, other: string)
    requires other != CacheKey(ToLower(city))
    ensures var s := Decide(entries, city, hasApiKey, upstream, readTime, storeTime);
            (other in s.entries <==> other in entries) &&
            (other in entries ==> s.entries[other] == entries[other])
  {
    WriteOnlyOnFreshData(entries, city, hasApiKey, upstream, readTime, storeTime);
  }

  /** Requests whose codes differ only in case are handled identically. */
  lemma CaseInsensitiveRequests(entries: map<string, Entry>, a: string, b: string, hasApiKey: bool,
                                upstream: FetchOutcome, readTime: nat, storeTime: nat)
    requires ToLower(a) == ToLower(b)
    ensures Decide(entries, a, hasApiKey, upstream, readTime, storeTime) ==
            Decide(entries, b, hasApiKey, upstream, readTime, storeTime)
  {
  }

  // ---------------------------------------------------------------------
  // Scenarios

  /** "unknown", in any case, is a 400 listing the 22 codes, whatever the cache holds. */
  lemma UnknownCityScenario(entries: map<string, Entry>, city: string, hasApiKey: bool, upstream: FetchOutcome,
                            readTime: nat, storeTime: nat)
    requires ToLower(city) == "unknown"
    ensures Decide(entries, city, hasApiKey, upstream, readTime, storeTime) ==
            Step(InvalidCity(Codes()), false, entries)
    ensures |Codes()| == 22
  {
    UnknownRejected(city);
    ResolveIffListed(ToLower(city));
  }

  /** "taipei" on an empty cache with no API key is a 500 without a fetch. */
  lemma NoApiKeyScenario(city: string, upstream: FetchOutcome, readTime: nat, storeTime: nat)
    requires ToLower(city) == "taipei"
    ensures var s := Decide(map[], city, false, upstream, readTime, storeTime);
            s.response == MissingApiKey && Status(s.response) == 500 && !s.fetched &&
            Message(s.response) == "請在 .env 檔案中設定 CWA_API_KEY"
  {
    CaseInsensitiveLookup(city, 0);
  }

  /**
   * A second request for the same city (in any case), at most `CACHE_TTL`
   * after the first one stored fresh data, is served that data from the
   * cache without a fetch, whatever the API key and the provider would do.
   */
  lemma RepeatWithinTtlServedFromCache(
    entries: map<string, Entry>, city: string, hasApiKey: bool, upstream: FetchOutcome, t1: nat, t2: nat,
    city2: string, hasApiKey2: bool, upstream2: FetchOutcome, t3: nat, t4: nat)
    requires Decide(entries, city, hasApiKey, upstream, t1, t2).response.WeatherData?
    requires !Decide(entries, city, hasApiKey, upstream, t1, t2).response.cached
    requires ToLower(city2) == ToLower(city)
    requires t3 <= t2 + CACHE_TTL
    ensures var first := Decide(entries, city, hasApiKey, upstream, t1, t2);
            var second := Decide(first.entries, city2, hasApiKey2, upstream2, t3, t4);
            second.response == WeatherData(first.response.data, true) &&
            !second.fetched && second.entries == first.entries
  {
    var first := Decide(entries, city, hasApiKey, upstream, t1, t2);
    var key := CacheKey(ToLower(city));
    WriteOnlyOnFreshData(entries, city, hasApiKey, upstream, t1, t2);
    WriteThenRead(AfterRead(entries, key, t1), key, first.response.data, t2, t3);
    CacheHitServedFirst(first.entries, city2, hasApiKey2, upstream2, t3, t4, first.response.data);
  }

  /** The method, run twice on one cache object: the second call is a cached answer. */
  method TwoRequestsWithinTtl(cache: WeatherCache, city: string, upstream: FetchOutcome, t1: nat, t2: nat, t3: nat)
    returns (first: Response, second: Response, secondFetched: bool)
    requires IsValidCode(city)
    requires Read(cache.entries, CacheKey(ToLower(city)), t1).None?
    requires upstream.Fetched? && |upstream.records.location| > 0
    requires NormalizeSpec(upstream.records.location[0], upstream.records.datasetDescription).Normalized?
    requires t3 <= t2 + CACHE_TTL
    modifies cache
    ensures first.WeatherData? && !first.cached
    ensures second == WeatherData(first.data, true) && !secondFetched
  {
    var fetched;
    first, fetched := GetCityWeather(cache, city, true, upstream, t1, t2);
    second, secondFetched := GetCityWeather(cache, city, true, upstream, t3, t3);
    RepeatWithinTtlServedFromCache(old(cache.entries), city, true, upstream, t1, t2, city, true, upstream, t3, t3);
  }
}

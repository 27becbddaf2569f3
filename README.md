# CWA weather proxy — a Dafny model of the cache, registry, normaliser and request handler

The system is a small HTTP proxy in front of the Central Weather Administration's
open-data API. A request `GET /api/weather/:city` names one of 22 Taiwanese
cities by a short code. The proxy:

1. lower-cases the code and looks it up in a fixed registry;
2. answers from a ten-minute cache when it can;
3. otherwise requires an API key and fetches the 36-hour forecast dataset (F-C0032-001);
4. flattens the provider's element-oriented payload into one record per time slice;
5. stores that record in the cache and answers.

Every failure becomes a structured error response. `GET /api/cities` lists the registry.

The model has five modules, one per component of `server.js`:

- `Upstream` (Upstream.dfy) holds the provider payload (`Records`, `Location`,
  `WeatherElement`, `TimeSlot`) and the three ways the HTTP call can end
  (`FetchOutcome`: data, HTTP error with a body, or any other failure).
- `Normalizer` (Normalizer.dfy) holds the normaliser. `FillPrefix` is a pure fold that
  applies the elements to a blank record in list order, as the source's `forEach` does.
  `NormalizeSpec` builds the whole result from it. The method `Normalize` is the source's
  nested loop and is proved equal to `NormalizeSpec`. `FillPrefixIsLastWins` relates the
  fold to a declarative reading: every field holds the value of the last element of its
  category, with its unit suffix, or stays `""`.
- `Cache` (Cache.dfy) holds the TTL cache. `Read`, `AfterRead` and `Write` are pure
  functions on the entry map. The class `WeatherCache` has a `map` field that `Get` and
  `Set` update in place, and those methods are proved against the three functions.
  The clock is a parameter.
- `CityRegistry` (CityRegistry.dfy) holds the 22-entry table as a constant sequence of
  pairs in declaration order. It also holds the lower-casing, the lookup, the
  `availableCities` key list and the `{code, name}` list of `/api/cities`.
- `Handler` (Handler.dfy) holds the handler. `Decide` is the pure specification of one
  request: the response, whether the provider was called, and the cache afterwards.
  The method `GetCityWeather` runs the source's early-return procedure against a
  `WeatherCache` object, with the upstream outcome as an input, and is proved to agree
  with `Decide`.

Two error paths of `server.js` are worth spelling out:

- An empty location list gives the 404 of server.js:133-138.
- The payload shapes on which the normaliser throws give the generic 500 of
  server.js:207-210. These shapes are an empty element list and an element whose time
  series is shorter than element 0's. This holds for elements of unknown categories as
  well, because the source reads `element.time[i].parameter` before its `switch`.

`toLowerCase` is modelled on ASCII capitals plus KELVIN SIGN (U+212A), whose lower
case is `k`. Every other character is kept as it is. The model's lower-casing maps
exactly the same inputs to a registry key as `toLowerCase` does: every registry key is
made of ASCII lower-case letters, and these are the only characters whose JavaScript
lower case is a single ASCII letter. JavaScript lower-cases U+0130 (İ) to 'i' followed
by U+0307, two characters; that result holds U+0307 and so matches no key, and the
model keeps U+0130, which matches no key either. For every code that names a city the
cache key is the same as the source's. The only difference in accepted codes is the
own-key correction described under Findings.

## Model

| member | source | states |
|---|---|---|
| `Normalizer.Normalize` | server.js:147-184 | The loop's result equals `NormalizeSpec`: one record per slot of element 0, each filled by every element in list order. It returns `Malformed` exactly where the source throws (no elements, or an element too short for some index). |
| `Normalizer.NormalizeShape` | server.js:141-184 | Normalisation fails exactly when there are no elements or some element has fewer slots than element 0. Otherwise `city` is the location's name and `updateTime` is the dataset description. There are as many records as element 0 has slots. Record `i` takes its start and end times from element 0 at `i`, and each field comes from the last element of its category (`PoP` + "%", `MinT`/`MaxT` + "°C"), or is `""` when the category is absent. |
| `Normalizer.FillPrefixIsLastWins` | server.js:162-181 | Applying the first `j` elements leaves the times unchanged. It sets weather, rain, minTemp, maxTemp and comfort from the last element named Wx, PoP, MinT, MaxT and CI (with the suffixes), and keeps the starting value where no such element occurs. |
| `Normalizer.LastValueIsLastMatch` | server.js:162-181 | The "last value" of a category is the value of a matching element with no later match. It is absent exactly when no element matches. |
| `Normalizer.FillPrefixDependsOnPrefix` | server.js:162-181 | Filling a record from the first `j` elements depends on those elements only. |
| `Normalizer.UnknownElementIgnored` | server.js:164-180 | Appending an element of an unknown category leaves every record unchanged. |
| `Normalizer.IntervalsAt` | server.js:151-184 | The record list has one entry per slot, in index order, and entry `i` is the record built for slot `i`. |
| `Normalizer.SampleMapping` | server.js:162-181 | Wx "晴", PoP "30", MinT "20", MaxT "28" and CI "舒適" at slot 0 give the record {weather "晴", rain "30%", minTemp "20°C", maxTemp "28°C", comfort "舒適"}. |
| `Cache.WeatherCache.constructor` | server.js:15 | The cache starts empty. |
| `Cache.WeatherCache.Get` | server.js:22-33 | Returns the stored data when the key exists and the entry is live (`now - timestamp` not greater than 600000). Otherwise returns None, and deletes the key if its entry has expired. |
| `Cache.WeatherCache.Set` | server.js:40-45 | Afterwards the map is the old map, with the key mapped to the data stamped with `now`. |
| `Cache.ReadHitIff` | server.js:22-33 | A read is a hit exactly when the entry exists and `now - timestamp <= CACHE_TTL`. A hit returns that entry's data. |
| `Cache.ExpiryBoundary` | server.js:27-32 | An entry exactly 600000 ms old is still a hit. One millisecond later the read misses and removes the entry. |
| `Cache.ExpiredReadEvictsOnlyThatKey` | server.js:27-30 | An expired read returns None and removes its key. Every other key stays present or absent, with the same entry. |
| `Cache.ReadWithoutExpiryChangesNothing` | server.js:23-32 | A read of an absent key or a live entry leaves the map unchanged. |
| `Cache.EvictedStaysMissing` | server.js:23-30 | After an eviction the key misses at any time until it is written again. |
| `Cache.WriteThenRead` | server.js:40-45 | After storing `d` at `t`, a read of that key returns `d` exactly while `now <= t + CACHE_TTL`, and misses after that. |
| `Cache.WriteTouchesOnlyItsKey` | server.js:40-45 | A write replaces the key's entry with (data, t) and keeps every other key exactly as it was. |
| `Cache.WriteIsolation` | server.js:40-45 | A write does not change the result of reading any other key. |
| `Cache.LastWriteWins` | server.js:40-45 | Two writes to one key leave the same map as the second write alone. |
| `Cache.SetThenGet` | server.js:22-45 | On one cache object, `Set` at `t` followed by `Get` at any `now <= t + CACHE_TTL` returns the stored data. |
| `CityRegistry.ToLower` | server.js:87 | Lower-casing keeps the length and maps each character on its own, ASCII capitals and KELVIN SIGN to lower-case ASCII letters. It names a registry key for exactly the inputs `toLowerCase` does (see the argument above). |
| `CityRegistry.ToLowerIdempotent` | server.js:87 | Lower-casing a lower-cased code changes nothing. |
| `CityRegistry.LowerWordFixed` | server.js:87 | A word of ASCII lower-case letters is its own lower case. |
| `CityRegistry.Find` | server.js:88 | Lookup in a table succeeds exactly when some entry has the key. The name it returns is declared with that key. |
| `CityRegistry.FindIffKey` | server.js:88 | In any table, lookup succeeds exactly on the keys listed by `Object.keys`. |
| `CityRegistry.ResolveIffListed` | server.js:48-71 | The registry has exactly 22 codes, and lookup succeeds exactly on them. |
| `CityRegistry.ValidIffListed` | server.js:86-91 | A request's code is valid exactly when its lower case is one of the 22 codes. |
| `CityRegistry.ResolveListed` | server.js:48-71 | Every code resolves to the name declared with it. |
| `CityRegistry.CodesDistinct` | server.js:48-71 | No two entries share a code. |
| `CityRegistry.NamesDistinct` | server.js:48-71 | No two entries share a name, so codes and names are one-to-one. |
| `CityRegistry.CodesAreLowerWords` | server.js:48-71 | Every code is a word of ASCII lower-case letters. |
| `CityRegistry.CodesAreLowerCase` | server.js:48-71 | Every code is its own lower case, so it is accepted exactly as listed. |
| `CityRegistry.CaseInsensitiveLookup` | server.js:86-88 | Any spelling whose lower case is the `i`-th code is valid and resolves to the `i`-th name. |
| `CityRegistry.CityListMatchesTable` | server.js:232-239 | `/api/cities` lists 22 entries in declaration order. Entry `i` has the `i`-th code, and its name is the one that code resolves to. |
| `CityRegistry.UnknownRejected` | server.js:87-91 | "unknown" is not one of the 22 codes, and any spelling of it is not a valid code. |
| `CityRegistry.PropertyLookup` | server.js:88-91 | As written, the property read yields a truthy value exactly for the 22 codes and for the inherited keys "constructor" and "__proto__". It agrees with the registry lookup on the 22 codes. |
| `CityRegistry.InheritedKeyPassesValidation` | server.js:88-91 | "constructor" is not one of the 22 codes, yet any spelling of it passes the source's validity test. |
| `Handler.Status` | server.js:92-209 | Apart from a mirrored upstream status, the status is 200 exactly for a data response, and it is an HTTP status (200 to 599). |
| `Handler.ErrorTitle` | server.js:93-208 | The `error` text is empty exactly for a data response, which has no `error` field. |
| `Handler.Message` | server.js:94-209 | A data response has no message; every fixed error response has a non-empty one; an upstream failure carries its own message. |
| `Handler.UpstreamMessage` | server.js:201 | The upstream failure's message is never empty, and it is the body's message whenever that is non-empty. |
| `Handler.GetCityWeather` | server.js:84-212 | The response, the fetch flag and the new cache contents equal `Decide` applied to the old contents. It is proved against `Cache.WeatherCache.Get`/`Set` and `Normalizer.Normalize`. |
| `Handler.InvalidCodeRejected` | server.js:87-97 | With the own-key lookup, the answer is "invalid code" exactly when the lower-case code is not one of the 22 codes; as written, the source also lets "constructor" and "__proto__" through (see Findings). That answer has status 400, `error` "無效的縣市代碼", `message` "請使用有效的縣市代碼", lists `availableCities` as the 22 codes in declaration order, calls the provider zero times and leaves the cache unchanged (not even read). |
| `Handler.CacheHitServedFirst` | server.js:99-108 | With a live entry under `weather_` + lower-case code, the handler serves that data with `cached: true`, status 200 and no `error` text, for any API-key setting and any upstream outcome. It makes no fetch and leaves the cache unchanged. |
| `Handler.MissingApiKeyNoFetch` | server.js:110-116 | On a miss without an API key the answer is status 500, `error` "伺服器設定錯誤" and `message` "請在 .env 檔案中設定 CWA_API_KEY", with no fetch. The cache only loses the key if that key's entry had expired. |
| `Handler.FetchOnlyWhenNeeded` | server.js:99-128 | The provider is called exactly when the code is valid, the cache misses and an API key is set. |
| `Handler.UpstreamErrorMirrored` | server.js:194-204 | An upstream HTTP error gives the upstream status, `error` "CWA API 錯誤", the body's message when it is non-empty and "無法取得天氣資料" otherwise, and the body as `details`. It writes nothing to the cache. |
| `Handler.EmptyLocationNotFound` | server.js:130-138 | An empty location list gives status 404, `error` "查無資料" and `message` "無法取得" + the registry name + "天氣資料". It writes nothing to the cache. |
| `Handler.OtherFailureServerError` | server.js:194-211 | A failure without an upstream response, or a payload the normaliser cannot read, gives the generic status 500 with `error` "伺服器錯誤" and `message` "無法取得天氣資料，請稍後再試". It writes nothing to the cache. |
| `Handler.FreshDataStoredAndServed` | server.js:186-193 | A successful normalisation is stored under the request's key, stamped with the write time, and served with `cached: false`, status 200 and no `error` text. |
| `Handler.AfterFetchWritesOnlyFreshData` | server.js:130-193 | After a fetch, the cache is written (under the request's key) only on fresh data. |
| `Handler.WriteOnlyOnFreshData` | server.js:99-193 | Over the whole request, the cache is written only when fresh data is served. Otherwise it is unchanged, or only the read's eviction has happened. |
| `Handler.OtherKeysUntouched` | server.js:100-187 | A request changes no cache entry except the one under its own key. |
| `Handler.CaseInsensitiveRequests` | server.js:86-100 | Two codes that differ only in case are handled identically, with the same response, fetch flag and cache. |
| `Handler.UnknownCityScenario` | server.js:91-96 | "unknown" gets a 400 listing the 22 codes and changes nothing. |
| `Handler.NoApiKeyScenario` | server.js:110-116 | "taipei" on an empty cache with no API key gets a 500 with the message "請在 .env 檔案中設定 CWA_API_KEY" and no fetch. |
| `Handler.RepeatWithinTtlServedFromCache` | server.js:99-108 | Take a request that stored fresh data at `t2`. Any later request for the same city (in any case) at most 600000 ms after `t2` gets that data with `cached: true` and makes no fetch, whatever the API key and the provider would do. |
| `Handler.TwoRequestsWithinTtl` | server.js:99-193 | Running the handler method twice on one cache object: the second call within the TTL returns the first call's data, marked cached, with no fetch. |

## Left out

- Express setup, the CORS and body-parsing middleware, the `/` and `/api/health` routes, the route table, the 404 handler, the error middleware and `app.listen` are framework plumbing.
- The axios call is left out. Its URL and its query parameters (`Authorization`, `locationName`) are not modelled; only its outcome (`FetchOutcome`) is, and that is an input of the handler.
- `dotenv` and the environment are left out. The API key is the boolean `hasApiKey`.
- `Date.now()` is a parameter. The handler takes one clock value for the cache read and one for the cache write, because the write happens after the awaited fetch.
- Logging (`console.error`, `console.log`) is left out.
- Interleaving of concurrent requests at the awaited fetch is left out. That includes two requests for one code that both miss and both fetch. The model covers one request at a time.
- JSON serialisation is left out. Responses are the `Response` datatype. `Handler.Status`, `Handler.ErrorTitle` and `Handler.Message` give the status and the `error`/`message` texts, and the `success: true` flag is implied by `WeatherData`.
- Handler.GetCityWeather: validates codes with the corrected own-key lookup (`CityRegistry.Resolve`). So "constructor" and "__proto__" get a 400 here, while the source lets them through (see Findings). What the source would then send upstream for them is not modelled.
- Payloads with fields missing or of another type are not modelled: no `records`, no `location` array, a slot without `parameter`, a non-string `parameterName`. In the source these throw, giving the generic 500, or produce strings such as "undefined%". Only the shapes in `Upstream` are modelled.
- An upstream error whose `response.data` is undefined is not modelled. It makes the source throw inside its `catch` block. The model always has an `ErrorBody`, and "" stands for an absent or empty message.
- CityRegistry.ToLower: does not model Unicode case mapping beyond ASCII and KELVIN SIGN, and keeps the length where JavaScript lengthens (U+0130 becomes two characters). As argued above, this cannot change which codes name a city or which cache key such a code uses.
- Idempotence of normalisation has no lemma. `NormalizeSpec` is a function, so equal inputs give equal outputs by construction.

## Findings

| source | as written | input that shows it | evidently intended | confidence | as-written member | corrected member |
|---|---|---|---|---|---|---|
| server.js:88-91 | `CITY_MAP[cityCode]` is a property read on a plain object. It also finds members inherited from `Object.prototype`, which are truthy. So the `!cityName` test lets them through to the cache check and the upstream call, with a function or object as the "city name". | `GET /api/weather/constructor` (any case), or `__proto__` | Only the 22 listed codes are valid. Every other code gets the 400 response with `availableCities`. | not executed; high | `CityRegistry.PropertyLookup`, `CityRegistry.InheritedKeyPassesValidation` | `CityRegistry.ResolveIffListed` (own-key lookup `CityRegistry.Resolve`, used by `Handler.Decide`) |

/**
 * The weather cache of `FishingBot.get_weather`: a dictionary from the
 * lower-cased city name to the reading and the clock value at which it was
 * stored. A reading younger than 1800 seconds is served without a request;
 * otherwise the weather service is asked, and only a successful answer is
 * written to the cache.
 */
module WeatherCache {
  import opened Wrappers

  /** `cache_timeout`, in seconds. */
  const CacheTimeout: real := 1800.0

  /** The dictionary built from the weather service's answer. */
  datatype WeatherData = WeatherData(
    city: string,
    temp: int,
    feelsLike: int,
    humidity: int,
    pressure: real,
    windSpeed: real,
    description: string,
    weatherMain: string,
    country: string)

  datatype CacheEntry = CacheEntry(timestamp: real, data: WeatherData)

  /**
   * What the request to the weather service would produce: the parsed reading
   * together with the clock value read after the answer arrived, or a failure
   * (a status other than 200, a malformed payload, a network error).
   */
  datatype Fetch = Fetched(data: WeatherData, clockAfter: real) | Failed

  /** Python's `str.lower` on one character, for ASCII and the Cyrillic block U+0400..U+042F. */
  function LowerChar(c: char): (l: char)
    ensures 'A' <= c <= 'Z' ==> l as int == c as int + 32
    ensures 'А' <= c <= 'Я' ==> l as int == c as int + 0x20
    ensures 'Ѐ' <= c <= 'Џ' ==> l as int == c as int + 0x50
    ensures !('A' <= c <= 'Z') && !('Ѐ' <= c <= 'Я') ==> l == c
  {
    if 'A' <= c <= 'Z' then (c as int + 32) as char
    else if 'А' <= c <= 'Я' then (c as int + 0x20) as char
    else if 'Ѐ' <= c <= 'Џ' then (c as int + 0x50) as char
    else c
  }

  /** The cache key: `city.lower()`. */
  function Lower(s: string): (r: string)
    ensures |r| == |s|
    ensures forall i :: 0 <= i < |s| ==> r[i] == LowerChar(s[i])
  {
    if s == [] then [] else [LowerChar(s[0])] + Lower(s[1..])
  }

  lemma LowerCharIdempotent(c: char)
    ensures LowerChar(LowerChar(c)) == LowerChar(c)
  {
  }

  /** Lower-casing a key again does not change it. */
  lemma LowerIdempotent(s: string)
    ensures Lower(Lower(s)) == Lower(s)
  {
    forall i | 0 <= i < |s| ensures Lower(Lower(s))[i] == Lower(s)[i] {
      LowerCharIdempotent(s[i]);
    }
  }

  /** "Москва" and "москва" use the same cache entry. */
  lemma CapitalisedCityHitsSameEntry()
    ensures Lower("Москва") == Lower("москва") == "москва"
  {
  }

  /** An entry is fresh when it is strictly younger than the timeout. */
  predicate IsFresh(cache: map<string, CacheEntry>, key: string, now: real)
    ensures IsFresh(cache, key, now) ==> key in cache
    ensures key in cache && now < cache[key].timestamp + CacheTimeout ==> IsFresh(cache, key, now)
    ensures key in cache && now >= cache[key].timestamp + 1800.0 ==> !IsFresh(cache, key, now)
  {
    key in cache && now - cache[key].timestamp < CacheTimeout
  }

  /** The weather cache and its dictionary. */
  class FishingBot {
    var weatherCache: map<string, CacheEntry>

    constructor ()
      ensures weatherCache == map[]
    {
      weatherCache := map[];
    }

    /**
     * `get_weather(city)` at clock value `now`. `fetch` is what the weather
     * service would answer if it were asked; `requested` says whether it was.
     */
    method GetWeather(city: string, now: real, fetch: Fetch) returns (result: Option<WeatherData>, requested: bool)
      modifies this
      ensures var key := Lower(city);
        if IsFresh(old(weatherCache), key, now) then
          && !requested
          && result == Some(old(weatherCache)[key].data)
          && weatherCache == old(weatherCache)
        else
          && requested
          && match fetch
             case Failed =>
               result == None && weatherCache == old(weatherCache)
             case Fetched(data, clockAfter) =>
               result == Some(data) && weatherCache == old(weatherCache)[key := CacheEntry(clockAfter, data)]
    {
      var cacheKey := Lower(city);
      if cacheKey in weatherCache {
        var cachedData := weatherCache[cacheKey];
        if now - cachedData.timestamp < CacheTimeout {
          return Some(cachedData.data), false;
        }
      }
      requested := true;
      match fetch {
        case Failed =>
          result := None;
        case Fetched(data, clockAfter) =>
          weatherCache := weatherCache[cacheKey := CacheEntry(clockAfter, data)];
          result := Some(data);
      }
    }
  }

  /**
   * Two requests for one city within the timeout cause one request to the
   * service; after the timeout a third one asks again, and a failure leaves
   * the earlier entry in place.
   */
  method CacheScenario(city: string, data: WeatherData, t: real, other: Fetch)
  {
    var bot := new FishingBot();
    var r1, asked1 := bot.GetWeather(city, t, Fetched(data, t));
    assert asked1 && r1 == Some(data);
    var r2, asked2 := bot.GetWeather(Lower(city), t + 1799.0, other);
    LowerIdempotent(city);
    assert !asked2 && r2 == Some(data);
    var r3, asked3 := bot.GetWeather(city, t + 1800.0, Failed);
    assert asked3 && r3 == None;
    assert bot.weatherCache[Lower(city)] == CacheEntry(t, data);
  }
}

# Fishing bot core, modelled in Dafny

This project models the deterministic core of a fishing chat bot and proves
properties of it. The bot answers weather questions with a fishing score,
posts news from fishing feeds without repeating itself, pages through a list
of regions, and keeps a small database of fishing spots, ratings and reports.
The chat SDK, HTTP, the scheduler and SQLite are left out. Their inputs appear
as parameters: the clock, the weather service's answer and the parsed feeds.

One module per source component:

- `FishingConditions` (`fishing_conditions.dfy`) models `FishingBot.calculate_fishing_conditions`.
  - Temperature, pressure, wind and sky each give 0..3 points, for a total of 0..12.
  - The total gives a four-tier bite rating (thresholds 10/7/4).
  - It also gives a coarser gear rating (thresholds 8/5/3), shared by the spinning rod and the float rod.
  - Temperature and pressure are both "distance from an optimum" bands with cut-points 5/10/15. The optimum is 20 °C for temperature and 745 mmHg for pressure. Pressure is banded on the unrounded hPa × 0.750062.
- `WeatherCache` (`weather_cache.dfy`) models the cache of `FishingBot.get_weather`.
  - It is a class with a `map` field keyed by `city.lower()`.
  - A cached reading strictly younger than 1800 s is returned without a request.
  - Otherwise the service is asked. Only a successful answer is stored, stamped with the clock read after the answer. A failure returns nothing and leaves the map as it was.
- `Forecast` (`forecast.dfy`) models `bite_score`, the advice rule of `get_forecast`, and the integer mmHg pressure.
  - The score is 50 + 15 + 15 + 10 for three conditions, then clamped. It always lies in 50..90, so the clamp never acts.
  - The "weak" advice (score below 40) can never be given.
  - The pressure is rounded half-to-even, as Python's `round` does.
- `PostedLinks` (`posted_links.dfy`) models the `posted_links` table as a class over a `set<string>`.
  - `init_db` keeps existing rows.
  - `was_posted` is a membership test.
  - `mark_posted` is insert-or-ignore.
- `Rss` (`rss.dfy`) models `fetch_new_posts` and `post_news`.
  - It takes the first three entries of each feed and stops at the first entry that raises, keeping the entries before it.
  - It keeps the candidates whose link was not posted, in candidate order, and records their links.
  - `post_news` broadcasts only the first of them.
- `Keyboards` (`keyboards.dfy`) models `regions_kb`.
  - It shows the window `regs[page*per_page:(page+1)*per_page]`.
  - A back button appears iff `page > 0`. A forward button appears iff `(page+1)*per_page < len(regs)`.
  - The handler parses a `reg_page_N` callback by `int(data.split("_")[-1])`, and every callback the keyboard makes parses back to its page.
- `SqlText` (`sql_text.dfy`) models SQLite's `lower()`, which folds ASCII only, and SQLite's `LIKE`, with `%`, `_` and ASCII case folding.
- `Sorting` (`sorting.dfy`) models `ORDER BY … DESC` as an insertion sort with its ordering and permutation lemmas, plus SQLite's `LIMIT`, where a negative limit means no limit.
- `SpotDatabase` (`database.dfy`) models `FishingDatabase` as a class with three sequence fields.
  - `spot_ratings` keeps its CHECK (1..5) and UNIQUE(spot_id, user_id) constraints, and its writes are `INSERT OR REPLACE`.
  - The seven seed spots are inserted only into an empty table.
  - The queries are: by city with ASCII-only `LOWER`; by fish species with `LIKE '%…%'`; and recent reports via an inner join, newest first, with `LIMIT`.

Behaviour worth knowing:
- SQLite's `LOWER` folds only ASCII. So `get_spots_by_city("Москва")` does not find the seed spots stored under "москва" (`SqlText.LowerIsAsciiOnly`).
- A `%` or `_` typed into a fish search acts as a wildcard (`SqlText.UnderscoreMatchesAnything`).
- `get_spots_by_city` and `get_spots_by_fish` read the rating average from the wrong column and raise TypeError as soon as a spot matches (see "## Findings"). `GetSpotsByCity` and `GetSpotsByFish` model the evidently intended queries.

## Model

| member | source | states |
|---|---|---|
| FishingConditions.TempScore | bot.py:117-126 | temperature points are 0..3 and equal the distance band of abs(temp − 20): 15..25 gives 3, [10,15) or (25,30] gives 2, [5,10) or (30,35] gives 1, anything else 0 |
| FishingConditions.PressureScore | bot.py:128-138 | pressure points are 0..3 and equal the distance band of abs(hPa × 0.750062 − 745), computed on the unrounded mmHg value |
| FishingConditions.WindScore | bot.py:140-149 | wind points are 3 exactly below 3 m/s, 2 exactly on [3, 6), 1 exactly on [6, 10), and 0 exactly from 10 m/s up |
| FishingConditions.SkyScore | bot.py:151-160 | sky points are 3 exactly for "Clear", 2 exactly for "Clouds", 1 exactly for "Drizzle" or "Mist", and 0 for any other category |
| FishingConditions.TotalScore | bot.py:115-160 | the summed score never exceeds 12 |
| FishingConditions.RatingTier | bot.py:163-183 | each bite rating holds exactly on its score interval: ≥10 excellent, 7..9 good, 4..6 average, <4 poor |
| FishingConditions.GearTier | bot.py:185-197 | each gear rating holds exactly on its score interval: ≥8 excellent, 5..7 good, 3..4 average, <3 poor |
| FishingConditions.Advice | bot.py:164-183 | each bite rating has its own advice text, and each advice text belongs to exactly one rating |
| FishingConditions.CalculateFishingConditions | bot.py:108-209 | the score is the sum of the four factor scores and at most max_score = 12; the rating is the 10/7/4 tier of the score with its advice; spinning and float-rod labels are equal and are the 8/5/3 tier; pressure_mm is hPa × 0.750062; score 12 iff all four factors are perfect |
| FishingConditions.TempScoreSymmetric | bot.py:118-125 | the temperature score is symmetric about 20 °C |
| FishingConditions.TempScoreMonotoneInDistance | bot.py:118-125 | a temperature closer to 20 °C never scores lower |
| FishingConditions.PressureScoreMonotoneInDistance | bot.py:129-137 | a pressure closer to 745 mmHg never scores lower |
| FishingConditions.WindScoreAntitone | bot.py:141-148 | more wind never raises the wind score |
| FishingConditions.TiersMonotone | bot.py:163-197 | a higher score never gives a lower bite rating or gear rating |
| FishingConditions.GearAtLeastRating | bot.py:163-197 | the gear rating is the bite rating or exactly one tier above it |
| FishingConditions.PerfectDay | bot.py:108-183 | 20 °C, 986.6 hPa, 1 m/s, "Clear" scores 12 and is rated excellent |
| FishingConditions.WorstDay | bot.py:108-183 | 0 °C, 1050 hPa, 15 m/s, "Thunderstorm" scores 0 and is rated poor |
| FishingConditions.BandingUsesUnroundedPressure | bot.py:129-138 | 750.04 mmHg scores 2 though it displays as 750.0, which would score 3 |
| WeatherCache.LowerChar | bot.py:68 | A–Z gain 0x20, Cyrillic А–Я gain 0x20, Ѐ–Џ gain 0x50; characters outside these ranges are unchanged |
| WeatherCache.Lower | bot.py:68 | the key has the city's length and lower-cases it character by character |
| WeatherCache.IsFresh | bot.py:69-71 | a cached entry is fresh exactly while the clock is below its stamp plus 1800 s; a missing key is never fresh |
| WeatherCache.LowerIdempotent | bot.py:68 | lower-casing a key again leaves it unchanged |
| WeatherCache.CapitalisedCityHitsSameEntry | bot.py:68 | "Москва" and "москва" have the same cache key |
| WeatherCache.FishingBot.constructor | bot.py:21-23 | the cache starts empty |
| WeatherCache.FishingBot.GetWeather | bot.py:64-106 | an entry younger than 1800 s is returned with no request and no change; otherwise a request is made, success stores {clock after the request, data} under the lower-cased key and returns the data, and failure returns None and leaves the cache exactly as it was |
| Forecast.RoundHalfEven | bot/forecast.py:14 | the result is within 1/2 of the input, and on an exact half it is even |
| Forecast.PressureMm | bot/forecast.py:14 | the integer pressure is within 1/2 of hPa × 0.750064 |
| Forecast.RoundTiesToEven | bot/forecast.py:14 | 750.5 rounds to 750 and 751.5 to 752 |
| Forecast.StandardPressure | bot/forecast.py:14 | 1013.25 hPa gives 760 mmHg, inside the pressure window |
| Forecast.BiteScore | bot/forecast.py:32-38 | the score is always in 50..90 and equals the unclamped sum, so the clamp never changes it; it is 50 iff no condition holds and 90 iff all do |
| Forecast.BiteScoreMonotone | bot/forecast.py:34-37 | meeting every condition another reading meets never gives a lower score |
| Forecast.Advice | bot/forecast.py:17 | "excellent" iff score > 75, "weak" iff score < 40, "medium" for every score in 40..75 |
| Forecast.SeventyFiveIsMedium | bot/forecast.py:17 | a score of exactly 75 gives the medium advice |
| Forecast.ForecastAdvice | bot/forecast.py:14-17 | the advice is always excellent or medium, never weak; the excellent advice is given iff both the temperature and the rounded pressure conditions hold |
| PostedLinks.LinkSet | bot/db.py:20 | the inserted set holds exactly the links of the list |
| PostedLinks.LinkStore.constructor | bot/db.py:4 | a new database file has no table and no links |
| PostedLinks.LinkStore.InitDb | bot/db.py:6-11 | after init the table exists and every stored link is kept |
| PostedLinks.LinkStore.WasPosted | bot/db.py:13-16 | true iff the link is stored |
| PostedLinks.LinkStore.MarkPosted | bot/db.py:18-21 | the stored set becomes the old set plus the given links; nothing else changes and nothing is removed |
| PostedLinks.MarkTwiceIsMarkOnce | bot/db.py:20 | inserting the same links twice stores what inserting them once does |
| Rss.ToPost | bot/rss.py:18-23 | an entry becomes a post iff it has title, summary and link; the post's link is the entry's |
| Rss.UntilFailure | bot/rss.py:17-25 | a feed's entries yield at most as many posts as there are entries |
| Rss.UntilFailureStopsAtFailure | bot/rss.py:17-25 | post i is built from entry i, and when fewer posts than entries are built, the entry right after them is one that raises |
| Rss.FirstEntries | bot/rss.py:17 | at most three entries, a prefix of the feed: exactly the first three when the feed has three or more, the whole feed otherwise |
| Rss.FeedCandidates | bot/rss.py:15-25 | one feed contributes at most three candidates |
| Rss.Candidates | bot/rss.py:13-25 | all feeds together contribute at most three candidates per feed |
| Rss.FeedPosts | bot/rss.py:17-25 | the inner loop builds exactly the posts of the entries before the first one that raises |
| Rss.CollectCandidates | bot/rss.py:13-25 | the nested loops build exactly the candidates, feed by feed; an exception ends only the current feed |
| Rss.NewLinks | bot/rss.py:27 | the links not yet posted, one per unposted candidate, in candidate order |
| Rss.NotPosted | bot/rss.py:27 | the unposted candidates are no more than the candidates |
| Rss.LinkIn | bot/rss.py:28 | the comprehension keeps no more than the candidates |
| Rss.NotPostedMembers | bot/rss.py:27-28 | a post is returned iff it is a candidate whose link was not posted |
| Rss.NewPostsAreUnposted | bot/rss.py:27-28 | filtering by membership in new_links returns exactly the unposted candidates, in order |
| Rss.DuplicateLinksAllReturned | bot/rss.py:28 | two distinct candidates sharing one unposted link are both returned |
| Rss.SecondFetchFindsNothing | bot/rss.py:27-31 | once the new links are recorded, the same candidates yield nothing new |
| Rss.FetchNewPosts | bot/rss.py:11-31 | returns exactly the candidates unposted before the call, in order, at most 9; the store gains exactly their links (nothing if there are none) |
| Rss.PostNews | bot/main.py:63-69 | only the first new post is sent, while every new post's link is recorded |
| Keyboards.PySlice | bot/keyboards.py:8-9 | Python slicing: element i of the window is element start+i of the list; the window is at most end−start long, and shorter only at the end of the list |
| Keyboards.NatToString | bot/keyboards.py:15-17 | a natural number prints as a non-empty run of digits, with a leading zero only for 0 itself |
| Keyboards.ParseInt | bot/main.py:39 | a result is produced iff the text is a non-empty run of digits, optionally after one `+` or `-`; the value is the digits' value, negated after `-`; any other text raises (apart from the forms listed under "## Left out") |
| Keyboards.LastSegment | bot/main.py:39 | the last `_`-separated segment contains no underscore |
| Keyboards.DigitsRoundTrip | bot/keyboards.py:15-17 | printing a natural number and reading the digits back gives the number |
| Keyboards.IntToString | bot/keyboards.py:15-17 | `str(n)` is non-empty and has no underscore; it is the digits of n, preceded by `-` when n is negative |
| Keyboards.PageCallback | bot/keyboards.py:15-17 | the callback starts with `reg_page_` and its last `_`-separated segment is the page number as `str` prints it |
| Keyboards.ParsePage | bot/main.py:39 | a page is read only when the data does not end in `_`; data with no underscore is parsed whole |
| Keyboards.PageCallbackRoundTrip | bot/keyboards.py:15-17 | the page handler's parse of every `reg_page_N` callback gives N, for every integer N |
| Keyboards.NavRow | bot/keyboards.py:13-17 | back to page−1 is present iff page > 0 and comes first; forward to page+1 is present iff (page+1)·per_page < len(regs) and comes last |
| Keyboards.RegionsKb | bot/keyboards.py:5-23 | at most per_page region rows, one button per row in REGIONS order with the region's callback value, followed by the navigation row exactly when it is non-empty |
| Sorting.SortDesc | database.py:196 | the sorted rows are ordered by the key, largest first, and are a permutation (same multiset) of the rows given |
| Sorting.Limit | database.py:306 | LIMIT keeps a prefix of min(limit, count) rows, all rows when the limit is negative |
| Sorting.LimitKeepsTop | database.py:305-306 | every row LIMIT drops from an ordered result ranks no higher than every row it keeps |
| SqlText.Lower | database.py:194 | SQLite lower() keeps the length and folds A–Z only |
| SqlText.Like | database.py:230 | with no `%` or `_` in the pattern, LIKE holds iff the two texts are equal up to ASCII case |
| SqlText.LowerIsAsciiOnly | database.py:194 | "Москва" and "москва" differ after SQLite lower() |
| SqlText.LikeContains | database.py:230-233 | with no wildcard in x, `s LIKE '%x%'` holds iff s contains x up to ASCII case |
| SqlText.UnderscoreMatchesAnything | database.py:230-233 | the pattern '%_%' matches every non-empty text |
| SpotDatabase.SeedRows | database.py:71-177 | the seven seed spots in order with consecutive AUTOINCREMENT ids |
| SpotDatabase.WithoutKey | database.py:60 | the rows kept are exactly those not conflicting with (spot_id, user_id) |
| SpotDatabase.Upsert | database.py:260-263 | the new row is last; the rows are exactly the new row and the old rows not conflicting with its (spot_id, user_id); at most one row is added |
| SpotDatabase.UpsertKeepsConstraints | database.py:58-60 | INSERT OR REPLACE of a valid rating keeps (spot_id, user_id) unique and all ratings in 1..5 |
| SpotDatabase.UpsertRatingBy | database.py:260-264 | after INSERT OR REPLACE the pair's rating is the new one and every other pair's is unchanged |
| SpotDatabase.RatingCount | database.py:191 | COUNT(sr.id) is at most the number of rating rows, and 0 iff no rating row belongs to the spot |
| SpotDatabase.AvgRating | database.py:190 | a spot with no ratings averages 0 |
| SpotDatabase.AvgRatingRange | database.py:190-191 | the average is 0 iff there are no ratings, and otherwise lies in 1..5 |
| SpotDatabase.InCity | database.py:194 | a spot is in the city iff the two names are equal up to ASCII case |
| SpotDatabase.HasFish | database.py:230-233 | lower-casing the pattern `'%' || fish || '%'` lower-cases only the search text, so the match is species LIKE '%' || lower(fish) || '%' |
| SpotDatabase.CityRows | database.py:188-197 | the rows are exactly the spots whose city matches under ASCII lower(), each with its average and count |
| SpotDatabase.FishRows | database.py:225-233 | the rows are exactly the spots whose species match the LIKE pattern, each with its average |
| SpotDatabase.HasFishIsSubstring | database.py:225-233 | for search text with no wildcard, a spot matches iff its species list contains the text up to ASCII case |
| SpotDatabase.SpotName | database.py:303 | a name is found iff some spot has the id, and it is that spot's name |
| SpotDatabase.Selects | database.py:299 | None and 0 select every report; any other id selects exactly that spot's reports |
| SpotDatabase.JoinedReports | database.py:299-315 | the joined rows are exactly the selected reports whose spot exists, each with that spot's name; None or 0 selects all spots |
| SpotDatabase.Recent | database.py:305-306 | the result has min(limit, count) rows, and all the joined rows when the limit is negative or not below the count |
| SpotDatabase.RecentIsNewestFirst | database.py:299-315 | the recent rows are newest first, min(limit, count) of them (all if limit < 0), drawn from the joined rows, and no dropped row is newer than a kept row |
| SpotDatabase.FishingDatabase.constructor | database.py:9-11 | a new database holds the seven seed spots with ids 1..7, no ratings and no reports |
| SpotDatabase.FishingDatabase.AddInitialData | database.py:71-181 | the seed spots are appended only when the spot table is empty, otherwise nothing changes |
| SpotDatabase.FishingDatabase.InitDatabase | database.py:13-69 | re-initialising a database with spots changes nothing; the spot table is never empty afterwards |
| SpotDatabase.ResultRow | database.py:20-32 | a result row of `SELECT fs.*, …` has the eleven spot columns with `created_at` at index 10, followed by the aggregates from index 11 |
| SpotDatabase.RoundedOrZero | database.py:212 | `round(v, 1) if v else 0` gives 0 for a false value and raises exactly on a non-empty text |
| SpotDatabase.CityDictsAsWritten | database.py:199-217 | as written, the loop raises iff at least one spot matches (the timestamp text is never empty); when it does not raise, `rating_count` holds the average rather than the count |
| SpotDatabase.FishDictsAsWritten | database.py:235-253 | as written, the loop raises iff at least one spot matches |
| SpotDatabase.SeededCitySearchRaises | database.py:183-218 | on the seeded database, searching "москва" finds a seed spot in the intended query but raises as written |
| SpotDatabase.SeededFishSearchRaises | database.py:220-253 | on the seeded database, searching "щука" finds a seed spot in the intended query but raises as written |
| SpotDatabase.FishingDatabase.GetSpotsByCity | database.py:183-218 | the result is ordered by average rating descending and holds exactly the city's spots, with average (0 if unrated) and count |
| SpotDatabase.FishingDatabase.GetSpotsByFish | database.py:220-253 | the result is ordered by average rating descending and holds exactly the spots matching the species pattern |
| SpotDatabase.FishingDatabase.AddSpotRating | database.py:255-272 | returns True iff the rating is in 1..5; if so it replaces the user's earlier rating of the spot, otherwise nothing is stored |
| SpotDatabase.FishingDatabase.AddFishingReport | database.py:274-292 | always appends one report dated today with the next id and returns True, even for an unknown spot |
| SpotDatabase.FishingDatabase.GetRecentReports | database.py:294-334 | the result is the joined, filtered reports ordered by created_at descending and cut by LIMIT |

## Left out

- HTTP calls are not modelled. These are the weather API in `get_weather` and `get_forecast` and the feed download. The weather answer is the `Fetch` parameter. The feeds are `Feed` values, each either a parse error or a list of entries.
- The clock is a parameter. This covers `datetime.now()` in the cache and `CURRENT_TIMESTAMP` and `DATE('now')` in the database.
- `moon_percent` uses a cosine and the day of the month. The moon phase is an input to `bite_score`.
- Floating point is modelled as exact reals. This affects the 0.750062 and 0.750064 factors, the rounding in `get_weather`, and `round` in `get_forecast`. A binary float near a band edge or a .5 tie can behave differently.
- Display rounding is left out: `pressure_mm` is rounded to one decimal only for display. The `round(…, 1)` of the spot queries is not modelled either. As written it is applied to `created_at` (see "## Findings").
- Also left out are emoji, colours, message texts, keyboards as chat objects, and the chat handlers other than the `reg_page_` parse.
- The health-check server, the scheduler and polling are left out.
- The SQL engine is replaced by three in-memory sequences. This leaves out connections, commits, the async layer, NULL values, type affinity, the `id` of rating rows, and failures other than the CHECK constraint. So `AddFishingReport` always succeeds.
- `get_forecast` builds a result dictionary. Of it, only the pressure conversion and the advice are modelled, together with `bite_score`. The HTTP request and the dictionary itself are not.
- regions.py is not part of this model. `REGIONS` is an input sequence of (name, callback) pairs.
- WeatherCache.LowerChar: Python's `str.lower` is modelled only for ASCII and the Cyrillic block U+0400–U+042F. Every character outside these ranges is left unchanged, including Latin-1 capitals such as 'É' and the Cyrillic capitals from U+0460 on.
- Keyboards.ParseInt: `int()` also accepts surrounding whitespace, underscores between digits and non-ASCII decimal digits. These are not modelled. The segment parsed here never holds an underscore.
- Keyboards.RegionsKb: requires `page >= 0` and `per_page >= 0`. Python's slicing with negative bounds is not modelled.
- SpotDatabase.CityDictsAsWritten: the creation time of a spot is not stored, so the as-written readers take it as the `stamp` parameter. `CURRENT_TIMESTAMP` always gives a non-empty text, which is what the contracts assume with `stamp != ""`. The descriptive columns of the dictionaries are omitted.
- SpotDatabase.FishingDatabase.GetSpotsByCity: when two spots have equal averages, SQLite leaves their order open. The contract states only ordering and contents, not the order of ties. The same holds for GetSpotsByFish. GetRecentReports fixes the stable sort's order for equal `created_at` values, and RecentIsNewestFirst states only what holds for any tie order.

## Findings

| source | as written | input that shows it | evidently intended | confidence | as-written member | corrected member |
|---|---|---|---|---|---|---|
| database.py:212-213 | `fs.*` has eleven columns, so `row[10]` is `created_at` and `row[11]` the average. `round(row[10], 1)` on the timestamp text raises TypeError. | `get_spots_by_city("москва")` on the freshly seeded database | `avg_rating` from column 11 and `rating_count` from column 12: the matching spots with their average and count, best rated first | high, not executed | SpotDatabase.SeededCitySearchRaises | SpotDatabase.FishingDatabase.GetSpotsByCity |
| database.py:248 | `row[10]` is `created_at`; `round` on it raises TypeError | `get_spots_by_fish("щука")` on the freshly seeded database | `avg_rating` from column 11: the matching spots with their average, best rated first | high, not executed | SpotDatabase.SeededFishSearchRaises | SpotDatabase.FishingDatabase.GetSpotsByFish |

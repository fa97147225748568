/**
 * `FishingDatabase`: the fishing spots, the users' ratings of them and the
 * fishing reports, as three in-memory tables with the constraints and query
 * semantics the SQLite schema and statements give them.
 */
module SpotDatabase {
  import opened Wrappers
  import opened Sorting
  import SqlText

  /** The columns of `fishing_spots` other than `id` and `created_at`. */
  datatype SpotInfo = SpotInfo(
    name: string,
    kind: string,
    city: string,
    latitude: real,
    longitude: real,
    fishSpecies: string,
    description: string,
    bestSeason: string,
    accessType: string)

  datatype Spot = Spot(id: int, info: SpotInfo)

  /** A row of `spot_ratings`; (spotId, userId) is UNIQUE. */
  datatype RatingRow = RatingRow(spotId: int, userId: int, rating: int)

  /** A row of `fishing_reports`; `createdAt` is the insertion time in seconds. */
  datatype Report = Report(
    id: int,
    spotId: int,
    userId: int,
    reportDate: string,
    fishCaught: string,
    weatherConditions: string,
    baitUsed: string,
    rating: int,
    comment: string,
    createdAt: int)

  /** A row of `get_spots_by_city`. */
  datatype SpotSummary = SpotSummary(spot: Spot, avgRating: real, ratingCount: nat)
  /** A row of `get_spots_by_fish`. */
  datatype SpotMatch = SpotMatch(spot: Spot, avgRating: real)
  /** A row of `get_recent_reports`: the report joined with its spot's name. */
  datatype ReportRow = ReportRow(report: Report, spotName: string)

  /** The seven spots inserted into an empty database. */
  const InitialSpots: seq<SpotInfo> := [
    SpotInfo("Химкинское водохранилище", "водохранилище", "москва", 55.8787, 37.4382,
             "щука, окунь, плотва, лещ", "Хорошие места у северного берега, глубина 3-8 метров",
             "круглый год", "бесплатный"),
    SpotInfo("Серебряный Бор", "озеро", "москва", 55.7776, 37.4267,
             "карась, карп, линь", "Тихие заводи с растительностью, илистое дно",
             "апрель-октябрь", "бесплатный"),
    SpotInfo("Клязьминское водохранилище", "водохранилище", "москва", 56.0234, 37.5678,
             "судак, щука, окунь, лещ", "Чистая вода, много коряжника, перспективные бровки",
             "май-сентябрь", "бесплатный"),
    SpotInfo("Финский залив", "залив", "санкт-петербург", 59.9311, 29.7707,
             "судак, лещ, плотва, корюшка", "Перспективные места у дамбы, глубина 5-15 метров",
             "круглый год", "бесплатный"),
    SpotInfo("Озеро Разлив", "озеро", "санкт-петербург", 60.1123, 29.9456,
             "форель, щука, окунь", "Чистое лесное озеро, каменистое дно",
             "июнь-сентябрь", "платный"),
    SpotInfo("Обское водохранилище", "водохранилище", "новосибирск", 54.8567, 82.9568,
             "судак, щука, окунь, лещ, язь", "Крупный водоем, много заливов и бухт",
             "май-октябрь", "бесплатный"),
    SpotInfo("Волчихинское водохранилище", "водохранилище", "екатеринбург", 56.8234, 60.2678,
             "щука, окунь, плотва, лещ", "Живописный водоем в лесной зоне",
             "май-сентябрь", "бесплатный")
  ]

  /** The seed spots with the ids AUTOINCREMENT gives them from `first` on. */
  function SeedRows(first: int): (rows: seq<Spot>)
    ensures |rows| == |InitialSpots| == 7
    ensures forall k :: 0 <= k < |rows| ==> rows[k] == Spot(first + k, InitialSpots[k])
  {
    seq(|InitialSpots|, k requires 0 <= k < |InitialSpots| => Spot(first + k, InitialSpots[k]))
  }

  // ---------------------------------------------------------------------------
  // Ratings

  /** The CHECK constraint of `spot_ratings.rating`. */
  predicate ValidRating(rating: int) { 1 <= rating <= 5 }

  predicate SameKey(r: RatingRow, spotId: int, userId: int)
  {
    r.spotId == spotId && r.userId == userId
  }

  ghost predicate UniqueKeys(rs: seq<RatingRow>)
  {
    forall i, j :: 0 <= i < j < |rs| ==> !SameKey(rs[i], rs[j].spotId, rs[j].userId)
  }

  ghost predicate AllValid(rs: seq<RatingRow>)
  {
    forall r :: r in rs ==> ValidRating(r.rating)
  }

  /** The rows that do not conflict with key (spotId, userId), in their order. */
  function WithoutKey(rs: seq<RatingRow>, spotId: int, userId: int): (r: seq<RatingRow>)
    ensures |r| <= |rs|
    ensures forall x :: x in r <==> x in rs && !SameKey(x, spotId, userId)
  {
    if rs == [] then []
    else
      var last := rs[|rs| - 1];
      WithoutKey(rs[..|rs| - 1], spotId, userId) + (if SameKey(last, spotId, userId) then [] else [last])
  }

  /** `INSERT OR REPLACE`: the conflicting row is deleted and the new row appended. */
  function Upsert(rs: seq<RatingRow>, row: RatingRow): (r: seq<RatingRow>)
    ensures 1 <= |r| <= |rs| + 1 && r[|r| - 1] == row
    ensures forall x :: x in r <==> x == row || (x in rs && !SameKey(x, row.spotId, row.userId))
  {
    WithoutKey(rs, row.spotId, row.userId) + [row]
  }

  /** The rating user `userId` gave spot `spotId`, if any. */
  function RatingBy(rs: seq<RatingRow>, spotId: int, userId: int): Option<int>
  {
    if rs == [] then None
    else if SameKey(rs[|rs| - 1], spotId, userId) then Some(rs[|rs| - 1].rating)
    else RatingBy(rs[..|rs| - 1], spotId, userId)
  }

  lemma {:induction false} WithoutKeyUnique(rs: seq<RatingRow>, spotId: int, userId: int)
    requires UniqueKeys(rs)
    ensures UniqueKeys(WithoutKey(rs, spotId, userId))
  {
    if rs != [] {
      var prefix := rs[..|rs| - 1];
      var last := rs[|rs| - 1];
      assert UniqueKeys(prefix);
      WithoutKeyUnique(prefix, spotId, userId);
      var w := WithoutKey(prefix, spotId, userId);
      forall x | x in w ensures !SameKey(x, last.spotId, last.userId) {
        var i :| 0 <= i < |prefix| && prefix[i] == x;
      }
    }
  }

  /** A replacing insert keeps (spotId, userId) unique and every rating within 1..5. */
  lemma UpsertKeepsConstraints(rs: seq<RatingRow>, row: RatingRow)
    requires UniqueKeys(rs) && AllValid(rs) && ValidRating(row.rating)
    ensures UniqueKeys(Upsert(rs, row)) && AllValid(Upsert(rs, row))
  {
    WithoutKeyUnique(rs, row.spotId, row.userId);
  }

  lemma {:induction false} RatingByWithoutOtherKey(rs: seq<RatingRow>, spotId: int, userId: int, s: int, u: int)
    requires !(s == spotId && u == userId)
    ensures RatingBy(WithoutKey(rs, spotId, userId), s, u) == RatingBy(rs, s, u)
  {
    if rs != [] {
      var prefix, last := rs[..|rs| - 1], rs[|rs| - 1];
      RatingByWithoutOtherKey(prefix, spotId, userId, s, u);
      var w := WithoutKey(prefix, spotId, userId);
      if SameKey(last, spotId, userId) {
        assert WithoutKey(rs, spotId, userId) == w;
        assert !SameKey(last, s, u);
      } else {
        assert WithoutKey(rs, spotId, userId) == w + [last];
        assert (w + [last])[..|w|] == w;
      }
    }
  }

  /** After a replacing insert the pair's rating is the new one; every other pair's is unchanged. */
  lemma UpsertRatingBy(rs: seq<RatingRow>, row: RatingRow, s: int, u: int)
    ensures RatingBy(Upsert(rs, row), s, u)
      == if s == row.spotId && u == row.userId then Some(row.rating) else RatingBy(rs, s, u)
  {
    var w := WithoutKey(rs, row.spotId, row.userId);
    assert (w + [row])[..|w|] == w;
    if !(s == row.spotId && u == row.userId) {
      RatingByWithoutOtherKey(rs, row.spotId, row.userId, s, u);
    }
  }

  /** The ratings of one spot, in table order. */
  function RatingsOf(rs: seq<RatingRow>, spotId: int): (vs: seq<int>)
    ensures |vs| <= |rs|
    ensures vs == [] <==> forall i :: 0 <= i < |rs| ==> rs[i].spotId != spotId
  {
    if rs == [] then []
    else
      var last := rs[|rs| - 1];
      RatingsOf(rs[..|rs| - 1], spotId) + (if last.spotId == spotId then [last.rating] else [])
  }

  function Sum(vs: seq<int>): int
  {
    if vs == [] then 0 else Sum(vs[..|vs| - 1]) + vs[|vs| - 1]
  }

  /** `COUNT(sr.id)` for a spot. */
  function RatingCount(rs: seq<RatingRow>, spotId: int): (n: nat)
    ensures n <= |rs|
    ensures n == 0 <==> forall i :: 0 <= i < |rs| ==> rs[i].spotId != spotId
  {
    |RatingsOf(rs, spotId)|
  }

  /** `COALESCE(AVG(sr.rating), 0)` for a spot. */
  function AvgRating(rs: seq<RatingRow>, spotId: int): (avg: real)
    ensures RatingCount(rs, spotId) == 0 ==> avg == 0.0
  {
    var vs := RatingsOf(rs, spotId);
    if |vs| == 0 then 0.0 else Sum(vs) as real / |vs| as real
  }

  lemma {:induction false} RatingsOfValid(rs: seq<RatingRow>, spotId: int)
    requires AllValid(rs)
    ensures forall i :: 0 <= i < |RatingsOf(rs, spotId)| ==> ValidRating(RatingsOf(rs, spotId)[i])
  {
    if rs != [] {
      assert AllValid(rs[..|rs| - 1]);
      RatingsOfValid(rs[..|rs| - 1], spotId);
    }
  }

  lemma {:induction false} SumBounds(vs: seq<int>)
    requires forall i :: 0 <= i < |vs| ==> ValidRating(vs[i])
    ensures |vs| <= Sum(vs) <= 5 * |vs|
  {
    if vs != [] {
      SumBounds(vs[..|vs| - 1]);
    }
  }

  /** A rated spot's average lies in 1..5; an unrated spot's is 0. */
  lemma AvgRatingRange(rs: seq<RatingRow>, spotId: int)
    requires AllValid(rs)
    ensures RatingCount(rs, spotId) == 0 <==> AvgRating(rs, spotId) == 0.0
    ensures RatingCount(rs, spotId) > 0 ==> 1.0 <= AvgRating(rs, spotId) <= 5.0
  {
    var vs := RatingsOf(rs, spotId);
    if |vs| > 0 {
      RatingsOfValid(rs, spotId);
      SumBounds(vs);
      AverageBounds(Sum(vs) as real, |vs| as real);
    }
  }

  lemma AverageBounds(total: real, n: real)
    requires n > 0.0 && n <= total <= 5.0 * n
    ensures 1.0 <= total / n <= 5.0
  {
    QuotientAtLeastOne(total, n);
    QuotientAtMostFive(total, n);
  }

  lemma QuotientAtLeastOne(total: real, n: real)
    requires n > 0.0 && n <= total
    ensures 1.0 <= total / n
  {
  }

  lemma QuotientAtMostFive(total: real, n: real)
    requires n > 0.0 && total <= 5.0 * n
    ensures total / n <= 5.0
  {
  }

  // ---------------------------------------------------------------------------
  // Spot queries

  /** `LOWER(fs.city) = LOWER(?)`, with SQLite's ASCII-only lower-casing. */
  predicate InCity(spot: Spot, city: string)
    ensures InCity(spot, city) <==> SqlText.FoldEq(spot.info.city, city)
  {
    SqlText.FoldEqIsLowerEq(spot.info.city, city);
    SqlText.Lower(spot.info.city) == SqlText.Lower(city)
  }

  /** Lower-casing the pattern `'%' || x || '%'` lower-cases only `x`. */
  lemma LowerWrapped(x: string)
    ensures SqlText.Lower("%" + x + "%") == "%" + SqlText.Lower(x) + "%"
  {
    var p := "%" + x + "%";
    assert SqlText.Lower(p)[0] == '%' && SqlText.Lower(p)[|p| - 1] == '%';
    forall i | 0 <= i < |x| ensures SqlText.Lower(p)[i + 1] == SqlText.Lower(x)[i] {
      assert p[i + 1] == x[i];
    }
  }

  /** `LOWER(fs.fish_species) LIKE LOWER('%' || fish || '%')`. */
  predicate HasFish(spot: Spot, fish: string)
    ensures HasFish(spot, fish) <==>
      SqlText.Like(SqlText.Lower(spot.info.fishSpecies), "%" + SqlText.Lower(fish) + "%")
  {
    LowerWrapped(fish);
    SqlText.Like(SqlText.Lower(spot.info.fishSpecies), SqlText.Lower("%" + fish + "%"))
  }

  function Summary(spot: Spot, rs: seq<RatingRow>): SpotSummary
  {
    SpotSummary(spot, AvgRating(rs, spot.id), RatingCount(rs, spot.id))
  }

  /** The grouped rows of `get_spots_by_city` before ordering. */
  function CityRows(spots: seq<Spot>, rs: seq<RatingRow>, city: string): (rows: seq<SpotSummary>)
    ensures forall r :: r in rows ==> r.spot in spots && InCity(r.spot, city) && r == Summary(r.spot, rs)
    ensures forall s :: s in spots && InCity(s, city) ==> Summary(s, rs) in rows
  {
    if spots == [] then []
    else
      var last := spots[|spots| - 1];
      assert forall s :: s in spots ==> s in spots[..|spots| - 1] || s == last;
      CityRows(spots[..|spots| - 1], rs, city) + (if InCity(last, city) then [Summary(last, rs)] else [])
  }

  /** The grouped rows of `get_spots_by_fish` before ordering. */
  function FishRows(spots: seq<Spot>, rs: seq<RatingRow>, fish: string): (rows: seq<SpotMatch>)
    ensures forall r :: r in rows ==> r.spot in spots && HasFish(r.spot, fish) && r.avgRating == AvgRating(rs, r.spot.id)
    ensures forall s :: s in spots && HasFish(s, fish) ==> SpotMatch(s, AvgRating(rs, s.id)) in rows
  {
    if spots == [] then []
    else
      var last := spots[|spots| - 1];
      assert forall s :: s in spots ==> s in spots[..|spots| - 1] || s == last;
      FishRows(spots[..|spots| - 1], rs, fish) + (if HasFish(last, fish) then [SpotMatch(last, AvgRating(rs, last.id))] else [])
  }

  function SummaryKey(r: SpotSummary): real { r.avgRating }
  function MatchKey(r: SpotMatch): real { r.avgRating }
  function ReportKey(r: ReportRow): real { r.report.createdAt as real }

  lemma LowerKeepsWildcards(s: string)
    ensures SqlText.NoWildcards(s) <==> SqlText.NoWildcards(SqlText.Lower(s))
  {
    if !SqlText.NoWildcards(s) {
      var i :| 0 <= i < |s| && (s[i] == '%' || s[i] == '_');
      assert SqlText.Lower(s)[i] == s[i];
    }
    if !SqlText.NoWildcards(SqlText.Lower(s)) {
      var i :| 0 <= i < |s| && (SqlText.Lower(s)[i] == '%' || SqlText.Lower(s)[i] == '_');
      assert s[i] == SqlText.Lower(s)[i];
    }
  }

  lemma FoldEqLower(a: string, b: string)
    ensures SqlText.FoldEq(SqlText.Lower(a), SqlText.Lower(b)) <==> SqlText.FoldEq(a, b)
  {
  }

  lemma ContainsFoldedLower(s: string, x: string)
    ensures SqlText.ContainsFolded(SqlText.Lower(s), SqlText.Lower(x)) <==> SqlText.ContainsFolded(s, x)
  {
    var ls, lx := SqlText.Lower(s), SqlText.Lower(x);
    forall k | 0 <= k <= |s| - |x| ensures SqlText.OccursAt(ls, lx, k) <==> SqlText.OccursAt(s, x, k) {
      assert ls[k..k + |x|] == SqlText.Lower(s[k..k + |x|]);
      FoldEqLower(s[k..k + |x|], x);
    }
    if SqlText.ContainsFolded(ls, lx) {
      var k :| SqlText.OccursAt(ls, lx, k);
      assert SqlText.OccursAt(s, x, k);
    }
    if SqlText.ContainsFolded(s, x) {
      var k :| SqlText.OccursAt(s, x, k);
      assert SqlText.OccursAt(ls, lx, k);
    }
  }

  /**
   * When the search text holds no `%` or `_`, a spot matches exactly when its
   * species list contains the text, ignoring ASCII case.
   */
  lemma HasFishIsSubstring(spot: Spot, fish: string)
    requires SqlText.NoWildcards(fish)
    ensures HasFish(spot, fish) <==> SqlText.ContainsFolded(spot.info.fishSpecies, fish)
  {
    LowerKeepsWildcards(fish);
    SqlText.LikeContains(SqlText.Lower(spot.info.fishSpecies), SqlText.Lower(fish));
    ContainsFoldedLower(spot.info.fishSpecies, fish);
  }

  // ---------------------------------------------------------------------------
  // The spot queries' result rows as the code indexes them

  /** A column value as `sqlite3` hands it to Python. */
  datatype SqlValue = Integer(i: int) | Real(r: real) | Text(t: string)

  /** Python's truth value of a column value. */
  predicate Truthy(v: SqlValue)
  {
    match v
    case Integer(i) => i != 0
    case Real(r) => r != 0.0
    case Text(t) => t != ""
  }

  /**
   * A result row of `SELECT fs.*, <aggregates>`: the eleven columns of
   * `fishing_spots` in schema order, `created_at` last, then the aggregates.
   */
  function ResultRow(spot: Spot, createdAt: string, aggregates: seq<SqlValue>): (row: seq<SqlValue>)
    ensures |row| == 11 + |aggregates|
    ensures row[0] == Integer(spot.id) && row[10] == Text(createdAt) && row[11..] == aggregates
  {
    [Integer(spot.id), Text(spot.info.name), Text(spot.info.kind), Text(spot.info.city),
     Real(spot.info.latitude), Real(spot.info.longitude), Text(spot.info.fishSpecies),
     Text(spot.info.description), Text(spot.info.bestSeason), Text(spot.info.accessType),
     Text(createdAt)] + aggregates
  }

  /**
   * `round(v, 1) if v else 0`, with `None` for the TypeError that `round`
   * raises on a text; the rounding to one decimal itself is not modelled.
   */
  function RoundedOrZero(v: SqlValue): (r: Option<real>)
    ensures !Truthy(v) ==> r == Some(0.0)
    ensures r.None? <==> v.Text? && v.t != ""
  {
    if !Truthy(v) then Some(0.0)
    else match v
      case Integer(i) => Some(i as real)
      case Real(x) => Some(x)
      case Text(_) => None
  }

  /** `v or 0`. */
  function OrZero(v: SqlValue): SqlValue
  {
    if Truthy(v) then v else Integer(0)
  }

  /** A dictionary built by `get_spots_by_city` as written (the descriptive columns omitted). */
  datatype CityDict = CityDict(id: int, avgRating: real, ratingCount: SqlValue)

  /**
   * The loop of `get_spots_by_city` as written, over the grouped rows in
   * order: `avg_rating` is read from column 10 and `rating_count` from
   * column 11. Every spot's `created_at` is the text `stamp`; `None` is the
   * TypeError that escapes from the first row.
   */
  function CityDictsAsWritten(rows: seq<SpotSummary>, stamp: string): (r: Option<seq<CityDict>>)
    ensures rows == [] ==> r == Some([])
    ensures stamp != "" ==> (r.None? <==> rows != [])
    ensures r.Some? ==> |r.value| == |rows|
    ensures r.Some? ==> forall i :: 0 <= i < |rows| ==> r.value[i].ratingCount == OrZero(Real(rows[i].avgRating))
  {
    if rows == [] then Some([])
    else
      var row := ResultRow(rows[0].spot, stamp, [Real(rows[0].avgRating), Integer(rows[0].ratingCount)]);
      match RoundedOrZero(row[10])
      case None => None
      case Some(avg) =>
        match CityDictsAsWritten(rows[1..], stamp)
        case None => None
        case Some(rest) => Some([CityDict(rows[0].spot.id, avg, OrZero(row[11]))] + rest)
  }

  /** A dictionary built by `get_spots_by_fish` as written (the descriptive columns omitted). */
  datatype FishDict = FishDict(id: int, avgRating: real)

  /**
   * The loop of `get_spots_by_fish` as written: `avg_rating` is read from
   * column 10, `created_at`. `None` is the TypeError that escapes.
   */
  function FishDictsAsWritten(rows: seq<SpotMatch>, stamp: string): (r: Option<seq<FishDict>>)
    ensures rows == [] ==> r == Some([])
    ensures stamp != "" ==> (r.None? <==> rows != [])
    ensures r.Some? ==> |r.value| == |rows|
  {
    if rows == [] then Some([])
    else
      var row := ResultRow(rows[0].spot, stamp, [Real(rows[0].avgRating)]);
      match RoundedOrZero(row[10])
      case None => None
      case Some(avg) =>
        match FishDictsAsWritten(rows[1..], stamp)
        case None => None
        case Some(rest) => Some([FishDict(rows[0].spot.id, avg)] + rest)
  }

  /**
   * On the freshly seeded database, `get_spots_by_city("москва")` as written
   * raises, whatever the creation timestamp, while the intended query finds
   * the first seed spot.
   */
  lemma SeededCitySearchRaises(stamp: string)
    requires stamp != ""
    ensures Summary(SeedRows(1)[0], []) in CityRows(SeedRows(1), [], "москва")
    ensures CityDictsAsWritten(CityRows(SeedRows(1), [], "москва"), stamp).None?
  {
    var seed := SeedRows(1)[0];
    assert seed.info.city == "москва";
    assert InCity(seed, "москва");
  }

  /** Likewise `get_spots_by_fish("щука")` raises on the seeded database. */
  lemma SeededFishSearchRaises(stamp: string)
    requires stamp != ""
    ensures SpotMatch(SeedRows(1)[0], AvgRating([], 1)) in FishRows(SeedRows(1), [], "щука")
    ensures FishDictsAsWritten(FishRows(SeedRows(1), [], "щука"), stamp).None?
  {
    var seed := SeedRows(1)[0];
    var species := seed.info.fishSpecies;
    assert species[0..4] == "щука";
    assert SqlText.OccursAt(species, "щука", 0);
    HasFishIsSubstring(seed, "щука");
  }

  // ---------------------------------------------------------------------------
  // Report query

  /** The name of the spot with id `id`, if there is one. */
  function SpotName(spots: seq<Spot>, id: int): (name: Option<string>)
    ensures name.Some? <==> exists s :: s in spots && s.id == id
    ensures name.Some? ==> exists s :: s in spots && s.id == id && s.info.name == name.value
  {
    if spots == [] then None
    else if spots[0].id == id then Some(spots[0].info.name)
    else SpotName(spots[1..], id)
  }

  /** `if spot_id:` — `None` and 0 select every spot. */
  predicate Selects(spotId: Option<int>, report: Report)
    ensures spotId.None? || spotId == Some(0) ==> Selects(spotId, report)
    ensures spotId.Some? && spotId.value != 0 ==> (Selects(spotId, report) <==> report.spotId == spotId.value)
  {
    spotId.None? || spotId.value == 0 || report.spotId == spotId.value
  }

  /** The rows of `fishing_reports JOIN fishing_spots`, filtered by `spotId`, before ordering. */
  function JoinedReports(reports: seq<Report>, spots: seq<Spot>, spotId: Option<int>): (rows: seq<ReportRow>)
    ensures forall r :: r in rows ==>
      r.report in reports && Selects(spotId, r.report) && SpotName(spots, r.report.spotId) == Some(r.spotName)
    ensures forall x :: x in reports && Selects(spotId, x) && SpotName(spots, x.spotId).Some? ==>
      ReportRow(x, SpotName(spots, x.spotId).value) in rows
  {
    if reports == [] then []
    else
      var last := reports[|reports| - 1];
      var name := SpotName(spots, last.spotId);
      assert forall x :: x in reports ==> x in reports[..|reports| - 1] || x == last;
      JoinedReports(reports[..|reports| - 1], spots, spotId)
        + (if Selects(spotId, last) && name.Some? then [ReportRow(last, name.value)] else [])
  }

  /** `ORDER BY fr.created_at DESC LIMIT ?` applied to the joined rows. */
  function Recent(joined: seq<ReportRow>, limit: int): (rows: seq<ReportRow>)
    ensures |rows| == if limit < 0 || limit >= |joined| then |joined| else limit
    ensures limit < 0 || limit >= |joined| ==> multiset(rows) == multiset(joined)
  {
    Limit(SortDesc(joined, ReportKey), limit)
  }

  /**
   * The recent rows are ordered newest first, number `limit` (or all rows when
   * there are fewer or `limit` is negative), are drawn from the joined rows,
   * and no row left out is newer than a row returned.
   */
  lemma RecentIsNewestFirst(joined: seq<ReportRow>, limit: int)
    ensures var rows := Recent(joined, limit);
      && SortedDesc(rows, ReportKey)
      && |rows| == (if limit < 0 || limit >= |joined| then |joined| else limit)
      && multiset(rows) <= multiset(joined)
      && forall x, y :: x in multiset(joined) - multiset(rows) && y in rows ==> ReportKey(x) <= ReportKey(y)
  {
    var sorted := SortDesc(joined, ReportKey);
    var rows := Limit(sorted, limit);
    LimitKeepsTop(sorted, limit, ReportKey);
    assert sorted == rows + sorted[|rows|..];
  }

  // ---------------------------------------------------------------------------
  // The database

  class FishingDatabase {
    var spots: seq<Spot>
    /** The next AUTOINCREMENT id of `fishing_spots`. */
    var nextSpotId: int
    var ratings: seq<RatingRow>
    var reports: seq<Report>
    /** The next AUTOINCREMENT id of `fishing_reports`. */
    var nextReportId: int

    /** The constraints the schema keeps: ids increase, ratings are unique per user and spot and within 1..5. */
    ghost predicate Valid()
      reads this
    {
      && nextSpotId >= 1 && nextReportId >= 1
      && (forall i :: 0 <= i < |spots| ==> 1 <= spots[i].id < nextSpotId)
      && (forall i, j :: 0 <= i < j < |spots| ==> spots[i].id < spots[j].id)
      && UniqueKeys(ratings) && AllValid(ratings)
      && (forall i :: 0 <= i < |reports| ==> 1 <= reports[i].id < nextReportId)
      && (forall i, j :: 0 <= i < j < |reports| ==> reports[i].id < reports[j].id)
    }

    /** A new database file: the tables are created empty and then seeded. */
    constructor ()
      ensures Valid()
      ensures spots == SeedRows(1) && ratings == [] && reports == []
    {
      spots, nextSpotId := [], 1;
      ratings := [];
      reports, nextReportId := [], 1;
      new;
      AddInitialData();
    }

    /** `add_initial_data`: inserts the seven seed spots only when `fishing_spots` is empty. */
    method AddInitialData()
      requires Valid()
      modifies this`spots, this`nextSpotId
      ensures Valid() && spots != []
      ensures old(spots) == [] ==> spots == SeedRows(old(nextSpotId)) && nextSpotId == old(nextSpotId) + 7
      ensures old(spots) != [] ==> spots == old(spots) && nextSpotId == old(nextSpotId)
    {
      if |spots| == 0 {
        ghost var first := nextSpotId;
        var i := 0;
        while i < |InitialSpots|
          invariant 0 <= i <= |InitialSpots|
          invariant nextSpotId == first + i
          invariant |spots| == i
          invariant forall k :: 0 <= k < i ==> spots[k] == Spot(first + k, InitialSpots[k])
          invariant Valid()
        {
          spots := spots + [Spot(nextSpotId, InitialSpots[i])];
          nextSpotId := nextSpotId + 1;
          i := i + 1;
        }
        assert spots == SeedRows(first);
      }
    }

    /** `init_database` on an existing file: tables are kept, seeding happens only if there are no spots. */
    method InitDatabase()
      requires Valid()
      modifies this`spots, this`nextSpotId
      ensures Valid() && spots != []
      ensures old(spots) == [] ==> spots == SeedRows(old(nextSpotId))
      ensures old(spots) != [] ==> spots == old(spots) && nextSpotId == old(nextSpotId)
    {
      AddInitialData();
    }

    /**
     * `get_spots_by_city` as intended: the city's spots with their rating
     * average and count, best rated first (`CityDictsAsWritten` is the code
     * as written).
     */
    method GetSpotsByCity(city: string) returns (result: seq<SpotSummary>)
      ensures SortedDesc(result, SummaryKey)
      ensures multiset(result) == multiset(CityRows(spots, ratings, city))
      ensures forall r :: r in result ==>
        r.spot in spots && InCity(r.spot, city)
        && r.avgRating == AvgRating(ratings, r.spot.id) && r.ratingCount == RatingCount(ratings, r.spot.id)
      ensures forall s :: s in spots && InCity(s, city) ==> Summary(s, ratings) in result
    {
      var rows: seq<SpotSummary> := [];
      for i := 0 to |spots|
        invariant rows == CityRows(spots[..i], ratings, city)
      {
        assert spots[..i + 1][..i] == spots[..i];
        if SqlText.Lower(spots[i].info.city) == SqlText.Lower(city) {
          rows := rows + [SpotSummary(spots[i], AvgRating(ratings, spots[i].id), RatingCount(ratings, spots[i].id))];
        }
      }
      assert spots[..|spots|] == spots;
      result := SortDesc(rows, SummaryKey);
      assert forall r :: r in result <==> r in rows by {
        assert forall r :: r in result <==> r in multiset(result);
      }
    }

    /**
     * `get_spots_by_fish` as intended: spots whose species list matches the
     * search text, best rated first (`FishDictsAsWritten` is the code as written).
     */
    method GetSpotsByFish(fish: string) returns (result: seq<SpotMatch>)
      ensures SortedDesc(result, MatchKey)
      ensures multiset(result) == multiset(FishRows(spots, ratings, fish))
      ensures forall r :: r in result ==>
        r.spot in spots && HasFish(r.spot, fish) && r.avgRating == AvgRating(ratings, r.spot.id)
      ensures forall s :: s in spots && HasFish(s, fish) ==> SpotMatch(s, AvgRating(ratings, s.id)) in result
    {
      var rows: seq<SpotMatch> := [];
      for i := 0 to |spots|
        invariant rows == FishRows(spots[..i], ratings, fish)
      {
        assert spots[..i + 1][..i] == spots[..i];
        if SqlText.Like(SqlText.Lower(spots[i].info.fishSpecies), SqlText.Lower("%" + fish + "%")) {
          rows := rows + [SpotMatch(spots[i], AvgRating(ratings, spots[i].id))];
        }
      }
      assert spots[..|spots|] == spots;
      result := SortDesc(rows, MatchKey);
      assert forall r :: r in result <==> r in rows by {
        assert forall r :: r in result <==> r in multiset(result);
      }
    }

    /** `add_spot_rating`: a rating outside 1..5 fails the CHECK; otherwise it replaces the user's earlier one. */
    method AddSpotRating(spotId: int, userId: int, rating: int) returns (ok: bool)
      requires Valid()
      modifies this`ratings
      ensures Valid()
      ensures ok <==> ValidRating(rating)
      ensures ratings == if ok then Upsert(old(ratings), RatingRow(spotId, userId, rating)) else old(ratings)
      ensures ok ==> RatingBy(ratings, spotId, userId) == Some(rating)
    {
      if !ValidRating(rating) {
        return false;
      }
      var row := RatingRow(spotId, userId, rating);
      UpsertKeepsConstraints(ratings, row);
      UpsertRatingBy(ratings, row, spotId, userId);
      ratings := Upsert(ratings, row);
      ok := true;
    }

    /**
     * `add_fishing_report`: appends one report dated `today`, stamped `now`.
     * The spot is not checked to exist.
     */
    method AddFishingReport(spotId: int, userId: int, fishCaught: string, weather: string, bait: string,
                            rating: int, comment: string, today: string, now: int) returns (ok: bool)
      requires Valid()
      modifies this`reports, this`nextReportId
      ensures Valid() && ok
      ensures reports == old(reports)
        + [Report(old(nextReportId), spotId, userId, today, fishCaught, weather, bait, rating, comment, now)]
      ensures nextReportId == old(nextReportId) + 1
    {
      reports := reports + [Report(nextReportId, spotId, userId, today, fishCaught, weather, bait, rating, comment, now)];
      nextReportId := nextReportId + 1;
      ok := true;
    }

    /** `get_recent_reports`: at most `limit` joined reports, newest first. */
    method GetRecentReports(spotId: Option<int> := None, limit: int := 5) returns (rows: seq<ReportRow>)
      ensures rows == Recent(JoinedReports(reports, spots, spotId), limit)
    {
      var all: seq<ReportRow> := [];
      for i := 0 to |reports|
        invariant all == JoinedReports(reports[..i], spots, spotId)
      {
        assert reports[..i + 1][..i] == reports[..i];
        var name := SpotName(spots, reports[i].spotId);
        if (spotId.None? || spotId.value == 0 || reports[i].spotId == spotId.value) && name.Some? {
          all := all + [ReportRow(reports[i], name.value)];
        }
      }
      assert reports[..|reports|] == reports;
      rows := Limit(SortDesc(all, ReportKey), limit);
      RecentIsNewestFirst(all, limit);
    }
  }

  /** Re-initialising keeps the seeds; a rating outside 1..5 is refused; a second rating by the same user replaces the first. */
  method RatingScenario(spotId: int, userId: int)
  {
    var db := new FishingDatabase();
    db.InitDatabase();
    assert db.spots == SeedRows(1);
    var ok := db.AddSpotRating(spotId, userId, 6);
    assert !ok && db.ratings == [];
    var four, five := RatingRow(spotId, userId, 4), RatingRow(spotId, userId, 5);
    assert Upsert([], four) == [four] by {
      assert WithoutKey([], spotId, userId) == [];
    }
    assert Upsert([four], five) == [five] by {
      assert WithoutKey([four], spotId, userId) == WithoutKey([], spotId, userId) == [];
    }
    ok := db.AddSpotRating(spotId, userId, 4);
    ok := db.AddSpotRating(spotId, userId, 5);
    assert ok && db.ratings == [five];
  }
}

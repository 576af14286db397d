/**
 * The request-building and response-handling logic of src/services/api.ts.
 * Each endpoint is a function from the query (or body) sent to the outcome
 * received, so the model records which requests are issued; `Math.random` is
 * an input (a draw in [0, 1) for the genre pick, a sequence of swaps for the
 * shuffle).
 */
module Api {
  import opened Wrappers
  import opened Strings
  import opened Http
  import opened Types
  import opened UrlParams
  import MoodMap

  /** A query parameter value: text, or a number sent in its decimal rendering. */
  datatype ParamValue = Text(text: string) | Number(value: real)

  /** The pairs of a query string, in order. */
  type Query = seq<(string, ParamValue)>

  // ---------------------------------------------------------------------------
  // axios helpers: getWeather, getWeatherByCity
  // ---------------------------------------------------------------------------

  /** What the current-weather response carries that the source reads: `main.temp` and each `weather[].icon`. */
  datatype WeatherReport = WeatherReport(temp: real, icons: seq<string>)

  /**
   * What `response.data` holds after a 2xx: the decoded JSON, or, when the
   * body is not JSON, the body text itself, because axios's default
   * `transitional.silentJSONParsing` swallows the parse error.
   */
  datatype AxiosBody<T> = Parsed(json: T) | RawText

  /** `axios.get(...)` then `.data`: a status outside 2xx or no response rejects; any 2xx resolves. */
  function AxiosData<T>(response: Outcome<T>): (r: Result<AxiosBody<T>, Failure>)
    ensures r.Ok? <==> response.Success? || response.BadJson?
    ensures response.Success? ==> r == Ok(Parsed(response.data))
    ensures response.BadJson? ==> r == Ok(RawText)
    ensures response.NotOk? ==> r == Err(StatusFailure(response.status))
    ensures response.NetworkError? ==> r == Err(NetworkFailure)
  {
    match response
    case Success(data) => Ok(Parsed(data))
    case NotOk(status, _) => Err(StatusFailure(status))
    case BadJson => Ok(RawText)
    case NetworkError => Err(NetworkFailure)
  }

  function WeatherQuery(lat: real, lon: real, apiKey: string): Query {
    [("lat", Number(lat)), ("lon", Number(lon)), ("units", Text("metric")), ("appid", Text(apiKey))]
  }

  /** `getWeather(lat, lon)`, with `weatherApi` standing for GET /weather. */
  function GetWeather(lat: real, lon: real, apiKey: string, weatherApi: Query -> Outcome<WeatherReport>)
    : (r: Result<AxiosBody<WeatherReport>, Failure>)
    ensures r.Ok? <==> weatherApi(WeatherQuery(lat, lon, apiKey)).Success? || weatherApi(WeatherQuery(lat, lon, apiKey)).BadJson?
    ensures r.Ok? ==> (r.value.Parsed? <==> weatherApi(WeatherQuery(lat, lon, apiKey)).Success?)
    ensures r.Ok? && r.value.Parsed? ==> r.value.json == weatherApi(WeatherQuery(lat, lon, apiKey)).data
  {
    AxiosData(weatherApi(WeatherQuery(lat, lon, apiKey)))
  }

  function CityQuery(city: string, apiKey: string): Query {
    [("q", Text(city)), ("units", Text("metric")), ("appid", Text(apiKey))]
  }

  /** `getWeatherByCity(city)`: the same endpoint, asked by name; metric units either way. */
  function GetWeatherByCity(city: string, apiKey: string, weatherApi: Query -> Outcome<WeatherReport>)
    : (r: Result<AxiosBody<WeatherReport>, Failure>)
    ensures r.Ok? <==> weatherApi(CityQuery(city, apiKey)).Success? || weatherApi(CityQuery(city, apiKey)).BadJson?
    ensures r.Ok? ==> (r.value.Parsed? <==> weatherApi(CityQuery(city, apiKey)).Success?)
    ensures r.Ok? && r.value.Parsed? ==> r.value.json == weatherApi(CityQuery(city, apiKey)).data
  {
    AxiosData(weatherApi(CityQuery(city, apiKey)))
  }

  // ---------------------------------------------------------------------------
  // searchCitiesWithWeather
  // ---------------------------------------------------------------------------

  /** One geocoder match. */
  datatype Location = Location(name: string, country: string, lat: real, lon: real)

  /** One search result. */
  datatype CityWeather = CityWeather(name: string, country: string, lat: real, lon: real, temp: real, iconCode: string)

  function GeoQuery(query: string, apiKey: string): Query {
    [("q", Text(query)), ("limit", Number(5.0)), ("appid", Text(apiKey))]
  }

  /**
   * The `try` block for one location: its weather, or `null` when the lookup
   * rejects, when the body is text (whose missing `main` makes reading `temp`
   * throw), or when the report has no `weather[0]` to read the icon from.
   */
  function CityLookup(loc: Location, apiKey: string, weatherApi: Query -> Outcome<WeatherReport>)
    : (r: Option<CityWeather>)
    ensures r.Some? <==> (weatherApi(WeatherQuery(loc.lat, loc.lon, apiKey)).Success?
                          && |weatherApi(WeatherQuery(loc.lat, loc.lon, apiKey)).data.icons| > 0)
    ensures r.Some? ==> r.value.name == loc.name && r.value.country == loc.country
                        && r.value.lat == loc.lat && r.value.lon == loc.lon
    ensures r.Some? ==> r.value.temp == weatherApi(WeatherQuery(loc.lat, loc.lon, apiKey)).data.temp
                        && r.value.iconCode == weatherApi(WeatherQuery(loc.lat, loc.lon, apiKey)).data.icons[0]
  {
    match GetWeather(loc.lat, loc.lon, apiKey, weatherApi)
    case Ok(Parsed(w)) =>
      if |w.icons| > 0 then Some(CityWeather(loc.name, loc.country, loc.lat, loc.lon, w.temp, w.icons[0])) else None
    case Ok(RawText) => None
    case Err(_) => None
  }

  /** `Promise.all(locations.map(...))` then `.filter(item => item !== null)`. */
  function CitiesWithWeather(locations: seq<Location>, apiKey: string, weatherApi: Query -> Outcome<WeatherReport>)
    : (cities: seq<CityWeather>)
    ensures |cities| <= |locations|
    decreases |locations|
  {
    if |locations| == 0 then []
    else
      var rest := CitiesWithWeather(locations[1..], apiKey, weatherApi);
      match CityLookup(locations[0], apiKey, weatherApi)
      case Some(city) => [city] + rest
      case None => rest
  }

  /**
   * `searchCitiesWithWeather(query)`: a geocoder failure rejects, and so does
   * a text body, which has no `.map`; failed weather lookups are dropped.
   */
  function SearchCitiesWithWeather(query: string, apiKey: string, geoApi: Query -> Outcome<seq<Location>>,
                                   weatherApi: Query -> Outcome<WeatherReport>)
    : (r: Result<seq<CityWeather>, Failure>)
    ensures r.Ok? <==> geoApi(GeoQuery(query, apiKey)).Success?
    ensures r.Ok? ==> r.value == CitiesWithWeather(geoApi(GeoQuery(query, apiKey)).data, apiKey, weatherApi)
    ensures r.Ok? ==> |r.value| <= |geoApi(GeoQuery(query, apiKey)).data|
    ensures geoApi(GeoQuery(query, apiKey)).BadJson? ==> r == Err(TypeFailure)
  {
    match AxiosData(geoApi(GeoQuery(query, apiKey)))
    case Ok(Parsed(locations)) => Ok(CitiesWithWeather(locations, apiKey, weatherApi))
    case Ok(RawText) => Err(TypeFailure)
    case Err(e) => Err(e)
  }

  /** The results of consecutive locations are the consecutive results: the order is the geocoder's. */
  lemma {:induction false} CitiesConcat(a: seq<Location>, b: seq<Location>, apiKey: string,
                                        weatherApi: Query -> Outcome<WeatherReport>)
    ensures CitiesWithWeather(a + b, apiKey, weatherApi)
         == CitiesWithWeather(a, apiKey, weatherApi) + CitiesWithWeather(b, apiKey, weatherApi)
    decreases |a|
  {
    if |a| == 0 {
      assert a + b == b;
    } else {
      assert (a + b)[0] == a[0];
      assert (a + b)[1..] == a[1..] + b;
      CitiesConcat(a[1..], b, apiKey, weatherApi);
    }
  }

  /** A location whose lookup fails contributes nothing; the others keep their places. */
  lemma FailedLookupDropped(locations: seq<Location>, i: nat, apiKey: string,
                            weatherApi: Query -> Outcome<WeatherReport>)
    requires i < |locations| && CityLookup(locations[i], apiKey, weatherApi).None?
    ensures CitiesWithWeather(locations, apiKey, weatherApi)
         == CitiesWithWeather(locations[..i], apiKey, weatherApi)
            + CitiesWithWeather(locations[i + 1..], apiKey, weatherApi)
  {
    assert locations == locations[..i] + ([locations[i]] + locations[i + 1..]);
    CitiesConcat(locations[..i], [locations[i]] + locations[i + 1..], apiKey, weatherApi);
    assert ([locations[i]] + locations[i + 1..])[1..] == locations[i + 1..];
  }

  /** The results are exactly the successful lookups. */
  lemma {:induction false} CitiesAreSuccessfulLookups(locations: seq<Location>, city: CityWeather, apiKey: string,
                                                      weatherApi: Query -> Outcome<WeatherReport>)
    ensures city in CitiesWithWeather(locations, apiKey, weatherApi)
        <==> exists i :: 0 <= i < |locations| && CityLookup(locations[i], apiKey, weatherApi) == Some(city)
    decreases |locations|
  {
    if |locations| > 0 {
      CitiesAreSuccessfulLookups(locations[1..], city, apiKey, weatherApi);
      if exists i :: 0 <= i < |locations| && CityLookup(locations[i], apiKey, weatherApi) == Some(city) {
        var i :| 0 <= i < |locations| && CityLookup(locations[i], apiKey, weatherApi) == Some(city);
        if i > 0 {
          assert locations[1..][i - 1] == locations[i];
        }
      }
      if exists i :: 0 <= i < |locations[1..]| && CityLookup(locations[1..][i], apiKey, weatherApi) == Some(city) {
        var i :| 0 <= i < |locations[1..]| && CityLookup(locations[1..][i], apiKey, weatherApi) == Some(city);
        assert locations[i + 1] == locations[1..][i];
      }
    }
  }

  /** When every lookup succeeds nothing is dropped: one result per location, in order. */
  lemma {:induction false} AllLookupsSucceed(locations: seq<Location>, apiKey: string,
                                             weatherApi: Query -> Outcome<WeatherReport>)
    requires forall i :: 0 <= i < |locations| ==> CityLookup(locations[i], apiKey, weatherApi).Some?
    ensures var cities := CitiesWithWeather(locations, apiKey, weatherApi);
      |cities| == |locations|
      && forall i :: 0 <= i < |locations| ==> Some(cities[i]) == CityLookup(locations[i], apiKey, weatherApi)
    decreases |locations|
  {
    if |locations| > 0 {
      assert forall i :: 0 <= i < |locations[1..]| ==> locations[1..][i] == locations[i + 1];
      AllLookupsSucceed(locations[1..], apiKey, weatherApi);
    }
  }

  // ---------------------------------------------------------------------------
  // getTopArtists
  // ---------------------------------------------------------------------------

  datatype ArtistItem = ArtistItem(id: string)

  /** `items.map(artist => artist.id)`. */
  function ArtistIds(items: seq<ArtistItem>): (ids: seq<string>)
    ensures |ids| == |items|
    ensures forall i :: 0 <= i < |items| ==> ids[i] == items[i].id
    decreases |items|
  {
    if |items| == 0 then [] else [items[0].id] + ArtistIds(items[1..])
  }

  /**
   * `getTopArtists(token)`, from the response to GET /me/top/artists?limit=2;
   * `None` stands for a body without `items`, whose `map` throws. Every
   * failure, thrown or not, is caught and gives no seeds.
   */
  function TopArtists(response: Outcome<Option<seq<ArtistItem>>>): (ids: seq<string>)
    ensures response.Success? && response.data.Some? ==>
      |ids| == |response.data.value| && forall i :: 0 <= i < |ids| ==> ids[i] == response.data.value[i].id
    ensures !(response.Success? && response.data.Some?) ==> ids == []
  {
    match response
    case Success(Some(items)) => ArtistIds(items)
    case _ => []
  }

  // ---------------------------------------------------------------------------
  // getRecommendations: the query
  // ---------------------------------------------------------------------------

  /** The fields of `RecommendationParams` the function reads; an absent field is `None`. */
  datatype RecommendationParams = RecommendationParams(
    seedArtists: Option<string>,
    seedGenres: Option<string>,
    targetValence: Option<real>,
    targetEnergy: Option<real>,
    targetAcousticness: Option<real>,
    limit: Option<real>)

  /** A string field that is truthy: present and not empty. */
  predicate Present(field: Option<string>) {
    field.Some? && field.value != ""
  }

  /** A number field that is truthy: present and not zero. */
  predicate NonZero(field: Option<real>) {
    field.Some? && field.value != 0.0
  }

  /** The first two pairs of the query: the page size and the market. */
  function BaseQuery(p: RecommendationParams): Query {
    [("limit", Number(if NonZero(p.limit) then p.limit.value else 12.0)), ("market", Text("US"))]
  }

  /** The seed pair: the artists when there are any, otherwise the genres. */
  function SeedQuery(p: RecommendationParams): Query {
    if Present(p.seedArtists) then [("seed_artists", Text(p.seedArtists.value))]
    else if Present(p.seedGenres) then [("seed_genres", Text(p.seedGenres.value))]
    else []
  }

  /** A target pair, sent only for a truthy target. */
  function TargetQuery(name: string, target: Option<real>): Query {
    if NonZero(target) then [(name, Number(target.value))] else []
  }

  /** The query of the recommendations request, in the order the pairs are appended. */
  function RecommendationQuery(p: RecommendationParams): Query {
    BaseQuery(p) + SeedQuery(p)
    + TargetQuery("target_valence", p.targetValence)
    + TargetQuery("target_energy", p.targetEnergy)
    + TargetQuery("target_acousticness", p.targetAcousticness)
  }

  /** `get` on the query, part by part. */
  lemma RecommendationQueryGet(p: RecommendationParams, name: string)
    ensures Get(RecommendationQuery(p), name) ==
      if Has(BaseQuery(p), name) then Get(BaseQuery(p), name)
      else if Has(SeedQuery(p), name) then Get(SeedQuery(p), name)
      else if Has(TargetQuery("target_valence", p.targetValence), name)
        then Get(TargetQuery("target_valence", p.targetValence), name)
      else if Has(TargetQuery("target_energy", p.targetEnergy), name)
        then Get(TargetQuery("target_energy", p.targetEnergy), name)
      else Get(TargetQuery("target_acousticness", p.targetAcousticness), name)
  {
    var b, s := BaseQuery(p), SeedQuery(p);
    var v := TargetQuery("target_valence", p.targetValence);
    var e := TargetQuery("target_energy", p.targetEnergy);
    var a := TargetQuery("target_acousticness", p.targetAcousticness);
    GetConcat(b + s + v + e, a, name);
    GetConcat(b + s + v, e, name);
    GetConcat(b + s, v, name);
    GetConcat(b, s, name);
    HasConcat(b + s + v, e, name);
    HasConcat(b + s, v, name);
    HasConcat(b, s, name);
  }

  lemma BaseQueryNames(p: RecommendationParams, name: string)
    ensures Has(BaseQuery(p), name) <==> name == "limit" || name == "market"
  {
    var b := BaseQuery(p);
    assert b[0].0 == "limit" && b[1].0 == "market";
  }

  lemma SeedQueryNames(p: RecommendationParams, name: string)
    ensures Has(SeedQuery(p), name) <==>
      (Present(p.seedArtists) && name == "seed_artists")
      || (!Present(p.seedArtists) && Present(p.seedGenres) && name == "seed_genres")
  {
    var s := SeedQuery(p);
    assert s != [] ==> s[0].0 == name ==> Has(s, name);
  }

  lemma TargetQueryNames(target: string, t: Option<real>, name: string)
    ensures Has(TargetQuery(target, t), name) <==> NonZero(t) && name == target
  {
    var q := TargetQuery(target, t);
    assert q != [] ==> q[0].0 == target;
  }

  /** The page size is the given limit when truthy and 12 otherwise; the market is always US. */
  lemma LimitAndMarket(p: RecommendationParams)
    ensures Get(RecommendationQuery(p), "limit") == Some(Number(if NonZero(p.limit) then p.limit.value else 12.0))
    ensures Get(RecommendationQuery(p), "market") == Some(Text("US"))
  {
    RecommendationQueryGet(p, "limit");
    RecommendationQueryGet(p, "market");
    BaseQueryNames(p, "limit");
    BaseQueryNames(p, "market");
    GetFirst(BaseQuery(p), 0, "limit");
    GetFirst(BaseQuery(p), 1, "market");
  }

  /** Artist seeds, when present, are sent and genre seeds are not; genre seeds are sent only without artists. */
  lemma SeedsExclusive(p: RecommendationParams)
    ensures Get(RecommendationQuery(p), "seed_artists")
         == if Present(p.seedArtists) then Some(Text(p.seedArtists.value)) else None
    ensures Get(RecommendationQuery(p), "seed_genres")
         == if !Present(p.seedArtists) && Present(p.seedGenres) then Some(Text(p.seedGenres.value)) else None
  {
    SeedGet(p, "seed_artists");
    SeedGet(p, "seed_genres");
    var s := SeedQuery(p);
    if s != [] {
      GetFirst(s, 0, s[0].0);
    }
  }

  /** For a seed name, only the seed pair can answer. */
  lemma SeedGet(p: RecommendationParams, name: string)
    requires name == "seed_artists" || name == "seed_genres"
    ensures Get(RecommendationQuery(p), name) == Get(SeedQuery(p), name)
  {
    RecommendationQueryGet(p, name);
    BaseQueryNames(p, name);
    SeedQueryNames(p, name);
    TargetQueryNames("target_valence", p.targetValence, name);
    TargetQueryNames("target_energy", p.targetEnergy, name);
    TargetQueryNames("target_acousticness", p.targetAcousticness, name);
  }

  /** Each target is sent exactly when it is truthy, so a target of 0 is left out. */
  lemma TargetsOnlyWhenNonZero(p: RecommendationParams)
    ensures Get(RecommendationQuery(p), "target_valence")
         == if NonZero(p.targetValence) then Some(Number(p.targetValence.value)) else None
    ensures Get(RecommendationQuery(p), "target_energy")
         == if NonZero(p.targetEnergy) then Some(Number(p.targetEnergy.value)) else None
    ensures Get(RecommendationQuery(p), "target_acousticness")
         == if NonZero(p.targetAcousticness) then Some(Number(p.targetAcousticness.value)) else None
  {
    TargetGet(p, "target_valence", p.targetValence);
    TargetGet(p, "target_energy", p.targetEnergy);
    TargetGet(p, "target_acousticness", p.targetAcousticness);
  }

  lemma TargetGet(p: RecommendationParams, name: string, t: Option<real>)
    requires (name == "target_valence" && t == p.targetValence)
          || (name == "target_energy" && t == p.targetEnergy)
          || (name == "target_acousticness" && t == p.targetAcousticness)
    ensures Get(RecommendationQuery(p), name) == if NonZero(t) then Some(Number(t.value)) else None
  {
    RecommendationQueryGet(p, name);
    BaseQueryNames(p, name);
    SeedQueryNames(p, name);
    TargetQueryNames("target_valence", p.targetValence, name);
    TargetQueryNames("target_energy", p.targetEnergy, name);
    TargetQueryNames("target_acousticness", p.targetAcousticness, name);
    if NonZero(t) {
      GetFirst(TargetQuery(name, t), 0, name);
    }
  }

  /** Builds the query as the source does, by `append` calls on `new URLSearchParams({ limit, market })`. */
  method BuildRecommendationQuery(p: RecommendationParams) returns (urlParams: SearchParams<ParamValue>)
    ensures fresh(urlParams)
    ensures urlParams.entries == RecommendationQuery(p)
  {
    var limit := if NonZero(p.limit) then p.limit.value else 12.0;
    urlParams := new SearchParams.FromRecord([("limit", Number(limit)), ("market", Text("US"))]);

    if Present(p.seedArtists) {
      urlParams.Append("seed_artists", Text(p.seedArtists.value));
    } else if Present(p.seedGenres) {
      urlParams.Append("seed_genres", Text(p.seedGenres.value));
    }

    ghost var seeded := urlParams.entries;
    assert seeded == BaseQuery(p) + SeedQuery(p);

    AppendTarget(urlParams, "target_valence", p.targetValence);
    AppendTarget(urlParams, "target_energy", p.targetEnergy);
    AppendTarget(urlParams, "target_acousticness", p.targetAcousticness);
  }

  /** `if (target) params.append(name, target.toString())`. */
  method AppendTarget(urlParams: SearchParams<ParamValue>, name: string, target: Option<real>)
    modifies urlParams
    ensures urlParams.entries == old(urlParams.entries) + TargetQuery(name, target)
  {
    if NonZero(target) {
      urlParams.Append(name, Number(target.value));
    }
  }

  // ---------------------------------------------------------------------------
  // getRecommendationsFallback
  // ---------------------------------------------------------------------------

  /** `Math.floor(Math.random() * n)` for a draw `pick`: an index below `n`. */
  function PickIndex(pick: real, n: nat): (k: nat)
    requires 0.0 <= pick < 1.0 && n > 0
    ensures k < n
  {
    assert 0.0 <= pick * n as real < n as real;
    (pick * n as real).Floor
  }

  /** The genre the fallback searches for: one of the comma-separated seeds, trimmed. */
  function PickGenre(seedGenres: string, pick: real): (genre: string)
    requires 0.0 <= pick < 1.0
    ensures exists k :: 0 <= k < |Split(seedGenres, ',')| && genre == Trim(Split(seedGenres, ',')[k])
  {
    var genres := Split(seedGenres, ',');
    Trim(genres[PickIndex(pick, |genres|)])
  }

  /** Every seed can be picked: the draw k/n picks the k-th. */
  lemma EverySeedCanBePicked(seedGenres: string, k: nat)
    requires k < |Split(seedGenres, ',')|
    ensures var n := |Split(seedGenres, ',')|;
      0.0 <= k as real / n as real < 1.0
      && PickGenre(seedGenres, k as real / n as real) == Trim(Split(seedGenres, ',')[k])
  {
    var n := |Split(seedGenres, ',')|;
    DrawPicksIndex(k, n);
  }

  lemma DrawPicksIndex(k: nat, n: nat)
    requires k < n
    ensures 0.0 <= k as real / n as real < 1.0
    ensures PickIndex(k as real / n as real, n) == k
  {
    var x := k as real / n as real;
    assert x * n as real == k as real;
    assert (x - 1.0) * n as real == k as real - n as real;
  }

  /** The search query for one genre, twelve tracks. */
  function FallbackQuery(genre: string): Query {
    [("q", Text("genre:" + genre)), ("type", Text("track")), ("limit", Text("12"))]
  }

  /** `s` with the elements at `i` and `j` exchanged. */
  function Swap<T>(s: seq<T>, i: nat, j: nat): (r: seq<T>)
    requires i < |s| && j < |s|
    ensures |r| == |s| && multiset(r) == multiset(s)
  {
    s[i := s[j]][j := s[i]]
  }

  /**
   * The order `sort(() => Math.random() - 0.5)` leaves: the exchanges the
   * sort makes, in order, each index taken modulo the length.
   */
  function Shuffled<T>(s: seq<T>, swaps: seq<(nat, nat)>): seq<T>
    decreases |swaps|
  {
    if |swaps| == 0 || |s| == 0 then s
    else Shuffled(Swap(s, swaps[0].0 % |s|, swaps[0].1 % |s|), swaps[1..])
  }

  /** Whatever the random answers, the shuffle only reorders: same length, same elements. */
  lemma {:induction false} ShuffledIsPermutation<T>(s: seq<T>, swaps: seq<(nat, nat)>)
    ensures |Shuffled(s, swaps)| == |s|
    ensures multiset(Shuffled(s, swaps)) == multiset(s)
    decreases |swaps|
  {
    if |swaps| > 0 && |s| > 0 {
      ShuffledIsPermutation(Swap(s, swaps[0].0 % |s|, swaps[0].1 % |s|), swaps[1..]);
    }
  }

  /** The sort runs in place on the items array. */
  method ShuffleInPlace<T>(a: array<T>, swaps: seq<(nat, nat)>)
    modifies a
    ensures a[..] == Shuffled(old(a[..]), swaps)
  {
    if a.Length == 0 {
      return;
    }
    var n := 0;
    while n < |swaps|
      invariant 0 <= n <= |swaps|
      invariant Shuffled(a[..], swaps[n..]) == Shuffled(old(a[..]), swaps)
    {
      var i, j := swaps[n].0 % a.Length, swaps[n].1 % a.Length;
      ghost var before := a[..];
      var t := a[i];
      a[i] := a[j];
      a[j] := t;
      assert a[..] == Swap(before, i, j);
      assert swaps[n..][1..] == swaps[n + 1..];
      n := n + 1;
    }
    assert swaps[n..] == [];
  }

  /**
   * How the search response settles the fallback: the shuffled
   * `tracks.items` (none when the body has no such list), no tracks for a
   * refused request, and a rejection when there is no response or no JSON.
   */
  function FallbackResult(response: Outcome<Option<seq<Track>>>, swaps: seq<(nat, nat)>)
    : (r: Result<seq<Track>, Failure>)
    ensures response.Success? ==> r.Ok? && multiset(r.value) == multiset(response.data.GetOr([]))
    ensures response.NotOk? ==> r == Ok([])
    ensures response.BadJson? ==> r == Err(JsonFailure)
    ensures response.NetworkError? ==> r == Err(NetworkFailure)
  {
    match response
    case Success(items) =>
      ShuffledIsPermutation(items.GetOr([]), swaps);
      Ok(Shuffled(items.GetOr([]), swaps))
    case NotOk(_, _) => Ok([])
    case BadJson => Err(JsonFailure)
    case NetworkError => Err(NetworkFailure)
  }

  /** `tracks.sort(() => Math.random() - 0.5)` on a fresh array holding the found tracks. */
  method ShuffleTracks(found: seq<Track>, swaps: seq<(nat, nat)>) returns (shuffled: seq<Track>)
    ensures shuffled == Shuffled(found, swaps)
    ensures multiset(shuffled) == multiset(found)
  {
    var a := new Track[|found|](i requires 0 <= i < |found| reads {} => found[i]);
    assert a[..] == found;
    ShuffleInPlace(a, swaps);
    shuffled := a[..];
    ShuffledIsPermutation(found, swaps);
  }

  /**
   * `getRecommendationsFallback(seedGenres)`, with `searchApi` standing for GET
   * /search. `query` is the query it sends.
   */
  method GetRecommendationsFallback(seedGenres: string, searchApi: Query -> Outcome<Option<seq<Track>>>,
                                    pick: real, swaps: seq<(nat, nat)>)
    returns (result: Result<seq<Track>, Failure>, query: Query)
    requires 0.0 <= pick < 1.0
    ensures query == FallbackQuery(PickGenre(seedGenres, pick))
    ensures result == FallbackResult(searchApi(query), swaps)
  {
    var genres := Split(seedGenres, ',');
    var selectedGenre := Trim(genres[PickIndex(pick, |genres|)]);

    var params := new SearchParams.FromRecord([("q", Text("genre:" + selectedGenre)), ("type", Text("track")),
                                               ("limit", Text("12"))]);
    query := params.entries;

    var response := searchApi(query);
    match response {
      case Success(items) =>
        var shuffled := ShuffleTracks(items.GetOr([]), swaps);
        result := Ok(shuffled);
      case NotOk(_, _) =>
        result := Ok([]);
      case BadJson =>
        result := Err(JsonFailure);
      case NetworkError =>
        result := Err(NetworkFailure);
    }
  }

  /** For a seed string from the mood table, the fallback searches for one of its tags exactly. */
  lemma FallbackGenreIsMoodTag(condition: string, timeOfDay: MoodMap.TimeOfDay, pick: real)
    requires 0.0 <= pick < 1.0
    ensures var genres := MoodMap.GenresByWeather(condition, timeOfDay);
      var genre := PickGenre(genres, pick);
      genre in MoodMap.GenreTags(genres) && genre != ""
  {
    var genres := MoodMap.GenresByWeather(condition, timeOfDay);
    var tags := Split(genres, ',');
    MoodMap.GenreTagsWellFormed(condition, timeOfDay);
    var k := PickIndex(pick, |tags|);
    TrimNoWhitespace(tags[k]);
  }

  // ---------------------------------------------------------------------------
  // getRecommendations: the branching
  // ---------------------------------------------------------------------------

  /** A request the recommendation logic issues. */
  datatype Request = Recommendations(query: Query) | Search(query: Query)

  /** `seed_genres || "pop"`. */
  function GenresOrPop(seedGenres: Option<string>): (genres: string)
    ensures genres != ""
  {
    if Present(seedGenres) then seedGenres.value else "pop"
  }

  /** `requests` and `result` are those of the fallback for `seedGenres`. */
  predicate FellBackTo(seedGenres: string, pick: real, swaps: seq<(nat, nat)>,
                       searchApi: Query -> Outcome<Option<seq<Track>>>,
                       requests: seq<Request>, result: Result<seq<Track>, Failure>)
    requires 0.0 <= pick < 1.0
  {
    var query := FallbackQuery(PickGenre(seedGenres, pick));
    requests == [Search(query)] && result == FallbackResult(searchApi(query), swaps)
  }

  /**
   * `getRecommendations(params)`, with `recommendationsApi` standing for GET
   * /recommendations and `searchApi` for GET /search. `requests` lists what
   * was sent, in order:
   * no seeds at all goes straight to the fallback with "pop"; otherwise the
   * recommendations request is sent, and an ok response gives its tracks, a
   * refused one the fallback on the genre seeds (or no tracks without genre
   * seeds), and a missing or unreadable response the fallback on the genre
   * seeds or "pop".
   */
  method GetRecommendations(p: RecommendationParams,
                            recommendationsApi: Query -> Outcome<Option<seq<Track>>>,
                            searchApi: Query -> Outcome<Option<seq<Track>>>,
                            pick: real, swaps: seq<(nat, nat)>)
    returns (result: Result<seq<Track>, Failure>, requests: seq<Request>)
    requires 0.0 <= pick < 1.0
    ensures !Present(p.seedArtists) && !Present(p.seedGenres) ==>
      FellBackTo("pop", pick, swaps, searchApi, requests, result)
    ensures Present(p.seedArtists) || Present(p.seedGenres) ==>
      var primary := RecommendationQuery(p);
      |requests| >= 1 && requests[0] == Recommendations(primary)
      && match recommendationsApi(primary)
         case Success(tracks) => requests == [Recommendations(primary)] && result == Ok(tracks.GetOr([]))
         case NotOk(_, _) =>
           if Present(p.seedGenres) then FellBackTo(p.seedGenres.value, pick, swaps, searchApi, requests[1..], result)
           else requests == [Recommendations(primary)] && result == Ok([])
         case _ => FellBackTo(GenresOrPop(p.seedGenres), pick, swaps, searchApi, requests[1..], result)
  {
    if !Present(p.seedArtists) && !Present(p.seedGenres) {
      var query;
      result, query := GetRecommendationsFallback("pop", searchApi, pick, swaps);
      requests := [Search(query)];
      return;
    }

    var urlParams := BuildRecommendationQuery(p);
    var primary := urlParams.entries;
    requests := [Recommendations(primary)];

    var response := recommendationsApi(primary);
    match response {
      case Success(tracks) =>
        result := Ok(tracks.GetOr([]));
      case NotOk(_, _) =>
        if Present(p.seedGenres) {
          var query;
          result, query := GetRecommendationsFallback(p.seedGenres.value, searchApi, pick, swaps);
          requests := requests + [Search(query)];
        } else {
          result := Ok([]);
        }
      case _ =>
        var query;
        result, query := GetRecommendationsFallback(GenresOrPop(p.seedGenres), searchApi, pick, swaps);
        requests := requests + [Search(query)];
    }
  }

  // ---------------------------------------------------------------------------
  // getCurrentUserProfile, createPlaylist, addTracksToPlaylist
  // ---------------------------------------------------------------------------

  /** A POST request: its URL and its JSON body. */
  datatype PostRequest<+B> = PostRequest(url: string, body: B)

  /** `if (!response.ok) throw new Error(message); return response.json();`. */
  function JsonOrThrow<T>(response: Outcome<T>, message: string): (r: Result<T, Failure>)
    ensures r.Ok? <==> response.Success?
    ensures response.Success? ==> r.value == response.data
    ensures response.NotOk? ==> r == Err(Thrown(message))
    ensures response.BadJson? ==> r == Err(JsonFailure)
    ensures response.NetworkError? ==> r == Err(NetworkFailure)
  {
    match response
    case Success(data) => Ok(data)
    case NotOk(_, _) => Err(Thrown(message))
    case BadJson => Err(JsonFailure)
    case NetworkError => Err(NetworkFailure)
  }

  /** `getCurrentUserProfile(token)`, from the response to GET /me. */
  function GetCurrentUserProfile(response: Outcome<UserProfile>): (r: Result<UserProfile, Failure>)
    ensures r.Ok? <==> response.Success?
    ensures response.Success? ==> r.value == response.data
    ensures response.NotOk? ==> r == Err(Thrown("Failed to fetch user profile"))
  {
    JsonOrThrow(response, "Failed to fetch user profile")
  }

  const PlaylistDescription: string := "Generated by SonicMood based on local weather."

  /** The JSON body of the playlist creation request. */
  datatype PlaylistBody = PlaylistBody(name: string, description: string, isPublic: bool)

  function CreatePlaylistRequest(userId: string, name: string): PostRequest<PlaylistBody> {
    PostRequest("https://api.spotify.com/v1/users/" + userId + "/playlists",
                PlaylistBody(name, PlaylistDescription, false))
  }

  /** `createPlaylist(userId, name)`, with `playlistsApi` standing for the POST. */
  function CreatePlaylist<T>(userId: string, name: string, playlistsApi: PostRequest<PlaylistBody> -> Outcome<T>)
    : (r: Result<T, Failure>)
    ensures r.Ok? <==> playlistsApi(CreatePlaylistRequest(userId, name)).Success?
    ensures r.Ok? ==> r.value == playlistsApi(CreatePlaylistRequest(userId, name)).data
    ensures playlistsApi(CreatePlaylistRequest(userId, name)).NotOk? ==> r == Err(Thrown("Failed to create playlist"))
  {
    JsonOrThrow(playlistsApi(CreatePlaylistRequest(userId, name)), "Failed to create playlist")
  }

  /** The playlist is private, carries the fixed description and the given name, and is created for the given user. */
  lemma PlaylistRequestShape(userId: string, name: string)
    ensures var request := CreatePlaylistRequest(userId, name);
      request.body == PlaylistBody(name, "Generated by SonicMood based on local weather.", false)
      && Includes(request.url, userId)
  {
    IncludesMiddle("https://api.spotify.com/v1/users/", userId, "/playlists");
  }

  /** The JSON body of the add-tracks request: an object whose `uris` field lists the tracks. */
  datatype TracksBody = TracksBody(uris: seq<string>)

  function AddTracksRequest(playlistId: string, uris: seq<string>): PostRequest<TracksBody> {
    PostRequest("https://api.spotify.com/v1/playlists/" + playlistId + "/tracks", TracksBody(uris))
  }

  /** The tracks are posted to the given playlist, all of them, as given and in order. */
  lemma AddTracksRequestShape(playlistId: string, uris: seq<string>)
    ensures var request := AddTracksRequest(playlistId, uris);
      Includes(request.url, playlistId)
      && |request.body.uris| == |uris|
      && forall i :: 0 <= i < |uris| ==> request.body.uris[i] == uris[i]
  {
    IncludesMiddle("https://api.spotify.com/v1/playlists/", playlistId, "/tracks");
  }

  /** `addTracksToPlaylist(playlistId, uris)`, with `tracksApi` standing for the POST. */
  function AddTracksToPlaylist<T>(playlistId: string, uris: seq<string>,
                                  tracksApi: PostRequest<TracksBody> -> Outcome<T>)
    : (r: Result<T, Failure>)
    ensures r.Ok? <==> tracksApi(AddTracksRequest(playlistId, uris)).Success?
    ensures r.Ok? ==> r.value == tracksApi(AddTracksRequest(playlistId, uris)).data
    ensures tracksApi(AddTracksRequest(playlistId, uris)).NotOk? ==> r == Err(Thrown("Failed to add tracks to playlist"))
  {
    JsonOrThrow(tracksApi(AddTracksRequest(playlistId, uris)), "Failed to add tracks to playlist")
  }
}

/**
 * The weather-condition to genre-seed rule table of src/utils/moodMap.ts:
 * a first-match-wins chain of substring tests on the lower-cased condition,
 * yielding a comma-separated list of genre tags.
 */
module MoodMap {
  import opened Strings

  /** The `timeOfDay` argument, `'day' | 'night'`. */
  datatype TimeOfDay = Day | Night

  const RainGenres: string := "acoustic,piano,chill"
  const ClearDayGenres: string := "pop,summer,road-trip"
  const ClearNightGenres: string := "club,dance,synth-pop"
  const CloudGenres: string := "indie,alt-rock"
  const SnowGenres: string := "classical,holidays"
  const DefaultGenres: string := "pop"

  // The rules, each over an already lower-cased condition, in the order they are tried.

  predicate IsRainy(weather: string) {
    Includes(weather, "rain") || Includes(weather, "drizzle") || Includes(weather, "thunderstorm")
  }

  predicate IsClear(weather: string) {
    Includes(weather, "clear")
  }

  predicate IsCloudy(weather: string) {
    Includes(weather, "clouds") || Includes(weather, "atmosphere")
    || Includes(weather, "mist") || Includes(weather, "fog")
  }

  predicate IsSnowy(weather: string) {
    Includes(weather, "snow")
  }

  /** `getGenresByWeather(condition, timeOfDay)`. */
  function GenresByWeather(condition: string, timeOfDay: TimeOfDay): (genres: string)
  {
    var weather := ToLower(condition);
    if IsRainy(weather) then RainGenres
    else if IsClear(weather) then (if timeOfDay == Day then ClearDayGenres else ClearNightGenres)
    else if IsCloudy(weather) then CloudGenres
    else if IsSnowy(weather) then SnowGenres
    else DefaultGenres
  }

  /** The genre tags of a result, as `split(',')` yields them. */
  function GenreTags(genres: string): seq<string> {
    Split(genres, ',')
  }

  /** `variant` is `word` written in any mix of upper and lower case. */
  predicate IsCaseVariant(variant: string, word: string) {
    ToLower(variant) == word
  }

  /**
   * A condition mentioning rain, drizzle or thunderstorm, in any case, maps to the
   * acoustic set at any time of day, whatever else it mentions (clear included):
   * the rain rule is tried first.
   */
  lemma RainyConditionIsAcoustic(condition: string, keyword: string, timeOfDay: TimeOfDay)
    requires IsCaseVariant(keyword, "rain") || IsCaseVariant(keyword, "drizzle")
          || IsCaseVariant(keyword, "thunderstorm")
    requires Includes(condition, keyword)
    ensures GenresByWeather(condition, timeOfDay) == "acoustic,piano,chill"
  {
    IncludesToLower(condition, keyword);
  }

  /** A clear condition without rain maps to the day or the night set. */
  lemma ClearConditionByTimeOfDay(condition: string, keyword: string)
    requires IsCaseVariant(keyword, "clear") && Includes(condition, keyword)
    requires !IsRainy(ToLower(condition))
    ensures GenresByWeather(condition, Day) == "pop,summer,road-trip"
    ensures GenresByWeather(condition, Night) == "club,dance,synth-pop"
  {
    IncludesToLower(condition, keyword);
  }

  /** Clouds, atmosphere, mist or fog (and neither rain nor clear) map to the indie set. */
  lemma CloudyConditionIsIndie(condition: string, keyword: string, timeOfDay: TimeOfDay)
    requires IsCaseVariant(keyword, "clouds") || IsCaseVariant(keyword, "atmosphere")
          || IsCaseVariant(keyword, "mist") || IsCaseVariant(keyword, "fog")
    requires Includes(condition, keyword)
    requires !IsRainy(ToLower(condition)) && !IsClear(ToLower(condition))
    ensures GenresByWeather(condition, timeOfDay) == "indie,alt-rock"
  {
    IncludesToLower(condition, keyword);
  }

  /** Snow, when no earlier rule matches, maps to the classical set. */
  lemma SnowyConditionIsClassical(condition: string, keyword: string, timeOfDay: TimeOfDay)
    requires IsCaseVariant(keyword, "snow") && Includes(condition, keyword)
    requires var w := ToLower(condition); !IsRainy(w) && !IsClear(w) && !IsCloudy(w)
    ensures GenresByWeather(condition, timeOfDay) == "classical,holidays"
  {
    IncludesToLower(condition, keyword);
  }

  /** The rules are exhaustive in this sense: a condition matching none of them maps to "pop". */
  lemma UnmatchedConditionIsPop(condition: string, timeOfDay: TimeOfDay)
    requires var w := ToLower(condition); !IsRainy(w) && !IsClear(w) && !IsCloudy(w) && !IsSnowy(w)
    ensures GenresByWeather(condition, timeOfDay) == "pop"
  {
  }

  /** The result depends on the condition only through its lower-cased form. */
  lemma GenresIgnoreCase(condition: string, timeOfDay: TimeOfDay)
    ensures GenresByWeather(condition, timeOfDay) == GenresByWeather(ToLower(condition), timeOfDay)
  {
    ToLowerIdempotent(condition);
  }

  /** Only a clear condition makes the time of day matter. */
  lemma TimeOfDayMattersOnlyWhenClear(condition: string)
    ensures GenresByWeather(condition, Day) != GenresByWeather(condition, Night)
        <==> (!IsRainy(ToLower(condition)) && IsClear(ToLower(condition)))
  {
  }

  /** No character of `s` is one `trim` would remove. */
  predicate NoWhitespace(s: string) {
    forall j :: 0 <= j < |s| ==> !IsWhitespace(s[j])
  }

  /** One or more tags, none of them empty and none containing whitespace. */
  predicate WellFormedTags(tags: seq<string>) {
    |tags| >= 1 && forall k :: 0 <= k < |tags| ==> tags[k] != "" && NoWhitespace(tags[k])
  }

  /**
   * Every result is a comma-separated list of one or more non-empty tags
   * without whitespace: the shape the search fallback splits and trims.
   */
  lemma GenreTagsWellFormed(condition: string, timeOfDay: TimeOfDay)
    ensures WellFormedTags(GenreTags(GenresByWeather(condition, timeOfDay)))
  {
    var genres := GenresByWeather(condition, timeOfDay);
    if genres == RainGenres {
      RainTags();
      RainTagsWellFormed();
    } else if genres == ClearDayGenres {
      ClearDayTags();
      ClearDayTagsWellFormed();
    } else if genres == ClearNightGenres {
      ClearNightTags();
      ClearNightTagsWellFormed();
    } else if genres == CloudGenres {
      CloudTags();
      CloudTagsWellFormed();
    } else if genres == SnowGenres {
      SnowTags();
      SnowTagsWellFormed();
    } else {
      DefaultTags();
      DefaultTagsWellFormed();
    }
  }

  lemma RainTagsWellFormed()
    ensures WellFormedTags(["acoustic", "piano", "chill"])
  {
  }

  lemma ClearDayTagsWellFormed()
    ensures WellFormedTags(["pop", "summer", "road-trip"])
  {
  }

  lemma ClearNightTagsWellFormed()
    ensures WellFormedTags(["club", "dance", "synth-pop"])
  {
  }

  lemma CloudTagsWellFormed()
    ensures WellFormedTags(["indie", "alt-rock"])
  {
  }

  lemma SnowTagsWellFormed()
    ensures WellFormedTags(["classical", "holidays"])
  {
  }

  lemma DefaultTagsWellFormed()
    ensures WellFormedTags(["pop"])
  {
  }

  /** Three comma-free tags joined by commas split back into those tags. */
  lemma ThreeTags(genres: string, a: string, b: string, c: string)
    requires genres == a + [','] + b + [','] + c
    requires ',' !in a && ',' !in b && ',' !in c
    ensures GenreTags(genres) == [a, b, c]
  {
    SplitThree(a, b, c, ',');
  }

  /** Two comma-free tags joined by a comma split back into those tags. */
  lemma TwoTags(genres: string, a: string, b: string)
    requires genres == a + [','] + b
    requires ',' !in a && ',' !in b
    ensures GenreTags(genres) == [a, b]
  {
    SplitTwo(a, b, ',');
  }

  lemma RainTags()
    ensures GenreTags(RainGenres) == ["acoustic", "piano", "chill"]
  {
    ThreeTags(RainGenres, "acoustic", "piano", "chill");
  }

  lemma ClearDayTags()
    ensures GenreTags(ClearDayGenres) == ["pop", "summer", "road-trip"]
  {
    ThreeTags(ClearDayGenres, "pop", "summer", "road-trip");
  }

  lemma ClearNightTags()
    ensures GenreTags(ClearNightGenres) == ["club", "dance", "synth-pop"]
  {
    ThreeTags(ClearNightGenres, "club", "dance", "synth-pop");
  }

  lemma CloudTags()
    ensures GenreTags(CloudGenres) == ["indie", "alt-rock"]
  {
    TwoTags(CloudGenres, "indie", "alt-rock");
  }

  lemma SnowTags()
    ensures GenreTags(SnowGenres) == ["classical", "holidays"]
  {
    TwoTags(SnowGenres, "classical", "holidays");
  }

  lemma DefaultTags()
    ensures GenreTags(DefaultGenres) == ["pop"]
  {
    SplitNoSeparator(DefaultGenres, ',');
  }
}

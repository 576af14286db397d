/**
 * The background-gradient rule table of src/utils/theme.ts: the same kind of
 * first-match-wins chain as the genre table, but clear is tried BEFORE rain and
 * the cloud family lists haze where the genre table lists atmosphere.
 */
module Theme {
  import opened Strings

  const ClearDayGradient: string := "bg-gradient-to-br from-orange-400 via-red-500 to-purple-600"
  const ClearNightGradient: string := "bg-gradient-to-br from-indigo-900 via-purple-900 to-slate-900"
  const RainGradient: string := "bg-gradient-to-br from-slate-800 via-blue-900 to-slate-900"
  const CloudGradient: string := "bg-gradient-to-br from-slate-600 via-slate-700 to-slate-800"
  const SnowGradient: string := "bg-gradient-to-br from-blue-100 via-blue-300 to-slate-400"
  const DefaultGradient: string := "bg-gradient-to-br from-gray-900 via-purple-900 to-violet-900"

  // The rules, each over an already lower-cased condition, in the order they are tried.

  predicate IsClear(lowerCondition: string) {
    Includes(lowerCondition, "clear")
  }

  predicate IsRainy(lowerCondition: string) {
    Includes(lowerCondition, "rain") || Includes(lowerCondition, "drizzle")
    || Includes(lowerCondition, "thunderstorm")
  }

  predicate IsCloudy(lowerCondition: string) {
    Includes(lowerCondition, "clouds") || Includes(lowerCondition, "mist")
    || Includes(lowerCondition, "fog") || Includes(lowerCondition, "haze")
  }

  predicate IsSnowy(lowerCondition: string) {
    Includes(lowerCondition, "snow")
  }

  /** `getGradientByWeather(condition, isDay)`. */
  function GradientByWeather(condition: string, isDay: bool): (gradient: string)
  {
    var lowerCondition := ToLower(condition);
    if IsClear(lowerCondition) then (if isDay then ClearDayGradient else ClearNightGradient)
    else if IsRainy(lowerCondition) then RainGradient
    else if IsCloudy(lowerCondition) then CloudGradient
    else if IsSnowy(lowerCondition) then SnowGradient
    else DefaultGradient
  }

  /** `variant` is `word` written in any mix of upper and lower case. */
  predicate IsCaseVariant(variant: string, word: string) {
    ToLower(variant) == word
  }

  /**
   * A condition mentioning "clear" in any case gets the day or night gradient,
   * whatever else it mentions (rain included): the clear rule is tried first.
   */
  lemma ClearConditionByDayNight(condition: string, keyword: string)
    requires IsCaseVariant(keyword, "clear") && Includes(condition, keyword)
    ensures GradientByWeather(condition, true) == "bg-gradient-to-br from-orange-400 via-red-500 to-purple-600"
    ensures GradientByWeather(condition, false) == "bg-gradient-to-br from-indigo-900 via-purple-900 to-slate-900"
  {
    IncludesToLower(condition, keyword);
  }

  /** Rain, drizzle or thunderstorm without "clear" gets the slate/blue gradient, day or night. */
  lemma RainyConditionGradient(condition: string, keyword: string, isDay: bool)
    requires IsCaseVariant(keyword, "rain") || IsCaseVariant(keyword, "drizzle")
          || IsCaseVariant(keyword, "thunderstorm")
    requires Includes(condition, keyword) && !IsClear(ToLower(condition))
    ensures GradientByWeather(condition, isDay) == "bg-gradient-to-br from-slate-800 via-blue-900 to-slate-900"
  {
    IncludesToLower(condition, keyword);
  }

  /** Clouds, mist, fog or haze, when no earlier rule matches, get the slate gradient. */
  lemma CloudyConditionGradient(condition: string, keyword: string, isDay: bool)
    requires IsCaseVariant(keyword, "clouds") || IsCaseVariant(keyword, "mist")
          || IsCaseVariant(keyword, "fog") || IsCaseVariant(keyword, "haze")
    requires Includes(condition, keyword)
    requires !IsClear(ToLower(condition)) && !IsRainy(ToLower(condition))
    ensures GradientByWeather(condition, isDay) == "bg-gradient-to-br from-slate-600 via-slate-700 to-slate-800"
  {
    IncludesToLower(condition, keyword);
  }

  /** Snow, when no earlier rule matches, gets the blue/slate-400 gradient. */
  lemma SnowyConditionGradient(condition: string, keyword: string, isDay: bool)
    requires IsCaseVariant(keyword, "snow") && Includes(condition, keyword)
    requires var w := ToLower(condition); !IsClear(w) && !IsRainy(w) && !IsCloudy(w)
    ensures GradientByWeather(condition, isDay) == "bg-gradient-to-br from-blue-100 via-blue-300 to-slate-400"
  {
    IncludesToLower(condition, keyword);
  }

  /** A condition matching no rule gets the gray/purple/violet default. */
  lemma UnmatchedConditionGradient(condition: string, isDay: bool)
    requires var w := ToLower(condition); !IsClear(w) && !IsRainy(w) && !IsCloudy(w) && !IsSnowy(w)
    ensures GradientByWeather(condition, isDay) == "bg-gradient-to-br from-gray-900 via-purple-900 to-violet-900"
  {
  }

  /** isDay changes the result exactly when the condition is clear. */
  lemma IsDayMattersOnlyWhenClear(condition: string)
    ensures GradientByWeather(condition, true) != GradientByWeather(condition, false)
        <==> IsClear(ToLower(condition))
  {
  }

  /** The result depends on the condition only through its lower-cased form. */
  lemma GradientIgnoresCase(condition: string, isDay: bool)
    ensures GradientByWeather(condition, isDay) == GradientByWeather(ToLower(condition), isDay)
  {
    ToLowerIdempotent(condition);
  }
}

/**
 * The genre table and the gradient table disagree on rule order and on their
 * keyword lists; these lemmas pin the disagreements down.
 */
module WeatherRules {
  import opened Strings
  import MoodMap
  import Theme

  /** "Rain" and "clear" together: at any time of day the genre table picks rain, the gradient table clear. */
  lemma RainAndClearDisagree(condition: string, isDay: bool, timeOfDay: MoodMap.TimeOfDay)
    requires Includes(ToLower(condition), "rain") && Includes(ToLower(condition), "clear")
    ensures MoodMap.GenresByWeather(condition, timeOfDay) == MoodMap.RainGenres
    ensures Theme.GradientByWeather(condition, isDay) == (if isDay then Theme.ClearDayGradient else Theme.ClearNightGradient)
  {
  }

  /** "Haze", in any case, is a cloud-like condition only for the gradient table. */
  lemma HazeDisagrees(condition: string, isDay: bool, timeOfDay: MoodMap.TimeOfDay)
    requires ToLower(condition) == "haze"
    ensures MoodMap.GenresByWeather(condition, timeOfDay) == MoodMap.DefaultGenres
    ensures Theme.GradientByWeather(condition, isDay) == Theme.CloudGradient
  {
    HazeMatches(ToLower(condition));
  }

  lemma HazeMatches(w: string)
    requires w == "haze"
    ensures !MoodMap.IsRainy(w) && !MoodMap.IsClear(w) && !MoodMap.IsCloudy(w) && !MoodMap.IsSnowy(w)
    ensures !Theme.IsClear(w) && !Theme.IsRainy(w) && Theme.IsCloudy(w)
  {
    MissingCharExcludes(w, "rain", 'r');
    MissingCharExcludes(w, "drizzle", 'd');
    MissingCharExcludes(w, "thunderstorm", 't');
    MissingCharExcludes(w, "clear", 'c');
    MissingCharExcludes(w, "clouds", 'c');
    MissingCharExcludes(w, "atmosphere", 't');
    MissingCharExcludes(w, "mist", 'm');
    MissingCharExcludes(w, "fog", 'f');
    MissingCharExcludes(w, "snow", 's');
    assert OccursAt(w, "haze", 0);
  }

  /** "Atmosphere", in any case, is a cloud-like condition only for the genre table. */
  lemma AtmosphereDisagrees(condition: string, isDay: bool, timeOfDay: MoodMap.TimeOfDay)
    requires ToLower(condition) == "atmosphere"
    ensures MoodMap.GenresByWeather(condition, timeOfDay) == MoodMap.CloudGenres
    ensures Theme.GradientByWeather(condition, isDay) == Theme.DefaultGradient
  {
    AtmosphereMatches(ToLower(condition));
  }

  lemma AtmosphereMatches(w: string)
    requires w == "atmosphere"
    ensures !MoodMap.IsRainy(w) && !MoodMap.IsClear(w) && MoodMap.IsCloudy(w)
    ensures !Theme.IsClear(w) && !Theme.IsRainy(w) && !Theme.IsCloudy(w) && !Theme.IsSnowy(w)
  {
    AtmosphereLacks(w);
    assert OccursAt(w, "atmosphere", 0);
  }

  lemma AtmosphereLacks(w: string)
    requires w == "atmosphere"
    ensures !Includes(w, "rain") && !Includes(w, "drizzle") && !Includes(w, "thunderstorm")
    ensures !Includes(w, "clear") && !Includes(w, "clouds") && !Includes(w, "mist")
    ensures !Includes(w, "fog") && !Includes(w, "haze") && !Includes(w, "snow")
  {
    assert 'i' !in w && 'u' !in w && 'c' !in w && 'f' !in w && 'z' !in w && 'n' !in w;
    MissingCharExcludes(w, "rain", 'i');
    MissingCharExcludes(w, "drizzle", 'i');
    MissingCharExcludes(w, "thunderstorm", 'u');
    MissingCharExcludes(w, "clear", 'c');
    MissingCharExcludes(w, "clouds", 'c');
    MissingCharExcludes(w, "mist", 'i');
    MissingCharExcludes(w, "fog", 'f');
    MissingCharExcludes(w, "haze", 'z');
    MissingCharExcludes(w, "snow", 'n');
  }
}

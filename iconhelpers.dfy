/**
 * The two display helpers of src/utils/iconHelpers.ts: a country code turned
 * into its flag (one Regional Indicator Symbol per letter) and a weather icon
 * code looked up in a fixed emoji table with a thermometer default.
 */
module IconHelpers {
  import opened Strings

  // ---------------------------------------------------------------------------
  // getCountryFlag
  // ---------------------------------------------------------------------------

  /** What `String.fromCodePoint(char.charCodeAt(0) + 127397)` adds to each code unit. */
  const RegionalIndicatorOffset: int := 127397

  /**
   * The UTF-16 code units of one character. JavaScript strings are sequences of
   * these units, and `replace(/./g, ...)` visits them one at a time.
   */
  function Utf16Units(c: char): (units: seq<int>)
    ensures |units| == (if c as int < 0x10000 then 1 else 2)
    ensures forall k :: 0 <= k < |units| ==> 0 <= units[k] < 0x10000
  {
    if c as int < 0x10000 then [c as int]
    else
      var v := c as int - 0x10000;
      [0xD800 + v / 0x400, 0xDC00 + v % 0x400]
  }

  function Utf16(s: string): (units: seq<int>)
    ensures forall k :: 0 <= k < |units| ==> 0 <= units[k] < 0x10000
    decreases |s|
  {
    if |s| == 0 then [] else Utf16Units(s[0]) + Utf16(s[1..])
  }

  /** The code units `.` does not match (without the `s` flag): the four line terminators. */
  predicate IsLineTerminatorUnit(u: int) {
    u == 0x0A || u == 0x0D || u == 0x2028 || u == 0x2029
  }

  /** The replacement of one code unit: shifted by the offset, or kept when `.` skips it. */
  function FlagUnit(u: int): (c: char)
    requires 0 <= u < 0x10000
  {
    if IsLineTerminatorUnit(u) then u as char else (u + RegionalIndicatorOffset) as char
  }

  /** `getCountryFlag(countryCode)`. */
  function CountryFlag(countryCode: string): (flag: string)
    ensures countryCode == "" ==> flag == ""
  {
    if countryCode == "" then ""
    else
      var units := Utf16(ToUpper(countryCode));
      seq(|units|, k requires 0 <= k < |units| => FlagUnit(units[k]))
  }

  /** A string every character of which is a single UTF-16 code unit. */
  predicate IsBmp(s: string) {
    forall i :: 0 <= i < |s| ==> s[i] as int < 0x10000
  }

  lemma {:induction false} Utf16OfBmp(s: string)
    requires IsBmp(s)
    ensures |Utf16(s)| == |s|
    ensures forall i :: 0 <= i < |s| ==> Utf16(s)[i] == s[i] as int
    decreases |s|
  {
    if |s| > 0 {
      Utf16OfBmp(s[1..]);
    }
  }

  /** The Regional Indicator Symbol for an upper-case ASCII letter. */
  function RegionalIndicator(letter: char): (c: char)
    requires IsUpperAscii(letter)
    ensures 0x1F1E6 <= c as int <= 0x1F1FF
  {
    (letter as int + RegionalIndicatorOffset) as char
  }

  /**
   * On single-unit input (which country codes are) the flag has exactly one code
   * point per input character, and that code point is the upper-cased
   * character's code shifted by 127397, unless it is a line terminator.
   */
  lemma FlagPerCharacter(countryCode: string)
    requires IsBmp(countryCode)
    ensures |CountryFlag(countryCode)| == |countryCode|
    ensures forall i :: 0 <= i < |countryCode| ==>
      var u := UpperChar(countryCode[i]) as int;
      CountryFlag(countryCode)[i] as int == if IsLineTerminatorUnit(u) then u else u + 127397
  {
    var upper := ToUpper(countryCode);
    assert IsBmp(upper);
    Utf16OfBmp(upper);
  }

  /** Each letter, in either case, becomes its Regional Indicator Symbol in U+1F1E6..U+1F1FF. */
  lemma FlagOfLetters(countryCode: string)
    requires forall i :: 0 <= i < |countryCode| ==> IsUpperAscii(countryCode[i]) || IsLowerAscii(countryCode[i])
    ensures |CountryFlag(countryCode)| == |countryCode|
    ensures forall i :: 0 <= i < |countryCode| ==>
      CountryFlag(countryCode)[i] == RegionalIndicator(UpperChar(countryCode[i]))
  {
    FlagPerCharacter(countryCode);
  }

  /** The flag of a code does not depend on the code's case. */
  lemma FlagIgnoresCase(countryCode: string)
    ensures CountryFlag(countryCode) == CountryFlag(ToUpper(countryCode))
  {
    ToUpperIdempotent(countryCode);
  }

  /** The letter a Regional Indicator Symbol stands for. */
  function IndicatorLetter(c: char): (letter: char)
    requires 0x1F1E6 <= c as int <= 0x1F1FF
    ensures IsUpperAscii(letter)
  {
    (c as int - RegionalIndicatorOffset) as char
  }

  /** Reading the letters back off a flag gives the upper-cased code: nothing is lost. */
  lemma FlagRoundTrip(countryCode: string)
    requires forall i :: 0 <= i < |countryCode| ==> IsUpperAscii(countryCode[i]) || IsLowerAscii(countryCode[i])
    ensures var flag := CountryFlag(countryCode);
      |flag| == |countryCode|
      && forall i :: 0 <= i < |flag| ==> 0x1F1E6 <= flag[i] as int <= 0x1F1FF
                                          && IndicatorLetter(flag[i]) == ToUpper(countryCode)[i]
  {
    FlagOfLetters(countryCode);
  }

  // ---------------------------------------------------------------------------
  // getWeatherEmoji
  // ---------------------------------------------------------------------------

  const Sun: string := "\U{2600}\U{FE0F}"
  const Moon: string := "\U{1F319}"
  const SunBehindCloud: string := "\U{26C5}"
  const Cloud: string := "\U{2601}\U{FE0F}"
  const CloudWithRain: string := "\U{1F327}\U{FE0F}"
  const SunBehindRainCloud: string := "\U{1F326}\U{FE0F}"
  const CloudWithLightningAndRain: string := "\U{26C8}\U{FE0F}"
  const Snowflake: string := "\U{2744}\U{FE0F}"
  const Fog: string := "\U{1F32B}\U{FE0F}"
  const Thermometer: string := "\U{1F321}\U{FE0F}"

  /** The icon-code table, one day ('d') and one night ('n') entry per icon family. */
  const EmojiTable: map<string, string> := map[
    "01d" := Sun, "01n" := Moon,
    "02d" := SunBehindCloud, "02n" := SunBehindCloud,
    "03d" := Cloud, "03n" := Cloud,
    "04d" := Cloud, "04n" := Cloud,
    "09d" := CloudWithRain, "09n" := CloudWithRain,
    "10d" := SunBehindRainCloud, "10n" := SunBehindRainCloud,
    "11d" := CloudWithLightningAndRain, "11n" := CloudWithLightningAndRain,
    "13d" := Snowflake, "13n" := Snowflake,
    "50d" := Fog, "50n" := Fog
  ]

  /** The icon families of the table. */
  const Families: seq<string> := ["01", "02", "03", "04", "09", "10", "11", "13", "50"]

  /** Every table value is a non-empty emoji, so `||` never falls through on a listed code. */
  lemma TableEmojisNonEmpty()
    ensures forall code :: code in EmojiTable ==> |EmojiTable[code]| > 0
  {
  }

  /**
   * `getWeatherEmoji(iconCode)`, looking at the table's own entries only: the
   * table value for a listed code, the thermometer for any other code.
   */
  function WeatherEmoji(iconCode: string): (emoji: string)
    ensures |emoji| > 0
    ensures iconCode !in EmojiTable ==> emoji == "\U{1F321}\U{FE0F}"
  {
    TableEmojisNonEmpty();
    if iconCode in EmojiTable then EmojiTable[iconCode] else Thermometer
  }

  /** Every listed code gets its table value: the sun, cloud and overcast families. */
  lemma ListedClearAndCloudCodes()
    ensures WeatherEmoji("01d") == "\U{2600}\U{FE0F}" && WeatherEmoji("01n") == "\U{1F319}"
    ensures WeatherEmoji("02d") == "\U{26C5}" && WeatherEmoji("02n") == "\U{26C5}"
    ensures WeatherEmoji("03d") == "\U{2601}\U{FE0F}" && WeatherEmoji("03n") == "\U{2601}\U{FE0F}"
    ensures WeatherEmoji("04d") == "\U{2601}\U{FE0F}" && WeatherEmoji("04n") == "\U{2601}\U{FE0F}"
  {
  }

  /** Every listed code gets its table value: the rain and storm families. */
  lemma ListedRainCodes()
    ensures WeatherEmoji("09d") == "\U{1F327}\U{FE0F}" && WeatherEmoji("09n") == "\U{1F327}\U{FE0F}"
    ensures WeatherEmoji("10d") == "\U{1F326}\U{FE0F}" && WeatherEmoji("10n") == "\U{1F326}\U{FE0F}"
    ensures WeatherEmoji("11d") == "\U{26C8}\U{FE0F}" && WeatherEmoji("11n") == "\U{26C8}\U{FE0F}"
  {
  }

  /** Every listed code gets its table value: the snow and mist families. */
  lemma ListedSnowAndMistCodes()
    ensures WeatherEmoji("13d") == "\U{2744}\U{FE0F}" && WeatherEmoji("13n") == "\U{2744}\U{FE0F}"
    ensures WeatherEmoji("50d") == "\U{1F32B}\U{FE0F}" && WeatherEmoji("50n") == "\U{1F32B}\U{FE0F}"
  {
  }

  /** Day and night share their emoji in every family except "01" (sun versus moon). */
  lemma DayNightAgree(family: string)
    requires family in Families
    ensures WeatherEmoji(family + "d") == WeatherEmoji(family + "n") <==> family != "01"
  {
    if family == "01" {
      ListedClearAndCloudCodes();
      assert family + "d" == "01d" && family + "n" == "01n";
    } else if family == "02" {
      ListedClearAndCloudCodes();
      assert family + "d" == "02d" && family + "n" == "02n";
    } else if family == "03" {
      ListedClearAndCloudCodes();
      assert family + "d" == "03d" && family + "n" == "03n";
    } else if family == "04" {
      ListedClearAndCloudCodes();
      assert family + "d" == "04d" && family + "n" == "04n";
    } else if family == "09" {
      ListedRainCodes();
      assert family + "d" == "09d" && family + "n" == "09n";
    } else if family == "10" {
      ListedRainCodes();
      assert family + "d" == "10d" && family + "n" == "10n";
    } else if family == "11" {
      ListedRainCodes();
      assert family + "d" == "11d" && family + "n" == "11n";
    } else if family == "13" {
      ListedSnowAndMistCodes();
      assert family + "d" == "13d" && family + "n" == "13n";
    } else if family == "50" {
      ListedSnowAndMistCodes();
      assert family + "d" == "50d" && family + "n" == "50n";
    }
  }

  /**
   * The properties every plain object literal inherits from `Object.prototype`.
   * Each is a function (or, for `__proto__`, an object), so each is truthy.
   */
  const InheritedProperties: set<string> := {
    "constructor", "hasOwnProperty", "isPrototypeOf", "propertyIsEnumerable",
    "toLocaleString", "toString", "valueOf", "__proto__",
    "__defineGetter__", "__defineSetter__", "__lookupGetter__", "__lookupSetter__"
  }

  /** What `map[iconCode] || <thermometer>` can evaluate to: a string, or an inherited member. */
  datatype EmojiLookup = EmojiText(text: string) | InheritedMember(name: string)

  /**
   * `getWeatherEmoji(iconCode)` as written: `map[iconCode]` on a plain object
   * literal also finds the members inherited from `Object.prototype`, and
   * `||` passes any of them through, since none is falsy.
   */
  function WeatherEmojiAsWritten(iconCode: string): (r: EmojiLookup)
    ensures iconCode in EmojiTable ==> r == EmojiText(WeatherEmoji(iconCode))
  {
    if iconCode in EmojiTable then EmojiText(EmojiTable[iconCode])
    else if iconCode in InheritedProperties then InheritedMember(iconCode)
    else EmojiText(Thermometer)
  }

  /** The icon code "toString" makes the function as written return a function, not an emoji. */
  lemma AsWrittenLeaksInheritedMember()
    ensures WeatherEmojiAsWritten("toString") == InheritedMember("toString")
    ensures WeatherEmoji("toString") == "\U{1F321}\U{FE0F}"
  {
  }

  /** Away from the inherited names, the function as written and the corrected one agree. */
  lemma AsWrittenAgreesOnOtherCodes(iconCode: string)
    requires iconCode !in InheritedProperties
    ensures WeatherEmojiAsWritten(iconCode) == EmojiText(WeatherEmoji(iconCode))
  {
  }
}

# SonicMood core in Dafny

SonicMood is a browser application that reads the local weather, turns it into
genre seeds and a background gradient, asks Spotify for matching tracks (falling
back to a genre search when the recommendations endpoint refuses), and can save
them as a playlist. This project models the deterministic core of that program
and proves what it promises:

- **Weather rule tables** (`moodMap.ts`, `theme.ts`). These are first-match-wins
  chains of case-insensitive substring tests. Lemmas cover every branch, rule
  order, case insensitivity and where the two tables disagree.
- **Icon helpers** (`iconHelpers.ts`).
  - Country codes become Regional Indicator flags, shifting each UTF-16 unit by
    127397 the way `replace(/./g, ...)` does.
  - Weather icon codes are looked up in an emoji table that falls back to a
    thermometer.
- **PKCE login** (`auth.ts`, RFC 7636).
  - The verifier is generated by a loop over a 62-character alphabet.
  - The S256 challenge is built as base64 (section 4 of RFC 4648) followed by
    the URL-safe rewrite without padding (section 5 of RFC 4648). A decoder
    proves the rewrite loses nothing.
  - The authorize and token queries are assembled by `URLSearchParams.append`.
  - The verifier lives in `localStorage`, and a missing verifier is guarded
    against.
- **Spotify and OpenWeather calls** (`api.ts`).
  - City search with failed lookups dropped in order.
  - The top-artist mapping.
  - The recommendation query, built by conditional appends.
  - The primary/fallback branching.
  - The fallback's genre pick, and its shuffle as an in-place permutation of
    an array.
  - The playlist bodies.
- **The zustand store** (`useStore.ts`): a class with three fields and one
  setter each.
- **The typewriter** (`TypewriterText.tsx`, `TypewriterTagline.tsx`), as a
  class whose `HandleTyping` step is proved against a pure transition function.
  The proofs show that the text stays a prefix of the current phrase, cover
  each kind of step, a full cycle, and the timing of a cycle.

Everything the code cannot know in advance is a parameter of the model:
- each HTTP endpoint is a function from the request sent to the outcome
  received, `Success | NotOk(status, body) | BadJson | NetworkError`;
  axios resolves a 2xx whose body is not JSON with the body text, which the
  model records as `RawText`;
- SHA-256 is a function on bytes;
- `Math.random` is a supplied draw in [0, 1), or a sequence of swaps for the
  shuffle.

JavaScript built-ins are written out in `strings.dfy`:
- `toLowerCase` / `toUpperCase` on ASCII letters;
- `includes`;
- `split` with one separator, always returning at least one piece;
- `trim` with ECMAScript's whitespace set;
- `replace` of one character, and of a trailing run;
- decimal rendering of a natural number.

`URLSearchParams` is a class over a sequence of pairs in `urlparams.dfy`.

Some behaviour one might expect is not in the code, and the model leaves it
out as well:
- the search fallback sends `limit=12` and does not cut its shuffled result
  down on the client;
- `getRecommendations` only forwards the audio-feature targets its caller
  passes;
- `getAccessToken` has no guard against running the token exchange twice;
- nothing in `src/utils`, `src/services` or the store works out `isDay`,
  computes energy offsets, names playlists or persists state.

An unreadable JSON body on an ok recommendations response is caught by the
same `catch` as a network error. The model therefore sends it to the fallback
on `seed_genres || "pop"`.

## Model

| member | source | states |
|---|---|---|
| MoodMap.RainyConditionIsAcoustic | src/utils/moodMap.ts:8-12 | a condition containing rain, drizzle or thunderstorm in any case gives "acoustic,piano,chill" at either time of day, even if it also says clear |
| MoodMap.ClearConditionByTimeOfDay | src/utils/moodMap.ts:14-16 | a clear condition without rain gives "pop,summer,road-trip" by day and "club,dance,synth-pop" by night |
| MoodMap.CloudyConditionIsIndie | src/utils/moodMap.ts:18-20 | clouds, atmosphere, mist or fog, when neither earlier rule applies, gives "indie,alt-rock" |
| MoodMap.SnowyConditionIsClassical | src/utils/moodMap.ts:22-24 | snow, when no earlier rule applies, gives "classical,holidays" |
| MoodMap.UnmatchedConditionIsPop | src/utils/moodMap.ts:26 | a condition matching no rule gives "pop" |
| MoodMap.GenresIgnoreCase | src/utils/moodMap.ts:8 | the result depends on the condition only through its lower-cased form |
| MoodMap.TimeOfDayMattersOnlyWhenClear | src/utils/moodMap.ts:10-16 | day and night results differ exactly when the clear rule is the first to match |
| MoodMap.GenreTagsWellFormed | src/utils/moodMap.ts:10-26 | every result splits on ',' into one or more non-empty tags without whitespace |
| MoodMap.RainTags | src/utils/moodMap.ts:11 | the rain result splits into acoustic, piano, chill |
| MoodMap.ClearDayTags | src/utils/moodMap.ts:15 | the clear-day result splits into pop, summer, road-trip |
| MoodMap.ClearNightTags | src/utils/moodMap.ts:15 | the clear-night result splits into club, dance, synth-pop |
| MoodMap.CloudTags | src/utils/moodMap.ts:19 | the cloud result splits into indie, alt-rock |
| MoodMap.SnowTags | src/utils/moodMap.ts:23 | the snow result splits into classical, holidays |
| MoodMap.DefaultTags | src/utils/moodMap.ts:26 | the default result is the single tag pop |
| Theme.ClearConditionByDayNight | src/utils/theme.ts:11-15 | any condition containing clear, in any case and whatever else it says, gives the orange day or the indigo night gradient |
| Theme.RainyConditionGradient | src/utils/theme.ts:18-20 | rain, drizzle or thunderstorm without clear gives the slate/blue gradient whatever isDay is |
| Theme.CloudyConditionGradient | src/utils/theme.ts:23-25 | clouds, mist, fog or haze without clear or rain gives the slate gradient |
| Theme.SnowyConditionGradient | src/utils/theme.ts:28-30 | snow, when no earlier rule applies, gives the blue/slate-400 gradient |
| Theme.UnmatchedConditionGradient | src/utils/theme.ts:33 | a condition matching no rule gives the gray/purple/violet gradient |
| Theme.IsDayMattersOnlyWhenClear | src/utils/theme.ts:11-33 | the two isDay values give different gradients exactly when the condition contains clear |
| Theme.GradientIgnoresCase | src/utils/theme.ts:8 | the gradient depends on the condition only through its lower-cased form |
| WeatherRules.RainAndClearDisagree | src/utils/theme.ts:11-20 | a condition with both rain and clear gets the rain genres but the clear day or night gradient, at every time of day and for either `isDay`, because the two files test the rules in opposite order |
| WeatherRules.HazeDisagrees | src/utils/theme.ts:23 | "haze" gets the cloud gradient but the default "pop" genres |
| WeatherRules.AtmosphereDisagrees | src/utils/moodMap.ts:18 | "atmosphere" gets the cloud genres but the default gradient |
| IconHelpers.CountryFlag | src/utils/iconHelpers.ts:8 | the empty code gives the empty string |
| IconHelpers.FlagPerCharacter | src/utils/iconHelpers.ts:9 | on single-unit input there is exactly one code point per character: the upper-cased character's code plus 127397, or the character itself where `.` does not match (line terminators) |
| IconHelpers.FlagOfLetters | src/utils/iconHelpers.ts:9 | each ASCII letter of either case becomes its Regional Indicator Symbol, in U+1F1E6..U+1F1FF |
| IconHelpers.FlagIgnoresCase | src/utils/iconHelpers.ts:9 | the flag of a code equals the flag of its upper-cased form |
| IconHelpers.FlagRoundTrip | src/utils/iconHelpers.ts:9 | from the flag of a letter code the upper-cased code can be read back, symbol by symbol |
| IconHelpers.TableEmojisNonEmpty | src/utils/iconHelpers.ts:18-28 | every value of the icon table is a non-empty emoji, so `\|\|` never replaces a listed code's entry |
| IconHelpers.WeatherEmoji | src/utils/iconHelpers.ts:17-30 | the result is never empty, and any code outside the table gives the thermometer |
| IconHelpers.ListedClearAndCloudCodes | src/utils/iconHelpers.ts:19-22 | codes 01d to 04n give their table emoji |
| IconHelpers.ListedRainCodes | src/utils/iconHelpers.ts:23-25 | codes 09d to 11n give their table emoji |
| IconHelpers.ListedSnowAndMistCodes | src/utils/iconHelpers.ts:26-27 | codes 13d to 50n give their table emoji |
| IconHelpers.DayNightAgree | src/utils/iconHelpers.ts:19-27 | for every listed family the day and night codes give the same emoji exactly when the family is not 01 |
| IconHelpers.WeatherEmojiAsWritten | src/utils/iconHelpers.ts:29 | the lookup as written agrees with the table on every listed code |
| IconHelpers.AsWrittenLeaksInheritedMember | src/utils/iconHelpers.ts:29 | the lookup as written returns the inherited toString function for the code "toString", where the corrected function returns the thermometer |
| IconHelpers.AsWrittenAgreesOnOtherCodes | src/utils/iconHelpers.ts:18-29 | away from the names inherited from Object.prototype, the lookup as written and the corrected one agree |
| Auth.PossibleIsAlphanumeric | src/utils/auth.ts:70 | the alphabet has 62 characters, all of them ASCII letters or digits |
| Auth.DrawIndex | src/utils/auth.ts:73 | `Math.floor(Math.random() * possible.length)` is an index into the alphabet |
| Auth.VerifierOf | src/utils/auth.ts:72-74 | one alphanumeric character per draw |
| Auth.GenerateCodeVerifier | src/utils/auth.ts:68-76 | the loop returns exactly the verifier of the first `length` draws: `length` characters, each from the alphabet |
| Auth.LoginVerifierConforms | src/utils/auth.ts:7 | the 128-character login verifier meets section 4.1 of RFC 7636: 43 to 128 unreserved characters |
| Auth.Utf8 | src/utils/auth.ts:84 | `TextEncoder` yields one to four bytes per code point |
| Auth.Utf8OfAscii | src/utils/auth.ts:84 | an ASCII verifier encodes to one byte per character, the character's code |
| Base64.Sextets | src/utils/auth.ts:86 | 4 six-bit groups per 3-byte group and 2 or 3 for a final partial group |
| Base64.Padding | src/utils/auth.ts:86 | `btoa` pads with (3 - n mod 3) mod 3 '=' characters |
| Base64.EncodeUrl | src/utils/auth.ts:86-89 | every character of the unpadded URL-safe encoding is in the RFC 4648 section 5 alphabet |
| Base64.EncodeLength | src/utils/auth.ts:86-89 | the standard encoding has 4 characters per started 3-byte group, and the URL-safe one is shorter by the padding |
| Base64.UrlValue | src/utils/auth.ts:87-88 | a character has a URL-safe alphabet value exactly when it is in that alphabet |
| Base64.DecodeEncodeUrl | src/utils/auth.ts:86-89 | decoding the URL-safe encoding gives back the digest: the challenge loses no information |
| Auth.Base64UrlStep | src/utils/auth.ts:87-89 | the chained replaces keep a prefix of the encoding, rewrite '+' to '-' and '/' to '_' character for character, drop exactly the trailing run of '=', and leave no '+', '/' or trailing '=' |
| Auth.ChallengeIsBase64Url | src/utils/auth.ts:86-89 | `btoa` followed by the three replaces is exactly the unpadded base64url encoding of section 5 of RFC 4648 |
| Auth.ChallengeOfDigest | src/utils/auth.ts:83-90 | for a 32-byte SHA-256 digest the challenge is 43 base64url characters that decode back to the digest, as section 4.2 of RFC 7636 requires |
| Auth.AuthorizeQueryFields | src/utils/auth.ts:12-19 | the authorize query carries client_id, response_type=code, code_challenge_method=S256 and the computed code_challenge |
| Auth.SameRedirectUri | src/utils/auth.ts:15 | the authorize and token queries send the same redirect_uri |
| Auth.TokenQueryFields | src/utils/auth.ts:40-45 | the token query carries client_id, grant_type=authorization_code, code and code_verifier set to the stored verifier |
| Auth.LocalStorage.SetItem | src/utils/auth.ts:10 | the item is stored under its key and no other item changes |
| Auth.LocalStorage.GetItem | src/utils/auth.ts:32 | the stored value, or none for a missing key |
| Auth.RedirectToAuthCodeFlow | src/utils/auth.ts:6-22 | exactly the key "verifier" is written, with the 128-character verifier, and the authorize query is built from the challenge of that same verifier |
| Auth.TokenErrorMentionsStatus | src/utils/auth.ts:56 | the token error message contains the decimal status and the response body |
| Auth.TokenResult | src/utils/auth.ts:53-60 | an ok response resolves with its body, a refused one throws the token error message, and the other failures pass through |
| Auth.GetAccessToken | src/utils/auth.ts:31-61 | a missing or empty stored verifier throws "No verifier found in localStorage" before any request; otherwise exactly the token query is sent and its response decides the result |
| UrlParams.SearchParams.Append | src/utils/auth.ts:13-19 | `append` adds one pair at the end and keeps the earlier pairs |
| UrlParams.SearchParams.FromRecord | src/services/api.ts:164-167 | `new URLSearchParams(record)` holds the record's pairs in order |
| UrlParams.Get | src/services/api.ts:164-176 | `get` finds the value of the first pair with that name, and finds nothing exactly when no pair has it |
| UrlParams.GetConcat | src/services/api.ts:164-176 | `get` on appended pairs answers from the earlier pairs whenever they hold the name |
| Api.AxiosData | src/services/api.ts:20-28 | axios resolves on every 2xx, with the decoded data or, for a body that is not JSON, with the text; a status outside 2xx rejects with that status, and no response rejects with the transport failure |
| Api.GetWeather | src/services/api.ts:19-29 | the call resolves exactly when the weather request gets a 2xx, with that response's data when it decoded and with the text otherwise |
| Api.GetWeatherByCity | src/services/api.ts:36-45 | the call resolves exactly when the request by city name gets a 2xx, with that response's data when it decoded and with the text otherwise |
| Api.CityLookup | src/services/api.ts:69-81 | a location gets a result exactly when its weather lookup succeeds with decoded data and at least one weather entry; the result keeps the location's name, country and coordinates and takes `temp` and the first icon code from that report |
| Api.CitiesWithWeather | src/services/api.ts:68-85 | there are never more results than locations |
| Api.SearchCitiesWithWeather | src/services/api.ts:55-86 | the search succeeds exactly when the geocoder answers with decoded data, with the filtered lookups of those locations, at most one result per location; a text body makes `.map` throw a TypeError |
| Api.CitiesConcat | src/services/api.ts:68-85 | the results follow the geocoder's order: consecutive locations give consecutive results |
| Api.FailedLookupDropped | src/services/api.ts:79-85 | a failed lookup is dropped while the other results keep their places |
| Api.CitiesAreSuccessfulLookups | src/services/api.ts:68-85 | a city is in the results exactly when some location's lookup produced it |
| Api.AllLookupsSucceed | src/services/api.ts:68-85 | when every lookup succeeds there is one result per location, at the same position |
| Api.ArtistIds | src/services/api.ts:107 | the ids of the items, in order |
| Api.TopArtists | src/services/api.ts:98-112 | a readable ok response gives the item ids in order, and every other outcome gives [] |
| Api.LimitAndMarket | src/services/api.ts:164-167 | the primary query always has market=US and limit set to the given limit when it is truthy, otherwise 12 |
| Api.SeedsExclusive | src/services/api.ts:169-172 | seed_artists is sent when present, and seed_genres only when there are no artist seeds |
| Api.TargetsOnlyWhenNonZero | src/services/api.ts:174-176 | each of target_valence, target_energy and target_acousticness is sent exactly when truthy, so a target of 0 is omitted |
| Api.RecommendationQueryGet | src/services/api.ts:164-176 | `get` on the full query answers from the first group of appends that names the field |
| Api.BuildRecommendationQuery | src/services/api.ts:164-176 | the conditional appends build exactly the query the lemmas above describe |
| Api.AppendTarget | src/services/api.ts:174-176 | one conditional append adds the target pair only when the target is truthy |
| Api.PickIndex | src/services/api.ts:223 | `Math.floor(Math.random() * genres.length)` is a valid index |
| Api.PickGenre | src/services/api.ts:222-223 | the searched genre is one of the comma-separated seeds, trimmed |
| Api.EverySeedCanBePicked | src/services/api.ts:223 | each seed is the one picked for some draw |
| Api.FallbackGenreIsMoodTag | src/services/api.ts:222-223 | for seeds from the mood table the genre searched is exactly one of its tags and never empty |
| Api.Swap | src/services/api.ts:237 | one exchange of the sort keeps the same multiset of tracks |
| Api.ShuffledIsPermutation | src/services/api.ts:237 | any sequence of exchanges leaves a permutation of the tracks |
| Api.ShuffleInPlace | src/services/api.ts:237 | sorting the array in place leaves exactly the exchanged order of its old contents |
| Api.ShuffleTracks | src/services/api.ts:237 | the shuffled tracks are the exchanged order of those found, hence a permutation of them |
| Api.FallbackResult | src/services/api.ts:235-237 | an ok response gives a permutation of its items, or of [] without items; a refused one gives []; unreadable or missing responses reject |
| Api.GetRecommendationsFallback | src/services/api.ts:221-238 | the query is q=genre:&lt;picked genre&gt;, type=track, limit=12, and the result is that of the search response |
| Api.GenresOrPop | src/services/api.ts:208 | `seed_genres \|\| "pop"` is never empty |
| Api.GetRecommendations | src/services/api.ts:152-210 | with no seeds only the "pop" fallback search is sent. Otherwise the recommendations query goes first and its outcome decides: tracks (or []) on ok; the genre-seed fallback when refused with genre seeds, else []; the fallback on seed_genres or "pop" when the response is missing or unreadable |
| Api.JsonOrThrow | src/services/api.ts:249-250 | an ok response resolves with its body, a refused one throws the given message, and an unreadable body or a transport failure rejects as such |
| Api.GetCurrentUserProfile | src/services/api.ts:245-251 | the call resolves exactly when GET /me is ok, with the profile it returns, and a refused request throws "Failed to fetch user profile" |
| Api.CreatePlaylist | src/services/api.ts:260-275 | the call resolves exactly when the POST is ok, with the created playlist's data, and throws "Failed to create playlist" when refused |
| Api.PlaylistRequestShape | src/services/api.ts:261-271 | the playlist is posted for the given user, private, with the given name and the fixed description |
| Api.AddTracksRequestShape | src/services/api.ts:285-294 | the POST goes to the given playlist, and its body's `uris` field holds every URI as given, in order |
| Api.AddTracksToPlaylist | src/services/api.ts:284-297 | the call resolves exactly when the POST is ok, with the API's response, and a refused POST throws "Failed to add tracks to playlist" |
| Store.AppStore.constructor | src/store/useStore.ts:13-16 | the store starts with user, weather and token all null |
| Store.AppStore.SetUser | src/store/useStore.ts:17 | the user is replaced, null included, and weather and token are unchanged |
| Store.AppStore.SetWeather | src/store/useStore.ts:18 | the weather is replaced, null included, and user and token are unchanged |
| Store.AppStore.SetToken | src/store/useStore.ts:19 | the token is replaced, null included, and user and weather are unchanged |
| Store.UpdatesIdempotentAndCommute | src/store/useStore.ts:17-19 | setting a field twice equals setting it once, and setters of different fields commute |
| Typewriter.Slice | src/components/ui/TypewriterText.tsx:38 | `slice(0, end)` is a prefix, cut at the end of the string |
| Typewriter.Next | src/components/ui/TypewriterText.tsx:34-53 | a step keeps the phrase index in range |
| Typewriter.NextKeepsConsistent | src/components/ui/TypewriterText.tsx:32-50 | both the step and the end of the pause keep the text a prefix of the current phrase and the index within the phrases |
| Typewriter.TypingAddsNextCharacter | src/components/ui/TypewriterText.tsx:37-38 | a typing step on a shorter text appends exactly the phrase's next character |
| Typewriter.DeletingRemovesLastCharacter | src/components/ui/TypewriterText.tsx:45-46 | a deleting step on a non-empty text removes exactly its last character |
| Typewriter.CompletePhrasePauses | src/components/ui/TypewriterText.tsx:39-42 | on the complete phrase a typing step changes nothing and schedules the pause |
| Typewriter.PauseExactlyWhenComplete | src/components/ui/TypewriterTagline.tsx:35-40 | the pause is scheduled exactly when the whole phrase is shown and not being deleted |
| Typewriter.EmptyTextAdvances | src/components/ui/TypewriterText.tsx:47-50 | after the last deletion typing restarts on the next phrase modulo the number of phrases, wrapping to 0 |
| Typewriter.TypingCompletes | src/components/ui/TypewriterTagline.tsx:35-36 | from any prefix, as many typing steps as characters are missing produce the whole phrase |
| Typewriter.DeletingCompletes | src/components/ui/TypewriterTagline.tsx:43-44 | from any prefix, as many deleting steps as characters are shown empty the text |
| Typewriter.Cycle | src/components/ui/TypewriterTagline.tsx:32-51 | from the empty text of phrase i: n typing steps show the phrase, the pause follows, and n + 1 deleting steps lead to the empty text of phrase (i + 1) mod the number of phrases |
| Typewriter.TypingTime | src/components/ui/TypewriterText.tsx:55-58 | every typing step, and the step that finds the phrase complete, waits typingSpeed |
| Typewriter.DeletingTime | src/components/ui/TypewriterTagline.tsx:53-56 | every deleting step, and the step that moves on, waits deletingSpeed |
| Typewriter.CycleTime | src/components/ui/TypewriterText.tsx:39-58 | a phrase of n characters takes (n + 1)(typingSpeed + deletingSpeed) + pauseDuration from empty text to the next phrase's empty text |
| Typewriter.TypewriterComponent.Text | src/components/ui/TypewriterText.tsx:10-29 | missing props default to the four built-in phrases and to 100, 50 and 3000 ms; the state starts empty, not deleting, at phrase 0, with a typingSpeed timer |
| Typewriter.TypewriterComponent.Tagline | src/components/ui/TypewriterTagline.tsx:19-27 | the phrases are required and must be non-empty; the timings default to 100, 50 and 3000 ms; the state starts as in TypewriterText |
| Typewriter.TypewriterComponent.HandleTyping | src/components/ui/TypewriterText.tsx:34-53 | one tick moves the state exactly as the transition function does, keeps the prefix invariant, and reports whether it scheduled the pause |
| Typewriter.TypewriterComponent.FinishPause | src/components/ui/TypewriterTagline.tsx:39 | the pause timer only sets isDeleting, keeping the prefix invariant |
| Strings.ToLower | src/utils/moodMap.ts:8 | lower-casing keeps the length, maps each character on its own and leaves no upper-case ASCII letter |
| Strings.ToLowerIdempotent | src/utils/theme.ts:8 | lower-casing twice is lower-casing once |
| Strings.Includes | src/utils/moodMap.ts:10 | `includes` holds exactly when the word occurs at some position |
| Strings.IncludesToLower | src/utils/moodMap.ts:8-10 | a word found in the condition is found, lower-cased, in the lower-cased condition |
| Strings.Split | src/services/api.ts:222 | `split` gives at least one piece, no piece contains the separator, and joining the pieces restores the string |
| Strings.Trim | src/services/api.ts:223 | `trim` returns a slice with only whitespace around it, and the slice neither starts nor ends with whitespace |
| Strings.TrimNoWhitespace | src/services/api.ts:223 | a string without whitespace is unchanged by `trim` |
| Strings.ReplaceAll | src/utils/auth.ts:87-88 | a global one-character replace keeps the length and rewrites exactly the matching characters |
| Strings.StripTrailing | src/utils/auth.ts:89 | `replace(/=+$/, '')` keeps a prefix, drops only '=' characters, and leaves no trailing '=' |
| Strings.NatToDecimalValue | src/utils/auth.ts:56 | the decimal rendering of the status reads back as the status |

## Left out

- HTTP transport is not modelled: axios and fetch, the request URLs beyond the
  playlist endpoints, headers (the bearer token), JSON decoding, and the
  encoding of `URLSearchParams.toString()`. Each endpoint is a function from
  the request to an outcome value.
- The `document.location` redirect, `window.crypto.subtle.digest` and
  `Math.random` are parameters, because they are I/O and randomness.
- `console.log`, `console.warn` and `console.error` are left out, because they
  have no effect on the results.
- The React side is left out: `setTimeout` scheduling, effect cleanup, JSX and
  styling. `HandleTyping` and `FinishPause` are the two timer callbacks, and
  `Delay` / `TimerDelay` give the delay the effect picks.
- `Promise.all` concurrency is left out. Results are defined by position, so
  the lookups are a sequential map followed by a filter.
- Numbers in the services are reals. The decimal rendering of floats
  (`toString()`) is not modelled: `ParamValue.Number` carries the value, and
  NaN is left out.
- Typewriter.TypewriterComponent: the typing, deleting and pause timings are
  whole non-negative milliseconds (`nat`). The props are JavaScript numbers,
  and `setTimeout` also accepts fractional or negative delays; those are not
  modelled.
- Strings are sequences of code points. Case folding covers ASCII letters only.
- Typewriter.Slice: measures length and slices by code point, unlike
  JavaScript's UTF-16 units. A phrase with characters outside the Basic
  Multilingual Plane could be split differently.
- Api.ShuffleInPlace: the order `sort` leaves for a random comparator is given
  as a sequence of exchanges. The contract states that the result is a
  permutation, not which permutation a particular engine produces.
- Api.CityLookup: on decoded data `weather.main.temp` is assumed present. A
  text body or a missing `weather[0]` makes the `try` fail.
- Store.AppStore: zustand's subscription and re-render machinery is left out.
  Only the state and its setters are modelled.
- Typewriter.TypewriterComponent: both constructors require a non-empty phrase
  list. With an empty list the source reads `.length` of `undefined` on its
  first timer tick and throws; that error path is not modelled.
- Typewriter.TypewriterComponent: the props are constant for the component's
  lifetime. Changing `phrases` while mounted, which could leave the index out
  of range, is not modelled.
- `src/types/index.ts` contains declarations only. It shapes the datatypes in
  `types.dfy`.
- The rest of the repository is presentation markup and is not part of this
  model: the other components, `App.tsx` and the styles.

## Findings

| source | as written | input that shows it | evidently intended | confidence | as-written member | corrected member |
|---|---|---|---|---|---|---|
| src/utils/iconHelpers.ts:18-29 | `map[iconCode] \|\| '🌡️'` on a plain object literal also finds the members that object inherits from Object.prototype, which are truthy | `getWeatherEmoji("toString")` returns the `toString` function, not an emoji | an own-property lookup: any code outside the table gives the thermometer | not executed | IconHelpers.WeatherEmojiAsWritten, IconHelpers.AsWrittenLeaksInheritedMember | IconHelpers.WeatherEmoji |

/** The record shapes of src/types/index.ts, as values. Numbers are reals. */
module Types {

  datatype Image = Image(url: string)

  datatype ArtistName = ArtistName(name: string)

  datatype Album = Album(images: seq<Image>)

  /** A Spotify track as the cards display it. */
  datatype Track = Track(id: string, name: string, artists: seq<ArtistName>, album: Album, uri: string)

  datatype UserProfile = UserProfile(id: string, displayName: string, images: seq<Image>)

  datatype WeatherData = WeatherData(temperature: real, condition: string, city: string, isDay: bool)
}

/**
 * What an awaited HTTP call can come back with, and how an async function of
 * the source can end when it does not return normally.
 */
module Http {

  /**
   * The outcome of one request: a 2xx response whose JSON body decoded to
   * `data`; a response outside 2xx with its status and body text; a 2xx
   * response whose body is not JSON (so `response.json()` rejects); no
   * response at all (`fetch` or `axios` rejects).
   */
  datatype Outcome<+T> = Success(data: T) | NotOk(status: nat, errorBody: string) | BadJson | NetworkError

  /**
   * Why a returned promise rejected: an `Error` the source throws with its
   * message, axios's rejection of a status outside 2xx, a rejection passed on
   * from the transport, one from `json()`, or the `TypeError` of calling a
   * method the value does not have (`.map` on a string).
   */
  datatype Failure = Thrown(message: string) | StatusFailure(status: nat) | NetworkFailure | JsonFailure | TypeFailure
}

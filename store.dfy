/**
 * The zustand store of src/store/useStore.ts: three nullable fields, each
 * overwritten by its own setter through `set({ field })`, which merges the
 * one field into the state and leaves the others alone.
 */
module Store {
  import opened Wrappers
  import opened Types

  /** The store's data, as a value. */
  datatype StoreState = StoreState(user: Option<UserProfile>, weather: Option<WeatherData>, token: Option<string>)

  class AppStore {
    var user: Option<UserProfile>
    var weather: Option<WeatherData>
    var token: Option<string>

    function State(): StoreState
      reads this
    {
      StoreState(user, weather, token)
    }

    /** The state `create` starts from: nobody signed in, no weather, no token. */
    constructor ()
      ensures State() == StoreState(None, None, None)
    {
      user := None;
      weather := None;
      token := None;
    }

    /** `setUser(user)`. */
    method SetUser(user: Option<UserProfile>)
      modifies this
      ensures State() == old(State()).(user := user)
    {
      this.user := user;
    }

    /** `setWeather(weather)`. */
    method SetWeather(weather: Option<WeatherData>)
      modifies this
      ensures State() == old(State()).(weather := weather)
    {
      this.weather := weather;
    }

    /** `setToken(token)`; `None` (`null`) signs the user out. */
    method SetToken(token: Option<string>)
      modifies this
      ensures State() == old(State()).(token := token)
    {
      this.token := token;
    }
  }

  /**
   * What the setters' contracts add up to: each update is idempotent, and
   * updates of different fields commute, so the order in which components
   * call the setters does not matter.
   */
  lemma UpdatesIdempotentAndCommute(s: StoreState, u: Option<UserProfile>, w: Option<WeatherData>, t: Option<string>)
    ensures s.(user := u).(user := u) == s.(user := u)
    ensures s.(weather := w).(weather := w) == s.(weather := w)
    ensures s.(token := t).(token := t) == s.(token := t)
    ensures s.(user := u).(weather := w) == s.(weather := w).(user := u)
    ensures s.(user := u).(token := t) == s.(token := t).(user := u)
    ensures s.(weather := w).(token := t) == s.(token := t).(weather := w)
  {
  }
}

/**
 * The app-preferences slice of the store (src/store/slices/appSlice.ts):
 * four fields, each with a setter that assigns it and nothing else.
 */
module AppSlice {
  import opened Wrappers

  datatype Theme = Light | Dark
  datatype Language = En | Hi | Te
  datatype Coordinates = Coordinates(latitude: real, longitude: real)

  class AppState {
    var theme: Theme
    var language: Language
    var isOnline: bool
    var currentLocation: Option<Coordinates>

    /** `initialState`: light theme, English, offline, no known location. */
    constructor ()
      ensures theme == Light && language == En && !isOnline && currentLocation == None
    {
      theme := Light;
      language := En;
      isOnline := false;
      currentLocation := None;
    }

    /** `setTheme`: the theme becomes the payload whatever it was, so setting it twice is setting it once. */
    method SetTheme(t: Theme)
      modifies this
      ensures theme == t
      ensures language == old(language) && isOnline == old(isOnline) && currentLocation == old(currentLocation)
    {
      theme := t;
    }

    /** `setLanguage`. */
    method SetLanguage(l: Language)
      modifies this
      ensures language == l
      ensures theme == old(theme) && isOnline == old(isOnline) && currentLocation == old(currentLocation)
    {
      language := l;
    }

    /** `setOnlineStatus`: the flag becomes the payload regardless of its previous value. */
    method SetOnlineStatus(online: bool)
      modifies this
      ensures isOnline == online
      ensures theme == old(theme) && language == old(language) && currentLocation == old(currentLocation)
    {
      isOnline := online;
    }

    /** `setCurrentLocation`: a location, or `None` for null. */
    method SetCurrentLocation(location: Option<Coordinates>)
      modifies this
      ensures currentLocation == location
      ensures theme == old(theme) && language == old(language) && isOnline == old(isOnline)
    {
      currentLocation := location;
    }
  }

  /** Each setter is idempotent: repeating it leaves the same state as applying it once. */
  method SettersAreIdempotent(s: AppState, t: Theme, l: Language, online: bool, location: Option<Coordinates>)
    modifies s
  {
    s.SetTheme(t);
    var once := (s.theme, s.language, s.isOnline, s.currentLocation);
    s.SetTheme(t);
    assert (s.theme, s.language, s.isOnline, s.currentLocation) == once;
    s.SetLanguage(l);
    once := (s.theme, s.language, s.isOnline, s.currentLocation);
    s.SetLanguage(l);
    assert (s.theme, s.language, s.isOnline, s.currentLocation) == once;
    s.SetOnlineStatus(online);
    once := (s.theme, s.language, s.isOnline, s.currentLocation);
    s.SetOnlineStatus(online);
    assert (s.theme, s.language, s.isOnline, s.currentLocation) == once;
    s.SetCurrentLocation(location);
    once := (s.theme, s.language, s.isOnline, s.currentLocation);
    s.SetCurrentLocation(location);
    assert (s.theme, s.language, s.isOnline, s.currentLocation) == once;
  }
}

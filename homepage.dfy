/** The login-state check and route gating of client/src/pages/Homepage.jsx. */
module HomePage {
  import opened Wrappers

  const AUTH_TOKEN_KEY := "authToken"
  const USER_DATA_KEY := "userData"
  const LOGIN_PATH := "/login"
  const TRACK_MOOD_PATH := "/track-mood"

  /** The browser's `localStorage`: string keys to string values. */
  class LocalStorage {
    var items: map<string, string>

    constructor (initial: map<string, string>)
      ensures items == initial
    {
      items := initial;
    }

    /** `getItem`: the stored string, or `null` (None) for a missing key. */
    method GetItem(key: string) returns (value: Option<string>)
      ensures key in items ==> value == Some(items[key])
      ensures key !in items ==> value == None
    {
      if key in items {
        value := Some(items[key]);
      } else {
        value := None;
      }
    }

    /** `removeItem`: that key is gone, every other entry is kept. */
    method RemoveItem(key: string)
      modifies this
      ensures items == old(items) - {key}
    {
      items := items - {key};
    }
  }

  function Lookup(items: map<string, string>, key: string): Option<string> {
    if key in items then Some(items[key]) else None
  }

  /** The component state `isLoggedIn`/`user` together with the storage it reads. */
  datatype AuthState<Profile> = AuthState(isLoggedIn: bool, user: Option<Profile>, storage: map<string, string>)

  /** `checkAuthStatus`, where `parse` stands for `JSON.parse` (None when it throws). */
  function CheckAuth<Profile>(s: AuthState<Profile>, parse: string -> Option<Profile>): AuthState<Profile> {
    var token := Lookup(s.storage, AUTH_TOKEN_KEY);
    var userData := Lookup(s.storage, USER_DATA_KEY);
    if Truthy(token) && Truthy(userData) then
      match parse(userData.value)
      case Some(profile) => s.(user := Some(profile), isLoggedIn := true)
      case None => s.(storage := s.storage - {AUTH_TOKEN_KEY, USER_DATA_KEY})
    else s
  }

  /** A missing or empty token or user record changes neither the state nor the storage. */
  lemma MissingCredentialsChangeNothing<Profile>(s: AuthState<Profile>, parse: string -> Option<Profile>)
    requires !Truthy(Lookup(s.storage, AUTH_TOKEN_KEY)) || !Truthy(Lookup(s.storage, USER_DATA_KEY))
    ensures CheckAuth(s, parse) == s
  {
  }

  /** With both present and a parsable user record, the user is the parsed value and
      the page is logged in; storage is untouched. */
  lemma ParsedUserLogsIn<Profile>(s: AuthState<Profile>, parse: string -> Option<Profile>)
    requires Truthy(Lookup(s.storage, AUTH_TOKEN_KEY)) && Truthy(Lookup(s.storage, USER_DATA_KEY))
    requires parse(s.storage[USER_DATA_KEY]).Some?
    ensures CheckAuth(s, parse) == AuthState(true, parse(s.storage[USER_DATA_KEY]), s.storage)
  {
  }

  /** A user record that does not parse removes exactly the two keys; the login state
      and user are kept and every other key keeps its value. */
  lemma CorruptUserClearsBothKeys<Profile>(s: AuthState<Profile>, parse: string -> Option<Profile>)
    requires Truthy(Lookup(s.storage, AUTH_TOKEN_KEY)) && Truthy(Lookup(s.storage, USER_DATA_KEY))
    requires parse(s.storage[USER_DATA_KEY]).None?
    ensures var t := CheckAuth(s, parse);
      && t.isLoggedIn == s.isLoggedIn && t.user == s.user
      && AUTH_TOKEN_KEY !in t.storage && USER_DATA_KEY !in t.storage
      && (forall key :: key != AUTH_TOKEN_KEY && key != USER_DATA_KEY ==>
            Lookup(t.storage, key) == Lookup(s.storage, key))
  {
  }

  const INITIAL_LOGGED_IN := false

  /** From the initial state, the page ends up logged in exactly when both keys are
      truthy and the user record parses; the storage afterwards is either unchanged
      or has lost exactly those two keys. */
  lemma MountOutcome<Profile>(storage: map<string, string>, parse: string -> Option<Profile>)
    ensures var t := CheckAuth(AuthState(INITIAL_LOGGED_IN, None, storage), parse);
      && (t.isLoggedIn <==>
            Truthy(Lookup(storage, AUTH_TOKEN_KEY)) && Truthy(Lookup(storage, USER_DATA_KEY)) &&
            parse(storage[USER_DATA_KEY]).Some?)
      && (t.isLoggedIn ==> t.user == parse(storage[USER_DATA_KEY]))
      && (!t.isLoggedIn ==> t.user == None)
      && (t.storage == storage || t.storage == storage - {AUTH_TOKEN_KEY, USER_DATA_KEY})
  {
  }

  /** Where a click on a protected feature leads: `/login` unless logged in. */
  function RouteTarget(isLoggedIn: bool, path: string): string {
    if !isLoggedIn then LOGIN_PATH else path
  }

  /** One entry of the feature list. */
  datatype Feature = Feature(path: string, title: string, icon: string, protected: bool)

  const FEATURES: seq<Feature> := [
    Feature("/track-mood", "Mood Check-In", "letter.png", true),
    Feature("/journal", "Daily Journal", "book.png", true),
    Feature("/self-assessment", "Self Assessment", "task.png", true),
    Feature("/article", "Daily Tips & Inspiration", "lamp.png", false)
  ]

  /** Of the four features only `/article` is reachable without logging in. */
  lemma FeatureProtection()
    ensures |FEATURES| == 4
    ensures forall f :: f in FEATURES ==> (f.protected <==> f.path != "/article")
    ensures [FEATURES[0].path, FEATURES[1].path, FEATURES[2].path, FEATURES[3].path] ==
            ["/track-mood", "/journal", "/self-assessment", "/article"]
  {
  }

  /** Where a click on a feature leads: protected ones go through the route guard,
      the unprotected one is a plain link. */
  function FeatureTarget(f: Feature, isLoggedIn: bool): string {
    if f.protected then RouteTarget(isLoggedIn, f.path) else f.path
  }

  /** A listed feature opens its own page exactly when the user is logged in or the
      feature is the unprotected `/article`; otherwise the login page opens. */
  lemma FeatureAccess(f: Feature, isLoggedIn: bool)
    requires f in FEATURES
    ensures FeatureTarget(f, isLoggedIn) == f.path <==> isLoggedIn || f.path == "/article"
    ensures FeatureTarget(f, isLoggedIn) != f.path ==> FeatureTarget(f, isLoggedIn) == LOGIN_PATH
  {
  }

  /** The `Homepage` component's state and handlers, generic in the parsed user type. */
  class Homepage<Profile> {
    var isLoggedIn: bool
    var user: Option<Profile>

    /** `useState(false)` and `useState(null)`. */
    constructor ()
      ensures isLoggedIn == INITIAL_LOGGED_IN && user == None
    {
      isLoggedIn := false;
      user := None;
    }

    /** `checkAuthStatus`, run once on mount. */
    method CheckAuthStatus(store: LocalStorage, parse: string -> Option<Profile>)
      modifies this, store
      ensures AuthState(isLoggedIn, user, store.items) ==
              CheckAuth(AuthState(old(isLoggedIn), old(user), old(store.items)), parse)
    {
      var token := store.GetItem(AUTH_TOKEN_KEY);
      var userData := store.GetItem(USER_DATA_KEY);
      if Truthy(token) && Truthy(userData) {
        var parsedUser := parse(userData.value);
        if parsedUser.Some? {
          user := Some(parsedUser.value);
          isLoggedIn := true;
        } else {
          store.RemoveItem(AUTH_TOKEN_KEY);
          store.RemoveItem(USER_DATA_KEY);
          assert store.items == old(store.items) - {AUTH_TOKEN_KEY, USER_DATA_KEY};
        }
      }
    }

    /** `handleProtectedRoute`: the path navigated to. */
    method HandleProtectedRoute(path: string) returns (target: string)
      ensures !isLoggedIn ==> target == LOGIN_PATH
      ensures isLoggedIn ==> target == path
      ensures target == RouteTarget(isLoggedIn, path)
    {
      if !isLoggedIn {
        return LOGIN_PATH;
      }
      target := path;
    }

    /** `handleMoodCheckIn`: the same as guarding `/track-mood`. */
    method HandleMoodCheckIn() returns (target: string)
      ensures target == RouteTarget(isLoggedIn, TRACK_MOOD_PATH)
      ensures target == (if isLoggedIn then TRACK_MOOD_PATH else LOGIN_PATH)
    {
      target := HandleProtectedRoute(TRACK_MOOD_PATH);
    }

    /** A click on a feature entry: guarded when protected, a `Link` otherwise. */
    method OpenFeature(item: Feature) returns (target: string)
      ensures target == FeatureTarget(item, isLoggedIn)
      ensures item.protected && !isLoggedIn ==> target == LOGIN_PATH
      ensures !item.protected || isLoggedIn ==> target == item.path
    {
      if item.protected {
        target := HandleProtectedRoute(item.path);
      } else {
        target := item.path;
      }
    }
  }
}

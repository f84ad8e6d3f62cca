/** The application's entry page (src/app/page.tsx): it holds the access token, restores
    it from `localStorage` or takes it from the URL fragment once on mount, clears it on
    logout, and shows the dashboard exactly when a token is held. `window.localStorage`
    is the map `storage` and `window.location.hash` the string `hash`. */
module Session {
  import opened Wrappers
  import SpotifyAuth

  /** The one `localStorage` key the application uses. */
  const StorageKey := "spotify_access_token"

  /** What the page renders. */
  datatype Screen = LoginScreen | DashboardScreen(token: string)

  class AppPage {
    var token: Option<string>
    var storage: map<string, string>
    var hash: string

    /** A held token is non-empty and is the one persisted under the storage key. */
    ghost predicate Valid()
      reads this
    {
      token.Some? ==> token.value != "" && StorageKey in storage && storage[StorageKey] == token.value
    }

    /** The page before its mount effect runs: no token yet. */
    constructor (storage: map<string, string>, hash: string)
      ensures Valid()
      ensures this.token == None && this.storage == storage && this.hash == hash
    {
      this.token := None;
      this.storage := storage;
      this.hash := hash;
    }

    /** The value `localStorage.getItem(StorageKey)` returns. */
    function StoredToken(): (r: Option<string>)
      reads this
      ensures r.Some? <==> StorageKey in storage
      ensures r.Some? ==> r.value == storage[StorageKey]
    {
      if StorageKey in storage then Some(storage[StorageKey]) else None
    }

    /** The mount effect: a stored token wins and the URL is not consulted; otherwise a
        token in the fragment is persisted, held, and the fragment cleared; with neither,
        nothing changes. */
    method Mount()
      requires Valid()
      modifies this
      ensures Valid()
      ensures Truthy(old(StoredToken())) ==>
                token == old(StoredToken()) && storage == old(storage) && hash == old(hash)
      ensures !Truthy(old(StoredToken())) ==>
                var fromUrl := SpotifyAuth.GetTokenFromUrl(true, old(hash));
                if fromUrl.Some? then
                  token == fromUrl && storage == old(storage)[StorageKey := fromUrl.value] && hash == ""
                else
                  token == old(token) && storage == old(storage) && hash == old(hash)
    {
      var storedToken := StoredToken();
      if Truthy(storedToken) {
        token := storedToken;
        return;
      }
      var accessToken := SpotifyAuth.GetTokenFromUrl(true, hash);
      if Truthy(accessToken) {
        storage := storage[StorageKey := accessToken.value];
        token := accessToken;
        hash := "";
      }
    }

    /** `handleLogOut`: forget the token in memory and in storage. */
    method HandleLogOut()
      modifies this
      ensures Valid()
      ensures token == None && storage == old(storage) - {StorageKey} && hash == old(hash)
    {
      token := None;
      storage := storage - {StorageKey};
    }

    /** The dashboard is shown exactly when a token is held. */
    function Render(): (s: Screen)
      reads this
      requires Valid()
      ensures s.DashboardScreen? <==> token.Some?
      ensures s.DashboardScreen? ==> s.token == token.value
    {
      if token.Some? && token.value != "" then DashboardScreen(token.value) else LoginScreen
    }
  }

  /** A token taken from the redirect survives a reload: a new page built over the same
      storage restores it, whatever fragment it is opened with. After a logout a reload
      shows the login screen again. */
  method ReloadKeepsToken(storage: map<string, string>, hash: string, laterHash: string)
    returns (first: Option<string>, restored: Option<string>, afterLogout: Screen)
    ensures first.Some? ==> restored == first
    ensures afterLogout == LoginScreen
  {
    var page := new AppPage(storage, hash);
    page.Mount();
    first := page.token;
    var reloaded := new AppPage(page.storage, laterHash);
    reloaded.Mount();
    restored := reloaded.token;
    page.HandleLogOut();
    var next := new AppPage(page.storage, "");
    next.Mount();
    afterLogout := next.Render();
  }
}

/** The signed-in shell (src/components/Dashboard.tsx): it loads the dashboard data once
    a token is present, logs out when the token has expired, can re-read the playlists,
    and renders one of six views. `onLogout` is the entry page's `HandleLogOut`, so the
    page object is a constant of the dashboard. The five HTTP replies of a load are
    inputs. */
module Dashboard {
  import opened Wrappers
  import opened SpotifyService
  import Session

  /** The reads `getDashboardData` never returns; they stay as placeholders here. */
  datatype NowPlaying = NowPlaying(isPlaying: bool, item: Option<Track>)
  datatype RecentlyPlayed = RecentlyPlayed(items: seq<Track>)
  datatype SavedShows = SavedShows(names: seq<string>)

  const HomeTag := "home"
  const TracksTag := "tracks"
  const PlaylistsTag := "playlists"
  const ArtistsTag := "artists"
  const AlbumsTag := "albums"
  const GenerateTag := "generate"

  /** Every prop `renderView` hands to a child component. */
  datatype ViewProps = ViewProps(token: Option<string>, userProfile: Option<UserProfile>,
                                 topTracks: seq<Track>, topArtists: seq<Artist>,
                                 savedAlbums: seq<SavedAlbum>, playlists: seq<Playlist>,
                                 nowPlaying: Option<NowPlaying>, recentlyPlayed: Option<RecentlyPlayed>,
                                 savedShows: Option<SavedShows>)

  /** The component `renderView` returns, with the props it passes. */
  datatype Component =
    | HomeView(props: ViewProps)
    | TopTracksView(tracks: seq<Track>)
    | UserPlaylistsView(playlists: seq<Playlist>)
    | TopArtistsView(artists: seq<Artist>)
    | SavedAlbumsView(albums: seq<SavedAlbum>)
    | GeneratorView(token: Option<string>, userProfile: Option<UserProfile>)

  /** What the dashboard renders. */
  datatype Screen = EmptyShell | Skeleton | Shell(view: Component)

  /** `renderView`: a `switch` on the view tag whose `default` renders Home. */
  function RenderView(activeView: string, props: ViewProps): (c: Component)
    ensures c.HomeView? <==> activeView !in {TracksTag, PlaylistsTag, ArtistsTag, AlbumsTag, GenerateTag}
    ensures c.TopTracksView? <==> activeView == TracksTag
    ensures c.UserPlaylistsView? <==> activeView == PlaylistsTag
    ensures c.TopArtistsView? <==> activeView == ArtistsTag
    ensures c.SavedAlbumsView? <==> activeView == AlbumsTag
    ensures c.GeneratorView? <==> activeView == GenerateTag
    ensures c.HomeView? ==> c.props == props
    ensures c.TopTracksView? ==> c.tracks == props.topTracks
    ensures c.UserPlaylistsView? ==> c.playlists == props.playlists
    ensures c.TopArtistsView? ==> c.artists == props.topArtists
    ensures c.SavedAlbumsView? ==> c.albums == props.savedAlbums
    ensures c.GeneratorView? ==> c.token == props.token && c.userProfile == props.userProfile
  {
    if activeView == HomeTag then HomeView(props)
    else if activeView == TracksTag then TopTracksView(props.topTracks)
    else if activeView == PlaylistsTag then UserPlaylistsView(props.playlists)
    else if activeView == ArtistsTag then TopArtistsView(props.topArtists)
    else if activeView == AlbumsTag then SavedAlbumsView(props.savedAlbums)
    else if activeView == GenerateTag then GeneratorView(props.token, props.userProfile)
    else HomeView(props)
  }

  class Dashboard {
    const token: Option<string>
    const page: Session.AppPage
    var userProfile: Option<UserProfile>
    var topTracks: seq<Track>
    var topArtists: seq<Artist>
    var savedAlbums: seq<SavedAlbum>
    var playlists: seq<Playlist>
    var nowPlaying: Option<NowPlaying>
    var recentlyPlayed: Option<RecentlyPlayed>
    var savedShows: Option<SavedShows>
    var loading: bool
    var activeView: string

    /** The initial state: no data, loading, on the home view. */
    constructor (token: Option<string>, page: Session.AppPage)
      ensures this.token == token && this.page == page
      ensures userProfile == None && topTracks == [] && topArtists == [] && savedAlbums == []
      ensures playlists == [] && nowPlaying == None && recentlyPlayed == None && savedShows == None
      ensures loading && activeView == HomeTag
    {
      this.token := token;
      this.page := page;
      userProfile := None;
      topTracks, topArtists, savedAlbums, playlists := [], [], [], [];
      nowPlaying, recentlyPlayed, savedShows := None, None, None;
      loading := true;
      activeView := HomeTag;
    }

    /** The state behind the eight data fields. */
    function Data(): DashboardFields
      reads this
    {
      DashboardFields(userProfile, topTracks, topArtists, savedAlbums, playlists,
                      nowPlaying, recentlyPlayed, savedShows)
    }

    /** The load effect. Without a token nothing runs and no request goes out. Otherwise
        the five reads are issued; on success the data fields take the loaded values
        (the three fields `getDashboardData` does not return become `undefined`); on the
        expired-token error the page logs out; on any other error only the log is
        written. `loading` is false afterwards in every case. */
    method LoadDashboardData(profile: HttpOutcome<UserProfile>, tracks: HttpOutcome<Paging<Track>>,
                             artists: HttpOutcome<Paging<Artist>>, albums: HttpOutcome<Paging<SavedAlbum>>,
                             playlistsReply: HttpOutcome<Paging<Playlist>>)
      returns (requests: seq<Request>)
      modifies this, page
      ensures !Truthy(token) ==> requests == [] && unchanged(this) && unchanged(page)
      ensures Truthy(token) ==> requests == DashboardRequests(token.value) && !loading
      ensures Truthy(token) ==>
                var r := GetDashboardData(profile, tracks, artists, albums, playlistsReply);
                && activeView == old(activeView)
                && (r.Success? ==>
                      Data() == DashboardFields(Some(r.value.userProfile), r.value.topTracks, r.value.topArtists,
                                                r.value.savedAlbums, r.value.playlists, None, None, None)
                      && unchanged(page))
                && (r.Failure? ==> Data() == old(Data()))
                && (r.Failure? && r.error == MsgTokenExpired ==>
                      page.token == None && page.storage == old(page.storage) - {Session.StorageKey}
                      && page.hash == old(page.hash))
                && (r.Failure? && r.error != MsgTokenExpired ==> unchanged(page))
    {
      if !Truthy(token) {
        return [];
      }
      loading := true;
      requests := DashboardRequests(token.value);
      var data := GetDashboardData(profile, tracks, artists, albums, playlistsReply);
      match data {
        case Success(d) =>
          userProfile := Some(d.userProfile);
          topTracks := d.topTracks;
          topArtists := d.topArtists;
          savedAlbums := d.savedAlbums;
          playlists := d.playlists;
          nowPlaying := None;
          recentlyPlayed := None;
          savedShows := None;
        case Failure(message) =>
          if message == MsgTokenExpired {
            page.HandleLogOut();
          }
      }
      loading := false;
    }

    /** `fetchPlaylists`: nothing without a token; otherwise one read of the playlist
        endpoint, whose result replaces the playlists only when it succeeds. */
    method FetchPlaylists(reply: HttpOutcome<Paging<Playlist>>) returns (requests: seq<Request>)
      modifies this`playlists
      ensures !Truthy(token) ==> requests == [] && playlists == old(playlists)
      ensures Truthy(token) ==> requests == [RequestFor(token.value, EndpointPlaylists)]
      ensures Truthy(token) && GetUserPlaylists(reply).Success? ==> playlists == GetUserPlaylists(reply).value
      ensures GetUserPlaylists(reply).Failure? ==> playlists == old(playlists)
    {
      if !Truthy(token) {
        return [];
      }
      requests := [RequestFor(token.value, EndpointPlaylists)];
      match GetUserPlaylists(reply) {
        case Success(latest) => playlists := latest;
        case Failure(_) =>
      }
    }

    /** The sidebar's `setActiveView`. */
    method SetActiveView(view: string)
      modifies this`activeView
      ensures activeView == view
    {
      activeView := view;
    }

    /** Without a token an empty shell; while loading the skeleton; otherwise the active view. */
    function Render(): (s: Screen)
      reads this
      ensures s == EmptyShell <==> !Truthy(token)
      ensures s == Skeleton <==> Truthy(token) && loading
      ensures s.Shell? ==> s.view == RenderView(activeView, Props())
    {
      if !Truthy(token) then EmptyShell
      else if loading then Skeleton
      else Shell(RenderView(activeView, Props()))
    }

    function Props(): ViewProps
      reads this
    {
      ViewProps(token, userProfile, topTracks, topArtists, savedAlbums, playlists,
                nowPlaying, recentlyPlayed, savedShows)
    }
  }

  /** The eight data fields of the dashboard, as one value. */
  datatype DashboardFields = DashboardFields(userProfile: Option<UserProfile>, topTracks: seq<Track>,
                                             topArtists: seq<Artist>, savedAlbums: seq<SavedAlbum>,
                                             playlists: seq<Playlist>, nowPlaying: Option<NowPlaying>,
                                             recentlyPlayed: Option<RecentlyPlayed>, savedShows: Option<SavedShows>)

  /** A token that has expired on the server: the page restores it from storage, one of
      the dashboard's reads answers 401 while the others answer OK or 401 too (so no other
      failure can win the race), and the page ends on the login screen with the stored
      token removed. */
  method ExpiredTokenLogsOut(stored: string, hash: string, profile: HttpOutcome<UserProfile>,
                             tracks: HttpOutcome<Paging<Track>>, artists: HttpOutcome<Paging<Artist>>,
                             albums: HttpOutcome<Paging<SavedAlbum>>, playlists: HttpOutcome<Paging<Playlist>>)
    returns (before: Session.Screen, after: Session.Screen, stillStored: bool)
    requires stored != ""
    requires OkOrExpired(profile) && OkOrExpired(tracks) && OkOrExpired(artists)
             && OkOrExpired(albums) && OkOrExpired(playlists)
    requires profile.status == 401 || tracks.status == 401 || artists.status == 401
             || albums.status == 401 || playlists.status == 401
    ensures before == Session.DashboardScreen(stored)
    ensures after == Session.LoginScreen && !stillStored
  {
    var page := new Session.AppPage(map[Session.StorageKey := stored], hash);
    page.Mount();
    before := page.Render();
    var dashboard := new Dashboard(page.token, page);
    ExpiredTokenSurfaces(profile, tracks, artists, albums, playlists);
    var _ := dashboard.LoadDashboardData(profile, tracks, artists, albums, playlists);
    after := page.Render();
    stillStored := Session.StorageKey in page.storage;
  }
}

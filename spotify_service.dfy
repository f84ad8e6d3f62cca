/** The Web API client of src/lib/spotifyService.ts: one authenticated GET helper that
    maps the reply's status to a value or an error message, the five reads the dashboard
    is built from, and the playlist re-read. Each HTTP reply is an input
    (`HttpOutcome`), with its body already decoded into the shape the caller casts it to. */
module SpotifyService {
  import opened Wrappers
  import opened Strings
  import opened Seqs

  const ApiBase := "https://api.spotify.com/v1/"
  const MsgTokenExpired := "Spotify token expired"
  const MsgFetchFailed := "Failed to fetch data from Spotify endpoint: "

  const EndpointProfile := "me"
  const EndpointTopTracks := "me/top/tracks?limit=50&time_range=medium_term"
  const EndpointTopArtists := "me/top/artists?limit=10&time_range=short_term"
  const EndpointAlbums := "me/albums?limit=10"
  const EndpointPlaylists := "me/playlists?limit=50"

  /** At most this many tracks are shown as the user's top tracks. */
  const TopTrackLimit := 20

  /** A track's `preview_url`: JSON `null`, an absent field, or a URL. */
  datatype Preview = NullPreview | AbsentPreview | PreviewUrl(url: string)

  datatype Track = Track(id: string, name: string, preview: Preview)
  datatype Artist = Artist(id: string, name: string)
  datatype Album = Album(id: string, name: string)
  datatype SavedAlbum = SavedAlbum(album: Album)
  datatype Playlist = Playlist(id: string, name: string)
  datatype UserProfile = UserProfile(id: string, displayName: Option<string>, email: string)

  /** A paged list reply; `items` may be missing. */
  datatype Paging<T> = Paging(items: Option<seq<T>>)

  /** The outbound GET: URL and `Authorization` header. */
  datatype Request = Request(url: string, authorization: string)

  /** What one `spotifyFetch` met: a reply whose status was read and whose body decoded,
      or a rejection with its message: the `fetch` itself, or `response.json()` on an OK
      reply whose body is not JSON (such as the empty body of a 204). */
  datatype HttpOutcome<T> = Reply(status: int, body: T) | Rejected(message: string)

  /** `response.ok` */
  predicate IsOk(status: int) {
    200 <= status <= 299
  }

  /** The request `spotifyFetch(token, endpoint)` issues. */
  function RequestFor(token: string, endpoint: string): (r: Request)
    ensures StartsWith(r.url, ApiBase) && r.url[|ApiBase|..] == endpoint
    ensures StartsWith(r.authorization, "Bearer ") && r.authorization[7..] == token
  {
    Request(ApiBase + endpoint, "Bearer " + token)
  }

  /** `spotifyFetch`: 401 is reported as the expired-token error before any other non-OK
      status, which is reported with the endpoint's path; an OK reply yields its body. */
  function SpotifyFetch<T>(endpoint: string, outcome: HttpOutcome<T>): (r: Result<T, string>)
    ensures r.Success? <==> outcome.Reply? && IsOk(outcome.status)
    ensures r.Success? ==> r.value == outcome.body
    ensures outcome.Reply? && outcome.status == 401 ==> r == Failure(MsgTokenExpired)
    ensures outcome.Reply? && outcome.status != 401 && !IsOk(outcome.status) ==>
              r == Failure(MsgFetchFailed + endpoint)
    ensures outcome.Rejected? ==> r == Failure(outcome.message)
  {
    match outcome
    case Rejected(message) => Failure(message)
    case Reply(status, body) =>
      if status == 401 then Failure(MsgTokenExpired)
      else if !IsOk(status) then Failure(MsgFetchFailed + endpoint)
      else Success(body)
  }

  /** The expired-token message is the 401 reply's alone: no other status produces it, so a
      caller can recognise expiry by the message (a rejected `fetch` could only carry it if
      the runtime's own message happened to be that text). */
  lemma ExpiredOnlyFrom401<T>(endpoint: string, outcome: HttpOutcome<T>)
    ensures SpotifyFetch(endpoint, outcome) == Failure(MsgTokenExpired) <==>
              (outcome.Reply? && outcome.status == 401)
              || (outcome.Rejected? && outcome.message == MsgTokenExpired)
  {
    if outcome.Reply? && outcome.status != 401 && !IsOk(outcome.status) {
      assert (MsgFetchFailed + endpoint)[0] == MsgFetchFailed[0];
      assert MsgFetchFailed[0] == 'F';
      assert MsgTokenExpired[0] == 'S';
    }
  }

  /** `items || []`: a missing list reads as empty, a present one as itself. */
  function ItemsOrEmpty<T>(page: Paging<T>): (r: seq<T>)
    ensures r == [] <==> page.items.None? || page.items == Some([])
    ensures page.items.Some? ==> r == page.items.value
  {
    page.items.GetOr([])
  }

  /** `preview_url !== null`: an absent field passes. */
  predicate HasPreview(t: Track) {
    !t.preview.NullPreview?
  }

  /** `tracks.filter(t => t.preview_url !== null)` */
  function WithPreviews(tracks: seq<Track>): (r: seq<Track>)
    ensures |r| <= |tracks|
    ensures forall t :: t in r <==> t in tracks && HasPreview(t)
  {
    if |tracks| == 0 then []
    else if HasPreview(tracks[0]) then [tracks[0]] + WithPreviews(tracks[1..])
    else WithPreviews(tracks[1..])
  }

  /** The filter distributes over concatenation, so it keeps the tracks' relative order. */
  lemma {:induction false} WithPreviewsAppend(a: seq<Track>, b: seq<Track>)
    ensures WithPreviews(a + b) == WithPreviews(a) + WithPreviews(b)
  {
    if |a| == 0 {
      assert a + b == b;
    } else {
      assert (a + b)[1..] == a[1..] + b;
      WithPreviewsAppend(a[1..], b);
    }
  }

  /** The top-track selection of `getDashboardData`. */
  function TopTracks(items: seq<Track>): (r: seq<Track>)
    ensures |r| <= TopTrackLimit
    ensures forall t :: t in r ==> t in items
  {
    var withPreviews := WithPreviews(items);
    if |withPreviews| > 0 then Take(withPreviews, TopTrackLimit) else Take(items, TopTrackLimit)
  }

  /** At most 20 tracks; when any track has a preview, the first 20 of those (in order,
      all with previews); otherwise the first 20 of all tracks. The fallback means the
      selection is empty only when there were no tracks at all. */
  lemma TopTracksSpec(items: seq<Track>)
    ensures |TopTracks(items)| <= TopTrackLimit
    ensures (exists t :: t in items && HasPreview(t)) ==>
              TopTracks(items) == Take(WithPreviews(items), TopTrackLimit)
              && forall t :: t in TopTracks(items) ==> HasPreview(t)
    ensures (forall t :: t in items ==> !HasPreview(t)) ==> TopTracks(items) == Take(items, TopTrackLimit)
    ensures TopTracks(items) == [] <==> items == []
  {
    var w := WithPreviews(items);
    if exists t :: t in items && HasPreview(t) {
      var t :| t in items && HasPreview(t);
      assert t in w;
      forall u | u in TopTracks(items) ensures HasPreview(u) {
        assert u in w;
      }
    }
  }

  /** What `getDashboardData` returns: exactly five fields. */
  datatype DashboardData = DashboardData(userProfile: UserProfile, topTracks: seq<Track>,
                                         topArtists: seq<Artist>, savedAlbums: seq<SavedAlbum>,
                                         playlists: seq<Playlist>)

  /** The five endpoints `getDashboardData` reads, in the order of its `Promise.all`. */
  function DashboardEndpoints(): seq<string> {
    [EndpointProfile, EndpointTopTracks, EndpointTopArtists, EndpointAlbums, EndpointPlaylists]
  }

  /** The five requests `getDashboardData` issues: five different API URLs, naming the
      five endpoints in order, each carrying the same bearer token. */
  function DashboardRequests(token: string): (r: seq<Request>)
    ensures |r| == 5
    ensures forall k :: 0 <= k < 5 ==> StartsWith(r[k].url, ApiBase) && r[k].url[|ApiBase|..] == DashboardEndpoints()[k]
    ensures forall k :: 0 <= k < 5 ==> r[k].authorization == "Bearer " + token
    ensures forall i, j :: 0 <= i < j < 5 ==> r[i].url != r[j].url
  {
    var r := seq(5, k requires 0 <= k < 5 => RequestFor(token, DashboardEndpoints()[k]));
    EndpointsDistinct();
    r
  }

  /** No two dashboard endpoints are the same. */
  lemma EndpointsDistinct()
    ensures forall i, j :: 0 <= i < j < 5 ==> DashboardEndpoints()[i] != DashboardEndpoints()[j]
  {
    assert |EndpointProfile| == 2 && |EndpointAlbums| == 18 && |EndpointPlaylists| == 21;
    assert |EndpointTopTracks| == 45 && |EndpointTopArtists| == 45;
    assert EndpointTopTracks[7] == 't' && EndpointTopArtists[7] == 'a';
  }

  /** `getDashboardData`: all five reads are issued together; if one fails the whole load
      fails with its message (the earliest in the list when several fail). */
  function GetDashboardData(profile: HttpOutcome<UserProfile>, tracks: HttpOutcome<Paging<Track>>,
                            artists: HttpOutcome<Paging<Artist>>, albums: HttpOutcome<Paging<SavedAlbum>>,
                            playlists: HttpOutcome<Paging<Playlist>>): (r: Result<DashboardData, string>)
    ensures r.Success? <==>
              SpotifyFetch(EndpointProfile, profile).Success? && SpotifyFetch(EndpointTopTracks, tracks).Success?
              && SpotifyFetch(EndpointTopArtists, artists).Success? && SpotifyFetch(EndpointAlbums, albums).Success?
              && SpotifyFetch(EndpointPlaylists, playlists).Success?
    ensures r.Success? ==>
              r.value == DashboardData(profile.body, TopTracks(ItemsOrEmpty(tracks.body)),
                                       ItemsOrEmpty(artists.body), ItemsOrEmpty(albums.body),
                                       ItemsOrEmpty(playlists.body))
    // Whatever the order the rejections arrive in, the load fails with one read's failure.
    ensures r.Failure? ==>
              || SpotifyFetch(EndpointProfile, profile) == Failure(r.error)
              || SpotifyFetch(EndpointTopTracks, tracks) == Failure(r.error)
              || SpotifyFetch(EndpointTopArtists, artists) == Failure(r.error)
              || SpotifyFetch(EndpointAlbums, albums) == Failure(r.error)
              || SpotifyFetch(EndpointPlaylists, playlists) == Failure(r.error)
    // The model takes the earliest failure in list order.
    ensures SpotifyFetch(EndpointProfile, profile).Failure? ==> r == Failure(SpotifyFetch(EndpointProfile, profile).error)
    ensures SpotifyFetch(EndpointProfile, profile).Success? && SpotifyFetch(EndpointTopTracks, tracks).Failure? ==>
              r == Failure(SpotifyFetch(EndpointTopTracks, tracks).error)
    ensures SpotifyFetch(EndpointProfile, profile).Success? && SpotifyFetch(EndpointTopTracks, tracks).Success?
            && SpotifyFetch(EndpointTopArtists, artists).Failure? ==>
              r == Failure(SpotifyFetch(EndpointTopArtists, artists).error)
    ensures SpotifyFetch(EndpointProfile, profile).Success? && SpotifyFetch(EndpointTopTracks, tracks).Success?
            && SpotifyFetch(EndpointTopArtists, artists).Success? && SpotifyFetch(EndpointAlbums, albums).Failure? ==>
              r == Failure(SpotifyFetch(EndpointAlbums, albums).error)
  {
    match SpotifyFetch(EndpointProfile, profile)
    case Failure(e) => Failure(e)
    case Success(me) =>
      match SpotifyFetch(EndpointTopTracks, tracks)
      case Failure(e) => Failure(e)
      case Success(tracksData) =>
        match SpotifyFetch(EndpointTopArtists, artists)
        case Failure(e) => Failure(e)
        case Success(artistsData) =>
          match SpotifyFetch(EndpointAlbums, albums)
          case Failure(e) => Failure(e)
          case Success(albumsData) =>
            match SpotifyFetch(EndpointPlaylists, playlists)
            case Failure(e) => Failure(e)
            case Success(playlistsData) =>
              Success(DashboardData(me, TopTracks(ItemsOrEmpty(tracksData)), ItemsOrEmpty(artistsData),
                                    ItemsOrEmpty(albumsData), ItemsOrEmpty(playlistsData)))
  }

  /** A reply that does not fail, or fails only because the token expired. */
  predicate OkOrExpired<T>(outcome: HttpOutcome<T>) {
    outcome.Reply? && (IsOk(outcome.status) || outcome.status == 401)
  }

  /** An expired token anywhere in the dashboard load surfaces as the expired-token error
      when nothing else goes wrong. */
  lemma ExpiredTokenSurfaces(profile: HttpOutcome<UserProfile>, tracks: HttpOutcome<Paging<Track>>,
                             artists: HttpOutcome<Paging<Artist>>, albums: HttpOutcome<Paging<SavedAlbum>>,
                             playlists: HttpOutcome<Paging<Playlist>>)
    requires OkOrExpired(profile) && OkOrExpired(tracks) && OkOrExpired(artists)
             && OkOrExpired(albums) && OkOrExpired(playlists)
    requires profile.status == 401 || tracks.status == 401 || artists.status == 401
             || albums.status == 401 || playlists.status == 401
    ensures GetDashboardData(profile, tracks, artists, albums, playlists) == Failure(MsgTokenExpired)
  {
  }

  /** `getUserPlaylists`: the playlists of one read of the playlist endpoint, `[]` when the
      reply has no `items`. */
  function GetUserPlaylists(outcome: HttpOutcome<Paging<Playlist>>): (r: Result<seq<Playlist>, string>)
    ensures r.Success? <==> outcome.Reply? && IsOk(outcome.status)
    ensures r.Success? && outcome.body.items.None? ==> r.value == []
    ensures r.Success? && outcome.body.items.Some? ==> r.value == outcome.body.items.value
    ensures r.Failure? ==> r.error == SpotifyFetch(EndpointPlaylists, outcome).error
  {
    match SpotifyFetch(EndpointPlaylists, outcome)
    case Failure(e) => Failure(e)
    case Success(data) => Success(ItemsOrEmpty(data))
  }
}

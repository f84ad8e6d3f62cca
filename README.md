# Fine-Tunes core, modelled in Dafny

Fine-Tunes is a Spotify dashboard with an AI playlist generator. This project models the
parts of it that make decisions. The model is proved against the behaviour the code
promises. It covers:

- **The generate route** (`POST /api/generate`). It checks the Gemini key before the
  prompt and composes the instruction template. It pulls the JSON array out of the
  model's prose with the greedy pattern `/\[[\s\S]*\]/`, and turns every failure into a
  500 response carrying "Server Error: " and the message.
- **The playlist generator component**. `handleGenerate` asks the route for tracks.
  `handleSavePlaylist` runs three phases: resolve each track to a URI, create the
  playlist, add at most 100 URIs. Each phase is reported in `saveStatus`.
- **Token handling**:
  - the URL-fragment token parser and the login URL in `src/lib/spotify.ts`;
  - the page's token lifecycle (storage first, then the URL; logout clears both);
  - the path from a 401 reply to a logout, running through `spotifyFetch` and the
    dashboard.
- **Data shaping.** Top-track selection (up to 20 with previews, else the first 20)
  and the `|| []` defaults. Also the save dialog's trim guard, the dashboard's view
  dispatch, and the home page's greeting, first name and 4-item snippets.

The model is organised as follows:

- One module per source file: `GenerateRoute`, `PlaylistGenerator`, `SpotifyAuth`,
  `SpotifyService`, `Session` (`src/app/page.tsx`), `SaveModal`, `Dashboard` and `Home`.
- Three helper modules model JavaScript built-ins: `Wrappers`, `Strings` (`split` on
  one character, `startsWith`, `trim` over the ECMAScript whitespace set) and `Seqs`
  (`slice(0, n)`).
- React components that keep state become classes whose fields are that state. Their
  handlers are methods with `modifies` clauses.
- Pure logic becomes functions and lemmas.
- A JavaScript string that may be `null`, `undefined` or empty is an `Option<string>`.
  `Truthy` is JavaScript's falsiness test on such a value.

Everything outside the program becomes a parameter:

- the environment variables, `localStorage`, `window.location` and the clock;
- the `fetch` replies of Gemini and Spotify (`Upstream`, `HttpOutcome`);
- `JSON.parse` and `URLSearchParams` encoding, passed as functions;
- the results of the three Spotify helpers the generator imports (`Call<T>`: returned
  a value, or threw).

Every handler that calls Gemini, Spotify or the dialog's callbacks returns those calls,
in order, so the contracts can say which calls happen and with what arguments. The
dashboard's `onLogout` is not returned: the dashboard holds the page object and calls
its logout method, and the contract states the page's new state.

## Model

| member | source | states |
|---|---|---|
| Strings.FirstIndex | src/app/api/generate/route.ts:66 | the position of the first occurrence of a character, or the length when it does not occur; no earlier position holds it |
| Strings.LastIndex | src/app/api/generate/route.ts:66 | the position of the last occurrence of a character, or -1; no later position holds it |
| Strings.Split | src/lib/spotify.ts:27-31 | `split` on one character: at least one piece; the first piece is everything before the first separator; no piece holds the separator; the pieces joined with it give back the string |
| Strings.SplitWithoutSeparator | src/lib/spotify.ts:31 | a string without the separator splits into itself alone |
| Strings.SplitAtFirst | src/lib/spotify.ts:29 | splitting `a + sep + b`, where `a` has no separator, gives `a` followed by the pieces of `b` |
| Strings.SplitJoin | src/lib/spotify.ts:58 | splitting a join gives back the joined pieces when none of them holds the separator |
| Strings.Join | src/lib/spotify.ts:58 | `join`: the result opens with the first piece and, with two or more pieces, the separator comes right after it |
| Strings.TrimStart | src/components/SavePlaylistModal.tsx:18-19 | the suffix left after removing leading whitespace: only whitespace was removed, and it does not start with whitespace |
| Strings.TrimEnd | src/components/SavePlaylistModal.tsx:18-19 | the prefix left after removing trailing whitespace: only whitespace was removed, and it does not end with whitespace |
| Strings.Trim | src/components/SavePlaylistModal.tsx:18-19 | `trim` never lengthens its input and keeps only the input's characters |
| Strings.TrimIsMiddle | src/components/SavePlaylistModal.tsx:18-19 | `trim` gives a contiguous middle slice of the input, bordered on both sides by whitespace only |
| Strings.TrimEnds | src/components/SavePlaylistModal.tsx:19 | a non-empty trimmed name neither starts nor ends with whitespace |
| Strings.TrimEmptyIff | src/components/SavePlaylistModal.tsx:18 | the trimmed string is empty exactly when the input is all whitespace |
| Strings.TrimIdempotent | src/components/SavePlaylistModal.tsx:18-19 | trimming twice is trimming once |
| Seqs.Take | src/lib/spotifyService.ts:35 | `slice(0, n)`: a prefix of length min(n, length) |
| Seqs.TakeAll | src/components/AIPlaylistGenerator.tsx:120 | a slice whose bound is at least the length keeps everything |
| GenerateRoute.FullPromptQuotesPrompt | src/app/api/generate/route.ts:27-31 | the composed prompt is the fixed template with the user prompt inserted verbatim between double quotes, and the user prompt can be read back out of it |
| GenerateRoute.FullPromptInjective | src/app/api/generate/route.ts:27-31 | different user prompts give different composed prompts |
| GenerateRoute.FullPrompt | src/app/api/generate/route.ts:27-31 | the composed text opens with the template head and is exactly head, prompt and tail long |
| GenerateRoute.ExtractJsonArray | src/app/api/generate/route.ts:66-69 | no match exactly when no `[` is followed later by a `]`; a match is the slice from the first `[` to the last `]`, inclusive |
| GenerateRoute.ExtractIsTheRegexMatch | src/app/api/generate/route.ts:66 | the match is the leftmost-longest bracket-delimited slice, as the greedy pattern finds it |
| GenerateRoute.ExtractIgnoresProse | src/app/api/generate/route.ts:66 | prose without brackets on either side of an array does not change the extracted array |
| GenerateRoute.ExtractIdempotent | src/app/api/generate/route.ts:66 | extracting from an extracted array gives it back |
| GenerateRoute.CallModel | src/app/api/generate/route.ts:45-75 | the `try` block succeeds exactly when the reply has non-empty text whose bracketed slice parses, with that parsed value; a thrown call fails with its own message |
| GenerateRoute.Post | src/app/api/generate/route.ts:5-83 | guards run in order: no key gives 500 before the prompt is looked at; a missing prompt gives 400; either way no upstream request is made. Exactly when both are present, one request goes to the model URL with the composed prompt. The status is 200, 400 or 500. A 200 response carries exactly the parsed match of non-empty reply text. Every failure after the request is a 500 with "Server Error: " and the message |
| GenerateRoute.FailureMessages | src/app/api/generate/route.ts:52-69 | once the guards pass, a thrown call, a non-OK reply with and without an error message, empty text and text without any bracket pair, and a `JSON.parse` syntax error each give 500 with their own message after "Server Error: " |
| GenerateRoute.ProseWrappedArray | src/app/api/generate/route.ts:59-75 | an array in prose, with that array parsing, yields 200 and the parsed value |
| SpotifyAuth.FirstStartingWith | src/lib/spotify.ts:30 | `find` by prefix: the first segment starting with the key, or the length when none does |
| SpotifyAuth.ValueOf | src/lib/spotify.ts:31-33 | `split("=")[1]` read as a truthy value: when present it is non-empty, holds no `=` and uses only characters of the segment |
| SpotifyAuth.GetTokenFromUrl | src/lib/spotify.ts:17-34 | null without a window or with an empty hash, and null when no `&`-segment starts with "access_token"; a token, when found, is non-empty and holds neither `&` nor `=` |
| SpotifyAuth.ValueOfPair | src/lib/spotify.ts:31 | for `key=value=more` with no `=` in the key, the value is the piece between the first two `=` |
| SpotifyAuth.FirstPieceBeforeSeparator | src/lib/spotify.ts:31 | the first piece of a split is the text before the first separator |
| SpotifyAuth.ValueOfWithoutEquals | src/lib/spotify.ts:31-33 | a segment without `=` has no value |
| SpotifyAuth.TokenFromFirstSegment | src/lib/spotify.ts:27-33 | when the first segment after `#` starts with "access_token", the token is that segment's value |
| SpotifyAuth.TokenSkipsOtherSegment | src/lib/spotify.ts:30 | a leading segment that does not start with "access_token" is skipped |
| SpotifyAuth.TokenRoundTrip | src/lib/spotify.ts:17-34 | `#access_token=` followed by a token without `&` and `=`, then `&`-separated rest, gives back the token |
| SpotifyAuth.TokenOfLeadingPair | src/lib/spotify.ts:27-33 | any key starting with "access_token" matches, including longer keys; the value is truncated at the next `=`; an empty value gives null |
| SpotifyAuth.TokenWithoutValue | src/lib/spotify.ts:31-33 | a matching segment with no `=` gives null |
| SpotifyAuth.LoginParams | src/lib/spotify.ts:55-61 | five pairs whose keys are `client_id`, `redirect_uri`, `scope`, `response_type` and `show_dialog`, in that order, no key twice |
| SpotifyAuth.Lookup | src/lib/spotify.ts:55-61 | a value exactly when some pair has the key, and then the value of the first pair with that key |
| SpotifyAuth.GetLoginUrl | src/lib/spotify.ts:42-64 | "#" exactly when the client id or redirect URI is missing or empty; otherwise the authorize endpoint, `?` and the encoded parameters |
| SpotifyAuth.LoginParamsContent | src/lib/spotify.ts:55-61 | looking the keys up gives the client id, the redirect URI, the scopes joined by spaces, `token` and `true` |
| SpotifyAuth.ScopeRoundTrip | src/lib/spotify.ts:4-10 | the scope parameter splits back into the five scopes, in the listed order |
| SpotifyService.RequestFor | src/lib/spotifyService.ts:4-7 | the request goes to the API base followed by the endpoint, with a `Bearer` authorization for the token |
| SpotifyService.SpotifyFetch | src/lib/spotifyService.ts:4-17 | 401 gives "Spotify token expired" before the generic check; another non-OK status gives the fetch-failed message naming the endpoint; an OK reply gives its body |
| SpotifyService.ExpiredOnlyFrom401 | src/lib/spotifyService.ts:9-15 | the expired message arises exactly from a 401 reply, or from a rejected read whose own message is that same text |
| SpotifyService.ItemsOrEmpty | src/lib/spotifyService.ts:34-43 | the `items` default: the list when present, empty exactly when it is missing or empty |
| SpotifyService.WithPreviews | src/lib/spotifyService.ts:34 | the filter keeps exactly the tracks whose preview is not null, and never grows the list |
| SpotifyService.WithPreviewsAppend | src/lib/spotifyService.ts:34 | the filter distributes over concatenation, so it keeps the input order |
| SpotifyService.TopTracks | src/lib/spotifyService.ts:34-35 | the selection has at most 20 tracks, all taken from the reply |
| SpotifyService.TopTracksSpec | src/lib/spotifyService.ts:34-35 | at most 20 tracks; the first 20 with previews when any track has one, else the first 20 of all; empty exactly when there are no items |
| SpotifyService.DashboardRequests | src/lib/spotifyService.ts:25-31 | five requests to five different URLs under the API base, naming the five endpoints in the order of the `Promise.all`, each with `Bearer ` and the token |
| SpotifyService.EndpointsDistinct | src/lib/spotifyService.ts:26-30 | no endpoint is read twice |
| SpotifyService.GetDashboardData | src/lib/spotifyService.ts:24-44 | succeeds exactly when all five reads succeed, with the profile, the top tracks and the three lists defaulted to empty; a failed load carries the failure of one of the five reads; the model picks the earliest failed read in list order |
| SpotifyService.ExpiredTokenSurfaces | src/lib/spotifyService.ts:9-12 | when one read is a 401 and every other read is OK or also a 401, the dashboard load fails with the expired message |
| SpotifyService.GetUserPlaylists | src/lib/spotifyService.ts:51-54 | the playlists endpoint's items, or none when `items` is missing; failures as in the fetcher |
| Session.AppPage.constructor | src/app/page.tsx:14 | the token starts as null |
| Session.AppPage.StoredToken | src/app/page.tsx:23 | present exactly when the storage has "spotify_access_token", and then the stored value |
| Session.AppPage.Mount | src/app/page.tsx:17-35 | a stored truthy token becomes the token and the URL is not read. Otherwise a URL token is stored under the same key, becomes the token, and the hash is cleared. With neither, nothing changes. A held token always equals the stored one |
| Session.AppPage.HandleLogOut | src/app/page.tsx:37-43 | the token becomes null and only the storage key is removed |
| Session.AppPage.Render | src/app/page.tsx:46-54 | the dashboard renders, with the token, exactly when a token is held; otherwise the login screen |
| Session.ReloadKeepsToken | src/app/page.tsx:23-27 | a token obtained from the URL survives a reload with another hash, and logout then shows the login screen |
| SaveModal.SaveDisabled | src/components/SavePlaylistModal.tsx:39 | the save button is disabled exactly while saving or when the name is all whitespace |
| SaveModal.HandleSave | src/components/SavePlaylistModal.tsx:17-21 | no call exactly when the name is all whitespace; otherwise exactly one `onSave` with the trimmed name, which has no whitespace at either end |
| SaveModal.SavePlaylistModal.constructor | src/components/SavePlaylistModal.tsx:13 | the name starts empty |
| SaveModal.SavePlaylistModal.OnChange | src/components/SavePlaylistModal.tsx:31 | the name becomes the typed value |
| SaveModal.SavePlaylistModal.ClickSave | src/components/SavePlaylistModal.tsx:37-39 | a click on a disabled button does nothing; otherwise one `onSave` with the trimmed name |
| SaveModal.SavePlaylistModal.ClickCancel | src/components/SavePlaylistModal.tsx:36 | cancel only calls `onClose` |
| SaveModal.SavePlaylistModal.Render | src/components/SavePlaylistModal.tsx:15-47 | nothing is rendered exactly when closed; an open dialog shows the name, the enablement rule and "Saving..." or "Save Playlist" |
| Dashboard.RenderView | src/components/Dashboard.tsx:119-156 | each of the six view tags selects its own component with its own state; any other tag selects Home; Home gets all the home props |
| Dashboard.Dashboard.constructor | src/components/Dashboard.tsx:45-56 | empty lists, no profile, loading true, view "home" |
| Dashboard.Dashboard.LoadDashboardData | src/components/Dashboard.tsx:68-98 | with no token, no request is made and nothing changes. Otherwise the five reads are made and `loading` ends false. Success sets the data fields. A failure leaves them unchanged. The expired message logs the page out; other failures leave the page alone |
| Dashboard.Dashboard.FetchPlaylists | src/components/Dashboard.tsx:58-66 | no request without a token; success replaces the playlists; a failure leaves them unchanged |
| Dashboard.Dashboard.SetActiveView | src/components/Dashboard.tsx:56 | the active view becomes the chosen tag |
| Dashboard.Dashboard.Render | src/components/Dashboard.tsx:113-215 | an empty shell exactly without a token; with one, the skeleton while loading and the dispatched view afterwards |
| Dashboard.ExpiredTokenLogsOut | src/components/Dashboard.tsx:82-87 | with a stored token the page shows the dashboard; when some read answers 401 and every other read answers OK or 401, the stored token is removed and the login screen comes back |
| Home.Greeting | src/components/Home.tsx:41-46 | "Good morning" exactly below 12, "Good afternoon" exactly from 12 to 16, "Good evening" exactly from 17; the three partition all hours |
| Home.FirstName | src/components/Home.tsx:52 | absent exactly when the profile or its display name is; otherwise the prefix of the display name before its first space |
| Home.SingleWordNameInFull | src/components/Home.tsx:52 | a display name without spaces is greeted in full |
| Home.Heading | src/components/Home.tsx:52 | the heading is the greeting, a comma and a space, then the first name; without a first name it ends after the comma and space |
| Home.Snippet | src/components/Home.tsx:69-75 | no card exactly for an empty list; otherwise the first min(4, n) items in order |
| PlaylistGenerator.FailureStatus | src/components/AIPlaylistGenerator.tsx:70-75 | an `Error` becomes "Error: " followed by its message, which can be read back; anything else becomes exactly "An unexpected error occurred." |
| PlaylistGenerator.AwaitAll | src/components/AIPlaylistGenerator.tsx:94 | the joined values, in order and position by position, exactly when every call returned |
| PlaylistGenerator.NonNullUris | src/components/AIPlaylistGenerator.tsx:94-96 | exactly the non-null results, never more than there were searches |
| PlaylistGenerator.NonNullUrisAppend | src/components/AIPlaylistGenerator.tsx:94-96 | the null filter distributes over concatenation, so the resolved URIs keep the tracks' order |
| PlaylistGenerator.SearchCalls | src/components/AIPlaylistGenerator.tsx:91-93 | one search per generated track, all with the token, the first search for the first track |
| PlaylistGenerator.SearchCallsAppend | src/components/AIPlaylistGenerator.tsx:91-93 | the searches distribute over concatenation, so the k-th search is for the k-th track, in order |
| PlaylistGenerator.SavePipeline | src/components/AIPlaylistGenerator.tsx:89-136 | besides the searches a run makes at most a create and an add; a saved run passes through step 1, step 2 naming the playlist, step 3 and the success line |
| PlaylistGenerator.SaveRunShape | src/components/AIPlaylistGenerator.tsx:87-136 | a save run makes exactly these calls: only the searches when a search throws or none resolves a URI; then the create call; and when the create returns an id, an add call to that playlist with the first 100 resolved URIs, whatever the add returns. Its statuses open with step 1 and end with the success line exactly when the playlist was saved; otherwise they end with a failure status |
| PlaylistGenerator.SavedIff | src/components/AIPlaylistGenerator.tsx:89-130 | a playlist is saved exactly when every search returned, some URI resolved, the create returned an id, and the add reported success |
| PlaylistGenerator.NoCreateWithoutMatches | src/components/AIPlaylistGenerator.tsx:98-102 | when no URI resolves, the playlist is never created nor filled, and the status is the no-match error |
| PlaylistGenerator.NoAddWithoutPlaylistId | src/components/AIPlaylistGenerator.tsx:106-113 | without a playlist id nothing is added and the run ends with the create-failed error |
| PlaylistGenerator.AddReceivesFirstHundred | src/components/AIPlaylistGenerator.tsx:116-121 | the add call targets the created playlist and receives exactly the first min(100, n) resolved URIs, in order |
| PlaylistGenerator.SmallBatchSubmittedWhole | src/components/AIPlaylistGenerator.tsx:89-130 | with at most 100 resolved URIs, all of them are added, in order, and the four statuses run to the success line naming the playlist |
| PlaylistGenerator.PopulateFailureKeepsPlaylist | src/components/AIPlaylistGenerator.tsx:117-124 | a failed add after a successful create is the last call and ends with the add-failed error; the created playlist stays |
| PlaylistGenerator.RouteErrorMessage | src/components/AIPlaylistGenerator.tsx:63-66 | the route's non-empty error message, else "Something went wrong"; never empty |
| PlaylistGenerator.ToneOf | src/components/AIPlaylistGenerator.tsx:226-230 | every "Error: " status is red, and a red status starts with "Error" |
| PlaylistGenerator.FailureTone | src/components/AIPlaylistGenerator.tsx:224-232 | a failure status is shown red exactly when an `Error` was caught; the step and success statuses are green |
| PlaylistGenerator.AIPlaylistGenerator.constructor | src/components/AIPlaylistGenerator.tsx:34-44 | empty prompt and tracks, no error or status, not loading, saving or open |
| PlaylistGenerator.AIPlaylistGenerator.SetPrompt | src/components/AIPlaylistGenerator.tsx:156 | the prompt becomes the typed text |
| PlaylistGenerator.AIPlaylistGenerator.OpenSaveModal | src/components/AIPlaylistGenerator.tsx:216-219 | the status is cleared and the dialog opens |
| PlaylistGenerator.AIPlaylistGenerator.CloseModal | src/components/AIPlaylistGenerator.tsx:240 | the dialog closes |
| PlaylistGenerator.AIPlaylistGenerator.HandleGenerate | src/components/AIPlaylistGenerator.tsx:46-79 | an empty prompt sets its error and makes no request. Otherwise error and tracks are cleared, one request carries the prompt, and `loading` ends false. The tracks are the reply's on success. A failure, including a non-OK reply's error or "Something went wrong", becomes the status |
| PlaylistGenerator.AIPlaylistGenerator.HandleSavePlaylist | src/components/AIPlaylistGenerator.tsx:81-141 | the guard (no token, no profile or no tracks) sets its error, closes the dialog and calls nothing. Otherwise the calls and statuses are those of the save pipeline. Tracks and prompt are cleared on success and kept on failure. `isSaving` ends false and the dialog closed |
| PlaylistGenerator.AIPlaylistGenerator.RenderAsWritten | src/components/AIPlaylistGenerator.tsx:161-236 | the status line is shown only while there are generated tracks and a status |
| PlaylistGenerator.AIPlaylistGenerator.Render | src/components/AIPlaylistGenerator.tsx:224-234 | the status line is shown whenever there is a status; everything else is as written |
| PlaylistGenerator.GenerateFailure | src/components/AIPlaylistGenerator.tsx:56-70 | what the `catch` receives: the thrown value, or an `Error` carrying the non-OK reply's message |
| PlaylistGenerator.GenerateFailureHiddenAsWritten | src/components/AIPlaylistGenerator.tsx:51-234 | as written, a generation whose request throws or whose reply is not OK sets its failure status, yet shows no status, no error and no tracks |
| PlaylistGenerator.GenerateFailureShown | src/components/AIPlaylistGenerator.tsx:56-75 | with the status rendered on its own, the same failed generation shows its failure status, red unless a non-`Error` value was thrown |
| PlaylistGenerator.SaveSuccessVisibility | src/components/AIPlaylistGenerator.tsx:126-234 | as written, a successful save hides its own success line; with the status rendered on its own it is shown, in green |

Some definitions only give names to constants or expressions from the source and have no
contract of their own. Their meaning is stated by the members above that use them:
`GenerateRoute.ApiUrl` (src/app/api/generate/route.ts:25), `SpotifyAuth.ScopeParam`
(src/lib/spotify.ts:58), `SpotifyService.HasPreview` (src/lib/spotifyService.ts:34),
`SpotifyService.DashboardEndpoints` (src/lib/spotifyService.ts:26-30),
`PlaylistGenerator.StatusCreating` and `PlaylistGenerator.StatusSuccess`
(src/components/AIPlaylistGenerator.tsx:105 and :127), and `Dashboard.Props`
(src/components/Dashboard.tsx:121-131).

## Left out

- All network I/O: the Gemini and Spotify `fetch` calls, `request.json()` and
  `response.json()`. Their results are inputs. A `response.json()` that throws inside
  the route counts as a thrown upstream call.
- `JSON.parse` and `URLSearchParams` encoding are library calls. They are passed in as
  functions, and the login parameters are an ordered list of pairs.
- The route's parsed array is not checked for shape or length, because the route does
  not check it either.
- A prompt that is present but is not a string. The model reads the JSON body's
  `prompt` as an optional string.
- `searchForTrack`, `createPlaylist`, `addTracksToPlaylist` and `getNowPlaying` are not
  part of this model: their definitions are not in the library files they are imported from.
  The first three are inputs to the save pipeline. Polling for now-playing every 5
  seconds involves timers and is also left out.
- The dashboard's `nowPlaying`, `recentlyPlayed` and `savedShows` always become
  `undefined` after a successful load, because the dashboard data has no such fields.
  The model sets them to none.
- SpotifyService.GetDashboardData: `Promise.all` runs the five reads concurrently and
  rejects with whichever failure settles first in time. The model reports the earliest
  failed read in list order. What is proved regardless of timing: a failed load carries
  the failure of one of the reads, and when every read is OK or 401 the failure is the
  expired-token message. The save pipeline's searches are joined the same way.
- `onPlaylistCreated` is declared but never called, so no refresh after a save is
  modelled.
- PlaylistGenerator.AIPlaylistGenerator.HandleGenerate: an OK reply whose body is an
  error object is stored as the track list by the source. The model does not
  constrain the tracks in that case, because the route never sends such a reply.
- Styling, animation, audio previews, the canvas background, and the purely
  presentational components (sidebar, cards, skeleton, login screen).
- The clock (`new Date().getHours()`), environment variables, `localStorage` and
  `window.location`. They are parameters or fields.
- `spotifyFetch` has no special case for a 204 reply. In the code, a 204 passes both
  status checks, and then `response.json()` rejects on the empty body, so the read
  throws a `SyntaxError`. The model follows the code. Such a read is `Rejected` with
  that error's message, and `Reply` stands for a reply whose body decoded.
- In the route, a non-OK reply without an `error` object makes `errorBody.error.message`
  throw a `TypeError`. A reply without a `candidates` field, or whose first candidate
  has `content` but no `parts`, does the same. The model covers these as a thrown upstream call whose
  message is an input. `NotOk` stands for replies that carry an `error` object, with or
  without a message.
- An empty `candidates` list, a first candidate without `content`, or a first part
  without `text` makes the text undefined (the optional chaining stops there). The route then fails with "AI did not return any
  text content.", which is `Answered(None)` in the model.

## Findings

| source | as written | input that shows it | evidently intended | confidence | as-written member | corrected member |
|---|---|---|---|---|---|---|
| src/components/AIPlaylistGenerator.tsx:53,72,126-130,197,224-234 | the status paragraph is rendered inside the block shown only while there are generated tracks; `handleGenerate` empties the tracks before setting a failure status, and a successful save empties them when it sets the success line | any non-empty prompt whose request throws or returns a non-OK status; any save that ends in success | the failure and success statuses are visible to the user | medium, not executed | PlaylistGenerator.GenerateFailureHiddenAsWritten, PlaylistGenerator.SaveSuccessVisibility | PlaylistGenerator.GenerateFailureShown, PlaylistGenerator.AIPlaylistGenerator.Render |

/** The AI playlist generator (src/components/AIPlaylistGenerator.tsx): `handleGenerate`
    asks the generate route for tracks, and `handleSavePlaylist` turns them into a saved
    playlist in three phases (resolve each track to a URI, create the playlist, add the
    first 100 URIs), reporting each phase in `saveStatus`.

    `searchForTrack`, `createPlaylist` and `addTracksToPlaylist` are not defined in the
    library module the component imports them from, so each of them is an input: what
    each awaited call resolved to (or what it threw). `Promise.all` over the searches is
    an order-preserving map. Every call the component makes is returned, in order. */
module PlaylistGenerator {
  import opened Wrappers
  import opened Strings
  import opened Seqs
  import GenerateRoute
  import SpotifyService

  /** One track the model suggested. */
  datatype GeneratedTrack = GeneratedTrack(song: string, artist: string)

  /** A value a `catch` receives: an `Error` with its message, or anything else. */
  datatype Thrown = ErrorValue(message: string) | OtherValue

  /** What an awaited call did: resolve to a value, or throw. */
  datatype Call<T> = Returns(value: T) | Throws(thrown: Thrown)

  /** A call the component makes to the outside. */
  datatype ServiceCall =
    | GenerateRequest(prompt: string)
    | SearchTrack(token: string, song: string, artist: string)
    | CreatePlaylist(token: string, userId: string, name: string)
    | AddTracks(token: string, playlistId: string, uris: seq<string>)

  const MsgNoPrompt := "Please enter a prompt for your playlist."
  const MsgCannotSave := "Cannot save playlist. Missing token or user data."
  const MsgNoMatches := "Could not find any of the generated songs on Spotify."
  const MsgCreateFailed := "Failed to create the playlist on Spotify."
  const MsgAddFailed := "Failed to add tracks to the playlist."
  const MsgSomethingWrong := "Something went wrong"
  const MsgUnexpected := "An unexpected error occurred."
  const ErrorPrefix := "Error: "
  const StatusFinding := "Step 1/3: Finding songs on Spotify..."
  const StatusAdding := "Step 3/3: Adding songs to your new playlist..."

  /** The playlist service takes at most this many URIs per add call. */
  const BatchLimit := 100

  function StatusCreating(name: string): string {
    "Step 2/3: Creating playlist \"" + name + "\"..."
  }

  function StatusSuccess(name: string): string {
    "Success! Your playlist \"" + name + "\" has been saved to your Spotify library."
  }

  /** The status line a caught value becomes, in both handlers: an `Error` is shown with
      the prefix "Error: " and its message, which can be read back; anything else is the
      generic line, which does not carry the prefix. */
  function FailureStatus(t: Thrown): (s: string)
    ensures StartsWith(s, ErrorPrefix) <==> t.ErrorValue?
    ensures t.ErrorValue? ==> s[|ErrorPrefix|..] == t.message
    ensures t.OtherValue? ==> s == MsgUnexpected
  {
    assert MsgUnexpected[0] == 'A' && ErrorPrefix[0] == 'E';
    match t
    case ErrorValue(message) =>
      assert (ErrorPrefix + message)[..|ErrorPrefix|] == ErrorPrefix;
      ErrorPrefix + message
    case OtherValue => MsgUnexpected
  }

  /** `await Promise.all(calls)`: all values in order, or the first throw in list order. */
  function AwaitAll<T>(calls: seq<Call<T>>): (r: Call<seq<T>>)
    ensures r.Returns? <==> forall k :: 0 <= k < |calls| ==> calls[k].Returns?
    ensures r.Returns? ==> |r.value| == |calls| && forall k :: 0 <= k < |calls| ==> r.value[k] == calls[k].value
  {
    if |calls| == 0 then Returns([])
    else
      match calls[0]
      case Throws(t) => Throws(t)
      case Returns(v) =>
        match AwaitAll(calls[1..])
        case Throws(t) =>
          assert forall k :: 1 <= k < |calls| ==> calls[k] == calls[1..][k - 1];
          Throws(t)
        case Returns(vs) =>
          assert forall k :: 1 <= k < |calls| ==> calls[k] == calls[1..][k - 1];
          Returns([v] + vs)
  }

  /** `.filter(uri => uri !== null)` over the search results. */
  function NonNullUris(results: seq<Option<string>>): (uris: seq<string>)
    ensures |uris| <= |results|
    ensures forall u :: u in uris <==> Some(u) in results
  {
    if |results| == 0 then []
    else
      var rest := NonNullUris(results[1..]);
      assert forall u :: Some(u) in results <==> Some(u) == results[0] || Some(u) in results[1..];
      match results[0]
      case None => rest
      case Some(u) => [u] + rest
  }

  /** The filter distributes over concatenation, so matched URIs keep the input order. */
  lemma {:induction false} NonNullUrisAppend(a: seq<Option<string>>, b: seq<Option<string>>)
    ensures NonNullUris(a + b) == NonNullUris(a) + NonNullUris(b)
  {
    if |a| == 0 {
      assert a + b == b;
    } else {
      assert (a + b)[1..] == a[1..] + b;
      NonNullUrisAppend(a[1..], b);
    }
  }

  /** The search calls of phase 1 (`generatedTracks.map(...)`): one search per track, all
      with the token, the first for the first track. */
  function SearchCalls(token: string, tracks: seq<GeneratedTrack>): (calls: seq<ServiceCall>)
    ensures |calls| == |tracks|
    ensures forall c :: c in calls ==> c.SearchTrack? && c.token == token
    ensures |tracks| > 0 ==> calls[0] == SearchTrack(token, tracks[0].song, tracks[0].artist)
  {
    if |tracks| == 0 then []
    else [SearchTrack(token, tracks[0].song, tracks[0].artist)] + SearchCalls(token, tracks[1..])
  }

  /** The searches distribute over concatenation, so the k-th search is for the k-th track. */
  lemma {:induction false} SearchCallsAppend(token: string, a: seq<GeneratedTrack>, b: seq<GeneratedTrack>)
    ensures SearchCalls(token, a + b) == SearchCalls(token, a) + SearchCalls(token, b)
  {
    if |a| == 0 {
      assert a + b == b;
    } else {
      assert (a + b)[1..] == a[1..] + b;
      SearchCallsAppend(token, a[1..], b);
    }
  }

  /** One run of the save pipeline: the calls made, the successive `saveStatus` values, and
      whether the playlist was saved. */
  datatype SaveRun = SaveRun(calls: seq<ServiceCall>, statuses: seq<string>, saved: bool)

  /** The `try` block of `handleSavePlaylist`, phase by phase: besides the searches, at
      most a create and an add; a saved run passes through all four statuses. */
  function SavePipeline(token: string, userId: string, name: string, tracks: seq<GeneratedTrack>,
                        search: seq<Call<Option<string>>>, create: Call<Option<string>>, add: Call<bool>): (r: SaveRun)
    requires |search| == |tracks|
    ensures |tracks| <= |r.calls| <= |tracks| + 2
    ensures r.saved ==> r.statuses == [StatusFinding, StatusCreating(name), StatusAdding, StatusSuccess(name)]
  {
    var searches := SearchCalls(token, tracks);
    match AwaitAll(search)
    case Throws(t) => SaveRun(searches, [StatusFinding, FailureStatus(t)], false)
    case Returns(results) =>
      var uris := NonNullUris(results);
      if |uris| == 0 then
        SaveRun(searches, [StatusFinding, FailureStatus(ErrorValue(MsgNoMatches))], false)
      else
        var creating := [StatusFinding, StatusCreating(name)];
        var createCall := CreatePlaylist(token, userId, name);
        match create
        case Throws(t) => SaveRun(searches + [createCall], creating + [FailureStatus(t)], false)
        case Returns(playlistId) =>
          if !Truthy(playlistId) then
            SaveRun(searches + [createCall], creating + [FailureStatus(ErrorValue(MsgCreateFailed))], false)
          else
            var calls := searches + [createCall, AddTracks(token, playlistId.value, Take(uris, BatchLimit))];
            var adding := creating + [StatusAdding];
            match add
            case Throws(t) => SaveRun(calls, adding + [FailureStatus(t)], false)
            case Returns(success) =>
              if !success then SaveRun(calls, adding + [FailureStatus(ErrorValue(MsgAddFailed))], false)
              else SaveRun(calls, adding + [StatusSuccess(name)], true)
  }

  /** The URIs phase 1 resolves, when every search returned. */
  function ResolvedUris(search: seq<Call<Option<string>>>): seq<string>
    requires AwaitAll(search).Returns?
  {
    NonNullUris(AwaitAll(search).value)
  }

  /** The calls of a run: first the searches, one per track in order; then, when some URI
      was resolved, the create call; then, when the create gave an id, one add call with the
      first 100 resolved URIs, whatever the add then returns; the statuses open with phase 1's and end with success exactly when the
      playlist was saved, and otherwise with a failure status. */
  lemma SaveRunShape(token: string, userId: string, name: string, tracks: seq<GeneratedTrack>,
                     search: seq<Call<Option<string>>>, create: Call<Option<string>>, add: Call<bool>)
    requires |search| == |tracks|
    ensures var r := SavePipeline(token, userId, name, tracks, search, create, add);
      && |tracks| <= |r.calls| <= |tracks| + 2
      && r.calls[..|tracks|] == SearchCalls(token, tracks)
      && 2 <= |r.statuses| <= 4 && r.statuses[0] == StatusFinding
      && (r.saved <==> r.statuses[|r.statuses| - 1] == StatusSuccess(name))
      && (!r.saved ==> exists t :: r.statuses[|r.statuses| - 1] == FailureStatus(t))
      && (AwaitAll(search).Throws? || ResolvedUris(search) == [] ==> r.calls == SearchCalls(token, tracks))
      && (AwaitAll(search).Returns? && ResolvedUris(search) != [] && !(create.Returns? && Truthy(create.value)) ==>
            r.calls == SearchCalls(token, tracks) + [CreatePlaylist(token, userId, name)])
      && (AwaitAll(search).Returns? && ResolvedUris(search) != [] && create.Returns? && Truthy(create.value) ==>
            r.calls == SearchCalls(token, tracks)
                       + [CreatePlaylist(token, userId, name),
                          AddTracks(token, create.value.value, Take(ResolvedUris(search), BatchLimit))])
  {
    var r := SavePipeline(token, userId, name, tracks, search, create, add);
    var last := r.statuses[|r.statuses| - 1];
    if !r.saved {
      assert !StartsWith(StatusSuccess(name), ErrorPrefix) by {
        assert StatusSuccess(name)[0] == 'S';
      }
      assert StatusSuccess(name) != MsgUnexpected by {
        assert StatusSuccess(name)[0] == 'S' && MsgUnexpected[0] == 'A';
      }
      assert exists t :: last == FailureStatus(t);
    }
  }

  /** The playlist is saved exactly when every search returned, at least one found a URI,
      the create call returned an id and the add call reported success. */
  lemma SavedIff(token: string, userId: string, name: string, tracks: seq<GeneratedTrack>,
                 search: seq<Call<Option<string>>>, create: Call<Option<string>>, add: Call<bool>)
    requires |search| == |tracks|
    ensures SavePipeline(token, userId, name, tracks, search, create, add).saved <==>
              && AwaitAll(search).Returns? && |ResolvedUris(search)| > 0
              && create.Returns? && Truthy(create.value)
              && add == Returns(true)
  {
  }

  /** If no search found a URI, the playlist is never created (and nothing is added). */
  lemma NoCreateWithoutMatches(token: string, userId: string, name: string, tracks: seq<GeneratedTrack>,
                               search: seq<Call<Option<string>>>, create: Call<Option<string>>, add: Call<bool>)
    requires |search| == |tracks|
    requires AwaitAll(search).Returns? && ResolvedUris(search) == []
    ensures var r := SavePipeline(token, userId, name, tracks, search, create, add);
      && (forall c :: c in r.calls ==> !c.CreatePlaylist? && !c.AddTracks?)
      && r.statuses == [StatusFinding, ErrorPrefix + MsgNoMatches] && !r.saved
  {
    assert SavePipeline(token, userId, name, tracks, search, create, add).calls == SearchCalls(token, tracks);
  }

  /** If the create call gives no id, nothing is added, and the run fails with its own message. */
  lemma NoAddWithoutPlaylistId(token: string, userId: string, name: string, tracks: seq<GeneratedTrack>,
                               search: seq<Call<Option<string>>>, playlistId: Option<string>, add: Call<bool>)
    requires |search| == |tracks|
    requires !Truthy(playlistId)
    ensures var r := SavePipeline(token, userId, name, tracks, search, Returns(playlistId), add);
      && (forall c :: c in r.calls ==> !c.AddTracks?)
      && !r.saved
      && (AwaitAll(search).Returns? && |ResolvedUris(search)| > 0 ==>
            r.calls == SearchCalls(token, tracks) + [CreatePlaylist(token, userId, name)]
            && r.statuses == [StatusFinding, StatusCreating(name), ErrorPrefix + MsgCreateFailed])
  {
  }

  /** The add call goes to the playlist just created and receives exactly the first
      min(100, n) resolved URIs, in order. */
  lemma AddReceivesFirstHundred(token: string, userId: string, name: string, tracks: seq<GeneratedTrack>,
                                search: seq<Call<Option<string>>>, create: Call<Option<string>>, add: Call<bool>)
    requires |search| == |tracks|
    ensures forall c :: c in SavePipeline(token, userId, name, tracks, search, create, add).calls && c.AddTracks? ==>
              && AwaitAll(search).Returns? && create.Returns? && Truthy(create.value)
              && c == AddTracks(token, create.value.value, Take(ResolvedUris(search), BatchLimit))
              && |c.uris| == Min(BatchLimit, |ResolvedUris(search)|) && |c.uris| <= BatchLimit
  {
  }

  /** A batch of at most 100 resolved URIs is submitted whole: with 10 tracks of which 8
      resolve, one add call carries those 8 URIs, in order, and the status names the playlist. */
  lemma SmallBatchSubmittedWhole(token: string, userId: string, name: string, tracks: seq<GeneratedTrack>,
                                 search: seq<Call<Option<string>>>, playlistId: string)
    requires |search| == |tracks|
    requires AwaitAll(search).Returns? && 0 < |ResolvedUris(search)| <= BatchLimit
    requires playlistId != ""
    ensures var r := SavePipeline(token, userId, name, tracks, search, Returns(Some(playlistId)), Returns(true));
      && r.calls == SearchCalls(token, tracks)
                    + [CreatePlaylist(token, userId, name), AddTracks(token, playlistId, ResolvedUris(search))]
      && r.statuses == [StatusFinding, StatusCreating(name), StatusAdding, StatusSuccess(name)]
      && r.saved
  {
  }

  /** When the add call fails after the playlist was created, the run reports the add
      failure and makes no further call: the empty playlist is not rolled back. */
  lemma PopulateFailureKeepsPlaylist(token: string, userId: string, name: string, tracks: seq<GeneratedTrack>,
                                     search: seq<Call<Option<string>>>, playlistId: string)
    requires |search| == |tracks|
    requires AwaitAll(search).Returns? && |ResolvedUris(search)| > 0
    requires playlistId != ""
    ensures var r := SavePipeline(token, userId, name, tracks, search, Returns(Some(playlistId)), Returns(false));
      && r.calls[|r.calls| - 1].AddTracks? && r.calls[|r.calls| - 2] == CreatePlaylist(token, userId, name)
      && r.statuses[|r.statuses| - 1] == ErrorPrefix + MsgAddFailed
      && !r.saved
  {
  }

  /** `errorData.error || "Something went wrong"`: the route's own message when it sent
      a non-empty one, and never an empty message. */
  function RouteErrorMessage<J>(body: GenerateRoute.Body<J>): (m: string)
    ensures m != ""
    ensures body.ErrorBody? && body.error != "" ==> m == body.error
    ensures !(body.ErrorBody? && body.error != "") ==> m == MsgSomethingWrong
  {
    if body.ErrorBody? && body.error != "" then body.error else MsgSomethingWrong
  }

  /** How a status line is coloured: red when it starts with "Error", green otherwise. */
  datatype Tone = ErrorTone | SuccessTone

  function ToneOf(status: string): (t: Tone)
    ensures StartsWith(status, ErrorPrefix) ==> t == ErrorTone
    ensures t == ErrorTone ==> |status| >= 5 && status[..5] == "Error"
  {
    if StartsWith(status, "Error") then ErrorTone else SuccessTone
  }

  datatype StatusLine = StatusLine(text: string, tone: Tone)

  /** What the component shows: the generate button, the error paragraph, the generated
      track list with its save button, the status line and the dialog's props. */
  datatype GeneratorPanel = GeneratorPanel(
    generateDisabled: bool,
    generateLabel: string,
    errorLine: Option<string>,
    trackList: Option<seq<GeneratedTrack>>,
    statusLine: Option<StatusLine>,
    modalOpen: bool,
    modalSaving: bool)

  /** A failure status is red exactly when an `Error` was caught; the generic line for any
      other thrown value is shown green. The phase and success statuses are green. */
  lemma FailureTone(t: Thrown, name: string)
    ensures ToneOf(FailureStatus(t)) == ErrorTone <==> t.ErrorValue?
    ensures ToneOf(StatusFinding) == SuccessTone && ToneOf(StatusCreating(name)) == SuccessTone
    ensures ToneOf(StatusAdding) == SuccessTone && ToneOf(StatusSuccess(name)) == SuccessTone
  {
    GreenWhenNotE(StatusFinding);
    GreenWhenNotE(StatusAdding);
    GreenWhenNotE(StatusCreating(name));
    GreenWhenNotE(StatusSuccess(name));
    match t
    case ErrorValue(message) =>
      assert FailureStatus(t)[..5] == ErrorPrefix[..5] == "Error";
    case OtherValue =>
      GreenWhenNotE(MsgUnexpected);
  }

  /** A status whose first character is not 'E' is shown green. */
  lemma GreenWhenNotE(status: string)
    requires status != [] && status[0] != 'E'
    ensures ToneOf(status) == SuccessTone
  {
    assert !StartsWith(status, "Error") by {
      assert "Error"[0] == 'E';
    }
  }

  class AIPlaylistGenerator {
    const token: Option<string>
    const userProfile: Option<SpotifyService.UserProfile>
    var prompt: string
    var loading: bool
    var error: Option<string>
    var generatedTracks: seq<GeneratedTrack>
    var isModalOpen: bool
    var isSaving: bool
    var saveStatus: Option<string>

    /** The state when the component mounts. */
    constructor (token: Option<string>, userProfile: Option<SpotifyService.UserProfile>)
      ensures this.token == token && this.userProfile == userProfile
      ensures prompt == "" && !loading && error == None && generatedTracks == []
      ensures !isModalOpen && !isSaving && saveStatus == None
    {
      this.token := token;
      this.userProfile := userProfile;
      prompt := "";
      loading := false;
      error := None;
      generatedTracks := [];
      isModalOpen := false;
      isSaving := false;
      saveStatus := None;
    }

    /** The prompt text area's `onChange`. */
    method SetPrompt(value: string)
      modifies this`prompt
      ensures prompt == value
    {
      prompt := value;
    }

    /** The "Save to Spotify" button: clear the status and open the dialog. */
    method OpenSaveModal()
      modifies this`saveStatus, this`isModalOpen
      ensures saveStatus == None && isModalOpen
    {
      saveStatus := None;
      isModalOpen := true;
    }

    /** The dialog's `onClose`. */
    method CloseModal()
      modifies this`isModalOpen
      ensures !isModalOpen
    {
      isModalOpen := false;
    }

    /** `handleGenerate`, given what the request to the generate route did. An empty
        prompt only sets the error. Otherwise the previous tracks, error and status are
        cleared, one request carries the prompt, and either the returned tracks are kept
        or the failure is shown as the status; `loading` ends false in every outcome. */
    method HandleGenerate(reply: Call<GenerateRoute.Response<seq<GeneratedTrack>>>)
      returns (calls: seq<ServiceCall>)
      modifies this`loading, this`error, this`generatedTracks, this`saveStatus
      ensures prompt == "" ==>
                calls == [] && error == Some(MsgNoPrompt) && loading == old(loading)
                && generatedTracks == old(generatedTracks) && saveStatus == old(saveStatus)
      ensures prompt != "" ==> calls == [GenerateRequest(prompt)] && !loading && error == None
      ensures prompt != "" && reply.Throws? ==>
                generatedTracks == [] && saveStatus == Some(FailureStatus(reply.thrown))
      ensures prompt != "" && reply.Returns? && !SpotifyService.IsOk(reply.value.status) ==>
                generatedTracks == []
                && saveStatus == Some(ErrorPrefix + RouteErrorMessage(reply.value.body))
      ensures prompt != "" && reply.Returns? && SpotifyService.IsOk(reply.value.status) && reply.value.body.JsonBody? ==>
                generatedTracks == reply.value.body.value && saveStatus == None
    {
      if prompt == "" {
        error := Some(MsgNoPrompt);
        return [];
      }
      loading := true;
      error := None;
      generatedTracks := [];
      saveStatus := None;
      calls := [GenerateRequest(prompt)];
      match reply {
        case Throws(t) =>
          saveStatus := Some(FailureStatus(t));
        case Returns(response) =>
          if !SpotifyService.IsOk(response.status) {
            saveStatus := Some(FailureStatus(ErrorValue(RouteErrorMessage(response.body))));
          } else if response.body.JsonBody? {
            generatedTracks := response.body.value;
          }
      }
      loading := false;
    }

    /** `handleSavePlaylist(playlistName)`, given what each service call did (`search` holds
        one result per generated track). Without a token, a profile or tracks it only sets
        the error and closes the dialog. Otherwise it runs the pipeline: the calls and the
        successive statuses are those of `SavePipeline`; on success the tracks and prompt
        are cleared, on failure they are kept; `isSaving` ends false and the dialog closed. */
    method HandleSavePlaylist(playlistName: string, search: seq<Call<Option<string>>>,
                              create: Call<Option<string>>, add: Call<bool>)
      returns (calls: seq<ServiceCall>, statuses: seq<string>)
      requires |search| == |generatedTracks|
      modifies this`error, this`isModalOpen, this`isSaving, this`saveStatus, this`generatedTracks, this`prompt
      ensures !Truthy(token) || userProfile.None? || old(generatedTracks) == [] ==>
                calls == [] && statuses == [] && error == Some(MsgCannotSave) && !isModalOpen
                && isSaving == old(isSaving) && saveStatus == old(saveStatus)
                && generatedTracks == old(generatedTracks) && prompt == old(prompt)
      ensures Truthy(token) && userProfile.Some? && old(generatedTracks) != [] ==>
                var run := SavePipeline(token.value, userProfile.value.id, playlistName, old(generatedTracks),
                                        search, create, add);
                && calls == run.calls && statuses == run.statuses
                && saveStatus == Some(run.statuses[|run.statuses| - 1])
                && !isSaving && !isModalOpen && error == old(error)
                && (run.saved ==> generatedTracks == [] && prompt == "")
                && (!run.saved ==> generatedTracks == old(generatedTracks) && prompt == old(prompt))
    {
      if !Truthy(token) || userProfile.None? || |generatedTracks| == 0 {
        error := Some(MsgCannotSave);
        isModalOpen := false;
        return [], [];
      }
      var accessToken, userId := token.value, userProfile.value.id;
      isSaving := true;
      saveStatus := Some(StatusFinding);
      statuses := [StatusFinding];

      // Phase 1: every search is issued, then the results are joined in input order.
      calls := SearchCalls(accessToken, generatedTracks);
      var failure: Option<Thrown> := None;
      var saved := false;
      match AwaitAll(search) {
        case Throws(t) => failure := Some(t);
        case Returns(results) =>
          var uris := NonNullUris(results);
          if |uris| == 0 {
            failure := Some(ErrorValue(MsgNoMatches));
          } else {
            // Phase 2: create the playlist.
            saveStatus := Some(StatusCreating(playlistName));
            statuses := statuses + [StatusCreating(playlistName)];
            calls := calls + [CreatePlaylist(accessToken, userId, playlistName)];
            match create {
              case Throws(t) => failure := Some(t);
              case Returns(playlistId) =>
                if !Truthy(playlistId) {
                  failure := Some(ErrorValue(MsgCreateFailed));
                } else {
                  // Phase 3: add at most one batch of URIs.
                  saveStatus := Some(StatusAdding);
                  statuses := statuses + [StatusAdding];
                  calls := calls + [AddTracks(accessToken, playlistId.value, Take(uris, BatchLimit))];
                  match add {
                    case Throws(t) => failure := Some(t);
                    case Returns(success) =>
                      if !success {
                        failure := Some(ErrorValue(MsgAddFailed));
                      } else {
                        saveStatus := Some(StatusSuccess(playlistName));
                        statuses := statuses + [StatusSuccess(playlistName)];
                        generatedTracks := [];
                        prompt := "";
                        saved := true;
                      }
                  }
                }
            }
          }
      }
      if failure.Some? {
        saveStatus := Some(FailureStatus(failure.value));
        statuses := statuses + [FailureStatus(failure.value)];
      }
      isSaving := false;
      isModalOpen := false;
    }

    /** The view as written: the status line is rendered inside the generated-tracks
        block, so it is shown only while there are generated tracks. */
    function RenderAsWritten(): (v: GeneratorPanel)
      reads this
      ensures v.statusLine.Some? <==> |generatedTracks| > 0 && Truthy(saveStatus)
      ensures v.trackList.Some? <==> |generatedTracks| > 0
      ensures v.generateDisabled == loading && (v.errorLine.Some? <==> Truthy(error))
    {
      GeneratorPanel(
        loading,
        if loading then "Generating..." else "Generate Playlist",
        if Truthy(error) then error else None,
        if |generatedTracks| > 0 then Some(generatedTracks) else None,
        if |generatedTracks| > 0 && Truthy(saveStatus)
          then Some(StatusLine(saveStatus.value, ToneOf(saveStatus.value)))
          else None,
        isModalOpen,
        isSaving)
    }

    /** The view with the status line shown whenever there is a status, independently of
        the track list, so that generate failures and the save result reach the user. */
    function Render(): (v: GeneratorPanel)
      reads this
      ensures v.statusLine.Some? <==> Truthy(saveStatus)
      ensures v.statusLine.Some? ==> v.statusLine.value.text == saveStatus.value
      ensures v == RenderAsWritten().(statusLine := v.statusLine)
      ensures |generatedTracks| > 0 ==> v == RenderAsWritten()
    {
      RenderAsWritten().(statusLine :=
        if Truthy(saveStatus) then Some(StatusLine(saveStatus.value, ToneOf(saveStatus.value))) else None)
    }
  }

  /** What a failed generate request throws into the client's `catch`: the thrown value
      itself, or the `Error` made from a non-OK reply's message. */
  function GenerateFailure(reply: Call<GenerateRoute.Response<seq<GeneratedTrack>>>): (t: Thrown)
    requires reply.Throws? || !SpotifyService.IsOk(reply.value.status)
    ensures reply.Returns? ==> t == ErrorValue(RouteErrorMessage(reply.value.body))
    ensures reply.Throws? ==> t == reply.thrown
  {
    if reply.Throws? then reply.thrown else ErrorValue(RouteErrorMessage(reply.value.body))
  }

  /** As written, a failed generation shows nothing, whether the request threw or the
      route answered with an error status: the tracks are cleared before the failure
      status is set, and the status is only rendered next to tracks. */
  method GenerateFailureHiddenAsWritten(token: Option<string>, profile: Option<SpotifyService.UserProfile>,
                                        prompt: string, reply: Call<GenerateRoute.Response<seq<GeneratedTrack>>>)
    returns (status: Option<string>, v: GeneratorPanel)
    requires prompt != ""
    requires reply.Throws? || !SpotifyService.IsOk(reply.value.status)
    ensures status == Some(FailureStatus(GenerateFailure(reply)))
    ensures v.statusLine.None? && v.errorLine.None? && v.trackList.None? && !v.generateDisabled
  {
    var g := new AIPlaylistGenerator(token, profile);
    g.SetPrompt(prompt);
    var _ := g.HandleGenerate(reply);
    status := g.saveStatus;
    v := g.RenderAsWritten();
  }

  /** With the status rendered on its own, the same failed generation shows its status,
      in red unless a value other than an `Error` was thrown. */
  method GenerateFailureShown(token: Option<string>, profile: Option<SpotifyService.UserProfile>,
                              prompt: string, reply: Call<GenerateRoute.Response<seq<GeneratedTrack>>>)
    returns (v: GeneratorPanel)
    requires prompt != ""
    requires reply.Throws? || !SpotifyService.IsOk(reply.value.status)
    ensures v.statusLine.Some? && v.statusLine.value.text == FailureStatus(GenerateFailure(reply))
    ensures v.statusLine.value.tone == ErrorTone <==> reply.Returns? || reply.thrown.ErrorValue?
  {
    var g := new AIPlaylistGenerator(token, profile);
    g.SetPrompt(prompt);
    var _ := g.HandleGenerate(reply);
    FailureTone(GenerateFailure(reply), "");
    v := g.Render();
  }

  /** As written, a successful save also hides its own success message, since it clears
      the tracks when it sets the message. With the status rendered on its own, the
      success message naming the playlist is shown, in green. */
  method SaveSuccessVisibility(token: string, profile: SpotifyService.UserProfile, prompt: string,
                               tracks: seq<GeneratedTrack>, name: string,
                               search: seq<Call<Option<string>>>, playlistId: string)
    returns (asWritten: GeneratorPanel, corrected: GeneratorPanel)
    requires token != "" && prompt != "" && playlistId != "" && tracks != []
    requires |search| == |tracks| && AwaitAll(search).Returns? && |ResolvedUris(search)| > 0
    ensures asWritten.statusLine.None? && asWritten.trackList.None?
    ensures corrected.statusLine == Some(StatusLine(StatusSuccess(name), SuccessTone))
  {
    var g := new AIPlaylistGenerator(Some(token), Some(profile));
    g.SetPrompt(prompt);
    var _ := g.HandleGenerate(Returns(GenerateRoute.Response(200, GenerateRoute.JsonBody(tracks))));
    g.OpenSaveModal();
    SavedIff(token, profile.id, name, tracks, search, Returns(Some(playlistId)), Returns(true));
    var _, _ := g.HandleSavePlaylist(name, search, Returns(Some(playlistId)), Returns(true));
    FailureTone(OtherValue, name);
    assert StatusSuccess(name) != "";
    asWritten := g.RenderAsWritten();
    corrected := g.Render();
  }
}

/** The `POST /api/generate` route handler (src/app/api/generate/route.ts): it checks the
    Gemini API key and then the prompt, wraps the prompt in a fixed instruction, asks the
    model, pulls the JSON array out of the model's free text and maps every failure to a
    500 response whose error starts with "Server Error: ".

    The HTTP exchange with the model is an input (`Upstream`), and `JSON.parse` is the
    function parameter `parse`; the body of the response the route sends is kept as a
    value (`Body`), not as serialised bytes. */
module GenerateRoute {
  import opened Wrappers
  import opened Strings

  const ModelName := "gemini-2.5-flash"
  const ApiUrlPrefix := "https://generativelanguage.googleapis.com/v1beta/models/" + ModelName + ":generateContent?key="

  const MsgNoKey := "Gemini API key not configured."
  const MsgNoPrompt := "Prompt is required."
  const MsgRequestFailed := "Request to Google API failed"
  const MsgNoText := "AI did not return any text content."
  const MsgNoArray := "AI did not return a valid JSON array."
  const ServerErrorPrefix := "Server Error: "

  /** The instruction text before and after the user's prompt. */
  const TemplateHead := "You are an expert music curator. Based on the following prompt, create a playlist of 10 songs.\n  Prompt: " + "\""
  const TemplateTail := "\"" + "\n  For each song, provide the track name, album, album art or artist picture and the artist's name.\n  Respond with ONLY a valid JSON array of objects in the following format:\n  [{\"song\": \"Song Name 1\", \"artist\": \"Artist Name 1\"}, ...]"

  /** The URL the route posts to, carrying the key as a query parameter. */
  function ApiUrl(apiKey: string): string {
    ApiUrlPrefix + apiKey
  }

  /** The text sent to the model: the user's prompt, verbatim and in quotes, inside the template. */
  function FullPrompt(prompt: string): (full: string)
    ensures |full| == |TemplateHead| + |prompt| + |TemplateTail|
    ensures StartsWith(full, TemplateHead)
  {
    TemplateHead + prompt + TemplateTail
  }

  /** Reads the user's prompt back out of a composed instruction. */
  function PromptOf(full: string): string
    requires |TemplateHead| + |TemplateTail| <= |full|
  {
    full[|TemplateHead|..|full| - |TemplateTail|]
  }

  /** The composed text opens with the template head, quotes the prompt verbatim at a
      fixed offset and closes with the template tail; the prompt can be read back out. */
  lemma FullPromptQuotesPrompt(prompt: string)
    ensures var full, i := FullPrompt(prompt), |TemplateHead|;
            StartsWith(full, TemplateHead)
            && full[i - 1] == '"' && full[i..i + |prompt|] == prompt && full[i + |prompt|] == '"'
            && full[i + |prompt|..] == TemplateTail
            && |TemplateHead| + |TemplateTail| <= |full| && PromptOf(full) == prompt
  {
    var full, i := FullPrompt(prompt), |TemplateHead|;
    assert full[..i] == TemplateHead;
    assert full[i..i + |prompt|] == prompt;
    assert full[i + |prompt|..] == TemplateTail;
    assert full[i + |prompt|] == TemplateTail[0] == '"';
    assert full[i - 1] == TemplateHead[i - 1] == '"';
  }

  /** Different prompts give different instructions. */
  lemma FullPromptInjective(p: string, q: string)
    requires FullPrompt(p) == FullPrompt(q)
    ensures p == q
  {
    FullPromptQuotesPrompt(p);
    FullPromptQuotesPrompt(q);
  }

  /** `text[i]` is a `[` and a later `text[j]` is a `]`: the regex `/\[[\s\S]*\]/` can
      match `text[i..j + 1]`. */
  ghost predicate BracketPair(text: string, i: int, j: int) {
    0 <= i < j < |text| && text[i] == '[' && text[j] == ']'
  }

  /** The match a JavaScript regex search returns: the leftmost start, and from there the
      longest (greedy) match. */
  ghost predicate LeftmostLongest(text: string, i: int, j: int) {
    BracketPair(text, i, j)
    && forall a, b :: BracketPair(text, a, b) ==> i <= a && (a == i ==> b <= j)
  }

  /** `text.match(/\[[\s\S]*\]/)?.[0]`: from the first `[` to the last `]`, inclusive. */
  function ExtractJsonArray(text: string): (m: Option<string>)
    ensures m.None? <==> forall a, b :: !BracketPair(text, a, b)
    ensures m.Some? ==> exists i, j :: LeftmostLongest(text, i, j) && m.value == text[i..j + 1]
  {
    var i := FirstIndex(text, '[');
    var j := LastIndex(text, ']');
    if i < j then
      assert LeftmostLongest(text, i, j);
      Some(text[i..j + 1])
    else
      None
  }

  /** The match is unique: whichever leftmost-longest pair exists, extraction returns it. */
  lemma ExtractIsTheRegexMatch(text: string, i: int, j: int)
    requires LeftmostLongest(text, i, j)
    ensures ExtractJsonArray(text) == Some(text[i..j + 1])
  {
    assert ExtractJsonArray(text).Some?;
    var a, b :| LeftmostLongest(text, a, b) && ExtractJsonArray(text).value == text[a..b + 1];
    assert a == i && b == j;
  }

  /** Prose around the array is ignored: with no `[` before it and no `]` after it, the
      array is recovered exactly. */
  lemma ExtractIgnoresProse(before: string, arr: string, after: string)
    requires |arr| >= 2 && arr[0] == '[' && arr[|arr| - 1] == ']'
    requires '[' !in before && ']' !in after
    ensures ExtractJsonArray(before + arr + after) == Some(arr)
  {
    var text := before + arr + after;
    var i, j := |before|, |before| + |arr| - 1;
    assert text[i] == arr[0] && text[j] == arr[|arr| - 1];
    forall a, b | BracketPair(text, a, b)
      ensures i <= a && (a == i ==> b <= j)
    {
    }
    assert text[i..j + 1] == arr;
    ExtractIsTheRegexMatch(text, i, j);
  }

  /** Matching the match again returns it unchanged. */
  lemma ExtractIdempotent(text: string)
    requires ExtractJsonArray(text).Some?
    ensures ExtractJsonArray(ExtractJsonArray(text).value) == ExtractJsonArray(text)
  {
    var m := ExtractJsonArray(text).value;
    ExtractIgnoresProse("", m, "");
    assert "" + m + "" == m;
  }

  /** What the model's endpoint did, as far as the route can observe it. */
  datatype Upstream =
    | Threw(message: string)                 // fetch rejected, or reading the reply threw
    | NotOk(errorMessage: Option<string>)    // non-2xx; the reply's `error.message`
    | Answered(text: Option<string>)         // 2xx; `candidates[0]?.content?.parts[0]?.text`

  /** `JSON.parse` either returns a value or throws a `SyntaxError`. */
  datatype Parsed<J> = Parsed(value: J) | SyntaxError(message: string)

  /** The JSON body the route sends: an `{ error }` object or the parsed array. */
  datatype Body<J> = ErrorBody(error: string) | JsonBody(value: J)

  datatype Response<J> = Response(status: int, body: Body<J>)

  /** The one outbound request the route may make. */
  datatype ModelRequest = ModelRequest(url: string, text: string)

  /** The response together with the outbound request, if one was made. */
  datatype RouteRun<J> = RouteRun(response: Response<J>, request: Option<ModelRequest>)

  /** The `try` block of the route: the parsed array, or the message of what it threw. */
  function CallModel<J>(upstream: Upstream, parse: string -> Parsed<J>): (r: Result<J, string>)
    ensures r.Success? <==>
              upstream.Answered? && Truthy(upstream.text) && ExtractJsonArray(upstream.text.value).Some?
              && parse(ExtractJsonArray(upstream.text.value).value).Parsed?
    ensures r.Success? ==> parse(ExtractJsonArray(upstream.text.value).value) == Parsed(r.value)
    ensures upstream.Threw? ==> r == Failure(upstream.message)
  {
    match upstream
    case Threw(message) => Failure(message)
    case NotOk(message) => Failure(if Truthy(message) then message.value else MsgRequestFailed)
    case Answered(text) =>
      if !Truthy(text) then Failure(MsgNoText)
      else
        match ExtractJsonArray(text.value)
        case None => Failure(MsgNoArray)
        case Some(m) =>
          match parse(m)
          case Parsed(v) => Success(v)
          case SyntaxError(e) => Failure(e)
  }

  /** The route handler. */
  function Post<J>(apiKey: Option<string>, prompt: Option<string>, upstream: Upstream,
                   parse: string -> Parsed<J>): (r: RouteRun<J>)
    ensures !Truthy(apiKey) ==> r == RouteRun(Response(500, ErrorBody(MsgNoKey)), None)
    ensures Truthy(apiKey) && !Truthy(prompt) ==> r == RouteRun(Response(400, ErrorBody(MsgNoPrompt)), None)
    ensures r.request.Some? <==> Truthy(apiKey) && Truthy(prompt)
    ensures r.request.Some? ==> r.request.value == ModelRequest(ApiUrl(apiKey.value), FullPrompt(prompt.value))
    ensures r.response.status == 200 || r.response.status == 400 || r.response.status == 500
    ensures r.response.status == 200 <==> r.response.body.JsonBody?
    ensures r.response.status == 200 ==>
              r.request.Some? && upstream.Answered? && Truthy(upstream.text)
              && ExtractJsonArray(upstream.text.value).Some?
              && parse(ExtractJsonArray(upstream.text.value).value) == Parsed(r.response.body.value)
    ensures r.request.Some? && r.response.status != 200 ==>
              r.response.status == 500 && CallModel(upstream, parse).Failure?
              && r.response.body == ErrorBody(ServerErrorPrefix + CallModel(upstream, parse).error)
  {
    if !Truthy(apiKey) then
      RouteRun(Response(500, ErrorBody(MsgNoKey)), None)
    else if !Truthy(prompt) then
      RouteRun(Response(400, ErrorBody(MsgNoPrompt)), None)
    else
      var request := Some(ModelRequest(ApiUrl(apiKey.value), FullPrompt(prompt.value)));
      match CallModel(upstream, parse)
      case Success(v) => RouteRun(Response(200, JsonBody(v)), request)
      case Failure(e) => RouteRun(Response(500, ErrorBody(ServerErrorPrefix + e)), request)
  }

  /** After the guards pass, every failure the route can meet ends as a 500 whose error is
      "Server Error: " followed by the message of that failure. */
  lemma FailureMessages<J>(apiKey: string, prompt: string, upstream: Upstream, parse: string -> Parsed<J>)
    requires apiKey != "" && prompt != ""
    ensures var body := Post(Some(apiKey), Some(prompt), upstream, parse).response.body;
      && (upstream.Threw? ==> body == ErrorBody(ServerErrorPrefix + upstream.message))
      && (upstream.NotOk? && Truthy(upstream.errorMessage) ==>
            body == ErrorBody(ServerErrorPrefix + upstream.errorMessage.value))
      && (upstream.NotOk? && !Truthy(upstream.errorMessage) ==>
            body == ErrorBody(ServerErrorPrefix + MsgRequestFailed))
      && (upstream.Answered? && !Truthy(upstream.text) ==> body == ErrorBody(ServerErrorPrefix + MsgNoText))
      && (upstream.Answered? && Truthy(upstream.text)
          && (forall a, b :: !BracketPair(upstream.text.value, a, b)) ==>
            body == ErrorBody(ServerErrorPrefix + MsgNoArray))
      && (upstream.Answered? && Truthy(upstream.text) && ExtractJsonArray(upstream.text.value).Some?
          && parse(ExtractJsonArray(upstream.text.value).value).SyntaxError? ==>
            body == ErrorBody(ServerErrorPrefix + parse(ExtractJsonArray(upstream.text.value).value).message))
  {
  }

  /** A reply whose text holds the array inside commentary: the route parses exactly that
      array and answers 200 with what `JSON.parse` returned. */
  lemma ProseWrappedArray<J>(apiKey: string, prompt: string, before: string, arr: string, after: string,
                             parse: string -> Parsed<J>, v: J)
    requires apiKey != "" && prompt != ""
    requires |arr| >= 2 && arr[0] == '[' && arr[|arr| - 1] == ']'
    requires '[' !in before && ']' !in after
    requires parse(arr) == Parsed(v)
    ensures Post(Some(apiKey), Some(prompt), Answered(Some(before + arr + after)), parse).response
            == Response(200, JsonBody(v))
  {
    ExtractIgnoresProse(before, arr, after);
  }
}

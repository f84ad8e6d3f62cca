/** The implicit-grant handshake helpers of src/lib/spotify.ts: reading the access token
    out of the URL fragment the authorisation server redirects to, and building the
    authorisation URL. The browser's `window` is the flag `hasWindow` plus the fragment
    `hash`; `process.env` values are parameters; `URLSearchParams` serialisation is the
    function parameter `encode`, applied to the ordered parameter list. */
module SpotifyAuth {
  import opened Wrappers
  import opened Strings

  const AuthEndpoint := "https://accounts.spotify.com/authorize"

  /** The permissions requested, in order. */
  const Scopes := ["user-read-private", "user-read-email", "user-top-read",
                   "playlist-modify-public", "playlist-modify-private"]

  const TokenKey := "access_token"

  /** `segments.findIndex(s => s.startsWith(p))`, written as `|segments|` when none does. */
  function FirstStartingWith(segments: seq<string>, p: string): (k: nat)
    ensures k <= |segments|
    ensures k < |segments| ==> StartsWith(segments[k], p)
    ensures forall m :: 0 <= m < k ==> !StartsWith(segments[m], p)
  {
    if |segments| == 0 then 0
    else if StartsWith(segments[0], p) then 0
    else 1 + FirstStartingWith(segments[1..], p)
  }

  /** `segment.split("=")[1] || null`: the text between the first and second `=`,
      or null when there is no `=` or that text is empty. */
  function ValueOf(segment: string): (r: Option<string>)
    ensures r.Some? ==> r.value != "" && '=' !in r.value
    ensures r.Some? ==> forall ch :: ch in r.value ==> ch in segment
  {
    var parts := Split(segment, '=');
    if |parts| >= 2 && parts[1] != "" then Some(parts[1]) else None
  }

  /** `getTokenFromUrl()`: drop the fragment's first character, split on `&`, take the
      first segment starting with "access_token" and return its value. */
  function GetTokenFromUrl(hasWindow: bool, hash: string): (r: Option<string>)
    ensures !hasWindow || hash == "" ==> r == None
    ensures r.Some? ==> r.value != "" && '&' !in r.value && '=' !in r.value
    ensures hasWindow && hash != "" && (forall seg :: seg in Split(hash[1..], '&') ==> !StartsWith(seg, TokenKey)) ==>
              r == None
  {
    if !hasWindow || hash == "" then None
    else
      var segments := Split(hash[1..], '&');
      var k := FirstStartingWith(segments, TokenKey);
      if k == |segments| then None else ValueOf(segments[k])
  }

  /** A segment `key=value…` whose key has no `=`: its value is everything up to the next
      `=` (so a value holding `=` is cut there), and an empty value reads as null. */
  lemma ValueOfPair(key: string, value: string, more: string)
    requires '=' !in key && '=' !in value
    requires more == "" || more[0] == '='
    ensures ValueOf(key + "=" + value + more) == if value == "" then None else Some(value)
  {
    var tail := value + more;
    assert key + "=" + value + more == key + ['='] + tail;
    SplitAtFirst(key, '=', tail);
    var parts := Split(key + "=" + value + more, '=');
    assert parts == [key] + Split(tail, '=');
    FirstPieceBeforeSeparator(value, more);
    assert parts[1] == value;
  }

  lemma FirstPieceBeforeSeparator(value: string, more: string)
    requires '=' !in value
    requires more == "" || more[0] == '='
    ensures Split(value + more, '=')[0] == value
  {
    var s := value + more;
    var i := FirstIndex(s, '=');
    assert forall k :: 0 <= k < |value| ==> s[k] == value[k] && s[k] != '=';
    assert more != "" ==> s[|value|] == '=';
    assert i == |value|;
    assert s[..i] == value;
  }

  /** A segment without any `=` has no value. */
  lemma ValueOfWithoutEquals(segment: string)
    requires '=' !in segment
    ensures ValueOf(segment) == None
  {
    SplitWithoutSeparator(segment, '=');
  }

  /** When the first segment of the fragment starts with "access_token", the result is
      that segment's value, whatever the later segments hold. */
  lemma TokenFromFirstSegment(first: char, segment: string, rest: string)
    requires '&' !in segment && StartsWith(segment, TokenKey)
    requires rest == "" || rest[0] == '&'
    ensures GetTokenFromUrl(true, [first] + segment + rest) == ValueOf(segment)
  {
    var hash := [first] + segment + rest;
    assert hash[1..] == segment + rest;
    if rest == "" {
      assert segment + rest == segment;
      SplitWithoutSeparator(segment, '&');
    } else {
      assert segment + rest == segment + ['&'] + rest[1..];
      SplitAtFirst(segment, '&', rest[1..]);
    }
  }

  /** A leading segment that does not start with "access_token" is skipped. */
  lemma TokenSkipsOtherSegment(first: char, segment: string, rest: string)
    requires '&' !in segment && !StartsWith(segment, TokenKey)
    ensures GetTokenFromUrl(true, [first] + segment + "&" + rest) == GetTokenFromUrl(true, [first] + rest)
  {
    var hash := [first] + segment + "&" + rest;
    assert hash[1..] == segment + ['&'] + rest;
    SplitAtFirst(segment, '&', rest);
    assert ([first] + rest)[1..] == rest;
    var segments := Split(rest, '&');
    assert FirstStartingWith([segment] + segments, TokenKey) == 1 + FirstStartingWith(segments, TokenKey) by {
      assert ([segment] + segments)[1..] == segments;
    }
  }

  /** The redirect the authorisation server sends, `#access_token=<t>&…`, yields `t` for
      every non-empty token free of `&` and `=`. */
  lemma TokenRoundTrip(token: string, rest: string)
    requires token != "" && '&' !in token && '=' !in token
    requires rest == "" || rest[0] == '&'
    ensures GetTokenFromUrl(true, "#access_token=" + token + rest) == Some(token)
  {
    assert TokenKey[..|TokenKey|] == TokenKey;
    assert '=' !in TokenKey && '&' !in TokenKey;
    assert "#access_token=" + token + rest == ['#'] + TokenKey + "=" + token + "" + rest;
    TokenOfLeadingPair('#', TokenKey, token, "", rest);
  }

  /** The general case: the first segment is `key=value…` for a key that merely starts
      with "access_token" (a longer key is taken too); the value is cut at its next `=`
      and reads as null when empty. */
  lemma TokenOfLeadingPair(first: char, key: string, value: string, more: string, rest: string)
    requires StartsWith(key, TokenKey) && '=' !in key && '=' !in value
    requires '&' !in key && '&' !in value && '&' !in more
    requires more == "" || more[0] == '='
    requires rest == "" || rest[0] == '&'
    ensures GetTokenFromUrl(true, [first] + key + "=" + value + more + rest)
            == if value == "" then None else Some(value)
  {
    var segment := key + "=" + value + more;
    assert segment[..|TokenKey|] == key[..|TokenKey|];
    assert '&' !in segment;
    assert [first] + key + "=" + value + more + rest == [first] + segment + rest;
    TokenFromFirstSegment(first, segment, rest);
    ValueOfPair(key, value, more);
  }

  /** A leading token segment without any `=` yields null. */
  lemma TokenWithoutValue(first: char, segment: string, rest: string)
    requires StartsWith(segment, TokenKey) && '=' !in segment && '&' !in segment
    requires rest == "" || rest[0] == '&'
    ensures GetTokenFromUrl(true, [first] + segment + rest) == None
  {
    TokenFromFirstSegment(first, segment, rest);
    ValueOfWithoutEquals(segment);
  }

  /** The `scope` parameter: the scopes joined by single spaces. */
  function ScopeParam(): string {
    Join(Scopes, ' ')
  }

  /** The query parameters of the authorisation URL, in insertion order: five pairs with
      five different keys. */
  function LoginParams(clientId: string, redirectUri: string): (params: seq<(string, string)>)
    ensures |params| == 5
    ensures [params[0].0, params[1].0, params[2].0, params[3].0, params[4].0]
            == ["client_id", "redirect_uri", "scope", "response_type", "show_dialog"]
    ensures forall i, j :: 0 <= i < j < |params| ==> params[i].0 != params[j].0
  {
    assert |"client_id"| == 9 && |"redirect_uri"| == 12 && |"scope"| == 5;
    assert |"response_type"| == 13 && |"show_dialog"| == 11;
    [("client_id", clientId), ("redirect_uri", redirectUri), ("scope", ScopeParam()),
     ("response_type", "token"), ("show_dialog", "true")]
  }

  /** `params.get(key)`: the value of the first pair with that key. */
  function Lookup(params: seq<(string, string)>, key: string): (r: Option<string>)
    ensures r.Some? <==> exists k :: 0 <= k < |params| && params[k].0 == key
    ensures r.Some? ==> exists k :: 0 <= k < |params| && params[k] == (key, r.value)
                                    && forall m :: 0 <= m < k ==> params[m].0 != key
  {
    if |params| == 0 then None
    else if params[0].0 == key then Some(params[0].1)
    else
      var r := Lookup(params[1..], key);
      assert forall k :: 0 <= k < |params| - 1 ==> params[1..][k] == params[k + 1];
      if r.Some? then
        var k :| 0 <= k < |params[1..]| && params[1..][k] == (key, r.value)
                 && forall m :: 0 <= m < k ==> params[1..][m].0 != key;
        assert params[k + 1] == (key, r.value) && forall m :: 0 <= m < k + 1 ==> params[m].0 != key;
        r
      else r
  }

  /** `getLoginUrl()`: "#" exactly when the client id or the redirect URI is missing or
      empty; otherwise the authorisation endpoint followed by `?` and the encoded parameters. */
  function GetLoginUrl(clientId: Option<string>, redirectUri: Option<string>,
                       encode: seq<(string, string)> -> string): (url: string)
    ensures url == "#" <==> !Truthy(clientId) || !Truthy(redirectUri)
    ensures Truthy(clientId) && Truthy(redirectUri) ==>
              StartsWith(url, "https://accounts.spotify.com/authorize?")
              && url[|AuthEndpoint| + 1..] == encode(LoginParams(clientId.value, redirectUri.value))
  {
    if !Truthy(clientId) || !Truthy(redirectUri) then "#"
    else
      var url := AuthEndpoint + "?" + encode(LoginParams(clientId.value, redirectUri.value));
      assert url[0] == 'h';
      assert url[..|AuthEndpoint| + 1] == AuthEndpoint + "?";
      url
  }

  /** The five parameters carry the credentials given, an implicit-grant `response_type`
      and a forced consent dialog, and the scope list. */
  lemma LoginParamsContent(clientId: string, redirectUri: string)
    ensures var params := LoginParams(clientId, redirectUri);
      && |params| == 5
      && Lookup(params, "client_id") == Some(clientId)
      && Lookup(params, "redirect_uri") == Some(redirectUri)
      && Lookup(params, "scope") == Some(ScopeParam())
      && Lookup(params, "response_type") == Some("token")
      && Lookup(params, "show_dialog") == Some("true")
  {
    var params := LoginParams(clientId, redirectUri);
    assert params[1..][1..] == params[2..];
    assert params[2..][1..] == params[3..];
    assert params[3..][1..] == params[4..];
    assert Lookup(params[2..], "scope") == Some(ScopeParam());
    assert Lookup(params, "response_type") == Lookup(params[1..], "response_type")
        == Lookup(params[2..], "response_type") == Lookup(params[3..], "response_type") == Some("token");
    assert Lookup(params, "show_dialog") == Lookup(params[1..], "show_dialog")
        == Lookup(params[2..], "show_dialog") == Lookup(params[3..], "show_dialog")
        == Lookup(params[4..], "show_dialog") == Some("true");
  }

  /** The scope parameter splits back into the five scopes, in their listed order. */
  lemma ScopeRoundTrip()
    ensures Split(ScopeParam(), ' ') == Scopes
  {
    assert forall k :: 0 <= k < |Scopes| ==> ' ' !in Scopes[k];
    SplitJoin(Scopes, ' ');
  }
}

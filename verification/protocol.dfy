/** googlemusic/protocol.py: how the client talks to the service. It covers
    the ClientLogin form and the classification of its reply, the
    IssueAuthToken / TokenAuth exchange that obtains the `xt` cookie, the
    shape of every API call (`sessionId` injected, payload wrapped under
    `json`, the `xt` cookie quoted into the URL) and the rule each operation
    applies to the service's answer. */
module Protocol {

  import opened Results
  import opened Text
  import opened PyJson
  import opened Utils
  import opened Request

  const ServiceName: string := "sj"
  const ServiceEndpoint: string := "https://play.google.com/music/services"
  const LoginEndpoint: string := "https://www.google.com/accounts/ClientLogin"
  const PlayEndpoint: string := "https://play.google.com/music/play"
  const GooglePlayUrl: string := "https://play.google.com/music/listen?u=0&hl=en"
  const IssueAuthUrl: string := "https://www.google.com/accounts/IssueAuthToken"
  const IssueAuthServiceName: string := "gaia"
  const TokenAuthUrl: string := "https://www.google.com/accounts/TokenAuth"
  /** The `source` login hands to TokenAuth. */
  const LoginSource: string := "jumper"

  /** The headers of the ClientLogin request (no charset on the content type). */
  const LoginHeaders: map<string, string> :=
    map["Accept" := "*/*", "Content-Type" := "application/x-www-form-urlencoded"]

  /** The headers both desktop-client requests of `authenticate` carry. */
  const ManagerFormHeaders: map<string, string> := ManagerHeaders(map["Content-Type" := FormContentType])

  // ---------------------------------------------------------------------
  // Login
  // ---------------------------------------------------------------------

  /** The ClientLogin form: exactly the account, the password, the service
      and the account type. */
  function LoginForm(username: string, password: string): (r: map<string, Json>)
    ensures r.Keys == {"Email", "Passwd", "service", "accountType"}
    ensures r["Email"] == Str(username) && r["Passwd"] == Str(password)
    ensures r["service"] == Str(ServiceName) && r["accountType"] == Str("GOOGLE")
  {
    map["Email" := Str(username), "Passwd" := Str(password),
        "service" := Str(ServiceName), "accountType" := Str("GOOGLE")]
  }

  /** The request login sends. */
  function LoginRequest(username: string, password: string): HttpRequest {
    HttpRequest(Address(LoginEndpoint), FormEncoded(LoginForm(username, password)), WebHeaders(LoginHeaders, false))
  }

  datatype AuthTokens = AuthTokens(sid: string, lsid: string, auth: string)

  /** Classifies the ClientLogin reply. Without `Auth=` anywhere the login
      failed and the error carries the reply. Otherwise SID is the rest of
      the first line that starts with `SID=`, and LSID and Auth the rest of
      the line after the first `LSID=` and `Auth=`; a missing SID or LSID
      is an error. */
  function LoginTokens(text: string): (r: Result<AuthTokens>)
    ensures !Occurs("Auth=", text) ==> r == Err(AuthenticationFailed(text))
    ensures Occurs("Auth=", text) ==>
      (r.Ok? <==> GetFromText(AtLineStart("SID="), text).Ok? && GetFromText(Anywhere("LSID="), text).Ok?)
    ensures Occurs("Auth=", text) && r.Err? ==> r.error == NoMatch
    ensures r.Ok? ==>
      r.value == AuthTokens(GetFromText(AtLineStart("SID="), text).value,
                            GetFromText(Anywhere("LSID="), text).value,
                            GetFromText(Anywhere("Auth="), text).value)
  {
    if !Occurs("Auth=", text) then Err(AuthenticationFailed(text))
    else
      var sid :- GetFromText(AtLineStart("SID="), text);
      var lsid :- GetFromText(Anywhere("LSID="), text);
      AuthFound(text);
      Ok(AuthTokens(sid, lsid, GetFromText(Anywhere("Auth="), text).value))
  }

  /** Once `Auth=` occurs in the reply, extracting Auth cannot fail. */
  lemma AuthFound(text: string)
    requires Occurs("Auth=", text)
    ensures GetFromText(Anywhere("Auth="), text).Ok?
  {
    var p := FirstMatch("Auth=", text, false).value;
    assert MatchesAt("Auth=", text, p, false);
  }

  /** The key-by-key stores of login, given what each extraction yielded:
      the first failing extraction stops them. */
  function StoredTokens(before: map<string, string>, sid: Result<string>, lsid: Result<string>, auth: string)
    : (r: map<string, string>)
    ensures forall k :: k != "SID" && k != "LSID" && k != "Auth" ==> (k in r <==> k in before)
    ensures forall k :: k in before && k != "SID" && k != "LSID" && k != "Auth" ==> r[k] == before[k]
    ensures sid.Err? ==> r == before
    ensures sid.Ok? ==> "SID" in r && r["SID"] == sid.value
    ensures sid.Ok? && lsid.Err? ==> forall k :: k != "SID" ==> (k in r <==> k in before)
    ensures sid.Ok? && lsid.Err? ==> forall k :: k in before && k != "SID" ==> r[k] == before[k]
    ensures sid.Ok? && lsid.Ok? ==> "LSID" in r && r["LSID"] == lsid.value && "Auth" in r && r["Auth"] == auth
  {
    match sid
    case Err(_) => before
    case Ok(s) =>
      match lsid
      case Err(_) => before["SID" := s]
      case Ok(l) => before["SID" := s]["LSID" := l]["Auth" := auth]
  }

  /** `auth_data` after a login reply: SID, LSID and Auth are stored one key
      at a time, so a reply whose LSID is missing leaves only SID stored. */
  function AuthDataAfter(before: map<string, string>, text: string): (r: map<string, string>)
    ensures !Occurs("Auth=", text) ==> r == before
    ensures forall k :: k != "SID" && k != "LSID" && k != "Auth" ==> (k in r <==> k in before)
    ensures forall k :: k in before && k != "SID" && k != "LSID" && k != "Auth" ==> r[k] == before[k]
  {
    if !Occurs("Auth=", text) then before
    else
      AuthFound(text);
      StoredTokens(before, GetFromText(AtLineStart("SID="), text), GetFromText(Anywhere("LSID="), text),
                   GetFromText(Anywhere("Auth="), text).value)
  }

  /** A reply carrying all three tokens stores each of them. */
  lemma AuthDataStored(before: map<string, string>, text: string)
    requires LoginTokens(text).Ok?
    ensures var t := LoginTokens(text).value;
      AuthDataAfter(before, text) == before["SID" := t.sid]["LSID" := t.lsid]["Auth" := t.auth]
  {
  }

  /** A reply with `Auth=` whose tokens are not all there: without a `SID=`
      line nothing is stored; with SID but no LSID, SID alone has already
      been overwritten. Either way login fails with NoMatch. */
  lemma AuthDataPartial(before: map<string, string>, text: string)
    requires Occurs("Auth=", text)
    ensures GetFromText(AtLineStart("SID="), text).Err? ==>
      AuthDataAfter(before, text) == before && LoginTokens(text) == Err(NoMatch)
    ensures GetFromText(AtLineStart("SID="), text).Ok? && GetFromText(Anywhere("LSID="), text).Err? ==>
      AuthDataAfter(before, text) == before["SID" := GetFromText(AtLineStart("SID="), text).value]
      && LoginTokens(text) == Err(NoMatch)
  {
  }

  // ---------------------------------------------------------------------
  // IssueAuthToken and TokenAuth
  // ---------------------------------------------------------------------

  /** The IssueAuthToken form. */
  function IssueAuthForm(sid: string, lsid: string): map<string, Json> {
    map["SID" := Str(sid), "LSID" := Str(lsid), "service" := Str(IssueAuthServiceName)]
  }

  function IssueAuthRequest(sid: string, lsid: string): HttpRequest {
    HttpRequest(Address(IssueAuthUrl), FormEncoded(IssueAuthForm(sid, lsid)), ManagerFormHeaders)
  }

  /** The TokenAuth query: always `auth`, `service` and `continue`, and
      `source` only when a non-empty one is given. */
  function TokenAuthParams(issue: string, service: string, redirect: string, source: Option<string>): (r: map<string, string>)
    ensures r.Keys == {"auth", "service", "continue"} + (if source.Some? && source.value != "" then {"source"} else {})
    ensures r["auth"] == issue && r["service"] == service && r["continue"] == redirect
    ensures "source" in r ==> r["source"] == source.value
  {
    var always := map["auth" := issue, "service" := service, "continue" := redirect];
    if source.Some? && source.value != "" then always["source" := source.value] else always
  }

  function TokenAuthRequest(issue: string, service: string, redirect: string, source: Option<string>): HttpRequest {
    HttpRequest(WithQuery(TokenAuthUrl, TokenAuthParams(issue, service, redirect, source)), NoBody, ManagerFormHeaders)
  }

  /** The issue token: the IssueAuthToken reply without trailing whitespace. */
  function IssueToken(text: string): (r: Result<string>)
    ensures r.Ok? && r.value <= text
    ensures r.value == [] || !IsSpace(r.value[|r.value| - 1])
    ensures forall i :: |r.value| <= i < |text| ==> IsSpace(text[i])
  {
    Ok(RStrip(text))
  }

  class MusicManagerClient {
    const cookies: CookieJar
    const baseRequest: MusicManagerRequest

    constructor (cookies: CookieJar, net: Network)
      ensures this.cookies == cookies && baseRequest.cookies == cookies && baseRequest.net == net
    {
      this.cookies := cookies;
      baseRequest := new MusicManagerRequest(cookies, net);
    }

    /** Asks IssueAuthToken for a token with the session's SID and LSID. */
    method GetIssueAuth(authData: map<string, string>, headers: Dict<string>) returns (r: Result<string>)
      modifies baseRequest.net, headers
      ensures "SID" !in authData ==> r == Err(KeyMissing("SID")) && unchanged(baseRequest.net, headers)
      ensures "SID" in authData && "LSID" !in authData ==>
        r == Err(KeyMissing("LSID")) && unchanged(baseRequest.net, headers)
      ensures "SID" in authData && "LSID" in authData ==>
        baseRequest.net.sent == old(baseRequest.net.sent)
          + [HttpRequest(Address(IssueAuthUrl), FormEncoded(IssueAuthForm(authData["SID"], authData["LSID"])),
                         ManagerHeaders(old(headers.entries)))]
        && baseRequest.net.replies == AfterNext(old(baseRequest.net.replies))
        && headers.entries == (if |old(headers.entries)| > 0 then ManagerHeaders(old(headers.entries)) else old(headers.entries))
        && r == NextText(old(baseRequest.net.replies)).Then(IssueToken)
    {
      if "SID" !in authData {
        return Err(KeyMissing("SID"));
      }
      if "LSID" !in authData {
        return Err(KeyMissing("LSID"));
      }
      var body := IssueAuthForm(authData["SID"], authData["LSID"]);
      assert "SID" in body;
      var text :- baseRequest.Request(Address(IssueAuthUrl), Some(body), headers);
      r := IssueToken(text);
    }

    /** Obtains an issue token, then calls TokenAuth with it so that the
        reply sets the session cookies; both requests share one headers dict. */
    method Authenticate(authData: map<string, string>, service: string, redirect: string, source: Option<string>)
      returns (r: Result<string>)
      modifies baseRequest.net
      ensures "SID" !in authData || "LSID" !in authData ==>
        r == Err(KeyMissing(if "SID" !in authData then "SID" else "LSID")) && unchanged(baseRequest.net)
      ensures "SID" in authData && "LSID" in authData ==>
        var replies := old(baseRequest.net.replies);
        var issue := NextText(replies).Then(IssueToken);
        var first := old(baseRequest.net.sent) + [IssueAuthRequest(authData["SID"], authData["LSID"])];
        (issue.Err? ==>
          r == issue && baseRequest.net.sent == first && baseRequest.net.replies == AfterNext(replies))
        && (issue.Ok? ==>
          baseRequest.net.sent == first + [TokenAuthRequest(issue.value, service, redirect, source)]
          && baseRequest.net.replies == AfterNext(AfterNext(replies))
          && r == NextText(AfterNext(replies)))
    {
      var headers := new Dict(map["Content-Type" := FormContentType]);
      var issue :- GetIssueAuth(authData, headers);
      ManagerHeadersIdempotent(map["Content-Type" := FormContentType]);
      var params := TokenAuthParams(issue, service, redirect, source);
      r := baseRequest.Request(WithQuery(TokenAuthUrl, params), None, headers);
    }
  }

  // ---------------------------------------------------------------------
  // API calls
  // ---------------------------------------------------------------------

  /** The URL of API method `name`, with the already quoted `xt` cookie. */
  function ApiUrl(name: string, quotedXt: string): string {
    ServiceEndpoint + "/" + name + "?u=0&xt=" + quotedXt
  }

  /** The `xt` cookie as it goes into the URL: quoted. Quoting None raises
      TypeError, so a missing cookie is an error. */
  function XtForUrl(cookie: Option<string>): (r: Result<string>)
    ensures r.Ok? <==> cookie.Some?
    ensures r.Err? ==> r.error == WrongType
    ensures r.Ok? && IsBytes(cookie.value) ==> Unquote(r.value) == cookie.value
    ensures r.Ok? ==> forall i :: 0 <= i < |r.value| ==> SafeChar(r.value[i]) || r.value[i] == '%'
  {
    match cookie
    case None => Err(WrongType)
    case Some(v) =>
      if IsBytes(v) then UnquoteQuote(v); Ok(Quote(v)) else Ok(Quote(v))
  }

  /** The request an API call sends. */
  function ApiCall(name: string, payload: map<string, Json>, sessionId: string, quotedXt: string): HttpRequest {
    HttpRequest(Address(ApiUrl(name, quotedXt)),
                FormEncoded(map["json" := Object(payload["sessionId" := Str(sessionId)])]),
                WebHeaders(map["Content-Type" := FormContentType], true))
  }

  /** An API call's body has the single field `json`, which holds the caller's
      payload with `sessionId` set to the session's id; it is an XHR carrying
      the form content type. */
  lemma ApiCallBody(name: string, payload: map<string, Json>, sessionId: string, quotedXt: string)
    ensures var req := ApiCall(name, payload, sessionId, quotedXt);
      && req.body.FormEncoded? && req.body.fields.Keys == {"json"}
      && req.body.fields["json"].Object?
      && req.body.fields["json"].fields.Keys == payload.Keys + {"sessionId"}
      && req.body.fields["json"].fields["sessionId"] == Str(sessionId)
      && (forall k :: k in payload && k != "sessionId" ==> req.body.fields["json"].fields[k] == payload[k])
      && req.headers["Content-Type"] == FormContentType && req.headers["X-Requested-With"] == "XMLHttpRequest"
  {
  }

  /** An API call's URL names the method and ends with the quoted `xt`
      cookie, which unquotes back to the cookie. */
  lemma ApiCallUrl(name: string, payload: map<string, Json>, sessionId: string, xt: string)
    requires IsBytes(xt)
    ensures var url := ApiCall(name, payload, sessionId, Quote(xt)).url;
      var prefix := ServiceEndpoint + "/" + name + "?u=0&xt=";
      url.Address? && prefix <= url.text && Unquote(url.text[|prefix|..]) == xt
  {
    var prefix := ServiceEndpoint + "/" + name + "?u=0&xt=";
    assert ApiUrl(name, Quote(xt))[|prefix|..] == Quote(xt);
    UnquoteQuote(xt);
  }

  /** The requests an API call sends: none when the `xt` cookie is missing. */
  function ApiTraffic(name: string, payload: map<string, Json>, sessionId: string, xt: Result<string>): seq<HttpRequest> {
    if xt.Err? then [] else [ApiCall(name, payload, sessionId, xt.value)]
  }

  /** The replies left after an API call. */
  function ApiRemaining(xt: Result<string>, replies: seq<Reply>): seq<Reply> {
    if xt.Err? then replies else AfterNext(replies)
  }

  /** What an API call yields: the `xt` failure, or the decoded JSON reply. */
  function ApiReply(xt: Result<string>, replies: seq<Reply>, loads: string -> Option<Json>): Result<Json> {
    if xt.Err? then Err(xt.error) else NextJson(replies, loads)
  }

  /** The URL of a song's stream (protocol.py:193): the play endpoint with
      the query `?u=0&songid=<id>&pt=e`, from which the id text reads back. */
  function StreamUrl(songId: Json): (r: string)
    ensures |r| == |PlayEndpoint| + 12 + |PyStr(songId)| + 5
    ensures r[..|PlayEndpoint|] == PlayEndpoint
    ensures r[|PlayEndpoint|..|PlayEndpoint| + 12] == "?u=0&songid="
    ensures r[|PlayEndpoint| + 12..|r| - 5] == PyStr(songId)
    ensures r[|r| - 5..] == "&pt=e"
  {
    PlayEndpoint + "?u=0&songid=" + PyStr(songId) + "&pt=e"
  }

  /** The request get_stream_url sends: no body, no session id, no `xt`,
      only the XHR defaults as headers. */
  function StreamRequest(songId: Json): HttpRequest {
    HttpRequest(Address(StreamUrl(songId)), NoBody, WebHeaders(map[], true))
  }

  // ---------------------------------------------------------------------
  // What each operation accepts as an answer
  // ---------------------------------------------------------------------

  /** `if needed in result: return result[returned]` else RequestException. */
  function Gate(result: Json, needed: string, returned: string, operation: string): (r: Result<Json>)
    ensures result.Object? && needed in result.fields && returned in result.fields ==> r == Ok(result.fields[returned])
    ensures result.Object? && needed in result.fields && returned !in result.fields ==> r == Err(KeyMissing(returned))
    ensures result.Object? && needed !in result.fields ==> r == Err(RequestFailed(operation))
    ensures r.Ok? ==> result.Object?
  {
    var present :- Contains(result, needed);
    if present then Index(result, returned) else Err(RequestFailed(operation))
  }

  /** get_all_playlists: needs and returns `playlists`. */
  function PlaylistsOf(result: Json): (r: Result<Json>)
    ensures r.Ok? <==> result.Object? && "playlists" in result.fields
    ensures r.Ok? ==> r.value == result.fields["playlists"]
    ensures result.Object? && r.Err? ==> r.error == RequestFailed("get playlists")
  {
    Gate(result, "playlists", "playlists", "get playlists")
  }

  /** load_playlist: needs `playlistId`, but returns `playlist`. */
  function LoadedPlaylist(result: Json): (r: Result<Json>)
    ensures r.Ok? <==> result.Object? && "playlistId" in result.fields && "playlist" in result.fields
    ensures r.Ok? ==> r.value == result.fields["playlist"]
    ensures result.Object? && "playlistId" !in result.fields ==> r == Err(RequestFailed("load playlist"))
    ensures result.Object? && "playlistId" in result.fields && "playlist" !in result.fields ==> r == Err(KeyMissing("playlist"))
  {
    Gate(result, "playlistId", "playlist", "load playlist")
  }

  /** search: needs and returns `results`. */
  function SearchResults(result: Json): (r: Result<Json>)
    ensures r.Ok? <==> result.Object? && "results" in result.fields
    ensures r.Ok? ==> r.value == result.fields["results"]
    ensures result.Object? && r.Err? ==> r.error == RequestFailed("search")
  {
    Gate(result, "results", "results", "search")
  }

  /** get_stream_url: needs `url` and returns the whole answer. Any answer
      `in` accepts can pass: a list holding the string "url", or a string
      containing it. */
  function StreamInfo(result: Json): (r: Result<Json>)
    ensures result.Object? ==> (r.Ok? <==> "url" in result.fields)
    ensures r.Ok? ==> r.value == result
    ensures result.Object? && r.Err? ==> r.error == RequestFailed("get stream url")
  {
    var present :- Contains(result, "url");
    if present then Ok(result) else Err(RequestFailed("get stream url"))
  }

  /** add_playlist / add_playlist_with_songs: `success` must be present and
      truthy, and then the whole answer is returned. */
  function AddedPlaylist(result: Json): (r: Result<Json>)
    ensures r.Ok? <==> result.Object? && "success" in result.fields && Truthy(result.fields["success"])
    ensures r.Ok? ==> r.value == result
    ensures result.Object? && r.Err? ==> r.error == RequestFailed("add playlist")
  {
    var present :- Contains(result, "success");
    if !present then Err(RequestFailed("add playlist"))
    else
      var success :- Index(result, "success");
      if Truthy(success) then Ok(result) else Err(RequestFailed("add playlist"))
  }

  /** The failure path of add_playlist as written: the message is built with
      `'Could not add playlist:' % title`, which has no conversion for the
      title, so building it raises TypeError before any RequestException. */
  function AddedPlaylistAsWritten(result: Json): (r: Result<Json>)
    ensures AddedPlaylist(result).Ok? ==> r == AddedPlaylist(result)
    ensures result.Object? && AddedPlaylist(result).Err? ==> r == Err(WrongType)
  {
    var present :- Contains(result, "success");
    if !present then Err(WrongType)
    else
      var success :- Index(result, "success");
      if Truthy(success) then Ok(result) else Err(WrongType)
  }

  /** An answer with `success: false` shows the two differ. */
  lemma AddFailureRaisesTypeError()
    ensures AddedPlaylistAsWritten(Object(map["success" := Bool(false)])) == Err(WrongType)
    ensures AddedPlaylist(Object(map["success" := Bool(false)])) == Err(RequestFailed("add playlist"))
  {
    var answer := Object(map["success" := Bool(false)]);
    assert "success" in answer.fields;
  }

  /** modify_playlist: succeeds exactly on an empty dict. */
  function Modified(result: Json): (r: Result<bool>)
    ensures r.Ok? <==> result == Object(map[])
    ensures r.Ok? ==> r.value
    ensures r.Err? ==> r.error == RequestFailed("modify playlist")
  {
    if result.Object? && !Truthy(result) then Ok(true) else Err(RequestFailed("modify playlist"))
  }

  /** delete_playlist: succeeds exactly when `deleteId` is the requested id. */
  function Deleted(result: Json, playlistId: Json): (r: Result<bool>)
    ensures r.Ok? <==> result.Object? && "deleteId" in result.fields && result.fields["deleteId"] == playlistId
    ensures r.Ok? ==> r.value
    ensures result.Object? && r.Err? ==> r.error == RequestFailed("delete playlist")
  {
    var present :- Contains(result, "deleteId");
    if !present then Err(RequestFailed("delete playlist"))
    else
      var deleted :- Index(result, "deleteId");
      if deleted == playlistId then Ok(true) else Err(RequestFailed("delete playlist"))
  }

  // ---------------------------------------------------------------------
  // The protocol object
  // ---------------------------------------------------------------------

  /** The requests the end of login sends: IssueAuthToken with SID and LSID,
      then, only if it answered, TokenAuth with the issue token, service sj,
      the Play URL and source jumper. */
  function HandshakeTraffic(sid: string, lsid: string, replies: seq<Reply>): (r: seq<HttpRequest>)
    ensures |r| == if NextText(replies).Ok? then 2 else 1
    ensures r[0] == IssueAuthRequest(sid, lsid)
    ensures |r| == 2 ==>
      r[1] == TokenAuthRequest(RStrip(NextText(replies).value), ServiceName, GooglePlayUrl, Some(LoginSource))
  {
    match NextText(replies).Then(IssueToken)
    case Err(_) => [IssueAuthRequest(sid, lsid)]
    case Ok(issue) =>
      [IssueAuthRequest(sid, lsid), TokenAuthRequest(issue, ServiceName, GooglePlayUrl, Some(LoginSource))]
  }

  /** The replies left after the end of login: one per request it sent. */
  function HandshakeRemaining(replies: seq<Reply>): seq<Reply> {
    if NextText(replies).Err? then AfterNext(replies) else AfterNext(AfterNext(replies))
  }

  /** The end of login succeeds once both exchanges have answered. */
  function HandshakeResult(replies: seq<Reply>): (r: Result<bool>)
    ensures r.Ok? <==> NextText(replies).Ok? && NextText(AfterNext(replies)).Ok?
    ensures r.Ok? ==> r.value
    ensures NextText(replies).Err? ==> r == Err(NextText(replies).error)
    ensures NextText(replies).Ok? && NextText(AfterNext(replies)).Err? ==> r == Err(NextText(AfterNext(replies)).error)
  {
    match NextText(replies).Then(IssueToken)
    case Err(e) => Err(e)
    case Ok(_) => NextText(AfterNext(replies)).Then(_ => Ok(true))
  }

  class Protocol {
    /** The random session id, chosen by the caller. */
    const sessionId: string
    const web: WebRequest
    const cookies: CookieJar
    var authData: map<string, string>

    constructor (web: WebRequest, sessionId: string)
      ensures this.web == web && this.sessionId == sessionId && cookies == web.cookies && authData == map[]
    {
      this.web := web;
      this.sessionId := sessionId;
      cookies := web.cookies;
      authData := map[];
    }

    /** The quoted `xt` cookie, as the next API call would read it. */
    function Xt(): Result<string>
      reads cookies
    {
      XtForUrl(FindCookie(cookies.cookies, "xt"))
    }

    /** Logs in: posts the form, stores the tokens of a successful reply in
        `authData`, then runs the desktop client's authentication to obtain
        the session cookies. */
    method Login(username: string, password: string) returns (r: Result<bool>)
      modifies this, web.net
      ensures var replies := old(web.net.replies);
        var text := NextText(replies);
        var start := old(web.net.sent) + [LoginRequest(username, password)];
        (text.Err? ==>
          r == Err(text.error) && authData == old(authData)
          && web.net.sent == start && web.net.replies == AfterNext(replies))
        && (text.Ok? ==> authData == AuthDataAfter(old(authData), text.value))
        && (text.Ok? && LoginTokens(text.value).Err? ==>
          r == Err(LoginTokens(text.value).error) && web.net.sent == start && web.net.replies == AfterNext(replies))
        && (text.Ok? && LoginTokens(text.value).Ok? ==>
          var t := LoginTokens(text.value).value;
          web.net.sent == start + HandshakeTraffic(t.sid, t.lsid, AfterNext(replies))
          && web.net.replies == HandshakeRemaining(AfterNext(replies))
          && r == HandshakeResult(AfterNext(replies)))
    {
      var text :- PostLogin(username, password);
      r := CompleteLogin(text);
    }

    /** What login does with the ClientLogin reply: stores the tokens, and
        when all three were found runs the desktop client's handshake. */
    method CompleteLogin(text: string) returns (r: Result<bool>)
      modifies this, web.net
      ensures authData == AuthDataAfter(old(authData), text)
      ensures LoginTokens(text).Err? ==>
        r == Err(LoginTokens(text).error) && web.net.sent == old(web.net.sent) && web.net.replies == old(web.net.replies)
      ensures LoginTokens(text).Ok? ==>
        var t := LoginTokens(text).value;
        web.net.sent == old(web.net.sent) + HandshakeTraffic(t.sid, t.lsid, old(web.net.replies))
        && web.net.replies == HandshakeRemaining(old(web.net.replies))
        && r == HandshakeResult(old(web.net.replies))
    {
      var tokens :- StoreTokens(text);
      assert authData["SID"] == tokens.sid && authData["LSID"] == tokens.lsid;
      r := Handshake();
    }

    /** The ClientLogin request: the form with the login headers, not XHR. */
    method PostLogin(username: string, password: string) returns (r: Result<string>)
      modifies web.net
      ensures web.net.sent == old(web.net.sent) + [LoginRequest(username, password)]
      ensures web.net.replies == AfterNext(old(web.net.replies))
      ensures r == NextText(old(web.net.replies))
    {
      var headers := new Dict(LoginHeaders);
      var form := LoginForm(username, password);
      assert "Email" in form;
      r := web.Request(Address(LoginEndpoint), Some(form), headers, false);
    }

    /** The end of login: the desktop client's IssueAuthToken / TokenAuth
        exchange with the stored SID and LSID, whose reply sets the cookies. */
    method Handshake() returns (r: Result<bool>)
      requires "SID" in authData && "LSID" in authData
      modifies web.net
      ensures web.net.sent == old(web.net.sent) + HandshakeTraffic(authData["SID"], authData["LSID"], old(web.net.replies))
      ensures web.net.replies == HandshakeRemaining(old(web.net.replies))
      ensures r == HandshakeResult(old(web.net.replies))
    {
      var client := new MusicManagerClient(cookies, web.net);
      var session :- client.Authenticate(authData, ServiceName, GooglePlayUrl, Some(LoginSource));
      r := Ok(true);
    }

    /** The classification half of login: stores SID, LSID and Auth in
        `authData` one key at a time, failing at the first token missing. */
    method StoreTokens(text: string) returns (r: Result<AuthTokens>)
      modifies this
      ensures r == LoginTokens(text)
      ensures authData == AuthDataAfter(old(authData), text)
      ensures r.Ok? ==> authData == old(authData)["SID" := r.value.sid]["LSID" := r.value.lsid]["Auth" := r.value.auth]
    {
      if !Occurs("Auth=", text) {
        return Err(AuthenticationFailed(text));
      }
      var sid :- GetFromText(AtLineStart("SID="), text);
      authData := authData["SID" := sid];
      var lsid :- GetFromText(Anywhere("LSID="), text);
      authData := authData["LSID" := lsid];
      AuthFound(text);
      var auth := GetFromText(Anywhere("Auth="), text).value;
      authData := authData["Auth" := auth];
      r := Ok(AuthTokens(sid, lsid, auth));
    }

    /** get_xt_for_url. */
    method GetXtForUrl() returns (r: Result<string>)
      ensures r == Xt()
    {
      var xt := cookies.GetCookie("xt");
      r := XtForUrl(xt);
    }

    /** api_request: sets `sessionId` in the caller's payload (a fresh dict
        when the payload is missing or empty), wraps it under `json` and
        sends it as an XHR to the method's URL. */
    method ApiRequest(name: string, payload: Dict?<Json>) returns (r: Result<Json>)
      modifies web.net, payload
      ensures payload != null && |old(payload.entries)| > 0 ==>
        payload.entries == old(payload.entries)["sessionId" := Str(sessionId)]
      ensures payload != null && |old(payload.entries)| == 0 ==> payload.entries == old(payload.entries)
      ensures web.net.sent == old(web.net.sent) + ApiTraffic(name, old(Supplied(payload)), sessionId, Xt())
      ensures web.net.replies == ApiRemaining(Xt(), old(web.net.replies))
      ensures r == ApiReply(Xt(), old(web.net.replies), web.loads)
    {
      var p := OrFresh(payload);
      p.entries := p.entries["sessionId" := Str(sessionId)];
      var xt :- GetXtForUrl();
      r := SendJson(ApiUrl(name, xt), p.entries);
    }

    /** The XHR of an API call: `{'json': payload}` with the form content type. */
    method SendJson(url: string, payload: map<string, Json>) returns (r: Result<Json>)
      modifies web.net
      ensures web.net.sent == old(web.net.sent)
        + [HttpRequest(Address(url), FormEncoded(map["json" := Object(payload)]),
                       WebHeaders(map["Content-Type" := FormContentType], true))]
      ensures web.net.replies == AfterNext(old(web.net.replies))
      ensures r == NextJson(old(web.net.replies), web.loads)
    {
      var body := map["json" := Object(payload)];
      var headers := new Dict(map["Content-Type" := FormContentType]);
      assert "json" in body;
      r := web.XhrJson(Address(url), Some(body), headers);
    }

    /** An API call with a payload of the operation's own. */
    method Call(name: string, payload: map<string, Json>) returns (r: Result<Json>)
      modifies web.net
      ensures web.net.sent == old(web.net.sent) + ApiTraffic(name, payload, sessionId, Xt())
      ensures web.net.replies == ApiRemaining(Xt(), old(web.net.replies))
      ensures r == ApiReply(Xt(), old(web.net.replies), web.loads)
    {
      var d := new Dict(payload);
      r := ApiRequest(name, d);
    }

    /** get_all_playlists. */
    method GetAllPlaylists() returns (r: Result<Json>)
      modifies web.net
      ensures web.net.sent == old(web.net.sent) + ApiTraffic("loadplaylist", map[], sessionId, Xt())
      ensures web.net.replies == ApiRemaining(Xt(), old(web.net.replies))
      ensures r == ApiReply(Xt(), old(web.net.replies), web.loads).Then(PlaylistsOf)
    {
      var result :- Call("loadplaylist", map[]);
      r := PlaylistsOf(result);
    }

    /** load_playlist. */
    method LoadPlaylist(playlistId: Json) returns (r: Result<Json>)
      modifies web.net
      ensures web.net.sent == old(web.net.sent)
        + ApiTraffic("loadplaylist", map["id" := playlistId, "requestCause" := Int(3), "requestType" := Int(1)], sessionId, Xt())
      ensures web.net.replies == ApiRemaining(Xt(), old(web.net.replies))
      ensures r == ApiReply(Xt(), old(web.net.replies), web.loads).Then(LoadedPlaylist)
    {
      var result :- Call("loadplaylist", map["id" := playlistId, "requestCause" := Int(3), "requestType" := Int(1)]);
      r := LoadedPlaylist(result);
    }

    /** add_playlist. */
    method AddPlaylist(title: string) returns (r: Result<Json>)
      modifies web.net
      ensures web.net.sent == old(web.net.sent) + ApiTraffic("addplaylist", map["title" := Str(title)], sessionId, Xt())
      ensures web.net.replies == ApiRemaining(Xt(), old(web.net.replies))
      ensures r == ApiReply(Xt(), old(web.net.replies), web.loads).Then(AddedPlaylist)
    {
      var result :- Call("addplaylist", map["title" := Str(title)]);
      r := AddedPlaylist(result);
    }

    /** add_playlist_with_songs: a missing or empty id list is sent as `[]`. */
    method AddPlaylistWithSongs(title: string, songIds: Option<seq<Json>>) returns (r: Result<Json>)
      modifies web.net
      ensures web.net.sent == old(web.net.sent)
        + ApiTraffic("addplaylist", map["title" := Str(title), "songIds" := List(if songIds.Some? then songIds.value else [])], sessionId, Xt())
      ensures web.net.replies == ApiRemaining(Xt(), old(web.net.replies))
      ensures r == ApiReply(Xt(), old(web.net.replies), web.loads).Then(AddedPlaylist)
    {
      var ids := if songIds.Some? && |songIds.value| > 0 then songIds.value else [];
      var result :- Call("addplaylist", map["title" := Str(title), "songIds" := List(ids)]);
      r := AddedPlaylist(result);
    }

    /** modify_playlist. */
    method ModifyPlaylist(playlistId: Json, title: string) returns (r: Result<bool>)
      modifies web.net
      ensures web.net.sent == old(web.net.sent)
        + ApiTraffic("modifyplaylist", map["playlistId" := playlistId, "playlistName" := Str(title)], sessionId, Xt())
      ensures web.net.replies == ApiRemaining(Xt(), old(web.net.replies))
      ensures r == ApiReply(Xt(), old(web.net.replies), web.loads).Then(Modified)
    {
      var result :- Call("modifyplaylist", map["playlistId" := playlistId, "playlistName" := Str(title)]);
      r := Modified(result);
    }

    /** delete_playlist. */
    method DeletePlaylist(playlistId: Json) returns (r: Result<bool>)
      modifies web.net
      ensures web.net.sent == old(web.net.sent)
        + ApiTraffic("deleteplaylist", map["id" := playlistId, "requestCause" := Int(1), "requestType" := Int(1)], sessionId, Xt())
      ensures web.net.replies == ApiRemaining(Xt(), old(web.net.replies))
      ensures r == ApiReply(Xt(), old(web.net.replies), web.loads).Then(result => Deleted(result, playlistId))
    {
      var result :- Call("deleteplaylist", map["id" := playlistId, "requestCause" := Int(1), "requestType" := Int(1)]);
      r := Deleted(result, playlistId);
    }

    /** search. */
    method Search(query: string) returns (r: Result<Json>)
      modifies web.net
      ensures web.net.sent == old(web.net.sent) + ApiTraffic("search", map["q" := Str(query)], sessionId, Xt())
      ensures web.net.replies == ApiRemaining(Xt(), old(web.net.replies))
      ensures r == ApiReply(Xt(), old(web.net.replies), web.loads).Then(SearchResults)
    {
      var result :- Call("search", map["q" := Str(query)]);
      r := SearchResults(result);
    }

    /** get_stream_url: a plain XHR to the play endpoint. */
    method GetStreamUrl(songId: Json) returns (r: Result<Json>)
      modifies web.net
      ensures web.net.sent == old(web.net.sent) + [StreamRequest(songId)]
      ensures web.net.replies == AfterNext(old(web.net.replies))
      ensures r == NextJson(old(web.net.replies), web.loads).Then(StreamInfo)
    {
      var result :- web.XhrJson(Address(StreamUrl(songId)), None, null);
      r := StreamInfo(result);
    }

    /** get_settings: the payload is only the session id. */
    method GetSettings() returns (r: Result<Json>)
      modifies web.net
      ensures web.net.sent == old(web.net.sent) + ApiTraffic("loadsettings", map[], sessionId, Xt())
      ensures web.net.replies == ApiRemaining(Xt(), old(web.net.replies))
      ensures r == ApiReply(Xt(), old(web.net.replies), web.loads)
    {
      r := ApiRequest("loadsettings", null);
    }

    /** modify_labs: sets one Labs flag. */
    method ModifyLabs(srv: string, value: Json) returns (r: Result<Json>)
      modifies web.net
      ensures web.net.sent == old(web.net.sent)
        + ApiTraffic("modifylabs", map["labs" := Object(map[srv := value])], sessionId, Xt())
      ensures web.net.replies == ApiRemaining(Xt(), old(web.net.replies))
      ensures r == ApiReply(Xt(), old(web.net.replies), web.loads)
    {
      r := Call("modifylabs", map["labs" := Object(map[srv := value])]);
    }
  }
}

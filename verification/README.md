# googlemusic — a Dafny model of the client core

`googlemusic` is a Python 2 client for the private web API of Google Music.
It logs in with ClientLogin. It then imitates the desktop Music Manager to
obtain the `xt` anti-CSRF cookie. After that it behaves like a browser:
- it posts each payload as the form field `json` to `https://play.google.com/music/services/<method>`;
- it turns the answers into `Playlist`, `Song` and `Album` records;
- it downloads songs in 512 KiB chunks.

This project models that core in Dafny and proves what each step does. The
model covers what the client sends, what it accepts as an answer, how it
fails, and what it changes.

## How the model is built

**Modules.** There is one module per source file:
- `Request` for `request.py`;
- `Protocol` for `protocol.py`;
- `Model` for `model.py`;
- `Utils` for `utils.py`;
- `Client` for `client.py`.

Three support modules sit beside them:
- `Results`: `Option`, `Result` and the error kinds;
- `PyJson`: JSON values with the Python operations the code applies to them, namely truthiness, `in`, `[]`, `str()` and iteration;
- `Text`: leftmost literal search, `%x` formatting, `upper`, `rstrip`, `urllib.quote` and `unquote`.

**The network.** A `Network` object stands for the world outside the process.
- Every request the client sends is appended to `sent`.
- Each exchange takes the next reply off the `replies` queue.
- An empty queue or a `Refused` reply is urllib2 raising.
- A reply carries its bytes and the text they decode to.
- `json.loads` is a function given to `WebRequest` when it is built.

**State.** Objects whose fields the source updates in place are classes:
- the header and payload dicts (`Dict`), updated key by key;
- `Protocol.auth_data`;
- a playlist's song list;
- the file being downloaded.

Songs and albums are never changed after construction, so they are datatypes.

**Errors.** Python exceptions become `Err` values:
- `KeyError` is `KeyMissing`;
- `TypeError` is `WrongType`;
- `AuthenticationException` is `AuthenticationFailed`;
- `RequestException` is `RequestFailed`;
- the `AttributeError` of `.group(1)` on a failed `re.search` is `NoMatch`;
- a failing exchange is `TransportError`;
- an undecodable reply is `NotJson`.

**The model follows the code.** The one exception is the failed-add check listed under Findings, where the operations use the corrected check.
- The code has no login state machine and no `NotAuthenticatedError`.
  - Nothing stops an API call before login. Without an `xt` cookie, `urllib.quote(None)` raises `TypeError` (`Protocol.XtForUrl`).
  - A failed login leaves whatever keys it already stored in `auth_data`. When `LSID` is missing, `SID` has already been overwritten (`Protocol.AuthDataPartial`).
- A missing `SID` or `LSID` raises from `.group(1)` on `None`; the model calls this `NoMatch`.
- Login overwrites `SID`, `LSID` and `Auth` one at a time and never removes other keys.

## Model

| member | source | states |
|---|---|---|
| Request.FindCookie | googlemusic/request.py:23-28 | None exactly when no cookie has the name; otherwise the value of a cookie with that name that no earlier cookie shares |
| Request.CookieJar.GetCookie | googlemusic/request.py:23-28 | the loop over the jar returns the first match in iteration order, as `FindCookie` |
| Request.EncodeBody | googlemusic/request.py:81-82 | a body is form-encoded exactly when it is a non-empty dict; an empty dict passes through unencoded, and None is no body |
| Request.WebHeaders | googlemusic/request.py:84-93 | DNT always set; User-Agent kept if the caller gave one, else the browser agent; with xhr, Origin and Referer are kept or defaulted and X-Requested-With is always XMLHttpRequest; every other header keeps its presence and value, and without xhr those three are untouched |
| Request.ManagerHeaders | googlemusic/request.py:44-45 | User-Agent kept if given, else the Music Manager agent; every other header keeps its presence and value |
| Request.SetWebDefaults | googlemusic/request.py:84-93 | the header updates, made one by one on the dict in place, leave exactly `WebHeaders` of the old headers |
| Request.WebHeadersIdempotent | googlemusic/request.py:84-93 | applying the browser defaults a second time changes nothing |
| Request.ManagerHeadersIdempotent | googlemusic/request.py:44-45 | applying the desktop default a second time changes nothing, so a dict reused for a second request sends the same headers |
| Request.OrFresh | googlemusic/request.py:80 | a non-empty caller dict is the one updated, so updates reach the caller; None or an empty dict is replaced by a new empty dict |
| Request.MusicManagerRequest.Request | googlemusic/request.py:38-54 | a non-empty caller dict ends with the desktop defaults applied and an empty one is unchanged; exactly one request is logged, with the encoded body and defaulted headers; one reply is consumed and its text returned, or the transport error |
| Request.WebRequest.Request | googlemusic/request.py:78-108 | the same for browser requests, with the browser defaults for the given xhr flag |
| Request.WebRequest.XhrJson | googlemusic/request.py:110-112 | the request is always sent with xhr set, and the reply text is decoded as JSON |
| Request.Network.Exchange | googlemusic/request.py:100-108 | sending logs the request and consumes exactly one reply; an empty queue or a refusal is a transport error |
| Request.Source.Read | googlemusic/request.py:134 | a read returns the next `limit` bytes, fewer only at the end, and removes them from the stream |
| Request.SaveStream | googlemusic/request.py:132-138 | the loop stops at the first empty read; the file ends as its old contents followed by every byte of the stream; `downloaded` is the total length; the reads are exactly `Chunks(stream, 512*1024)` |
| Request.ConcatChunks | googlemusic/request.py:132-138 | writing the chunks in order reproduces the stream, with nothing lost or repeated at a boundary |
| Request.ChunksShape | googlemusic/request.py:134 | every chunk is non-empty and at most 512 KiB; all but the last are full; there are ceil(length / size) of them |
| Request.ChunksStep | googlemusic/request.py:134-138 | the chunks of a stream are its first read followed by the chunks of the rest |
| Request.WebRequest.DownloadFile | googlemusic/request.py:114-142 | sends one request with the fixed Referer and User-Agent; on a transport error the disk is untouched; otherwise the file holds exactly the reply body and the result is True |
| Text.FirstMatchFrom | googlemusic/utils.py:15 | the position found matches and no earlier one does; None means no position matches |
| Text.RStrip | googlemusic/protocol.py:45 | the result is a prefix of the text, does not end in whitespace, and only whitespace was removed |
| Text.Quote | googlemusic/protocol.py:108 | `urllib.quote` leaves only safe characters (letters, digits, `_.-/`) and `%` escapes |
| Text.UnquoteQuote | googlemusic/protocol.py:108 | unquoting `urllib.quote` of a byte string gives it back |
| Text.HexPadValue | googlemusic/utils.py:49 | reading `'%0Nx' % n` back as hexadecimal gives n |
| Text.HexLength | googlemusic/utils.py:49 | a number below 16^w has at most w hex digits, so `%012x` adds no digits for a 48-bit node |
| Text.HexValueUpper | googlemusic/utils.py:51 | upper-casing hexadecimal text does not change its value |
| Text.Upper | googlemusic/utils.py:51 | `upper()` maps each character on its own and keeps the length |
| PyJson.Contains | googlemusic/model.py:10 | Python `in` on a dict tests its keys; on a number, boolean or None it raises TypeError |
| PyJson.Index | googlemusic/model.py:11 | Python `[]` succeeds exactly on a dict holding the key; a missing key is a KeyError naming it |
| PyJson.Elements | googlemusic/model.py:17-18 | a list is iterated by its items; an empty string or dict gives no records; what cannot be iterated into records fails |
| Utils.MacAddress | googlemusic/utils.py:47-51 | the address contains no lower-case letter |
| Utils.MacAddressShape | googlemusic/utils.py:49-51 | for a node below 2^48: 17 characters, ':' exactly at every third position, upper-case hex digits elsewhere |
| Utils.MacAddressRoundTrip | googlemusic/utils.py:49-51 | removing the ':' separators and reading the rest as hexadecimal gives the node back, for every node |
| Utils.PairsShape | googlemusic/utils.py:50 | the groups are the consecutive two-character slices from the left, ceil(length/2) of them |
| Utils.OddLengthLastGroup | googlemusic/utils.py:50 | hex text of odd length ends with a one-character group |
| Utils.JoinPairsAt | googlemusic/utils.py:51 | joining two-character groups with ':' puts the separator at every third position and the groups' characters in order elsewhere |
| Utils.RemoveJoinedPairs | googlemusic/utils.py:50-51 | splitting into pairs and joining with ':' loses no character |
| Utils.RestOfLine | googlemusic/utils.py:15 | what `(.*)` captures is a prefix of the text with no newline, ending at the first newline or the end |
| Utils.GetFromText | googlemusic/utils.py:13-15 | fails exactly when the key matches nowhere (for `^KEY=`, at no line start); otherwise the result is the rest of the line after the leftmost match |
| Model.SongFrom | googlemusic/model.py:54-73 | falsy data gives the all-None song; non-dict data raises TypeError; a dict succeeds exactly when it has all six keys, and then the fields are those values with the id through `str()` and the artwork `albumArtUrl` or None |
| Model.SongMissingKey | googlemusic/model.py:56-61 | the KeyError names the first of id, name, title, artist, album, track that is missing |
| Model.SongRoundTrip | googlemusic/model.py:55-65 | a song read back from its own dict is the same song: no field dropped, swapped or altered |
| Model.AlbumFrom | googlemusic/model.py:29-42 | the album analogue: albumName, artistName, albumArtist, and artwork from `imageUrl` or None |
| Model.AlbumMissingKey | googlemusic/model.py:31-33 | the KeyError names the first missing album key |
| Model.AlbumRoundTrip | googlemusic/model.py:30-37 | an album read back from its own dict is the same album |
| Model.ArtworkLink | googlemusic/model.py:44-49 | a URL exactly when the artwork is truthy, and it is `http:` followed by the artwork text (Song.get_artwork_url, lines 75-80, is the same) |
| Model.JoinText | googlemusic/model.py:25 | `' - '.join` succeeds exactly when every part is a string; the text is the first part, ' - ', then the join of the rest |
| Model.SongText | googlemusic/model.py:82-83 | `str(song)` is `id - artist - title`, and raises TypeError unless all three are strings |
| Model.Playlist.Describe | googlemusic/model.py:24-25 | `str(playlist)` is `id - title`, and raises TypeError unless both are strings |
| Model.ConvertEach | googlemusic/model.py:17-18 | never more records than elements, and exactly as many when nothing failed |
| Model.ConvertEachSpec | googlemusic/model.py:17-18 | record i is built from element i; a failure is that of the first element rejected, and it comes after all the built records |
| Model.ConvertEachStep | googlemusic/model.py:17-18 | one step of the loop: the element is built and the loop goes on, or the loop stops with its failure |
| Model.ConvertEachAppend | googlemusic/model.py:17-18 | converting two lists in a row is converting their concatenation |
| Model.ConvertEachStops | googlemusic/model.py:17-18 | elements after the first failing one are never looked at |
| Model.PlaylistFrom | googlemusic/model.py:8-22 | falsy data gives an empty playlist and non-dict data a TypeError; a dict succeeds exactly when its id key and `title` are present and every element of `playlist` (if any) makes a song; the id is `str()` of `playlistId` when present, else of `id`; there is one song per element, in order, and none without the key |
| Model.SongsRoundTrip | googlemusic/model.py:17-18 | converting the dicts of a list of songs gives back exactly that list |
| Model.PlaylistRoundTrip | googlemusic/model.py:10-18 | a playlist read back from its dict has the same id, title and songs in the same order |
| Model.Playlist.AppendSongs | googlemusic/model.py:17-18 | appends after the existing songs exactly the songs built before the first failing element, and reports that failure; the id and title are unchanged |
| Model.NewPlaylist | googlemusic/model.py:8-22 | a new playlist object whose state is `PlaylistFrom(data)`; it fails exactly when `PlaylistFrom` does, with the same error |
| Protocol.LoginForm | googlemusic/protocol.py:83-86 | the form has exactly Email, Passwd, service = sj and accountType = GOOGLE |
| Protocol.LoginTokens | googlemusic/protocol.py:91-97 | without `Auth=` the login fails, carrying the reply; otherwise it succeeds exactly when a line starts with `SID=` and `LSID=` occurs, and the tokens are the rest of those lines and of the `Auth=` line |
| Protocol.AuthFound | googlemusic/protocol.py:91-94 | once `Auth=` occurs, extracting Auth cannot fail |
| Protocol.StoredTokens | googlemusic/protocol.py:92-94 | the stores stop at the first failed extraction: nothing is stored without SID; with SID but no LSID only SID is overwritten; otherwise SID, LSID and Auth hold the three tokens; no other key changes presence or value |
| Protocol.AuthDataAfter | googlemusic/protocol.py:91-97 | a reply without `Auth=` leaves `auth_data` as it was; no key other than SID, LSID and Auth is added, removed or changed |
| Protocol.AuthDataPartial | googlemusic/protocol.py:91-94 | a reply with `Auth=` but no `SID=` line leaves `auth_data` unchanged; one with SID but no LSID leaves it with SID alone overwritten; both fail with NoMatch |
| Protocol.AuthDataStored | googlemusic/protocol.py:91-97 | a reply carrying all three tokens sets SID, LSID and Auth to them |
| Protocol.Protocol.StoreTokens | googlemusic/protocol.py:91-97 | the key-by-key updates leave `auth_data` as `AuthDataAfter` says, and the outcome is `LoginTokens`; on success the three tokens are stored |
| Protocol.TokenAuthParams | googlemusic/protocol.py:51-56 | the query always has auth, service and continue with the given values, and has source exactly when a non-empty source is given |
| Protocol.IssueToken | googlemusic/protocol.py:45 | the issue token is a prefix of the reply that does not end in whitespace, and only whitespace was removed after it |
| Protocol.MusicManagerClient.GetIssueAuth | googlemusic/protocol.py:37-45 | a missing SID or LSID raises KeyError before anything is sent; otherwise one IssueAuthToken request with SID, LSID and service gaia is sent, and the stripped reply is returned |
| Protocol.MusicManagerClient.Authenticate | googlemusic/protocol.py:47-60 | sends the IssueAuthToken request, then, only if it succeeded, the TokenAuth request carrying the issue token; both carry the same headers; the TokenAuth reply is the result |
| Protocol.XtForUrl | googlemusic/protocol.py:106-108 | a missing `xt` cookie is a TypeError; a present one is quoted into safe characters and `%` escapes only, and unquoting gives it back |
| Protocol.Protocol.GetXtForUrl | googlemusic/protocol.py:106-108 | the quoted value of the first `xt` cookie in the jar |
| Protocol.ApiCallBody | googlemusic/protocol.py:110-118 | an API call's body has the single field `json`, holding the caller's payload plus `sessionId` set to the session id; it is an XHR with the form content type |
| Protocol.ApiCallUrl | googlemusic/protocol.py:116-117 | the URL is the endpoint, the method and `?u=0&xt=` followed by text that unquotes to the `xt` cookie |
| Protocol.Protocol.SendJson | googlemusic/protocol.py:114-118 | one XHR to the URL, with the single form field `json` holding the payload and the form content type; the reply is decoded as JSON |
| Protocol.Protocol.ApiRequest | googlemusic/protocol.py:110-118 | a non-empty caller payload gains `sessionId` in place, and an empty or missing one is left alone; without `xt` nothing is sent; otherwise exactly the API call is sent and its JSON reply returned |
| Protocol.Protocol.PostLogin | googlemusic/protocol.py:83-90 | exactly the ClientLogin request is sent (the form, the login headers, not XHR) and its reply's text returned |
| Protocol.HandshakeTraffic | googlemusic/protocol.py:99-101 | IssueAuthToken with the SID and LSID always, then TokenAuth with the stripped issue token exactly when the first exchange answered |
| Protocol.HandshakeResult | googlemusic/protocol.py:99-104 | login succeeds exactly when both exchanges answered, and otherwise fails with the first exchange's error |
| Protocol.Protocol.Handshake | googlemusic/protocol.py:99-104 | the IssueAuthToken request carries the stored SID and LSID; TokenAuth is sent only if it answered, with service sj, the Play URL and source jumper; login succeeds once both have answered |
| Protocol.Protocol.CompleteLogin | googlemusic/protocol.py:91-104 | `auth_data` ends as `AuthDataAfter`; a reply without the tokens sends nothing more and fails as `LoginTokens` does; otherwise the handshake runs with the reply's SID and LSID |
| Protocol.Protocol.Login | googlemusic/protocol.py:81-104 | sends the login form; a transport failure or a reply without tokens stops there with that error; `auth_data` ends as `AuthDataAfter`; on success it sends IssueAuthToken with the new SID and LSID and then TokenAuth (service sj, continue to the Play URL, source jumper), and returns True once both have answered |
| Protocol.Gate | googlemusic/protocol.py:124-136 | on a dict: the returned key's value when the needed key is present, a KeyError when only the returned key is missing, a request failure when the needed key is absent |
| Protocol.PlaylistsOf | googlemusic/protocol.py:124-127 | succeeds exactly when the answer has `playlists`, and returns it |
| Protocol.LoadedPlaylist | googlemusic/protocol.py:133-136 | succeeds exactly when the answer has `playlistId` and `playlist`, and returns `playlist`; without `playlistId` the request fails |
| Protocol.SearchResults | googlemusic/protocol.py:186-189 | the same `Gate` as `PlaylistsOf`, on `results`: succeeds exactly when the answer has `results`, and returns it |
| Protocol.StreamUrl | googlemusic/protocol.py:193 | the play endpoint, then `?u=0&songid=`, the song id's `str()`, and `&pt=e`: each part sits at its own position, so the id reads back from the URL |
| Protocol.StreamInfo | googlemusic/protocol.py:195-198 | a dict answer succeeds exactly when it has `url`, and the whole answer is returned |
| Protocol.AddedPlaylist | googlemusic/protocol.py:141-144 | succeeds exactly when `success` is present and truthy, and returns the whole answer; otherwise the request fails |
| Protocol.Modified | googlemusic/protocol.py:165-169 | succeeds exactly on an empty dict |
| Protocol.Deleted | googlemusic/protocol.py:175-179 | succeeds exactly when `deleteId` is present and equal to the requested id |
| Protocol.Protocol.GetAllPlaylists | googlemusic/protocol.py:121-127 | sends `loadplaylist` with an empty payload, so only `sessionId`, and applies `PlaylistsOf` to the answer |
| Protocol.Protocol.LoadPlaylist | googlemusic/protocol.py:129-136 | sends `loadplaylist` with id, requestCause 3 and requestType 1, and applies `LoadedPlaylist` |
| Protocol.Protocol.AddPlaylist | googlemusic/protocol.py:138-144 | sends `addplaylist` with the title and applies `AddedPlaylist` |
| Protocol.Protocol.AddPlaylistWithSongs | googlemusic/protocol.py:146-158 | sends `addplaylist` with the title and the song ids, `[]` when none are given, and applies `AddedPlaylist` |
| Protocol.Protocol.ModifyPlaylist | googlemusic/protocol.py:160-169 | sends `modifyplaylist` with playlistId and playlistName, and applies `Modified` |
| Protocol.Protocol.DeletePlaylist | googlemusic/protocol.py:171-179 | sends `deleteplaylist` with id, requestCause 1 and requestType 1, and applies `Deleted` for that id |
| Protocol.Protocol.Search | googlemusic/protocol.py:183-189 | sends `search` with q and applies `SearchResults` |
| Protocol.Protocol.GetStreamUrl | googlemusic/protocol.py:191-198 | sends one XHR to `PLAY_ENDPOINT?u=0&songid=<id>&pt=e` with no body, session id or `xt`, and applies `StreamInfo` |
| Protocol.Protocol.GetSettings | googlemusic/protocol.py:200-205 | sends `loadsettings` whose payload is only the session id, and returns the answer |
| Protocol.Protocol.ModifyLabs | googlemusic/protocol.py:207-212 | sends `modifylabs` with `labs` holding the one setting, and returns the answer |
| Protocol.AddedPlaylistAsWritten | googlemusic/protocol.py:144 | as written, a rejected add raises TypeError, because the message format has no conversion for the title |
| Protocol.AddFailureRaisesTypeError | googlemusic/protocol.py:141-144 | for the answer `{success: false}`, the code as written raises TypeError while the intended behaviour is a request failure |
| Client.SongIds | googlemusic/client.py:53-56 | the ids of the songs in order, and `[]` when there is no list |
| Client.DownloadName | googlemusic/client.py:89 | the file name is the folder, '/', artist, ' - ', title and '.mp3', with None written `None` |
| Client.Collect | googlemusic/client.py:80-83 | the append loop yields one record per element in order, or the first element's failure |
| Client.BuildPlaylists | googlemusic/client.py:36-37 | one new, distinct playlist object per element, in order, each holding that element's record, or the first failure |
| Client.AddedPlaylistRecord | googlemusic/client.py:49 | the addplaylist answer, with `id`, `title` and `success`, becomes a playlist with that id and title and no songs |
| Client.Client.Login | googlemusic/client.py:27-29 | a successful login has stored the SID, LSID and Auth tokens of the login reply |
| Client.Client.GetAllPlaylists | googlemusic/client.py:32-38 | sends `loadplaylist` and consumes one reply (none without `xt`); one new, distinct playlist per protocol record, in the same order, or the first failure |
| Client.Client.LoadPlaylist | googlemusic/client.py:40-45 | sends `loadplaylist` for the playlist's id and consumes one reply (none without `xt`); the songs built from the records are appended after those already present, including those before a failing record; the same playlist object is returned |
| Client.Client.AddPlaylist | googlemusic/client.py:47-49 | sends `addplaylist` with the title and consumes one reply (none without `xt`); a new playlist built from the accepted answer, or the failure |
| Client.Client.AddPlaylistWithSongs | googlemusic/client.py:51-57 | sends the songs' ids in order (`[]` for none) and consumes one reply (none without `xt`); builds the playlist from the answer |
| Client.Client.ModifyPlaylist | googlemusic/client.py:59-61 | renames by the playlist's id, consuming one reply (none without `xt`) |
| Client.Client.DeletePlaylist | googlemusic/client.py:63-65 | deletes by the playlist's id, consuming one reply (none without `xt`) |
| Client.Client.GetStreamUrl | googlemusic/client.py:67-69 | asks for the stream of the song's id, consuming exactly one reply |
| Client.Client.GetSettings | googlemusic/client.py:71-73 | the protocol's settings answer, consuming one reply (none without `xt`) |
| Client.Client.Search | googlemusic/client.py:75-84 | consumes one reply (none without `xt`); exactly the albums and songs of the results, each list one record per element in order; the albums are read first, so their failure wins, and otherwise the first song's failure is the error |
| Client.Client.DownloadSong | googlemusic/client.py:86-90 | asks for the stream URL, then downloads it into `<folder>/<artist> - <title>.mp3` and leaves every other file alone; one reply is consumed per request sent; the disk is untouched when either exchange fails |

## Left out

- The HTTP transport: urllib2 openers, `HTTPCookieProcessor`, and how replies are fetched. Each reply is an input value.
- Capturing `Set-Cookie` into the jar. The jar is a list of name and value pairs given when the client is built; those stand for the cookies the replies would have set.
- The byte layout of `urllib.urlencode`. Python 2 writes dict entries in hash order, so bodies and queries stay as maps. `str()` of the `json` payload, which is what urlencode sends, is not rendered either.
- UTF-8 decoding of replies and `json.loads`. A reply carries its decoded text, and `json.loads` is a function the caller supplies.
- `random.random()` for the session id. The id is a constructor parameter.
- Debug printing and the download progress percentage. These are console output and float arithmetic that affect no result.
- Request.WebRequest.DownloadFile: the model does not carry reply headers. A malformed `Content-Length`, such as a non-numeric value or `12, 12`, makes `int(content_length.strip())` raise ValueError before the file is opened, so the code writes no file and returns no True; the model always writes the body and returns true.
- Opening the output file. The disk is a map from names to bytes. A file is created, empty, only after the download reply has arrived.
- General regular expressions. Only the literal `KEY=(.*)` and `^KEY=(.*)` patterns that login uses are modelled.
- `run_command`, `get_computer_name` and `uuid.getnode()`. These are operating-system calls; the node is a parameter of `Utils.MacAddress`.
- googlemusic/__init__.py (`test_api`) is not part of this model. It is a manual harness that prints.
- `Client.set_debug`, the unused `Client.playlists` and `Protocol.playlists` lists, and `get_cookies`. They hold no behaviour.
- Exception messages. Only the error kind is kept.
- Reassigning `self.cookies` at the end of login. It is the same jar object, so the model leaves the jar unchanged.
- PyJson.PyStr: renders a list or dict as a placeholder, because Python 2 prints dicts in hash order. It does not model the `UnicodeEncodeError` that `str()` raises on non-ASCII text.
- Model.SongText, Model.Playlist.Describe: `' - '.join` of unicode fields gives unicode, and `str()` of it raises `UnicodeEncodeError` when it holds non-ASCII text. The model returns the joined text instead.
- PyJson.Elements: a dict holding the key "" and other keys fails before recording anything. Python may first record the empty record for "", depending on hash order.
- Protocol.Deleted: compares with structural equality. Python's `1 == True` across int and bool is not modelled.
- Request.WebHeaders: stores DNT as the text "1"; the source stores the integer 1.
- Text.Quote: characters above 255 are written with more than two hex digits. Cookie values are byte strings in Python 2, so the round trip is stated for bytes only.
- Client.Client.Login: states only what a successful login stored. The traffic and every failure case are stated on `Protocol.Protocol.Login`.
- Client.Client.DownloadSong: a `url` that is not a string fails as `WrongType`. In Python it is an error raised inside urllib2.
- Client.Client.AddPlaylist, Client.Client.AddPlaylistWithSongs, Protocol.Protocol.AddPlaylist, Protocol.Protocol.AddPlaylistWithSongs: apply the corrected check `Protocol.AddedPlaylist`, so a rejected add fails as a request failure. The code as written raises TypeError instead; that is modelled by `Protocol.AddedPlaylistAsWritten` and recorded under Findings.
- Request.Source.Read: never fails part-way. A connection dropped during the download loop, which in Python leaves a partial file and raises, is not modelled.

## Findings

| source | as written | input that shows it | evidently intended | confidence | as-written member | corrected member |
|---|---|---|---|---|---|---|
| googlemusic/protocol.py:144 | the failure message is built as `'Could not add playlist:' % title`, which has no conversion for `title`, so Python raises TypeError instead of RequestException (the same at line 158) | an `addplaylist` answer `{"success": false}` | raise RequestException naming the title | high; not executed | Protocol.AddedPlaylistAsWritten | Protocol.AddedPlaylist |

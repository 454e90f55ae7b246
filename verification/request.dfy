/** googlemusic/request.py: the cookie jar lookup, the two request shapers
    (browser-like and desktop-client-like) with their header defaults, the
    XHR/JSON variant and the chunked file download.

    The network is one `Network` object standing for the world outside the
    process: it records every request the client sends and answers each with
    the next reply of an oracle queue. An empty queue or a `Refused` reply is
    urllib2 raising. Each answer carries its raw bytes and the text they decode
    to; `json.loads` is the injected total function `WebRequest.loads`. */
module Request {

  import opened Results
  import opened PyJson

  type Byte = b: int | 0 <= b < 256

  const FormContentType: string := "application/x-www-form-urlencoded;charset=UTF-8"
  const ManagerUserAgent: string := "Music Manager (1, 0, 24, 7712 - Windows)"
  const BrowserUserAgent: string :=
    "Mozilla/5.0 (Macintosh; Intel Mac OS X 10_7_4) AppleWebKit 536.11 (KHTML, like Gecko) Chrome/20.0.1132.57 Safari/536.11"
  const DefaultOrigin: string := "https://play.google.com"
  const DefaultReferer: string := "https://play.google.com/music/listen"
  const DownloadChunk: nat := 512 * 1024

  // ---------------------------------------------------------------------
  // Cookies
  // ---------------------------------------------------------------------

  datatype Cookie = Cookie(name: string, value: string)

  /** The value of the first cookie called `name`, in the jar's iteration order. */
  function FindCookie(jar: seq<Cookie>, name: string): (r: Option<string>)
    ensures r.None? <==> forall i :: 0 <= i < |jar| ==> jar[i].name != name
    ensures r.Some? ==>
      exists i :: 0 <= i < |jar| && jar[i] == Cookie(name, r.value) && forall j :: 0 <= j < i ==> jar[j].name != name
  {
    if jar == [] then None
    else if jar[0].name == name then Some(jar[0].value)
    else
      var r := FindCookie(jar[1..], name);
      assert r.Some? ==>
        exists i :: 1 <= i < |jar| && jar[i] == Cookie(name, r.value) && forall j :: 1 <= j < i ==> jar[j].name != name;
      r
  }

  /** The cookie store shared by every request of one client. Cookies that
      replies set are not captured into it by this model. */
  class CookieJar {
    var cookies: seq<Cookie>

    constructor (cookies: seq<Cookie>)
      ensures this.cookies == cookies
    {
      this.cookies := cookies;
    }

    /** CookieManager.get_cookie: walk the jar, return the first match. */
    method GetCookie(name: string) returns (value: Option<string>)
      ensures value == FindCookie(cookies, name)
    {
      var i := 0;
      while i < |cookies|
        invariant 0 <= i <= |cookies|
        invariant FindCookie(cookies, name) == FindCookie(cookies[i..], name)
      {
        if cookies[i].name == name {
          return Some(cookies[i].value);
        }
        assert cookies[i..][1..] == cookies[i + 1..];
        i := i + 1;
      }
      return None;
    }
  }

  // ---------------------------------------------------------------------
  // Python dicts the source updates in place
  // ---------------------------------------------------------------------

  class Dict<V> {
    var entries: map<string, V>

    constructor (entries: map<string, V>)
      ensures this.entries == entries
    {
      this.entries := entries;
    }
  }

  /** The entries of an optional dict; None counts as empty. */
  function Supplied<V>(d: Dict?<V>): map<string, V>
    reads d
  {
    if d == null then map[] else d.entries
  }

  /** `d = d or {}`: a non-empty dict is kept (and later changes reach the
      caller); None or an empty dict is replaced by a new empty one. */
  method OrFresh<V>(d: Dict?<V>) returns (r: Dict<V>)
    ensures r.entries == Supplied(d)
    ensures if d != null && |d.entries| > 0 then r == d else fresh(r)
  {
    if d != null && |d.entries| > 0 {
      r := d;
    } else {
      r := new Dict(map[]);
    }
  }

  // ---------------------------------------------------------------------
  // Requests and replies
  // ---------------------------------------------------------------------

  /** A request body: absent, passed through as given, or form-encoded
      (urllib.urlencode, whose byte layout is not modelled). */
  datatype Body = NoBody | Unencoded(fields: map<string, Json>) | FormEncoded(fields: map<string, Json>)

  /** A URL given as text, or a base followed by `?` and urlencode(params). */
  datatype Url = Address(text: string) | WithQuery(base: string, params: map<string, string>)

  datatype HttpRequest = HttpRequest(url: Url, body: Body, headers: map<string, string>)

  datatype Reply = Answer(body: seq<Byte>, text: string) | Refused

  /** `if body: body = urlencode(body)`: only a non-empty dict is encoded;
      None and an empty dict go out unchanged. */
  function EncodeBody(body: Option<map<string, Json>>): (r: Body)
    ensures r.FormEncoded? <==> body.Some? && |body.value| > 0
    ensures r.NoBody? <==> body.None?
    ensures body.Some? ==> r.fields == body.value
  {
    match body
    case None => NoBody
    case Some(fields) => if |fields| > 0 then FormEncoded(fields) else Unencoded(fields)
  }

  /** What the next exchange yields: the first queued answer, or a transport
      failure when the queue is empty or the reply is a refusal. */
  function NextReply(replies: seq<Reply>): (r: Result<Reply>)
    ensures r.Ok? <==> |replies| > 0 && replies[0].Answer?
    ensures r.Ok? ==> r.value == replies[0]
    ensures r.Err? ==> r.error == TransportError
  {
    if replies == [] || replies[0].Refused? then Err(TransportError) else Ok(replies[0])
  }

  function AfterNext(replies: seq<Reply>): seq<Reply> {
    if replies == [] then [] else replies[1..]
  }

  /** The decoded text of the next reply. */
  function NextText(replies: seq<Reply>): Result<string> {
    match NextReply(replies)
    case Err(e) => Err(e)
    case Ok(a) => Ok(a.text)
  }

  /** `json.loads` of the next reply's text. */
  function NextJson(replies: seq<Reply>, loads: string -> Option<Json>): Result<Json> {
    match NextText(replies)
    case Err(e) => Err(e)
    case Ok(text) => match loads(text) { case None => Err(NotJson) case Some(j) => Ok(j) }
  }

  class Network {
    var replies: seq<Reply>
    var sent: seq<HttpRequest>

    constructor (replies: seq<Reply>)
      ensures this.replies == replies && sent == []
    {
      this.replies := replies;
      sent := [];
    }

    /** Sends `request` and takes the next reply off the queue. */
    method Exchange(request: HttpRequest) returns (r: Result<Reply>)
      modifies this
      ensures sent == old(sent) + [request]
      ensures replies == AfterNext(old(replies))
      ensures r == NextReply(old(replies))
    {
      sent := sent + [request];
      r := NextReply(replies);
      replies := AfterNext(replies);
    }
  }

  // ---------------------------------------------------------------------
  // Header defaults
  // ---------------------------------------------------------------------

  /** The header names WebRequest.request sets or defaults. */
  function WebDefaulted(xhr: bool): set<string> {
    {"DNT", "User-Agent"} + (if xhr then {"Origin", "Referer", "X-Requested-With"} else {})
  }

  /** The headers WebRequest.request sends, given the caller's. `DNT` is the
      integer 1 in the source and the text "1" here. */
  function WebHeaders(h: map<string, string>, xhr: bool): (r: map<string, string>)
    ensures "DNT" in r && r["DNT"] == "1"
    ensures "User-Agent" in r
      && r["User-Agent"] == if "User-Agent" in h then h["User-Agent"] else BrowserUserAgent
    ensures xhr ==> "Origin" in r && r["Origin"] == if "Origin" in h then h["Origin"] else DefaultOrigin
    ensures xhr ==> "Referer" in r && r["Referer"] == if "Referer" in h then h["Referer"] else DefaultReferer
    ensures xhr ==> "X-Requested-With" in r && r["X-Requested-With"] == "XMLHttpRequest"
    ensures forall k :: k !in WebDefaulted(xhr) ==> (k in r <==> k in h) && (k in h ==> r[k] == h[k])
  {
    var always := h["DNT" := "1"];
    var agent := if "User-Agent" in always then always else always["User-Agent" := BrowserUserAgent];
    if !xhr then agent
    else
      var origin := if "Origin" in agent then agent else agent["Origin" := DefaultOrigin];
      var referer := if "Referer" in origin then origin else origin["Referer" := DefaultReferer];
      referer["X-Requested-With" := "XMLHttpRequest"]
  }

  /** The headers MusicManagerRequest.request sends, given the caller's. */
  function ManagerHeaders(h: map<string, string>): (r: map<string, string>)
    ensures "User-Agent" in r
      && r["User-Agent"] == if "User-Agent" in h then h["User-Agent"] else ManagerUserAgent
    ensures forall k :: k != "User-Agent" ==> (k in r <==> k in h) && (k in h ==> r[k] == h[k])
  {
    if "User-Agent" in h then h else h["User-Agent" := ManagerUserAgent]
  }

  /** Applying the browser defaults to headers that already carry them
      changes nothing: they only fill gaps or set fixed values. */
  lemma WebHeadersIdempotent(h: map<string, string>, xhr: bool)
    ensures WebHeaders(WebHeaders(h, xhr), xhr) == WebHeaders(h, xhr)
  {
    var once := WebHeaders(h, xhr);
    var twice := WebHeaders(once, xhr);
    assert forall k :: k in WebDefaulted(xhr) ==> k in once && k in twice && twice[k] == once[k];
    assert twice.Keys == once.Keys;
  }

  /** The same holds for the desktop client's defaults. */
  lemma ManagerHeadersIdempotent(h: map<string, string>)
    ensures ManagerHeaders(ManagerHeaders(h)) == ManagerHeaders(h)
  {
    var once := ManagerHeaders(h);
    assert ManagerHeaders(once).Keys == once.Keys;
  }

  /** The fixed headers of a download. */
  const DownloadHeaders: map<string, string> :=
    map["Referer" := DefaultReferer, "User-Agent" := BrowserUserAgent]

  // ---------------------------------------------------------------------
  // MusicManagerRequest
  // ---------------------------------------------------------------------

  class MusicManagerRequest {
    const cookies: CookieJar
    const net: Network

    constructor (cookies: CookieJar, net: Network)
      ensures this.cookies == cookies && this.net == net
    {
      this.cookies := cookies;
      this.net := net;
    }

    /** Sends a request with the desktop client's User-Agent unless the
        caller gave one, and returns the reply's text. */
    method Request(url: Url, body: Option<map<string, Json>>, headers: Dict?<string>) returns (r: Result<string>)
      modifies net, headers
      ensures headers != null && |old(headers.entries)| > 0 ==> headers.entries == ManagerHeaders(old(headers.entries))
      ensures headers != null && |old(headers.entries)| == 0 ==> headers.entries == old(headers.entries)
      ensures net.sent == old(net.sent) + [HttpRequest(url, EncodeBody(body), ManagerHeaders(old(Supplied(headers))))]
      ensures net.replies == AfterNext(old(net.replies))
      ensures r == NextText(old(net.replies))
    {
      var h := OrFresh(headers);
      var encoded := EncodeBody(body);
      if "User-Agent" !in h.entries {
        h.entries := h.entries["User-Agent" := ManagerUserAgent];
      }
      var reply :- net.Exchange(HttpRequest(url, encoded, h.entries));
      r := Ok(reply.text);
    }
  }

  // ---------------------------------------------------------------------
  // WebRequest
  // ---------------------------------------------------------------------

  /** The local file system, as the download sees it. */
  class Disk {
    var files: map<string, seq<Byte>>

    constructor (files: map<string, seq<Byte>>)
      ensures this.files == files
    {
      this.files := files;
    }
  }

  /** The body of an open HTTP response. */
  class Source {
    var rest: seq<Byte>

    constructor (data: seq<Byte>)
      ensures rest == data
    {
      rest := data;
    }

    /** `read(limit)`: the next `limit` bytes, fewer only at the end. */
    method Read(limit: nat) returns (chunk: seq<Byte>)
      modifies this
      ensures chunk == old(rest)[..if limit < |old(rest)| then limit else |old(rest)|]
      ensures rest == old(rest)[|chunk|..]
    {
      var n := if limit < |rest| then limit else |rest|;
      chunk := rest[..n];
      rest := rest[n..];
    }
  }

  /** The successive reads of `data` in pieces of `size` bytes. */
  function Chunks(data: seq<Byte>, size: nat): seq<seq<Byte>>
    requires size > 0
    decreases |data|
  {
    if data == [] then []
    else if |data| <= size then [data]
    else [data[..size]] + Chunks(data[size..], size)
  }

  function Concat(chunks: seq<seq<Byte>>): seq<Byte> {
    if chunks == [] then [] else chunks[0] + Concat(chunks[1..])
  }

  /** Writing the chunks one after another reproduces the data: no byte is
      lost or repeated at a chunk boundary. */
  lemma {:induction false} ConcatChunks(data: seq<Byte>, size: nat)
    requires size > 0
    ensures Concat(Chunks(data, size)) == data
    decreases |data|
  {
    if |data| > size {
      ConcatChunks(data[size..], size);
      assert Chunks(data, size)[1..] == Chunks(data[size..], size);
      assert data == data[..size] + data[size..];
    } else if data != [] {
      assert Concat(Chunks(data, size)) == data + Concat([]);
    }
  }

  /** One read: the first chunk, then the reads of what is left. */
  lemma ChunksStep(data: seq<Byte>, size: nat)
    requires size > 0 && data != []
    ensures var n := if size < |data| then size else |data|;
      Chunks(data, size) == [data[..n]] + Chunks(data[n..], size)
  {
    if |data| <= size {
      assert data[..|data|] == data;
      assert data[|data|..] == [];
    }
  }

  /** Every chunk is non-empty and at most `size` long, all but the last are
      exactly `size` long, and there are as many as it takes to hold the
      data: ceil(|data| / size). */
  lemma {:induction false} ChunksShape(data: seq<Byte>, size: nat)
    requires size > 0
    ensures |Chunks(data, size)| * size >= |data|
    ensures data != [] ==> (|Chunks(data, size)| - 1) * size < |data|
    ensures forall i :: 0 <= i < |Chunks(data, size)| ==> 0 < |Chunks(data, size)[i]| <= size
    ensures forall i :: 0 <= i < |Chunks(data, size)| - 1 ==> |Chunks(data, size)[i]| == size
    decreases |data|
  {
    var c := Chunks(data, size);
    if |data| > size {
      var rest := Chunks(data[size..], size);
      ChunksShape(data[size..], size);
      assert c == [data[..size]] + rest;
      assert |c| * size == |rest| * size + size;
      assert (|c| - 1) * size == (|rest| - 1) * size + size;
      forall i | 0 <= i < |c| ensures 0 < |c[i]| <= size && (i < |c| - 1 ==> |c[i]| == size) {
        if i > 0 {
          assert c[i] == rest[i - 1];
        }
      }
    } else if data != [] {
      assert c == [data];
    } else {
      assert c == [];
    }
  }

  /** The header updates of WebRequest.request, made on the dict in place. */
  method SetWebDefaults(h: Dict<string>, xhr: bool)
    modifies h
    ensures h.entries == WebHeaders(old(h.entries), xhr)
  {
    h.entries := h.entries["DNT" := "1"];
    if "User-Agent" !in h.entries {
      h.entries := h.entries["User-Agent" := BrowserUserAgent];
    }
    if xhr {
      if "Origin" !in h.entries {
        h.entries := h.entries["Origin" := DefaultOrigin];
      }
      if "Referer" !in h.entries {
        h.entries := h.entries["Referer" := DefaultReferer];
      }
      h.entries := h.entries["X-Requested-With" := "XMLHttpRequest"];
    }
  }

  class WebRequest {
    const cookies: CookieJar
    const net: Network
    const disk: Disk
    const loads: string -> Option<Json>

    constructor (cookies: CookieJar, net: Network, disk: Disk, loads: string -> Option<Json>)
      ensures this.cookies == cookies && this.net == net && this.disk == disk && this.loads == loads
    {
      this.cookies := cookies;
      this.net := net;
      this.disk := disk;
      this.loads := loads;
    }

    /** Sends a browser-like request and returns the reply's text. DNT is
        always set; User-Agent, and for XHR Origin and Referer, are defaults
        the caller can override; X-Requested-With is always set for XHR. */
    method Request(url: Url, body: Option<map<string, Json>>, headers: Dict?<string>, xhr: bool)
      returns (r: Result<string>)
      modifies net, headers
      ensures headers != null && |old(headers.entries)| > 0 ==> headers.entries == WebHeaders(old(headers.entries), xhr)
      ensures headers != null && |old(headers.entries)| == 0 ==> headers.entries == old(headers.entries)
      ensures net.sent == old(net.sent) + [HttpRequest(url, EncodeBody(body), WebHeaders(old(Supplied(headers)), xhr))]
      ensures net.replies == AfterNext(old(net.replies))
      ensures r == NextText(old(net.replies))
    {
      var h := OrFresh(headers);
      var encoded := EncodeBody(body);
      SetWebDefaults(h, xhr);
      var reply :- net.Exchange(HttpRequest(url, encoded, h.entries));
      r := Ok(reply.text);
    }

    /** An XHR request whose reply is parsed as JSON. */
    method XhrJson(url: Url, body: Option<map<string, Json>>, headers: Dict?<string>) returns (r: Result<Json>)
      modifies net, headers
      ensures headers != null && |old(headers.entries)| > 0 ==> headers.entries == WebHeaders(old(headers.entries), true)
      ensures headers != null && |old(headers.entries)| == 0 ==> headers.entries == old(headers.entries)
      ensures net.sent == old(net.sent) + [HttpRequest(url, EncodeBody(body), WebHeaders(old(Supplied(headers)), true))]
      ensures net.replies == AfterNext(old(net.replies))
      ensures r == NextJson(old(net.replies), loads)
    {
      var text :- Request(url, body, headers, true);
      match loads(text)
      case None => r := Err(NotJson);
      case Some(j) => r := Ok(j);
    }

    /** Fetches `url` and writes its body to `filename`, replacing any file
        there; the file is opened only once the reply has arrived. */
    method DownloadFile(url: string, filename: string) returns (r: Result<bool>)
      modifies net, disk
      ensures net.sent == old(net.sent) + [HttpRequest(Address(url), NoBody, DownloadHeaders)]
      ensures net.replies == AfterNext(old(net.replies))
      ensures NextReply(old(net.replies)).Err? ==> r == Err(TransportError) && disk.files == old(disk.files)
      ensures NextReply(old(net.replies)).Ok? ==>
        r == Ok(true) && disk.files == old(disk.files)[filename := NextReply(old(net.replies)).value.body]
    {
      var reply :- net.Exchange(HttpRequest(Address(url), NoBody, DownloadHeaders));
      var source := new Source(reply.body);
      disk.files := disk.files[filename := []];
      var downloaded, chunks := SaveStream(source, disk, filename);
      assert [] + reply.body == reply.body;
      r := Ok(true);
    }
  }

  /** The download loop: read a chunk, stop at the first empty one, otherwise
      count it and append it to the file. */
  method SaveStream(source: Source, disk: Disk, filename: string)
    returns (downloaded: nat, ghost chunks: seq<seq<Byte>>)
    requires filename in disk.files
    modifies source, disk
    ensures disk.files == old(disk.files)[filename := old(disk.files)[filename] + old(source.rest)]
    ensures downloaded == |old(source.rest)|
    ensures chunks == Chunks(old(source.rest), DownloadChunk)
    ensures source.rest == []
  {
    downloaded := 0;
    chunks := [];
    ghost var copied: seq<Byte> := [];
    assert old(disk.files)[filename] + copied == old(disk.files)[filename];
    while true
      invariant filename in disk.files
      invariant old(source.rest) == copied + source.rest
      invariant disk.files == old(disk.files)[filename := old(disk.files)[filename] + copied]
      invariant downloaded == |copied|
      invariant chunks + Chunks(source.rest, DownloadChunk) == Chunks(old(source.rest), DownloadChunk)
      decreases |source.rest|
    {
      ghost var before := source.rest;
      ghost var written := old(disk.files)[filename] + copied;
      var chunk := source.Read(DownloadChunk);
      if chunk == [] {
        assert source.rest == before == [];
        break;
      }
      downloaded := downloaded + |chunk|;
      disk.files := disk.files[filename := disk.files[filename] + chunk];
      chunks := chunks + [chunk];
      copied := copied + chunk;
      assert written + chunk == old(disk.files)[filename] + copied;
      assert before == chunk + source.rest;
      assert source.rest == before[|chunk|..];
      ChunksStep(before, DownloadChunk);
      assert Chunks(before, DownloadChunk) == [chunk] + Chunks(source.rest, DownloadChunk);
    }
    assert copied == old(source.rest) by {
      assert copied + source.rest == copied;
    }
  }
}

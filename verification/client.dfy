/** googlemusic/client.py: the facade a program uses. It turns the protocol's
    JSON answers into records, one record per element and in the same order,
    fills a playlist's songs in place, and names downloaded files. */
module Client {

  import opened Results
  import opened PyJson
  import opened Request
  import opened Model
  import opened Protocol

  /** What search returns: exactly the albums and the songs found. */
  datatype Found = Found(albums: seq<Album>, songs: seq<Song>)

  /** The ids of the songs, in order: `[song.id for song in songs]` when
      there are songs, `[]` when there are none or no list at all. */
  function SongIds(songs: Option<seq<Song>>): (r: seq<Json>)
    ensures songs.None? ==> r == []
    ensures songs.Some? ==> |r| == |songs.value| && forall i :: 0 <= i < |r| ==> r[i] == songs.value[i].id
  {
    if songs.None? then [] else seq(|songs.value|, i requires 0 <= i < |songs.value| => songs.value[i].id)
  }

  /** `'%s/%s - %s.mp3' % (to_folder, song.artist, song.title)`. */
  function DownloadName(folder: string, song: Song): (r: string)
    ensures |r| == |folder| + 1 + |PyStr(song.artist)| + 3 + |PyStr(song.title)| + 4
    ensures r[..|folder| + 1] == folder + "/"
    ensures r[|folder| + 1..|r| - 4] == PyStr(song.artist) + " - " + PyStr(song.title)
    ensures r[|r| - 4..] == ".mp3"
  {
    folder + "/" + PyStr(song.artist) + " - " + PyStr(song.title) + ".mp3"
  }

  /** A loop building one record per element, stopping at the first element
      that fails; the list built so far is discarded with the failure. */
  method Collect<T>(f: Json -> Result<T>, items: seq<Json>) returns (r: Result<seq<T>>)
    ensures r == AllOf(ConvertEach(f, items))
  {
    var done: seq<T> := [];
    var i := 0;
    while i < |items|
      invariant 0 <= i <= |items|
      invariant ConvertEach(f, items)
        == Conversion(done + ConvertEach(f, items[i..]).done, ConvertEach(f, items[i..]).failure)
    {
      ConvertEachStep(f, items, i);
      var x := f(items[i]);
      if x.Err? {
        return Err(x.error);
      }
      done := done + [x.value];
      i := i + 1;
    }
    assert done + [] == done;
    r := Ok(done);
  }

  /** `for data in items: result.append(Playlist(data))`: a new playlist
      object per element, in order, each holding that element's record. */
  method BuildPlaylists(items: seq<Json>) returns (r: Result<seq<Playlist>>)
    ensures var built := AllOf(ConvertEach(PlaylistFrom, items));
      (r.Ok? <==> built.Ok?) && (r.Err? ==> r.error == built.error)
      && (r.Ok? ==>
        |r.value| == |built.value|
        && (forall k :: 0 <= k < |r.value| ==> fresh(r.value[k]) && r.value[k].Value() == built.value[k])
        && forall a, b :: 0 <= a < b < |r.value| ==> r.value[a] != r.value[b])
  {
    var result: seq<Playlist> := [];
    ghost var done: seq<PlaylistRecord> := [];
    var i := 0;
    while i < |items|
      invariant 0 <= i <= |items|
      invariant |result| == |done|
      invariant forall k :: 0 <= k < |result| ==> fresh(result[k])
      invariant forall k :: 0 <= k < |result| ==> result[k].Value() == done[k]
      invariant forall a, b :: 0 <= a < b < |result| ==> result[a] != result[b]
      invariant ConvertEach(PlaylistFrom, items)
        == Conversion(done + ConvertEach(PlaylistFrom, items[i..]).done, ConvertEach(PlaylistFrom, items[i..]).failure)
    {
      ConvertEachStep(PlaylistFrom, items, i);
      var p :- NewPlaylist(items[i]);
      assert p !in result;
      ghost var v := p.Value();
      ghost var rest := ConvertEach(PlaylistFrom, items[i + 1..]);
      assert ConvertEach(PlaylistFrom, items[i..]).done == [v] + rest.done;
      assert done + ([v] + rest.done) == (done + [v]) + rest.done;
      result := result + [p];
      done := done + [v];
      i := i + 1;
    }
    assert done + [] == done;
    r := Ok(result);
  }

  /** The records of the answer's elements, or the first failure. */
  function Built<T>(listed: Result<seq<Json>>, f: Json -> Result<T>): Result<seq<T>> {
    if listed.Err? then Err(listed.error) else AllOf(ConvertEach(f, listed.value))
  }

  /** Adding a playlist answers with the new playlist's id and title (under
      `id`, not `playlistId`) and `success`; the playlist built from that
      answer has that id and title and no songs. */
  lemma AddedPlaylistRecord(id: string, title: Json)
    ensures var answer := Object(map["id" := Str(id), "title" := title, "success" := Bool(true)]);
      AddedPlaylist(answer).Then(PlaylistFrom) == Ok(PlaylistRecord(Str(id), title, []))
  {
    var answer := Object(map["id" := Str(id), "title" := title, "success" := Bool(true)]);
    assert "success" in answer.fields && "playlistId" !in answer.fields && "playlist" !in answer.fields;
  }

  class Client {
    const cookies: CookieJar
    const web: WebRequest
    const protocol: Protocol

    predicate Valid() {
      web.cookies == cookies && protocol.web == web && protocol.cookies == cookies
    }

    /** A client over one network and disk. The jar starts with `jar`, the
        cookies the service's replies would have set. */
    constructor (jar: seq<Cookie>, net: Network, disk: Disk, loads: string -> Option<Json>, sessionId: string)
      ensures Valid() && fresh(cookies) && fresh(web) && fresh(protocol)
      ensures cookies.cookies == jar && web.net == net && web.disk == disk && web.loads == loads
      ensures protocol.sessionId == sessionId && protocol.authData == map[]
    {
      var jarObject := new CookieJar(jar);
      var webObject := new WebRequest(jarObject, net, disk, loads);
      cookies := jarObject;
      web := webObject;
      protocol := new Protocol(webObject, sessionId);
    }

    /** login: the protocol's login; a successful one has stored the tokens
        of the login reply. */
    method Login(username: string, password: string) returns (r: Result<bool>)
      requires Valid()
      modifies protocol, web.net
      ensures r.Ok? ==>
        var text := NextText(old(web.net.replies));
        text.Ok? && LoginTokens(text.value).Ok?
        && var t := LoginTokens(text.value).value;
        protocol.authData == old(protocol.authData)["SID" := t.sid]["LSID" := t.lsid]["Auth" := t.auth]
    {
      r := protocol.Login(username, password);
    }

    /** The playlists' JSON as get_all_playlists iterates it. */
    function PlaylistsListed(xt: Result<string>, replies: seq<Reply>): Result<seq<Json>> {
      ApiReply(xt, replies, web.loads).Then(PlaylistsOf).Then(Elements)
    }

    /** get_all_playlists: one new playlist object per protocol record, in
        the same order. */
    method GetAllPlaylists() returns (r: Result<seq<Playlist>>)
      requires Valid()
      modifies web.net
      ensures web.net.replies == ApiRemaining(protocol.Xt(), old(web.net.replies))
      ensures web.net.sent == old(web.net.sent) + ApiTraffic("loadplaylist", map[], protocol.sessionId, protocol.Xt())
      ensures var built := Built(PlaylistsListed(protocol.Xt(), old(web.net.replies)), PlaylistFrom);
        (r.Ok? <==> built.Ok?) && (r.Err? ==> r.error == built.error)
        && (r.Ok? ==>
          |r.value| == |built.value|
          && (forall k :: 0 <= k < |r.value| ==> fresh(r.value[k]) && r.value[k].Value() == built.value[k])
          && forall a, b :: 0 <= a < b < |r.value| ==> r.value[a] != r.value[b])
    {
      var data :- protocol.GetAllPlaylists();
      var items :- Elements(data);
      r := BuildPlaylists(items);
    }

    /** load_playlist: appends one song per record after the songs already
        there (keeping those built before a failing record) and returns the
        same playlist. */
    method LoadPlaylist(playlist: Playlist) returns (r: Result<Playlist>)
      requires Valid()
      modifies web.net, playlist
      ensures web.net.replies == ApiRemaining(protocol.Xt(), old(web.net.replies))
      ensures web.net.sent == old(web.net.sent)
        + ApiTraffic("loadplaylist", map["id" := old(playlist.id), "requestCause" := Int(3), "requestType" := Int(1)],
                     protocol.sessionId, protocol.Xt())
      ensures playlist.id == old(playlist.id) && playlist.title == old(playlist.title)
      ensures var listed := ApiReply(protocol.Xt(), old(web.net.replies), web.loads).Then(LoadedPlaylist).Then(Elements);
        (listed.Err? ==> r == Err(listed.error) && playlist.songs == old(playlist.songs))
        && (listed.Ok? ==>
          var c := ConvertEach(SongFrom, listed.value);
          playlist.songs == old(playlist.songs) + c.done
          && (r.Ok? <==> c.failure.None?)
          && (r.Ok? ==> r.value == playlist)
          && (r.Err? ==> r.error == c.failure.value))
    {
      var data :- protocol.LoadPlaylist(playlist.id);
      var items :- Elements(data);
      var appended :- playlist.AppendSongs(items);
      r := Ok(playlist);
    }

    /** add_playlist: the playlist built from the service's answer. */
    method AddPlaylist(title: string) returns (r: Result<Playlist>)
      requires Valid()
      modifies web.net
      ensures web.net.replies == ApiRemaining(protocol.Xt(), old(web.net.replies))
      ensures web.net.sent == old(web.net.sent) + ApiTraffic("addplaylist", map["title" := Str(title)], protocol.sessionId, protocol.Xt())
      ensures var built := ApiReply(protocol.Xt(), old(web.net.replies), web.loads).Then(AddedPlaylist).Then(PlaylistFrom);
        (r.Ok? <==> built.Ok?) && (r.Err? ==> r.error == built.error)
        && (r.Ok? ==> fresh(r.value) && r.value.Value() == built.value)
    {
      var data :- protocol.AddPlaylist(title);
      r := NewPlaylist(data);
    }

    /** add_playlist_with_songs: sends the songs' ids in order. */
    method AddPlaylistWithSongs(title: string, songs: Option<seq<Song>>) returns (r: Result<Playlist>)
      requires Valid()
      modifies web.net
      ensures web.net.replies == ApiRemaining(protocol.Xt(), old(web.net.replies))
      ensures web.net.sent == old(web.net.sent)
        + ApiTraffic("addplaylist", map["title" := Str(title), "songIds" := List(SongIds(songs))], protocol.sessionId, protocol.Xt())
      ensures var built := ApiReply(protocol.Xt(), old(web.net.replies), web.loads).Then(AddedPlaylist).Then(PlaylistFrom);
        (r.Ok? <==> built.Ok?) && (r.Err? ==> r.error == built.error)
        && (r.Ok? ==> fresh(r.value) && r.value.Value() == built.value)
    {
      var ids := if songs.Some? && |songs.value| > 0 then SongIds(songs) else [];
      var data :- protocol.AddPlaylistWithSongs(title, Some(ids));
      r := NewPlaylist(data);
    }

    /** modify_playlist. */
    method ModifyPlaylist(playlist: Playlist, title: string) returns (r: Result<bool>)
      requires Valid()
      modifies web.net
      ensures web.net.replies == ApiRemaining(protocol.Xt(), old(web.net.replies))
      ensures web.net.sent == old(web.net.sent)
        + ApiTraffic("modifyplaylist", map["playlistId" := playlist.id, "playlistName" := Str(title)], protocol.sessionId, protocol.Xt())
      ensures r == ApiReply(protocol.Xt(), old(web.net.replies), web.loads).Then(Modified)
    {
      r := protocol.ModifyPlaylist(playlist.id, title);
    }

    /** delete_playlist. */
    method DeletePlaylist(playlist: Playlist) returns (r: Result<bool>)
      requires Valid()
      modifies web.net
      ensures web.net.replies == ApiRemaining(protocol.Xt(), old(web.net.replies))
      ensures web.net.sent == old(web.net.sent)
        + ApiTraffic("deleteplaylist", map["id" := playlist.id, "requestCause" := Int(1), "requestType" := Int(1)],
                     protocol.sessionId, protocol.Xt())
      ensures var id := playlist.id;
        r == ApiReply(protocol.Xt(), old(web.net.replies), web.loads).Then(result => Deleted(result, id))
    {
      r := protocol.DeletePlaylist(playlist.id);
    }

    /** get_stream_url. */
    method GetStreamUrl(song: Song) returns (r: Result<Json>)
      requires Valid()
      modifies web.net
      ensures web.net.sent == old(web.net.sent) + [StreamRequest(song.id)]
      ensures web.net.replies == AfterNext(old(web.net.replies))
      ensures r == NextJson(old(web.net.replies), web.loads).Then(StreamInfo)
    {
      r := protocol.GetStreamUrl(song.id);
    }

    /** get_settings. */
    method GetSettings() returns (r: Result<Json>)
      requires Valid()
      modifies web.net
      ensures web.net.replies == ApiRemaining(protocol.Xt(), old(web.net.replies))
      ensures web.net.sent == old(web.net.sent) + ApiTraffic("loadsettings", map[], protocol.sessionId, protocol.Xt())
      ensures r == ApiReply(protocol.Xt(), old(web.net.replies), web.loads)
    {
      r := protocol.GetSettings();
    }

    /** search: albums from `albums` and songs from `songs`, each list in the
        service's order; the albums are read first. */
    method Search(query: string) returns (r: Result<Found>)
      requires Valid()
      modifies web.net
      ensures web.net.replies == ApiRemaining(protocol.Xt(), old(web.net.replies))
      ensures web.net.sent == old(web.net.sent) + ApiTraffic("search", map["q" := Str(query)], protocol.sessionId, protocol.Xt())
      ensures var found := ApiReply(protocol.Xt(), old(web.net.replies), web.loads).Then(SearchResults);
        var albums := found.Then(d => Index(d, "albums")).Then(Elements);
        var songs := found.Then(d => Index(d, "songs")).Then(Elements);
        (r.Ok? <==> Built(albums, AlbumFrom).Ok? && Built(songs, SongFrom).Ok?)
        && (r.Ok? ==> r.value == Found(Built(albums, AlbumFrom).value, Built(songs, SongFrom).value))
        && (Built(albums, AlbumFrom).Err? ==> r == Err(Built(albums, AlbumFrom).error))
        && (Built(albums, AlbumFrom).Ok? && Built(songs, SongFrom).Err? ==> r == Err(Built(songs, SongFrom).error))
    {
      var data :- protocol.Search(query);
      var albumsData :- Index(data, "albums");
      var albumItems :- Elements(albumsData);
      var albums :- Collect(AlbumFrom, albumItems);
      var songsData :- Index(data, "songs");
      var songItems :- Elements(songsData);
      var songs :- Collect(SongFrom, songItems);
      r := Ok(Found(albums, songs));
    }

    /** download_song: fetches the song's stream URL, then downloads it to
        `<folder>/<artist> - <title>.mp3`. */
    method DownloadSong(song: Song, toFolder: string := ".") returns (r: Result<bool>)
      requires Valid()
      modifies web.net, web.disk
      ensures var info := NextJson(old(web.net.replies), web.loads).Then(StreamInfo).Then(d => Index(d, "url"));
        var start := old(web.net.sent) + [StreamRequest(song.id)];
        var rest := AfterNext(old(web.net.replies));
        (info.Err? ==>
          r == Err(info.error) && web.net.sent == start && web.net.replies == rest && web.disk.files == old(web.disk.files))
        && (info.Ok? && !info.value.Str? ==>
          r == Err(WrongType) && web.net.sent == start && web.net.replies == rest && web.disk.files == old(web.disk.files))
        && (info.Ok? && info.value.Str? ==>
          var download := NextReply(rest);
          web.net.sent == start + [HttpRequest(Address(info.value.s), NoBody, DownloadHeaders)]
          && web.net.replies == AfterNext(rest)
          && (download.Err? ==> r == Err(TransportError) && web.disk.files == old(web.disk.files))
          && (download.Ok? ==>
            r == Ok(true) && web.disk.files == old(web.disk.files)[DownloadName(toFolder, song) := download.value.body]))
    {
      var urlData :- protocol.GetStreamUrl(song.id);
      var filename := DownloadName(toFolder, song);
      var url :- Index(urlData, "url");
      if !url.Str? {
        return Err(WrongType);
      }
      r := web.DownloadFile(url.s, filename);
    }
  }
}

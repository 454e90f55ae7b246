/** googlemusic/model.py: the records the client builds from the service's
    JSON. A song or album is built once and never changed, so it is a value;
    a playlist's song list is appended to in place, so a playlist is an
    object. Every field holds the JSON value it was read from (`Null` for
    Python's `None`), except ids, which go through `str()`. */
module Model {

  import opened Results
  import opened PyJson

  /** The keys a song record reads, in the order the constructor reads them. */
  const SongKeys: seq<string> := ["id", "name", "title", "artist", "album", "track"]

  /** The keys an album record reads, in order. */
  const AlbumKeys: seq<string> := ["albumName", "artistName", "albumArtist"]

  datatype Song = Song(id: Json, name: Json, title: Json, artist: Json, album: Json, track: Json, artworkUrl: Json)
  {
    /** Song.get_artwork_url. */
    function ArtworkUrl(): Option<string> {
      ArtworkLink(artworkUrl)
    }
  }

  datatype Album = Album(name: Json, artist: Json, albumArtist: Json, artworkUrl: Json)
  {
    /** Album.get_artwork_url. */
    function ArtworkUrl(): Option<string> {
      ArtworkLink(artworkUrl)
    }
  }

  /** What a constructor called with no data (None or an empty dict) holds. */
  const EmptySong: Song := Song(Null, Null, Null, Null, Null, Null, Null)
  const EmptyAlbum: Album := Album(Null, Null, Null, Null)

  /** `data[key] if key in data else None`, for a dict. */
  function Optional(data: Json, key: string): Json
    requires data.Object?
  {
    if key in data.fields then data.fields[key] else Null
  }

  /** `key` is the first of `keys` that `fields` lacks. */
  predicate FirstMissing(keys: seq<string>, fields: map<string, Json>, key: string) {
    exists i :: 0 <= i < |keys| && keys[i] == key && key !in fields && forall j :: 0 <= j < i ==> keys[j] in fields
  }

  // ---------------------------------------------------------------------
  // Song and Album constructors
  // ---------------------------------------------------------------------

  /** Song(data). Falsy data gives the empty song. Otherwise each of `SongKeys`
      is looked up in turn, so the first one missing raises KeyError, and a
      value that is not a dict raises TypeError; the id goes through `str()`
      and the artwork is `albumArtUrl` when present. */
  function SongFrom(data: Json): (r: Result<Song>)
    ensures !Truthy(data) ==> r == Ok(EmptySong)
    ensures Truthy(data) && !data.Object? ==> r == Err(WrongType)
    ensures data.Object? && Truthy(data) ==>
      (r.Ok? <==> forall k :: k in SongKeys ==> k in data.fields)
    ensures data.Object? && r.Err? ==> r.error.KeyMissing?
    ensures r.Ok? && Truthy(data) ==>
      var f := data.fields;
      r.value == Song(Str(PyStr(f["id"])), f["name"], f["title"], f["artist"], f["album"], f["track"],
                      if "albumArtUrl" in f then f["albumArtUrl"] else Null)
  {
    if !Truthy(data) then Ok(EmptySong)
    else
      var id :- Index(data, "id");
      var name :- Index(data, "name");
      var title :- Index(data, "title");
      var artist :- Index(data, "artist");
      var album :- Index(data, "album");
      var track :- Index(data, "track");
      Ok(Song(Str(PyStr(id)), name, title, artist, album, track, Optional(data, "albumArtUrl")))
  }

  /** Album(data), read like a song: `albumName`, `artistName`, `albumArtist`
      in that order, and the artwork from `imageUrl` when present. */
  function AlbumFrom(data: Json): (r: Result<Album>)
    ensures !Truthy(data) ==> r == Ok(EmptyAlbum)
    ensures Truthy(data) && !data.Object? ==> r == Err(WrongType)
    ensures data.Object? && Truthy(data) ==>
      (r.Ok? <==> forall k :: k in AlbumKeys ==> k in data.fields)
    ensures data.Object? && r.Err? ==> r.error.KeyMissing?
    ensures r.Ok? && Truthy(data) ==>
      var f := data.fields;
      r.value == Album(f["albumName"], f["artistName"], f["albumArtist"],
                       if "imageUrl" in f then f["imageUrl"] else Null)
  {
    if !Truthy(data) then Ok(EmptyAlbum)
    else
      var name :- Index(data, "albumName");
      var artist :- Index(data, "artistName");
      var albumArtist :- Index(data, "albumArtist");
      Ok(Album(name, artist, albumArtist, Optional(data, "imageUrl")))
  }

  /** The KeyError a song dict raises names the first of `SongKeys` it lacks. */
  lemma SongMissingKey(data: Json)
    requires data.Object? && SongFrom(data).Err?
    ensures FirstMissing(SongKeys, data.fields, SongFrom(data).error.key)
  {
    var f := data.fields;
    var k := SongFrom(data).error.key;
    if "id" !in f { assert SongKeys[0] == k; }
    else if "name" !in f { assert SongKeys[1] == k; }
    else if "title" !in f { assert SongKeys[2] == k; }
    else if "artist" !in f { assert SongKeys[3] == k; }
    else if "album" !in f { assert SongKeys[4] == k; }
    else { assert SongKeys[5] == k; }
  }

  /** The KeyError an album dict raises names the first of `AlbumKeys` it lacks. */
  lemma AlbumMissingKey(data: Json)
    requires data.Object? && AlbumFrom(data).Err?
    ensures FirstMissing(AlbumKeys, data.fields, AlbumFrom(data).error.key)
  {
    var f := data.fields;
    var k := AlbumFrom(data).error.key;
    if "albumName" !in f { assert AlbumKeys[0] == k; }
    else if "artistName" !in f { assert AlbumKeys[1] == k; }
    else { assert AlbumKeys[2] == k; }
  }

  /** The dict a song with a string id is read from: its fields under the
      keys the constructor reads, the artwork only when there is one. */
  function SongData(s: Song): Json
    requires s.id.Str?
  {
    var f := map["id" := s.id, "name" := s.name, "title" := s.title, "artist" := s.artist,
                 "album" := s.album, "track" := s.track];
    Object(if s.artworkUrl == Null then f else f["albumArtUrl" := s.artworkUrl])
  }

  function AlbumData(a: Album): Json {
    var f := map["albumName" := a.name, "artistName" := a.artist, "albumArtist" := a.albumArtist];
    Object(if a.artworkUrl == Null then f else f["imageUrl" := a.artworkUrl])
  }

  /** Reading a song back from its dict gives the same song: no field is
      dropped, swapped or altered on the way in. */
  lemma SongRoundTrip(s: Song)
    requires s.id.Str?
    ensures SongFrom(SongData(s)) == Ok(s)
  {
    var d := SongData(s);
    assert "id" in d.fields;
    assert forall k :: k in SongKeys ==> k in d.fields;
  }

  lemma AlbumRoundTrip(a: Album)
    ensures AlbumFrom(AlbumData(a)) == Ok(a)
  {
    var d := AlbumData(a);
    assert "albumName" in d.fields;
    assert forall k :: k in AlbumKeys ==> k in d.fields;
  }

  // ---------------------------------------------------------------------
  // Text of the records
  // ---------------------------------------------------------------------

  /** `'http:%s' % url` when the url is truthy, otherwise None. */
  function ArtworkLink(url: Json): (r: Option<string>)
    ensures r.Some? <==> Truthy(url)
    ensures r.Some? ==> |r.value| >= 5 && r.value[..5] == "http:" && r.value[5..] == PyStr(url)
  {
    if Truthy(url) then Some("http:" + PyStr(url)) else None
  }

  /** `' - '.join(parts)`: every part must be a string, otherwise TypeError. */
  function JoinText(parts: seq<Json>): (r: Result<string>)
    ensures r.Ok? <==> forall i :: 0 <= i < |parts| ==> parts[i].Str?
    ensures r.Ok? && |parts| == 1 ==> r.value == parts[0].s
    ensures r.Ok? && |parts| > 1 ==>
      |parts[0].s| + 3 <= |r.value| && r.value[..|parts[0].s| + 3] == parts[0].s + " - "
      && JoinText(parts[1..]) == Ok(r.value[|parts[0].s| + 3..])
  {
    if parts == [] then Ok("")
    else if !parts[0].Str? then Err(WrongType)
    else if |parts| == 1 then Ok(parts[0].s)
    else
      var rest :- JoinText(parts[1..]);
      Ok(parts[0].s + " - " + rest)
  }

  /** Song.__str__: `id - artist - title`. */
  function SongText(s: Song): (r: Result<string>)
    ensures r.Ok? <==> s.id.Str? && s.artist.Str? && s.title.Str?
    ensures r.Ok? ==> r.value == s.id.s + " - " + s.artist.s + " - " + s.title.s
  {
    JoinText([s.id, s.artist, s.title])
  }

  // ---------------------------------------------------------------------
  // Converting a list of records, in order, up to the first failure
  // ---------------------------------------------------------------------

  /** The records built before the first failure, and that failure if any. */
  datatype Conversion<T> = Conversion(done: seq<T>, failure: Option<Error>)

  /** Builds one record per element of `items`, from the left, stopping at
      the first element `f` rejects. */
  function ConvertEach<T>(f: Json -> Result<T>, items: seq<Json>): (r: Conversion<T>)
    ensures |r.done| <= |items|
    ensures r.failure.None? ==> |r.done| == |items|
  {
    if items == [] then Conversion([], None)
    else match f(items[0])
      case Err(e) => Conversion([], Some(e))
      case Ok(x) =>
        var rest := ConvertEach(f, items[1..]);
        Conversion([x] + rest.done, rest.failure)
  }

  /** The records of a conversion that met no failure, or its failure. */
  function AllOf<T>(c: Conversion<T>): Result<seq<T>> {
    if c.failure.None? then Ok(c.done) else Err(c.failure.value)
  }

  /** The records built are those of the elements before the first failure,
      each the result of its own element, and the failure is that of the
      first element `f` rejects. */
  lemma {:induction false} ConvertEachSpec<T>(f: Json -> Result<T>, items: seq<Json>)
    ensures var r := ConvertEach(f, items);
      (forall i :: 0 <= i < |r.done| ==> f(items[i]) == Ok(r.done[i]))
      && (r.failure.Some? ==> |r.done| < |items| && f(items[|r.done|]) == Err(r.failure.value))
  {
    if items != [] && f(items[0]).Ok? {
      ConvertEachSpec(f, items[1..]);
      var r := ConvertEach(f, items);
      forall i | 0 <= i < |r.done| ensures f(items[i]) == Ok(r.done[i]) {
        if i > 0 {
          assert items[i] == items[1..][i - 1];
        }
      }
    }
  }

  /** One step of a conversion: the element at `i` is built, or it fails. */
  lemma ConvertEachStep<T>(f: Json -> Result<T>, items: seq<Json>, i: nat)
    requires i < |items|
    ensures f(items[i]).Err? ==> ConvertEach(f, items[i..]) == Conversion([], Some(f(items[i]).error))
    ensures f(items[i]).Ok? ==>
      ConvertEach(f, items[i..])
      == Conversion([f(items[i]).value] + ConvertEach(f, items[i + 1..]).done, ConvertEach(f, items[i + 1..]).failure)
  {
    assert items[i..][0] == items[i];
    assert items[i..][1..] == items[i + 1..];
  }

  /** Conversion distributes over a split list when the first part succeeds. */
  lemma {:induction false} ConvertEachAppend<T>(f: Json -> Result<T>, a: seq<Json>, b: seq<Json>)
    requires ConvertEach(f, a).failure.None?
    ensures ConvertEach(f, a + b) == Conversion(ConvertEach(f, a).done + ConvertEach(f, b).done, ConvertEach(f, b).failure)
  {
    if a == [] {
      assert a + b == b;
    } else {
      ConvertEachStep(f, a, 0);
      ConvertEachStep(f, a + b, 0);
      assert a[0..] == a && (a + b)[0..] == a + b;
      assert (a + b)[1..] == a[1..] + b;
      ConvertEachAppend(f, a[1..], b);
    }
  }

  /** A conversion that fails on an element keeps the records before it and
      ignores everything after it. */
  lemma {:induction false} ConvertEachStops<T>(f: Json -> Result<T>, a: seq<Json>, x: Json, b: seq<Json>)
    requires ConvertEach(f, a).failure.None? && f(x).Err?
    ensures ConvertEach(f, a + [x] + b) == Conversion(ConvertEach(f, a).done, Some(f(x).error))
  {
    ConvertEachAppend(f, a, [x] + b);
    assert a + [x] + b == a + ([x] + b);
  }

  // ---------------------------------------------------------------------
  // Playlist
  // ---------------------------------------------------------------------

  /** The state of a playlist object. */
  datatype PlaylistRecord = PlaylistRecord(id: Json, title: Json, songs: seq<Song>)

  /** The id key a playlist dict is read from: `playlistId` when present. */
  function IdKey(fields: map<string, Json>): string {
    if "playlistId" in fields then "playlistId" else "id"
  }

  /** Playlist(data). Falsy data gives an empty playlist. Otherwise the id is
      `str()` of `playlistId` if present, else of `id`; the title is `title`;
      the songs are one Song per element of `playlist`, in order, and none
      when that key is absent. */
  function PlaylistFrom(data: Json): (r: Result<PlaylistRecord>)
    ensures !Truthy(data) ==> r == Ok(PlaylistRecord(Null, Null, []))
    ensures Truthy(data) && !data.Object? ==> r == Err(WrongType)
    ensures data.Object? && Truthy(data) ==>
      var f := data.fields;
      (r.Ok? <==>
        IdKey(f) in f && "title" in f
        && ("playlist" in f ==> Elements(f["playlist"]).Ok? && AllOf(ConvertEach(SongFrom, Elements(f["playlist"]).value)).Ok?))
    ensures r.Ok? && Truthy(data) ==>
      var f := data.fields;
      r.value.id == Str(PyStr(f[IdKey(f)])) && r.value.title == f["title"]
      && ("playlist" !in f ==> r.value.songs == [])
      && ("playlist" in f ==>
            var items := Elements(f["playlist"]).value;
            |r.value.songs| == |items| && forall i :: 0 <= i < |items| ==> SongFrom(items[i]) == Ok(r.value.songs[i]))
  {
    if !Truthy(data) then Ok(PlaylistRecord(Null, Null, []))
    else
      var hasPlaylistId :- Contains(data, "playlistId");
      var rawId :- Index(data, if hasPlaylistId then "playlistId" else "id");
      var title :- Index(data, "title");
      if "playlist" !in data.fields then Ok(PlaylistRecord(Str(PyStr(rawId)), title, []))
      else
        var items :- Elements(data.fields["playlist"]);
        var songs :- AllOf(ConvertEach(SongFrom, items));
        ConvertEachSpec(SongFrom, items);
        Ok(PlaylistRecord(Str(PyStr(rawId)), title, songs))
  }

  /** The dict a playlist is read from, keyed the way the service answers
      `loadplaylist` (under `playlistId`). */
  function PlaylistData(id: string, title: Json, songs: seq<Song>): Json
    requires forall i :: 0 <= i < |songs| ==> songs[i].id.Str?
  {
    Object(map["playlistId" := Str(id), "title" := title, "playlist" := List(SongsData(songs))])
  }

  function SongsData(songs: seq<Song>): (r: seq<Json>)
    requires forall i :: 0 <= i < |songs| ==> songs[i].id.Str?
    ensures |r| == |songs| && forall i :: 0 <= i < |songs| ==> r[i] == SongData(songs[i])
  {
    if songs == [] then [] else [SongData(songs[0])] + SongsData(songs[1..])
  }

  /** Converting the dicts of some songs gives back exactly those songs. */
  lemma {:induction false} SongsRoundTrip(songs: seq<Song>)
    requires forall i :: 0 <= i < |songs| ==> songs[i].id.Str?
    ensures ConvertEach(SongFrom, SongsData(songs)) == Conversion(songs, None)
  {
    if songs != [] {
      SongRoundTrip(songs[0]);
      SongsRoundTrip(songs[1..]);
      assert SongsData(songs)[1..] == SongsData(songs[1..]);
      assert [songs[0]] + songs[1..] == songs;
    }
  }

  /** Reading a playlist back from its dict gives the same id, title and
      songs in the same order. */
  lemma PlaylistRoundTrip(id: string, title: Json, songs: seq<Song>)
    requires forall i :: 0 <= i < |songs| ==> songs[i].id.Str?
    ensures PlaylistFrom(PlaylistData(id, title, songs)) == Ok(PlaylistRecord(Str(id), title, songs))
  {
    var data := PlaylistData(id, title, songs);
    assert Truthy(data) && "playlistId" in data.fields && "playlist" in data.fields;
    assert Elements(data.fields["playlist"]) == Ok(SongsData(songs));
    SongsRoundTrip(songs);
    assert AllOf(ConvertEach(SongFrom, SongsData(songs))) == Ok(songs);
  }

  class Playlist {
    var id: Json
    var title: Json
    var songs: seq<Song>

    constructor (id: Json, title: Json)
      ensures this.id == id && this.title == title && songs == []
    {
      this.id := id;
      this.title := title;
      songs := [];
    }

    function Value(): PlaylistRecord
      reads this
    {
      PlaylistRecord(id, title, songs)
    }

    /** Playlist.__str__: `id - title`; TypeError unless both are strings. */
    function Describe(): (r: Result<string>)
      reads this
      ensures r.Ok? <==> id.Str? && title.Str?
      ensures r.Ok? ==> r.value == id.s + " - " + title.s
    {
      JoinText([id, title])
    }

    /** `for song in items: self.songs.append(Song(song))`: the songs built
        before the first failing element stay appended. */
    method AppendSongs(items: seq<Json>) returns (r: Result<()>)
      modifies this
      ensures id == old(id) && title == old(title)
      ensures songs == old(songs) + ConvertEach(SongFrom, items).done
      ensures r == AllOf(ConvertEach(SongFrom, items)).Then(_ => Ok(()))
    {
      var i := 0;
      while i < |items|
        invariant 0 <= i <= |items|
        invariant id == old(id) && title == old(title)
        invariant ConvertEach(SongFrom, items[i..]).failure == ConvertEach(SongFrom, items).failure
        invariant old(songs) + ConvertEach(SongFrom, items).done == songs + ConvertEach(SongFrom, items[i..]).done
      {
        ConvertEachStep(SongFrom, items, i);
        var song := SongFrom(items[i]);
        if song.Err? {
          return Err(song.error);
        }
        songs := songs + [song.value];
        i := i + 1;
      }
      return Ok(());
    }
  }

  /** Playlist(data) as an object: its state is `PlaylistFrom(data)`. */
  method NewPlaylist(data: Json) returns (r: Result<Playlist>)
    ensures r.Ok? <==> PlaylistFrom(data).Ok?
    ensures r.Err? ==> r.error == PlaylistFrom(data).error
    ensures r.Ok? ==> fresh(r.value) && r.value.Value() == PlaylistFrom(data).value
  {
    if !Truthy(data) {
      var empty := new Playlist(Null, Null);
      return Ok(empty);
    }
    var hasPlaylistId :- Contains(data, "playlistId");
    var rawId :- Index(data, if hasPlaylistId then "playlistId" else "id");
    var title :- Index(data, "title");
    var p := new Playlist(Str(PyStr(rawId)), title);
    if "playlist" in data.fields {
      var items :- Elements(data.fields["playlist"]);
      var appended :- p.AppendSongs(items);
    }
    r := Ok(p);
  }
}

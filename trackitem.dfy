/** One row of a track list (src/components/track-item.tsx): the track it shows,
    normalised to the client shape; the playlist the page belongs to; the actions
    its desktop menu and mobile sheet offer; and what those actions do. */
module TrackItem {
  import opened Wrappers
  import opened Strings
  import opened Tracks
  import opened Playback
  import Playlists

  // ---- the page's playlist ------------------------------------------------------

  const PlaylistPrefix: string := "/playlist/"

  /** `pathname?.startsWith('/playlist/') ? pathname.split('/')[2] : null`. */
  function PlaylistIdOf(pathname: Option<string>): (r: Option<string>)
    ensures r.Some? <==> pathname.Some? && StartsWith(pathname.value, PlaylistPrefix)
    ensures r.Some? ==> '/' !in r.value
  {
    if pathname.Some? && StartsWith(pathname.value, PlaylistPrefix) then
      PlaylistPathParts(pathname.value);
      Some(Split(pathname.value, '/')[2])
    else None
  }

  lemma PrefixShape()
    ensures PlaylistPrefix == ['/'] + "playlist" + ['/']
  {
  }

  lemma PrefixStartsPath(rest: string)
    ensures StartsWith(PlaylistPrefix + rest, PlaylistPrefix)
  {
    assert (PlaylistPrefix + rest)[..|PlaylistPrefix|] == PlaylistPrefix;
  }

  /** A path under the prefix splits into "", "playlist" and the segments after it. */
  lemma PlaylistPathSplit(rest: string)
    ensures StartsWith(PlaylistPrefix + rest, PlaylistPrefix)
    ensures Split(PlaylistPrefix + rest, '/') == ["", "playlist"] + Split(rest, '/')
  {
    PrefixStartsPath(rest);
    PrefixShape();
    Regroup("playlist", rest);
    SplitTwoHeads([], "playlist", '/', rest);
  }

  lemma Regroup(w: string, rest: string)
    ensures ['/'] + w + ['/'] + rest == [] + ['/'] + w + ['/'] + rest
  {
  }

  lemma PlaylistPathParts(p: string)
    requires StartsWith(p, PlaylistPrefix)
    ensures |Split(p, '/')| >= 3
  {
    assert p == PlaylistPrefix + p[|PlaylistPrefix|..];
    PlaylistPathSplit(p[|PlaylistPrefix|..]);
  }

  /** The playlist id is the segment after the prefix, up to the next '/' or the end. */
  lemma PlaylistIdOfPath(id: string, tail: string)
    requires '/' !in id
    requires tail == "" || tail[0] == '/'
    ensures PlaylistIdOf(Some(PlaylistPrefix + id + tail)) == Some(id)
  {
    assert PlaylistPrefix + id + tail == PlaylistPrefix + (id + tail);
    PlaylistPathSplit(id + tail);
    SplitFirst(id, '/', tail);
  }

  /** `{playlistId && …}`: an empty id is falsy, so the remove action is hidden. */
  predicate ShowRemove(playlistId: Option<string>) {
    playlistId.Some? && playlistId.value != ""
  }

  /** On `/playlist/` itself the id is the empty string: present but not shown. */
  lemma EmptyPlaylistIdHidden()
    ensures PlaylistIdOf(Some(PlaylistPrefix)) == Some("")
    ensures !ShowRemove(PlaylistIdOf(Some(PlaylistPrefix)))
  {
    PlaylistIdOfPath("", "");
    assert PlaylistPrefix + "" + "" == PlaylistPrefix;
  }

  // ---- track normalisation -----------------------------------------------------

  datatype SpotifyArtist = SpotifyArtist(id: string, name: string, uri: string)
  datatype SpotifyAlbum = SpotifyAlbum(id: string, name: string, images: seq<Image>)

  /** The row's `track` prop: a catalogue track (it has `duration_ms`) or a track
      already in the client shape. */
  datatype SourceTrack =
    | Catalogue(id: string, name: string, artists: seq<SpotifyArtist>, album: SpotifyAlbum, durationMs: int)
    | Simplified(track: Track)

  function AlbumIdOf(src: SourceTrack): string {
    match src
    case Catalogue(_, _, _, album, _) => album.id
    case Simplified(t) => t.album.id
  }

  function FirstArtistIdOf(src: SourceTrack): Option<string> {
    match src
    case Catalogue(_, _, artists, _, _) => if |artists| > 0 then Some(artists[0].id) else None
    case Simplified(t) => if |t.artists| > 0 then Some(t.artists[0].id) else None
  }

  /** `trackData`: a catalogue track becomes a client track, with artist and album
      reduced to id and name, the album's images, and the duration in seconds; a
      client track is used as it is. */
  function TrackData(src: SourceTrack): (t: Track)
    ensures src.Simplified? ==> t == src.track
    ensures src.Catalogue? ==>
      t.id == src.id && t.name == src.name && t.images == src.album.images &&
      t.album == AlbumRef(src.album.id, src.album.name) &&
      t.duration == (src.durationMs as real) / 1000.0 &&
      |t.artists| == |src.artists| &&
      forall i :: 0 <= i < |src.artists| ==> t.artists[i] == ArtistRef(src.artists[i].id, src.artists[i].name)
  {
    match src
    case Catalogue(id, name, artists, album, durationMs) =>
      Track(id, album.images, name,
            seq(|artists|, i requires 0 <= i < |artists| => ArtistRef(artists[i].id, artists[i].name)),
            AlbumRef(album.id, album.name), (durationMs as real) / 1000.0)
    case Simplified(t) => t
  }

  /** Normalising keeps the ids the menu rules look at. */
  lemma TrackDataKeepsIds(src: SourceTrack)
    ensures TrackData(src).album.id == AlbumIdOf(src)
    ensures FirstArtistIdOf(src) == if |TrackData(src).artists| > 0 then Some(TrackData(src).artists[0].id) else None
  {
  }

  /** Normalising a track already in the client shape changes nothing, so doing it
      twice is doing it once. */
  lemma TrackDataIdempotent(src: SourceTrack)
    ensures TrackData(Simplified(TrackData(src))) == TrackData(src)
  {
  }

  // ---- actions -----------------------------------------------------------------

  /** `handleGoToAlbum`: always navigates. */
  function GoToAlbumRoute(t: Track): (r: string)
    ensures StartsWith(r, "/album/") && r[|"/album/"|..] == t.album.id
  {
    "/album/" + t.album.id
  }

  /** A route `/word/id` splits on '/' into "", the word and the id. */
  lemma RouteSplit(word: string, id: string)
    requires '/' !in word && '/' !in id
    ensures Split(['/'] + word + ['/'] + id, '/') == ["", word, id]
  {
    Regroup(word, id);
    SplitTwoHeads([], word, '/', id);
    SplitNoSep(id, '/');
  }

  /** The album page reads its id back as the third segment of the route. */
  lemma AlbumRouteParses(t: Track)
    requires '/' !in t.album.id
    ensures Split(GoToAlbumRoute(t), '/') == ["", "album", t.album.id]
  {
    assert "/album/" + t.album.id == ['/'] + "album" + ['/'] + t.album.id;
    RouteSplit("album", t.album.id);
  }

  /** Different albums lead to different routes. */
  lemma AlbumRouteInjective(t: Track, u: Track)
    requires GoToAlbumRoute(t) == GoToAlbumRoute(u)
    ensures t.album.id == u.album.id
  {
    assert t.album.id == GoToAlbumRoute(t)[|"/album/"|..];
  }

  /** `handleGoToArtist`: navigates only when the first artist has a non-empty id. */
  function GoToArtistRoute(t: Track): (r: Option<string>)
    ensures r.Some? <==> |t.artists| > 0 && t.artists[0].id != ""
    ensures r.Some? ==> StartsWith(r.value, "/artist/") && r.value[|"/artist/"|..] == t.artists[0].id
  {
    if |t.artists| > 0 && t.artists[0].id != "" then Some("/artist/" + t.artists[0].id) else None
  }

  /** The artist page reads its id back as the third segment of the route. */
  lemma ArtistRouteParses(t: Track)
    requires |t.artists| > 0 && t.artists[0].id != "" && '/' !in t.artists[0].id
    ensures GoToArtistRoute(t).Some?
    ensures Split(GoToArtistRoute(t).value, '/') == ["", "artist", t.artists[0].id]
  {
    var id := t.artists[0].id;
    assert "/artist/" + id == ['/'] + "artist" + ['/'] + id;
    RouteSplit("artist", id);
  }

  /** The request the heart button sends to `/api/favourites`. */
  datatype FavouriteRequest = AddFavourite(trackId: string) | RemoveFavourite(trackId: string)

  /** The heart button: remove when the id is among the favourites, add otherwise. */
  function HeartRequest(favourites: seq<string>, id: string): (r: FavouriteRequest)
    ensures r.trackId == id
    ensures r.RemoveFavourite? <==> id in favourites
  {
    if id in favourites then RemoveFavourite(id) else AddFavourite(id)
  }

  /** The favourites route applies the request to the favourite playlist's track list
      with the playlist operations (`$addToSet` or `$pull`). */
  function ApplyFavourite(tracks: seq<string>, req: FavouriteRequest): seq<string> {
    match req
    case AddFavourite(id) => Playlists.AddToSet(tracks, id)
    case RemoveFavourite(id) => Playlists.Pull(tracks, id)
  }

  /** One press flips the track's membership and leaves every other track where it was. */
  lemma HeartToggles(favourites: seq<string>, id: string)
    ensures var after := ApplyFavourite(favourites, HeartRequest(favourites, id));
      (id in after <==> id !in favourites) &&
      forall y :: y != id ==> (y in after <==> y in favourites)
  {
  }

  /** Two presses (with the list refreshed in between) restore the membership of every
      track. */
  lemma HeartTwiceRestores(favourites: seq<string>, id: string, y: string)
    ensures var once := ApplyFavourite(favourites, HeartRequest(favourites, id));
      var twice := ApplyFavourite(once, HeartRequest(once, id));
      y in twice <==> y in favourites
  {
    var once := ApplyFavourite(favourites, HeartRequest(favourites, id));
    HeartToggles(favourites, id);
    HeartToggles(once, id);
  }

  /** Removing a favourite that was the last one added and adding it back gives the
      same list. */
  lemma RemoveThenAddLast(t: seq<string>, id: string)
    requires id !in t
    ensures var s := t + [id];
      var once := ApplyFavourite(s, HeartRequest(s, id));
      ApplyFavourite(once, HeartRequest(once, id)) == s
  {
    var s := t + [id];
    assert s[..|s| - 1] == t;
  }

  // ---- menus -------------------------------------------------------------------

  datatype MenuItem = GoToAlbum | GoToArtist | AddToQueue | AddToPlaylist | Separator
                    | RemoveFromPlaylist(playlistId: string, trackId: string)

  function Count(items: seq<MenuItem>, m: MenuItem): (n: nat)
    ensures n > 0 <==> m in items
  {
    if |items| == 0 then 0
    else (if items[0] == m then 1 else 0) + Count(items[1..], m)
  }

  /** `!id?.startsWith('G-')`: an absent id counts as not starting with it. */
  predicate NotGenerated(id: Option<string>) {
    id.None? || !StartsWith(id.value, "G-")
  }

  /** `Go to album`, unless the album id starts with 'G-'. */
  function AlbumEntry(src: SourceTrack): seq<MenuItem> {
    if NotGenerated(Some(AlbumIdOf(src))) then [GoToAlbum] else []
  }

  /** The guarded `Go to artist`, unless the first artist id starts with 'G-'. */
  function ArtistEntry(src: SourceTrack): seq<MenuItem> {
    if NotGenerated(FirstArtistIdOf(src)) then [GoToArtist] else []
  }

  /** The entries after the artist entries, common to both desktop menus. */
  function DesktopTail(t: Track, playlistId: Option<string>): (r: seq<MenuItem>)
    ensures AddToQueue in r && GoToAlbum !in r && GoToArtist !in r && AddToPlaylist !in r
    ensures Separator in r <==> ShowRemove(playlistId)
    ensures forall m: MenuItem :: m.RemoveFromPlaylist? ==>
      (m in r <==> ShowRemove(playlistId) && m == RemoveFromPlaylist(playlistId.value, t.id))
    ensures |r| == (if ShowRemove(playlistId) then 3 else 1) && r[0] == AddToQueue
    ensures ShowRemove(playlistId) ==> r[1] == Separator && r[2] == RemoveFromPlaylist(playlistId.value, t.id)
  {
    [AddToQueue] + (if ShowRemove(playlistId) then [Separator, RemoveFromPlaylist(playlistId.value, t.id)] else [])
  }

  /** The desktop dropdown as written: album entry unless the album id starts with 'G-';
      an artist entry unless the first artist id does; then a second artist entry that
      is always there; add to queue; and, on a playlist page, a separator and remove.
      Adding to a playlist has its own dialog beside the dropdown. */
  function DesktopMenu(src: SourceTrack, playlistId: Option<string>): (r: seq<MenuItem>)
    ensures GoToAlbum in r <==> NotGenerated(Some(AlbumIdOf(src)))
    ensures AddToQueue in r && GoToArtist in r && AddToPlaylist !in r
    ensures Separator in r <==> ShowRemove(playlistId)
  {
    AlbumEntry(src) + ArtistEntry(src) + [GoToArtist] + DesktopTail(TrackData(src), playlistId)
  }

  /** The desktop dropdown with the artist entry once, under its 'G-' guard. */
  function DesktopMenuIntended(src: SourceTrack, playlistId: Option<string>): (r: seq<MenuItem>)
    ensures GoToAlbum in r <==> NotGenerated(Some(AlbumIdOf(src)))
    ensures AddToQueue in r && AddToPlaylist !in r
    ensures Separator in r <==> ShowRemove(playlistId)
  {
    AlbumEntry(src) + ArtistEntry(src) + DesktopTail(TrackData(src), playlistId)
  }

  lemma {:induction false} CountAppend(a: seq<MenuItem>, b: seq<MenuItem>, m: MenuItem)
    ensures Count(a + b, m) == Count(a, m) + Count(b, m)
  {
    if |a| == 0 {
      assert a + b == b;
    } else {
      assert (a + b)[1..] == a[1..] + b;
      CountAppend(a[1..], b, m);
    }
  }

  lemma CountTail(t: Track, playlistId: Option<string>)
    ensures Count(DesktopTail(t, playlistId), GoToArtist) == 0
  {
  }

  lemma CountEntries(src: SourceTrack)
    ensures Count(AlbumEntry(src), GoToArtist) == 0
    ensures Count(ArtistEntry(src), GoToArtist) == if NotGenerated(FirstArtistIdOf(src)) then 1 else 0
  {
  }

  /** As written, a 'G-' artist still gets an artist entry, and any other artist gets
      two. */
  lemma DesktopArtistEntries(src: SourceTrack, playlistId: Option<string>)
    ensures GoToArtist in DesktopMenu(src, playlistId)
    ensures Count(DesktopMenu(src, playlistId), GoToArtist) ==
      if NotGenerated(FirstArtistIdOf(src)) then 2 else 1
  {
    var a, b := AlbumEntry(src), ArtistEntry(src);
    var tail := DesktopTail(TrackData(src), playlistId);
    CountAppend(a + b + [GoToArtist], tail, GoToArtist);
    CountAppend(a + b, [GoToArtist], GoToArtist);
    CountAppend(a, b, GoToArtist);
    CountTail(TrackData(src), playlistId);
    CountEntries(src);
  }

  /** A catalogue track by an artist whose id does not start with 'G-' shows the artist
      entry twice. */
  lemma DuplicateArtistEntry()
    ensures var src := Catalogue("t1", "Song", [SpotifyArtist("a1", "Artist", "")],
                                 SpotifyAlbum("b1", "Album", []), 180000);
      Count(DesktopMenu(src, None), GoToArtist) == 2
  {
    var src := Catalogue("t1", "Song", [SpotifyArtist("a1", "Artist", "")],
                         SpotifyAlbum("b1", "Album", []), 180000);
    assert !StartsWith("a1", "G-") by { assert "a1"[0] != "G-"[0]; }
    DesktopArtistEntries(src, None);
  }

  /** Intended: the artist entry appears at most once, and exactly when the first artist
      id does not start with 'G-'. */
  lemma DesktopIntendedArtistEntry(src: SourceTrack, playlistId: Option<string>)
    ensures Count(DesktopMenuIntended(src, playlistId), GoToArtist) <= 1
    ensures GoToArtist in DesktopMenuIntended(src, playlistId) <==> NotGenerated(FirstArtistIdOf(src))
  {
    var a, b := AlbumEntry(src), ArtistEntry(src);
    var tail := DesktopTail(TrackData(src), playlistId);
    CountAppend(a + b, tail, GoToArtist);
    CountAppend(a, b, GoToArtist);
    CountTail(TrackData(src), playlistId);
    CountEntries(src);
  }

  /** The mobile sheet: album, artist, add to queue and add to playlist always; remove
      on a playlist page. */
  function MobileMenu(t: Track, playlistId: Option<string>): (r: seq<MenuItem>)
    ensures GoToAlbum in r && GoToArtist in r && AddToQueue in r && AddToPlaylist in r
    ensures Separator !in r
    ensures |r| == if ShowRemove(playlistId) then 5 else 4
  {
    [GoToAlbum, GoToArtist, AddToQueue, AddToPlaylist] +
    (if ShowRemove(playlistId) then [RemoveFromPlaylist(playlistId.value, t.id)] else [])
  }

  /** Both menus offer removal exactly on a page whose playlist id is truthy, and then
      for that playlist and this row's track only. */
  lemma RemoveOffered(src: SourceTrack, playlistId: Option<string>, m: MenuItem)
    requires m.RemoveFromPlaylist?
    ensures m in DesktopMenuIntended(src, playlistId) <==>
      ShowRemove(playlistId) && m == RemoveFromPlaylist(playlistId.value, TrackData(src).id)
    ensures m in DesktopMenu(src, playlistId) <==>
      ShowRemove(playlistId) && m == RemoveFromPlaylist(playlistId.value, TrackData(src).id)
    ensures m in MobileMenu(TrackData(src), playlistId) <==>
      ShowRemove(playlistId) && m == RemoveFromPlaylist(playlistId.value, TrackData(src).id)
  {
    var head := AlbumEntry(src) + ArtistEntry(src);
    assert m !in head && m !in [GoToArtist];
    assert DesktopMenu(src, playlistId) == head + [GoToArtist] + DesktopTail(TrackData(src), playlistId);
  }

  // ---- the row's own state ---------------------------------------------------------

  /** The row's two sheet flags. */
  class TrackItemView {
    var isSheetOpen: bool
    var isPlaylistSheetOpen: bool

    constructor ()
      ensures !isSheetOpen && !isPlaylistSheetOpen
    {
      isSheetOpen, isPlaylistSheetOpen := false, false;
    }

    /** `handleAddToQueue`: the queue becomes the old queue with this track appended;
        the sheet closes. */
    method HandleAddToQueue(player: Player, src: SourceTrack)
      modifies this, player
      ensures player.State() == old(player.State()).(playlist := old(player.playlist) + [TrackData(src)])
      ensures !isSheetOpen && isPlaylistSheetOpen == old(isPlaylistSheetOpen)
    {
      player.SetPlaylist(player.playlist + [TrackData(src)]);
      isSheetOpen := false;
    }

    /** `handleAddToPlaylist`: swaps the action sheet for the playlist picker. */
    method HandleAddToPlaylist()
      modifies this
      ensures isPlaylistSheetOpen && !isSheetOpen
    {
      isPlaylistSheetOpen := true;
      isSheetOpen := false;
    }

    /** `handlePlayTrack`: plays the normalised track. */
    method HandlePlayTrack(player: Player, src: SourceTrack)
      modifies player, player.audio
      ensures player.State() == AfterPlay(old(player.State()), TrackData(src))
      ensures player.audio != null ==>
        player.audio.State() == AudioAfterPlay(old(player.audio.State()), TrackData(src))
    {
      player.PlayTrack(TrackData(src));
    }
  }

  /** Adding to the queue keeps every earlier entry in place and puts the track last. */
  lemma AddToQueueAppends(queue: seq<Track>, src: SourceTrack)
    ensures var q := queue + [TrackData(src)];
      |q| == |queue| + 1 && q[..|queue|] == queue && q[|queue|] == TrackData(src)
  {
  }
}

/** Playlist operations of src/lib/playlist.ts over an abstract document store:
    playlists by their `id`, each holding the ids of its tracks, and the set of
    track ids that have a stored track record. Status/message pairs are the
    source's `ErrorType` results. */
module Playlists {
  import opened Wrappers
  import opened Tracks

  datatype Response = Response(status: int, message: string, data: Option<string>)

  const InternalError := Response(500, "Internal server error", None)
  const PlaylistNotFound := Response(404, "Playlist not found", None)

  datatype PlaylistDoc = PlaylistDoc(name: string, userId: string, tracks: seq<string>)

  /** What `saveTrackMetadata(trackId)` answered, and whether a track record exists afterwards. */
  datatype SaveOutcome = SaveOutcome(response: Response, stored: bool)

  predicate NoDuplicates(s: seq<string>) {
    forall i, j :: 0 <= i < j < |s| ==> s[i] != s[j]
  }

  /** MongoDB's `$addToSet` on an array field. */
  function AddToSet(s: seq<string>, x: string): (r: seq<string>)
    ensures x in r
    ensures forall y :: y in s ==> y in r
    ensures forall y :: y in r ==> y in s || y == x
    ensures NoDuplicates(s) ==> NoDuplicates(r)
    ensures x in s ==> r == s
    ensures x !in s ==> r == s + [x]
  {
    if x in s then s else s + [x]
  }

  /** MongoDB's `$pull` of one value: every occurrence goes, the rest keeps its order. */
  function Pull(s: seq<string>, x: string): (r: seq<string>)
    ensures x !in r
    ensures forall y :: y != x ==> (y in r <==> y in s)
    ensures x !in s ==> r == s
    ensures |r| <= |s|
    ensures forall y :: y != x ==> multiset(r)[y] == multiset(s)[y]
  {
    if |s| == 0 then []
    else
      assert s == s[..|s| - 1] + [s[|s| - 1]];
      if s[|s| - 1] == x then Pull(s[..|s| - 1], x)
      else
        assert forall y :: y in s <==> y in s[..|s| - 1] || y == s[|s| - 1];
        Pull(s[..|s| - 1], x) + [s[|s| - 1]]
  }

  /** Pulling from a concatenation pulls from each part: the values kept stay in the
      order they had. */
  lemma {:induction false} PullAppend(a: seq<string>, b: seq<string>, x: string)
    ensures Pull(a + b, x) == Pull(a, x) + Pull(b, x)
    decreases |b|
  {
    if |b| == 0 {
      assert a + b == a;
    } else {
      var b' := b[..|b| - 1];
      assert (a + b)[..|a + b| - 1] == a + b';
      PullAppend(a, b', x);
    }
  }

  /** One value is dropped exactly when it is the pulled one. */
  lemma PullSingle(y: string, x: string)
    ensures Pull([y], x) == if y == x then [] else [y]
  {
    assert [y][..0] == [];
  }

  /** Adding a track that was not in a playlist and then removing it restores the list. */
  lemma PullAddToSet(s: seq<string>, x: string)
    requires x !in s
    ensures Pull(AddToSet(s, x), x) == s
  {
    assert (s + [x])[..|s|] == s;
  }

  class PlaylistStore {
    var playlists: map<string, PlaylistDoc>
    /** Ids of the tracks with a stored track record. */
    var tracks: set<string>

    constructor (playlists: map<string, PlaylistDoc>, tracks: set<string>)
      ensures this.playlists == playlists && this.tracks == tracks
    {
      this.playlists, this.tracks := playlists, tracks;
    }

    /** `createPlaylist(name, userId)`; `freshId` is the dash-free uuid, and `fails`
        says that the insert throws. */
    method CreatePlaylist(name: string, userId: string, freshId: string, fails: bool) returns (r: Response)
      requires freshId !in playlists
      modifies this
      ensures tracks == old(tracks)
      ensures fails ==> r == InternalError && playlists == old(playlists)
      ensures !fails ==>
        r == Response(200, "Playlist created successfully", Some(freshId)) &&
        playlists == old(playlists)[freshId := PlaylistDoc(name, userId, [])]
    {
      if fails {
        return InternalError;
      }
      playlists := playlists[freshId := PlaylistDoc(name, userId, [])];
      r := Response(200, "Playlist created successfully", Some(freshId));
    }

    /** `deletePlaylist(playlistId)`. */
    method DeletePlaylist(playlistId: string) returns (r: Response)
      modifies this
      ensures tracks == old(tracks)
      ensures playlistId !in old(playlists) ==> r == PlaylistNotFound && playlists == old(playlists)
      ensures playlistId in old(playlists) ==>
        r == Response(200, "Playlist deleted successfully", None) &&
        playlists == old(playlists) - {playlistId}
    {
      if playlistId !in playlists {
        return PlaylistNotFound;
      }
      playlists := playlists - {playlistId};
      r := Response(200, "Playlist deleted successfully", None);
    }

    /** `addTrackToPlaylist(playlistId, trackId)`. A track without a stored record is
        first saved through `save`; that happens before the playlist is looked up. */
    method AddTrackToPlaylist(playlistId: string, trackId: string, save: SaveOutcome) returns (r: Response)
      modifies this
      // the metadata save, for an unknown track
      ensures trackId !in old(tracks) && save.response.status != 200 ==>
        r == save.response && tracks == old(tracks) && playlists == old(playlists)
      ensures trackId !in old(tracks) && save.response.status == 200 && !save.stored ==>
        r == Response(500, "Failed to retrieve track metadata", None) &&
        tracks == old(tracks) && playlists == old(playlists)
      ensures trackId !in old(tracks) && save.response.status == 200 && save.stored ==>
        tracks == old(tracks) + {trackId}
      ensures trackId in old(tracks) ==> tracks == old(tracks)
      // with a track record in hand
      ensures trackId in tracks && playlistId !in old(playlists) ==>
        r == PlaylistNotFound && playlists == old(playlists)
      ensures trackId in tracks && playlistId in old(playlists) &&
              trackId in old(playlists)[playlistId].tracks ==>
        r == Response(200, "Track already exists in the playlist", None) &&
        playlists == old(playlists)
      ensures trackId in tracks && playlistId in old(playlists) &&
              trackId !in old(playlists)[playlistId].tracks ==>
        var doc := old(playlists)[playlistId];
        r == Response(200, "Track added to playlist successfully", None) &&
        playlists == old(playlists)[playlistId := doc.(tracks := AddToSet(doc.tracks, trackId))]
    {
      if trackId !in tracks {
        if save.response.status != 200 {
          return save.response;
        }
        if save.stored {
          tracks := tracks + {trackId};
        }
        if trackId !in tracks {
          return Response(500, "Failed to retrieve track metadata", None);
        }
      }

      if playlistId !in playlists {
        return PlaylistNotFound;
      }
      var doc := playlists[playlistId];
      if trackId in doc.tracks {
        return Response(200, "Track already exists in the playlist", None);
      }

      playlists := playlists[playlistId := doc.(tracks := AddToSet(doc.tracks, trackId))];
      r := Response(200, "Track added to playlist successfully", None);
    }

    /** `removeTrackFromPlaylist(playlistId, trackId)`. */
    method RemoveTrackFromPlaylist(playlistId: string, trackId: string) returns (r: Response)
      modifies this
      ensures tracks == old(tracks)
      ensures playlistId !in old(playlists) ==> r == PlaylistNotFound && playlists == old(playlists)
      ensures playlistId in old(playlists) && trackId !in old(tracks) ==>
        r == Response(404, "Track not found", None) && playlists == old(playlists)
      ensures playlistId in old(playlists) && trackId in old(tracks) &&
              trackId !in old(playlists)[playlistId].tracks ==>
        r == Response(404, "Track not found in the playlist", None) && playlists == old(playlists)
      ensures playlistId in old(playlists) && trackId in old(tracks) &&
              trackId in old(playlists)[playlistId].tracks ==>
        var doc := old(playlists)[playlistId];
        r == Response(200, "Track removed from playlist successfully", None) &&
        playlists == old(playlists)[playlistId := doc.(tracks := Pull(doc.tracks, trackId))]
    {
      if playlistId !in playlists {
        return PlaylistNotFound;
      }
      if trackId !in tracks {
        return Response(404, "Track not found", None);
      }
      var doc := playlists[playlistId];
      if trackId !in doc.tracks {
        return Response(404, "Track not found in the playlist", None);
      }
      playlists := playlists[playlistId := doc.(tracks := Pull(doc.tracks, trackId))];
      r := Response(200, "Track removed from playlist successfully", None);
    }
  }

  // ---- listing: cover images and total duration -----------------------------

  /** A populated track as the listing sees it. */
  datatype StoredTrack = StoredTrack(id: string, images: seq<Image>, duration: real)

  datatype PopulatedPlaylist = PopulatedPlaylist(id: string, name: string, userId: string, tracks: seq<StoredTrack>)

  datatype Summary = Summary(id: string, name: string, length: nat, duration: real, images: seq<Option<string>>)

  /** `Math.floor(n * f)` for the cover fraction f = k / 5, in exact arithmetic. */
  function CoverIndex(n: nat, k: nat): (r: nat)
    requires 1 <= k <= 4
    ensures n > 0 ==> r < n
  {
    var r := n * k / 5;
    assert r * 5 <= n * k;
    assert n > 0 ==> n * k < n * 5;
    r
  }

  /** The four cover indices move strictly upwards once there are four tracks. */
  lemma CoverIndexIncreasing(n: nat, k: nat)
    requires n >= 4 && 1 <= k <= 3
    ensures CoverIndex(n, k) < CoverIndex(n, k + 1)
  {
    if n == 4 {
      assert CoverIndex(n, k) == k - 1 && CoverIndex(n, k + 1) == k;
    } else {
      var a, b := n * k, n * (k + 1);
      assert b == a + n;
      assert a / 5 * 5 <= a;
      assert b >= a + 5;
      assert (a + 5) / 5 == a / 5 + 1;
    }
  }

  /** `[0.2, 0.4, 0.6, 0.8].map(f => Math.floor(n * f)).filter(i => i < n)`, in exact
      arithmetic. The filter never removes anything once there is a track. */
  function ImageIndices(n: nat): (r: seq<nat>)
    ensures n == 0 ==> r == []
    ensures n >= 1 ==> r == [CoverIndex(n, 1), CoverIndex(n, 2), CoverIndex(n, 3), CoverIndex(n, 4)]
    ensures forall i :: 0 <= i < |r| ==> r[i] < n
    ensures n >= 4 ==> forall i, j :: 0 <= i < j < |r| ==> r[i] < r[j]
  {
    var all := [CoverIndex(n, 1), CoverIndex(n, 2), CoverIndex(n, 3), CoverIndex(n, 4)];
    if n >= 4 then
      CoverIndexIncreasing(n, 1);
      CoverIndexIncreasing(n, 2);
      CoverIndexIncreasing(n, 3);
      FilterBelow(all, n)
    else
      FilterBelow(all, n)
  }

  function FilterBelow(s: seq<nat>, n: nat): (r: seq<nat>)
    ensures forall i :: 0 <= i < |r| ==> r[i] < n
    ensures (forall i :: 0 <= i < |s| ==> s[i] < n) ==> r == s
    ensures n == 0 ==> r == []
  {
    if |s| == 0 then []
    else (if s[0] < n then [s[0]] else []) + FilterBelow(s[1..], n)
  }

  /** `track.images[0]?.url`. */
  function FirstImageUrl(t: StoredTrack): Option<string> {
    if |t.images| > 0 then Some(t.images[0].url) else None
  }

  /** Keeps the truthy entries (`filter(Boolean)`): defined, non-empty URLs. */
  function Truthy(s: seq<Option<string>>): (r: seq<Option<string>>)
    ensures |r| <= |s|
    ensures forall i :: 0 <= i < |r| ==> r[i].Some? && r[i].value != "" && r[i] in s
    ensures forall i :: 0 <= i < |s| && s[i].Some? && s[i].value != "" ==> s[i] in r
  {
    if |s| == 0 then []
    else
      var rest := Truthy(s[1..]);
      assert forall i :: 1 <= i < |s| ==> s[i] == s[1..][i - 1];
      if s[0].Some? && s[0].value != "" then [s[0]] + rest else rest
  }

  /** Every defined, non-empty URL is kept as often as it occurs. */
  lemma {:induction false} TruthyCounts(s: seq<Option<string>>)
    ensures forall u: Option<string> :: u.Some? && u.value != "" ==> multiset(Truthy(s))[u] == multiset(s)[u]
  {
    if |s| > 0 {
      assert s == [s[0]] + s[1..];
      TruthyCounts(s[1..]);
    }
  }

  /** The filter works entry by entry: what it keeps stays in its order. */
  lemma {:induction false} TruthyAppend(a: seq<Option<string>>, b: seq<Option<string>>)
    ensures Truthy(a + b) == Truthy(a) + Truthy(b)
    decreases |a|
  {
    if |a| == 0 {
      assert a + b == b;
    } else {
      assert (a + b)[1..] == a[1..] + b;
      TruthyAppend(a[1..], b);
    }
  }

  /** A list of defined, non-empty URLs passes through whole. */
  lemma {:induction false} TruthyKeepsAll(s: seq<Option<string>>)
    requires forall i :: 0 <= i < |s| ==> s[i].Some? && s[i].value != ""
    ensures Truthy(s) == s
  {
    if |s| > 0 {
      TruthyKeepsAll(s[1..]);
    }
  }

  /** When each of the four cover tracks has an image, the listing shows all four, in
      index order. */
  lemma CoverImagesAllFour(tracks: seq<StoredTrack>)
    requires |tracks| >= 4
    requires forall i :: 0 <= i < 4 ==> CoverCandidates(tracks)[i].Some? && CoverCandidates(tracks)[i].value != ""
    ensures CoverImages(tracks) == CoverCandidates(tracks)
  {
    TruthyKeepsAll(CoverCandidates(tracks));
  }

  /** One entry is kept exactly when it is a defined, non-empty URL. */
  lemma TruthySingle(u: Option<string>)
    ensures Truthy([u]) == if u.Some? && u.value != "" then [u] else []
  {
    assert [u][1..] == [];
  }

  /** The first image of each of the four cover tracks, in index order. */
  function CoverCandidates(tracks: seq<StoredTrack>): (r: seq<Option<string>>)
    requires |tracks| >= 4
    ensures |r| == 4
  {
    var n := |tracks|;
    [FirstImageUrl(tracks[CoverIndex(n, 1)]), FirstImageUrl(tracks[CoverIndex(n, 2)]),
     FirstImageUrl(tracks[CoverIndex(n, 3)]), FirstImageUrl(tracks[CoverIndex(n, 4)])]
  }

  /** The cover images of a playlist: with four tracks or more, the first image of the
      tracks at the four cover indices, blanks dropped; with fewer, one entry per track. */
  function CoverImages(tracks: seq<StoredTrack>): (r: seq<Option<string>>)
    ensures |tracks| >= 4 ==> r == Truthy(CoverCandidates(tracks))
    ensures |tracks| >= 4 ==>
      |r| <= 4 &&
      forall i :: 0 <= i < |r| ==>
        r[i].Some? && r[i].value != "" &&
        exists k :: 1 <= k <= 4 && r[i] == FirstImageUrl(tracks[CoverIndex(|tracks|, k)])
    ensures |tracks| < 4 ==>
      |r| == |tracks| && forall i :: 0 <= i < |r| ==> r[i] == FirstImageUrl(tracks[i])
  {
    var n := |tracks|;
    if n >= 4 then
      var idx := ImageIndices(n);
      var urls := seq(|idx|, i requires 0 <= i < |idx| => FirstImageUrl(tracks[idx[i]]));
      CoverUrls(tracks, urls);
      assert urls == CoverCandidates(tracks);
      Truthy(urls)
    else
      seq(n, i requires 0 <= i < n => FirstImageUrl(tracks[i]))
  }

  /** Every URL picked at the cover indices is the first image of a cover track. */
  lemma CoverUrls(tracks: seq<StoredTrack>, urls: seq<Option<string>>)
    requires |tracks| >= 4 && |urls| == 4
    requires urls[0] == FirstImageUrl(tracks[CoverIndex(|tracks|, 1)])
    requires urls[1] == FirstImageUrl(tracks[CoverIndex(|tracks|, 2)])
    requires urls[2] == FirstImageUrl(tracks[CoverIndex(|tracks|, 3)])
    requires urls[3] == FirstImageUrl(tracks[CoverIndex(|tracks|, 4)])
    ensures forall u :: u in urls ==>
      exists k :: 1 <= k <= 4 && u == FirstImageUrl(tracks[CoverIndex(|tracks|, k)])
  {
    forall u | u in urls
      ensures exists k :: 1 <= k <= 4 && u == FirstImageUrl(tracks[CoverIndex(|tracks|, k)])
    {
      var j :| 0 <= j < 4 && urls[j] == u;
      assert u == FirstImageUrl(tracks[CoverIndex(|tracks|, j + 1)]);
    }
  }

  /** `tracks.reduce((acc, t) => acc + t.duration, 0)`. */
  function TotalDuration(tracks: seq<StoredTrack>): real {
    if |tracks| == 0 then 0.0
    else TotalDuration(tracks[..|tracks| - 1]) + tracks[|tracks| - 1].duration
  }

  lemma {:induction false} TotalDurationAppend(a: seq<StoredTrack>, b: seq<StoredTrack>)
    ensures TotalDuration(a + b) == TotalDuration(a) + TotalDuration(b)
    decreases |b|
  {
    if |b| > 0 {
      assert (a + b)[..|a + b| - 1] == a + b[..|b| - 1];
      TotalDurationAppend(a, b[..|b| - 1]);
    } else {
      assert a + b == a;
    }
  }

  lemma {:induction false} TotalDurationNonNegative(tracks: seq<StoredTrack>)
    requires forall i :: 0 <= i < |tracks| ==> tracks[i].duration >= 0.0
    ensures TotalDuration(tracks) >= 0.0
  {
    if |tracks| > 0 {
      TotalDurationNonNegative(tracks[..|tracks| - 1]);
    }
  }

  function Summarize(p: PopulatedPlaylist): Summary {
    Summary(p.id, p.name, |p.tracks|, TotalDuration(p.tracks), CoverImages(p.tracks))
  }

  /** The listing part of `getPlaylists` for the user `userId` whose favourites playlist
      is `favourite`: every playlist of that user except the favourites, in store order. */
  function ListPlaylists(all: seq<PopulatedPlaylist>, userId: string, favourite: string): (r: seq<Summary>)
    ensures |r| <= |all|
    ensures forall s :: s in r ==>
      exists p :: p in all && p.userId == userId && p.id != favourite && s == Summarize(p)
    ensures forall p :: p in all && p.userId == userId && p.id != favourite ==> Summarize(p) in r
  {
    if |all| == 0 then []
    else
      var rest := ListPlaylists(all[1..], userId, favourite);
      assert forall p :: p in all <==> p == all[0] || p in all[1..];
      if all[0].userId == userId && all[0].id != favourite then [Summarize(all[0])] + rest else rest
  }

  /** `getPlaylists()`: null without a signed-in user. */
  function GetPlaylists(user: Option<(string, string)>, all: seq<PopulatedPlaylist>): (r: Option<seq<Summary>>)
    ensures r.Some? <==> user.Some?
    ensures r.Some? ==> forall s :: s in r.value ==> s.id != user.value.1
    ensures user.Some? ==> r.value == ListPlaylists(all, user.value.0, user.value.1)
  {
    match user
    case None => None
    case Some((userId, favourite)) => Some(ListPlaylists(all, userId, favourite))
  }
}

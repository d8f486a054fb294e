/** The client-side playback engine of src/app/playback-context.tsx: the
    provider's state, its callbacks and the keyboard navigation hook. The
    `<audio>` element is an `Audio` object that may be absent (`audioRef.current`
    is null before the player bar mounts); the prefetch `fetch` is recorded as
    the list of track ids whose download was requested. */
module Playback {
  import opened Wrappers
  import opened Strings
  import opened Tracks
  import Uri

  datatype Panel = Sidebar | Tracklist

  /** The `<audio>` element. */
  class Audio {
    var src: string
    var paused: bool
    var currentTime: real
    var volume: real

    constructor ()
      ensures src == "" && paused && currentTime == 0.0 && volume == 1.0
    {
      src, paused, currentTime, volume := "", true, 0.0, 1.0;
    }

    ghost function State(): AudioState
      reads this
    {
      AudioState(src, paused, currentTime, volume)
    }

    /** `audio.src = url; audio.play()`. Assigning `src` runs the media element's load
        algorithm, which sets the playback position back to 0; `play()` unpauses. The
        volume is kept. */
    method Start(url: string)
      modifies this
      ensures State() == old(State()).(src := url, paused := false, currentTime := 0.0)
    {
      src := url;
      currentTime := 0.0;
      paused := false;
    }
  }

  datatype AudioState = AudioState(src: string, paused: bool, currentTime: real, volume: real)

  /** Everything the provider holds, as one value for stating what a callback changes. */
  datatype PlayerState = PlayerState(
    isPlaying: bool,
    currentTrack: Option<Track>,
    currentTime: real,
    duration: real,
    playlist: seq<Track>,
    isLoading: bool,
    activePanel: Panel,
    panelRefs: set<Panel>,
    downloadRequests: seq<string>)

  // ---- index arithmetic -----------------------------------------------------

  /** JavaScript's `%` on integers: truncates toward zero, the sign follows the dividend. */
  function JsRem(a: int, n: int): (r: int)
    requires n > 0
    ensures a >= 0 ==> r == a % n
    ensures a < 0 ==> r <= 0
    ensures -n < r < n
    ensures (a - r) % n == 0
  {
    if a >= 0 then
      MultipleMod(n, a / n);
      assert a - a % n == n * (a / n);
      a % n
    else
      var q, m := (-a) / n, (-a) % n;
      assert a + m == n * (-q);
      MultipleMod(n, -q);
      -m
  }

  /** A multiple of `n` leaves no remainder. */
  lemma MultipleMod(n: int, k: int)
    requires n > 0
    ensures (n * k) % n == 0
  {
    var q, r := (n * k) / n, (n * k) % n;
    var d := k - q;
    assert n * d == r by {
      assert n * k == n * q + r;
      assert n * d == n * k - n * q;
    }
    // 0 <= n * d < n leaves d == 0
    if d >= 1 {
      assert false;
    } else if d <= -1 {
      assert false;
    }
  }

  /** `queue.findIndex(t => t.id === id)`: the first position holding `id`, or -1. */
  function FindIndex(q: seq<Track>, id: string): (r: int)
    ensures -1 <= r < |q|
    ensures r >= 0 ==> q[r].id == id && forall j :: 0 <= j < r ==> q[j].id != id
    ensures r == -1 <==> forall j :: 0 <= j < |q| ==> q[j].id != id
  {
    if |q| == 0 then -1
    else if q[0].id == id then 0
    else
      var k := FindIndex(q[1..], id);
      assert forall j :: 1 <= j < |q| ==> q[j] == q[1..][j - 1];
      if k == -1 then -1 else k + 1
  }

  /** In a queue with distinct ids, a track is found at its own position. */
  lemma FindIndexDistinct(q: seq<Track>, j: int)
    requires DistinctIds(q) && 0 <= j < |q|
    ensures FindIndex(q, q[j].id) == j
  {
  }

  /** `(currentIndex + 1) % length`, where the current index may be -1 (not queued). */
  function NextIndex(i: int, n: int): (r: int)
    requires n > 0 && -1 <= i < n
    ensures 0 <= r < n
    ensures i + 1 < n ==> r == i + 1
    ensures i == n - 1 ==> r == 0
  {
    JsRem(i + 1, n)
  }

  /** `(currentIndex - 1 + length) % length`, with JavaScript's `%`. With the current
      index -1 this lands on the second-to-last entry, or on the only one. */
  function PrevIndex(i: int, n: int): (r: int)
    requires n > 0 && -1 <= i < n
    ensures 0 <= r < n
    ensures i >= 1 ==> r == i - 1
    ensures i == 0 ==> r == n - 1
    ensures i == -1 ==> r == if n >= 2 then n - 2 else 0
  {
    PrevRem(i, n);
    JsRem(i - 1 + n, n)
  }

  lemma PrevRem(i: int, n: int)
    requires n > 0 && -1 <= i < n
    ensures JsRem(i - 1 + n, n) ==
      if i >= 1 then i - 1 else if i == 0 then n - 1 else if n >= 2 then n - 2 else 0
  {
    if i >= 1 {
      RemAfterWrap(i - 1, n);
    } else if i == 0 {
      RemBelow(n - 1, n);
    } else if n >= 2 {
      RemBelow(n - 2, n);
    } else {
      assert JsRem(-1, 1) == 0;
    }
  }

  lemma RemBelow(x: int, n: int)
    requires 0 <= x < n
    ensures JsRem(x, n) == x
  {
    assert x / n == 0;
  }

  lemma RemAfterWrap(x: int, n: int)
    requires 0 <= x < n
    ensures JsRem(x + n, n) == x
  {
    assert x + n == n * 1 + x;
  }

  lemma PrevAfterNext(i: int, n: int)
    requires n > 0 && 0 <= i < n
    ensures PrevIndex(NextIndex(i, n), n) == i
  {
    if i + 1 < n {
      assert NextIndex(i, n) == i + 1;
    }
  }

  // ---- queue navigation, as functions of the state ---------------------------

  /** The track `playNextTrack` plays, or None when it does nothing. */
  function NextTrack(q: seq<Track>, current: Option<Track>): (r: Option<Track>)
    ensures r.Some? <==> current.Some? && |q| > 0
    ensures r.Some? ==> r.value in q
  {
    if current.Some? && |q| > 0 then Some(q[NextIndex(FindIndex(q, current.value.id), |q|)])
    else None
  }

  /** The track `playPreviousTrack` plays, or None when it does nothing. */
  function PreviousTrack(q: seq<Track>, current: Option<Track>): (r: Option<Track>)
    ensures r.Some? <==> current.Some? && |q| > 0
    ensures r.Some? ==> r.value in q
  {
    if current.Some? && |q| > 0 then Some(q[PrevIndex(FindIndex(q, current.value.id), |q|)])
    else None
  }

  /** Next plays the entry after the current one, wrapping from the last to the first;
      with the current track not queued it plays the first entry. */
  lemma NextTrackWraps(q: seq<Track>, t: Track)
    requires |q| > 0
    ensures var i := FindIndex(q, t.id);
      NextTrack(q, Some(t)) == Some(if i == -1 || i == |q| - 1 then q[0] else q[i + 1])
  {
    var i := FindIndex(q, t.id);
    var j := NextIndex(i, |q|);
    assert NextTrack(q, Some(t)) == Some(q[j]);
  }

  /** Previous plays the entry before the current one, wrapping from the first to the last. */
  lemma PreviousTrackWraps(q: seq<Track>, i: int)
    requires DistinctIds(q) && 0 <= i < |q|
    ensures PreviousTrack(q, Some(q[i])) == Some(if i == 0 then q[|q| - 1] else q[i - 1])
  {
    FindIndexDistinct(q, i);
  }

  /** With distinct queue ids, next followed by previous comes back to the same track. */
  lemma NextThenPrevious(q: seq<Track>, t: Track)
    requires DistinctIds(q) && t in q
    ensures NextTrack(q, Some(t)).Some?
    ensures PreviousTrack(q, NextTrack(q, Some(t))) == Some(t)
  {
    var i :| 0 <= i < |q| && q[i] == t;
    FindIndexDistinct(q, i);
    var j := NextIndex(i, |q|);
    assert NextTrack(q, Some(t)) == Some(q[j]);
    FindIndexDistinct(q, j);
    PrevAfterNext(i, |q|);
  }

  /** With distinct queue ids, previous followed by next comes back to the same track. */
  lemma PreviousThenNext(q: seq<Track>, t: Track)
    requires DistinctIds(q) && t in q
    ensures PreviousTrack(q, Some(t)).Some?
    ensures NextTrack(q, PreviousTrack(q, Some(t))) == Some(t)
  {
    var i :| 0 <= i < |q| && q[i] == t;
    FindIndexDistinct(q, i);
    var j := PrevIndex(i, |q|);
    assert PreviousTrack(q, Some(t)) == Some(q[j]);
    FindIndexDistinct(q, j);
  }

  /** The download `playTrack` asks for ahead of time: the entry after the first
      occurrence of `id`, when that occurrence is not the last entry. */
  function PrefetchFor(q: seq<Track>, id: string): (r: seq<string>)
    ensures |r| <= 1
  {
    if |q| == 0 then []
    else
      var i := FindIndex(q, id);
      if i != -1 && i < |q| - 1 then [q[i + 1].id] else []
  }

  /** A download is requested exactly when the first occurrence of `id` has an entry
      after it, and it is that entry's id. */
  lemma PrefetchOnlyAfterFirst(q: seq<Track>, id: string)
    ensures |PrefetchFor(q, id)| == 1 <==>
      exists i :: 0 <= i < |q| - 1 && q[i].id == id && forall j :: 0 <= j < i ==> q[j].id != id
    ensures |PrefetchFor(q, id)| == 1 ==>
      exists i :: 0 <= i < |q| - 1 && q[i].id == id && PrefetchFor(q, id)[0] == q[i + 1].id
  {
    if |q| > 0 {
      var i := FindIndex(q, id);
      if i != -1 && i < |q| - 1 {
        assert q[i].id == id && forall j :: 0 <= j < i ==> q[j].id != id;
      }
    }
  }

  /** The URL of a track's audio stream. */
  function SongRoute(id: string): string {
    "/api/track/" + id + "/song"
  }

  const AudioRoute := "/api/audio/"

  /** `getAudioSrc`: a `file://` URL becomes `/api/audio/` plus the encoded text after
      its last '/'; every other URL is returned as it is. */
  function GetAudioSrc(url: string): (r: string)
    ensures !StartsWith(url, "file://") ==> r == url
    ensures StartsWith(url, "file://") ==> StartsWith(r, AudioRoute)
  {
    if StartsWith(url, "file://") then AudioRoute + Uri.EncodeURIComponent(LastSegment(url, '/'))
    else url
  }

  /** A local file is served by name from the audio route: what follows the route is
      the encoding of the file name after the URL's last '/', and it holds no further
      '/', so the route sees a single path segment. */
  lemma GetAudioSrcFile(url: string)
    requires StartsWith(url, "file://")
    ensures var name := LastSegment(url, '/');
      '/' !in name && |name| < |url| && url[|url| - |name| - 1] == '/' && url[|url| - |name|..] == name &&
      GetAudioSrc(url)[|AudioRoute|..] == Uri.EncodeURIComponent(name) &&
      '/' !in GetAudioSrc(url)[|AudioRoute|..]
  {
    var name := LastSegment(url, '/');
    assert url[6] == '/';
    EncodedNameHasNoSlash(name);
    AfterPrefix(AudioRoute, Uri.EncodeURIComponent(name));
  }

  lemma EncodedNameHasNoSlash(name: string)
    ensures '/' !in Uri.EncodeURIComponent(name)
  {
    Uri.EncodedHasNoDelimiters(name);
  }

  lemma AfterPrefix(prefix: string, rest: string)
    ensures (prefix + rest)[|prefix|..] == rest
  {
  }

  /** The song route of any id is left alone by `getAudioSrc`. */
  lemma SongRouteUnchanged(id: string)
    ensures GetAudioSrc(SongRoute(id)) == SongRoute(id)
  {
    assert SongRoute(id)[0] == '/';
    NotFileUrl(SongRoute(id));
  }

  lemma NotFileUrl(url: string)
    requires |url| > 0 && url[0] == '/'
    ensures !StartsWith(url, "file://")
  {
    assert "file://"[0] == 'f';
  }

  /** The state after `playTrack(t)`. */
  function AfterPlay(s: PlayerState, t: Track): PlayerState {
    s.(currentTrack := Some(t), isPlaying := true, currentTime := 0.0,
       activePanel := Tracklist,
       downloadRequests := s.downloadRequests + PrefetchFor(s.playlist, t.id))
  }

  /** The `<audio>` element after `playTrack(t)`: pointed at the song, back at its
      start, and playing. */
  function AudioAfterPlay(a: AudioState, t: Track): AudioState {
    a.(src := SongRoute(t.id), paused := false, currentTime := 0.0)
  }

  /** The auto-advance effect's condition. A zero duration (not yet known) does not hold it back. */
  predicate ShouldAutoAdvance(currentTime: real, duration: real, current: Option<Track>) {
    currentTime >= duration && current.Some? && currentTime > 0.0
  }

  /** Playing a track starts the element and the provider at the same position, 0, so
      a newly played track is never advanced past at once, whatever the old element
      position and whatever duration is reported. */
  lemma PlayStartsAtZero(s: PlayerState, a: AudioState, t: Track, duration: real)
    ensures AudioAfterPlay(a, t).currentTime == AfterPlay(s, t).currentTime == 0.0
    ensures AudioAfterPlay(a, t).volume == a.volume
    ensures !ShouldAutoAdvance(AudioAfterPlay(a, t).currentTime, duration, AfterPlay(s, t).currentTrack)
  {
  }

  // ---- keyboard navigation -------------------------------------------------

  datatype NavResult = NoChange | Focus(index: nat) | Throws

  /** The focus move of `handleKeyNavigation` over `itemCount` focusable items, of which
      the one at `focused` has focus (-1: none). With no items a move key throws: the
      item at a NaN index is undefined and `.focus()` is called on it. */
  function KeyNavigation(key: string, itemCount: nat, focused: int): (r: NavResult)
    requires focused == -1 || 0 <= focused < itemCount
    ensures key !in {"ArrowDown", "j", "ArrowUp", "k"} ==> r == NoChange
    ensures key in {"ArrowDown", "j", "ArrowUp", "k"} && itemCount == 0 ==> r == Throws
    ensures key in {"ArrowDown", "j"} && itemCount > 0 ==>
      r == Focus(if focused + 1 < itemCount then focused + 1 else 0)
    ensures key in {"ArrowUp", "k"} && itemCount > 0 ==>
      r == Focus(if focused >= 1 then focused - 1
                 else if focused == 0 || itemCount == 1 then itemCount - 1
                 else itemCount - 2)
  {
    if key == "ArrowDown" || key == "j" then
      if itemCount == 0 then Throws else Focus(NextIndex(focused, itemCount))
    else if key == "ArrowUp" || key == "k" then
      if itemCount == 0 then Throws else Focus(PrevIndex(focused, itemCount))
    else NoChange
  }

  /** Down then up over the same items returns focus to the item that had it. */
  lemma DownThenUp(itemCount: nat, focused: nat)
    requires focused < itemCount
    ensures KeyNavigation("ArrowDown", itemCount, focused).Focus?
    ensures KeyNavigation("ArrowUp", itemCount, KeyNavigation("ArrowDown", itemCount, focused).index)
            == Focus(focused)
  {
    PrevAfterNext(focused, itemCount);
  }

  // ---- the provider ----------------------------------------------------------

  class Player {
    var isPlaying: bool
    var currentTrack: Option<Track>
    var currentTime: real
    var duration: real
    var playlist: seq<Track>
    var isLoading: bool
    var activePanel: Panel
    /** Panels whose ref has been registered. */
    var panelRefs: set<Panel>
    /** Ids of the tracks whose download `playTrack` requested, in order. */
    var downloadRequests: seq<string>
    /** `audioRef.current`. */
    const audio: Audio?

    ghost function State(): PlayerState
      reads this
    {
      PlayerState(isPlaying, currentTrack, currentTime, duration, playlist, isLoading,
                  activePanel, panelRefs, downloadRequests)
    }

    constructor (audio: Audio?)
      ensures this.audio == audio
      ensures State() == PlayerState(false, None, 0.0, 0.0, [], false, Sidebar, {}, [])
    {
      this.audio := audio;
      isPlaying, currentTrack, currentTime, duration := false, None, 0.0, 0.0;
      playlist, isLoading, activePanel, panelRefs, downloadRequests := [], false, Sidebar, {}, [];
    }

    /** `togglePlayPause`: with an audio element, pause it when playing and play it
        otherwise, and flip `isPlaying`; without one, nothing happens. */
    method TogglePlayPause()
      modifies this, audio
      ensures audio != null ==> State() == old(State()).(isPlaying := !old(isPlaying))
      ensures audio != null ==> audio.State() == old(audio.State()).(paused := old(isPlaying))
      ensures audio == null ==> State() == old(State())
    {
      if audio != null {
        if isPlaying {
          audio.paused := true;
        } else {
          audio.paused := false;
        }
        isPlaying := !isPlaying;
      }
    }

    /** `playTrack(track)`. */
    method PlayTrack(track: Track)
      modifies this, audio
      ensures State() == AfterPlay(old(State()), track)
      ensures audio != null ==> audio.State() == AudioAfterPlay(old(audio.State()), track)
    {
      currentTrack := Some(track);
      isPlaying := true;
      currentTime := 0.0;
      if audio != null {
        SongRouteUnchanged(track.id);
        audio.Start(GetAudioSrc(SongRoute(track.id)));
      }
      downloadRequests := downloadRequests + PrefetchFor(playlist, track.id);
      activePanel := Tracklist;
    }

    /** `playNextTrack`: a no-op without a current track or with an empty queue. */
    method PlayNextTrack()
      modifies this, audio
      ensures var n := NextTrack(old(playlist), old(currentTrack));
        State() == if n.Some? then AfterPlay(old(State()), n.value) else old(State())
      ensures audio != null ==>
        var n := NextTrack(old(playlist), old(currentTrack));
        audio.State() == if n.Some? then AudioAfterPlay(old(audio.State()), n.value) else old(audio.State())
    {
      if currentTrack.Some? && |playlist| > 0 {
        var currentIndex := FindIndex(playlist, currentTrack.value.id);
        var nextIndex := JsRem(currentIndex + 1, |playlist|);
        assert nextIndex == NextIndex(currentIndex, |playlist|);
        assert NextTrack(playlist, currentTrack) == Some(playlist[nextIndex]);
        PlayTrack(playlist[nextIndex]);
      }
    }

    /** `playPreviousTrack`: a no-op without a current track or with an empty queue. */
    method PlayPreviousTrack()
      modifies this, audio
      ensures var p := PreviousTrack(old(playlist), old(currentTrack));
        State() == if p.Some? then AfterPlay(old(State()), p.value) else old(State())
      ensures audio != null ==>
        var p := PreviousTrack(old(playlist), old(currentTrack));
        audio.State() == if p.Some? then AudioAfterPlay(old(audio.State()), p.value) else old(audio.State())
    {
      if currentTrack.Some? && |playlist| > 0 {
        var currentIndex := FindIndex(playlist, currentTrack.value.id);
        var previousIndex := JsRem(currentIndex - 1 + |playlist|, |playlist|);
        assert previousIndex == PrevIndex(currentIndex, |playlist|);
        assert PreviousTrack(playlist, currentTrack) == Some(playlist[previousIndex]);
        PlayTrack(playlist[previousIndex]);
      }
    }

    /** The auto-advance effect: plays the next track once the position has reached the
        duration. Having advanced, the condition no longer holds, so the effect does
        not fire again for the same position. */
    method AutoAdvance() returns (advanced: bool)
      modifies this, audio
      ensures advanced == ShouldAutoAdvance(old(currentTime), old(duration), old(currentTrack))
      ensures var n := NextTrack(old(playlist), old(currentTrack));
        State() == if advanced && n.Some? then AfterPlay(old(State()), n.value) else old(State())
      ensures audio != null ==>
        var n := NextTrack(old(playlist), old(currentTrack));
        audio.State() == if advanced && n.Some? then AudioAfterPlay(old(audio.State()), n.value)
                         else old(audio.State())
      ensures advanced && |playlist| > 0 ==> !ShouldAutoAdvance(currentTime, duration, currentTrack)
    {
      advanced := currentTime >= duration && currentTrack.Some? && currentTime > 0.0;
      if advanced {
        PlayNextTrack();
      }
    }

    /** The global key handler: space on the page body toggles playback; '/' anywhere
        moves focus to the search box (`focusSearch`). */
    method GlobalKeyDown(key: string, targetIsBody: bool) returns (focusSearch: bool)
      modifies this, audio
      ensures focusSearch <==> key == "/"
      ensures key == " " && targetIsBody && audio != null ==>
        State() == old(State()).(isPlaying := !old(isPlaying))
      ensures key == " " && targetIsBody && audio != null ==>
        audio.State() == old(audio.State()).(paused := old(isPlaying))
      ensures !(key == " " && targetIsBody && audio != null) ==> State() == old(State())
      ensures audio != null && !(key == " " && targetIsBody) ==> audio.State() == old(audio.State())
    {
      focusSearch := false;
      if key == " " && targetIsBody {
        TogglePlayPause();
      } else if key == "/" {
        focusSearch := true;
      }
    }

    /** `registerPanelRef`. */
    method RegisterPanelRef(panel: Panel)
      modifies this
      ensures State() == old(State()).(panelRefs := old(panelRefs) + {panel})
    {
      panelRefs := panelRefs + {panel};
    }

    /** `handleKeyNavigation(e, panel)`: nothing happens unless the panel's ref was
        registered and points at a mounted element; `focused` is the index of the
        focused element among the panel's `itemCount` focusable items. */
    method HandleKeyNavigation(panel: Panel, key: string, mounted: bool, itemCount: nat, focused: int)
      returns (r: NavResult)
      requires focused == -1 || 0 <= focused < itemCount
      ensures panel !in panelRefs || !mounted ==> r == NoChange
      ensures panel in panelRefs && mounted ==> r == KeyNavigation(key, itemCount, focused)
    {
      if panel !in panelRefs || !mounted {
        return NoChange;
      }
      r := KeyNavigation(key, itemCount, focused);
    }

    /** A `POST /api/track/{id}/download` issued on the provider's behalf. */
    method RequestDownload(id: string)
      modifies this
      ensures State() == old(State()).(downloadRequests := old(downloadRequests) + [id])
    {
      downloadRequests := downloadRequests + [id];
    }

    method SetActivePanel(panel: Panel)
      modifies this
      ensures State() == old(State()).(activePanel := panel)
    {
      activePanel := panel;
    }

    method SetPlaylist(tracks: seq<Track>)
      modifies this
      ensures State() == old(State()).(playlist := tracks)
    {
      playlist := tracks;
    }

    method SetCurrentTime(time: real)
      modifies this
      ensures State() == old(State()).(currentTime := time)
    {
      currentTime := time;
    }

    method SetDuration(d: real)
      modifies this
      ensures State() == old(State()).(duration := d)
    {
      duration := d;
    }

    method SetIsLoading(b: bool)
      modifies this
      ensures State() == old(State()).(isLoading := b)
    {
      isLoading := b;
    }

    method SetIsPlaying(b: bool)
      modifies this
      ensures State() == old(State()).(isPlaying := b)
    {
      isPlaying := b;
    }
  }
}

/** The player bar of src/components/player-bar.tsx: its text helpers, the
    progress and volume bars, the media-session handlers and the check-then-
    download step run whenever the current track changes. The handlers act on
    the provider (`Playback.Player`) and its `<audio>` element. */
module PlayerBar {
  import opened Wrappers
  import opened Strings
  import opened Tracks
  import opened Playback

  // ---- removeParenthesesContent ------------------------------------------------

  /** The shortest interior the pattern `\([^)]{17,}\)` removes, in UTF-16 code
      units: without the `u` flag the class `[^)]` matches one code unit, so a
      character above U+FFFF counts twice. */
  const MinGroupInterior: nat := 17

  /** `s` begins with a '(' whose interior up to the next ')' is long enough to be removed. */
  predicate LongGroupStart(s: string) {
    |s| > 0 && s[0] == '(' && IndexOf(s[1..], ')') >= 0
    && Utf16Length(s[1..][..IndexOf(s[1..], ')')]) >= MinGroupInterior
  }

  /** No match of the pattern starts anywhere in `s`. */
  predicate NoLongGroup(s: string) {
    forall i :: 0 <= i < |s| ==> !LongGroupStart(s[i..])
  }

  /** What follows the closing ')' of a long group at the front of `s`. */
  function AfterLongGroup(s: string): (rest: string)
    requires LongGroupStart(s)
    ensures |rest| < |s|
  {
    s[IndexOf(s[1..], ')') + 2..]
  }

  /** `text.replace(/\([^)]{17,}\)/g, '')`: scanning left to right, each '(' whose next
      ')' lies 17 or more code units further on is deleted together with that ')' and
      everything between; nothing else changes. */
  function RemoveParenthesesContent(s: string): string
    decreases |s|
  {
    if |s| == 0 then ""
    else if LongGroupStart(s) then RemoveParenthesesContent(AfterLongGroup(s))
    else
      [s[0]] + RemoveParenthesesContent(s[1..])
  }

  /** The replacement only deletes: every character left was in the input. */
  lemma {:induction false} RemovedCharsFromInput(s: string)
    ensures forall c :: c in RemoveParenthesesContent(s) ==> c in s
    decreases |s|
  {
    if |s| == 0 {
    } else if LongGroupStart(s) {
      DropsLongGroup(s);
      RemovedCharsFromInput(AfterLongGroup(s));
    } else {
      RemovedCharsFromInput(s[1..]);
    }
  }

  /** A long group at the front goes, with its closing parenthesis. */
  lemma RemovesLongGroup(interior: string, after: string)
    requires ')' !in interior && Utf16Length(interior) >= MinGroupInterior
    ensures RemoveParenthesesContent("(" + interior + ")" + after) == RemoveParenthesesContent(after)
  {
    var s := "(" + interior + ")" + after;
    var t := interior + ")" + after;
    assert s[1..] == t;
    assert t[|interior|] == ')';
    assert t[..|interior|] == interior;
    IndexOfAt(t, ')', |interior|);
    assert LongGroupStart(s);
    assert AfterLongGroup(s) == after;
  }

  /** A long group at the front is dropped. */
  lemma DropsLongGroup(s: string)
    requires LongGroupStart(s)
    ensures RemoveParenthesesContent(s) == RemoveParenthesesContent(AfterLongGroup(s))
  {
  }

  /** Without a long group at the front, the first character is kept. */
  lemma KeepsHead(t: string)
    requires |t| > 0 && !LongGroupStart(t)
    ensures RemoveParenthesesContent(t) == [t[0]] + RemoveParenthesesContent(t[1..])
  {
  }

  /** A ')' fewer than 17 code units ahead, with no ')' before it, means `t` does
      not start a long group. */
  lemma ShortGroupNotLong(t: string, k: nat)
    requires k < |t| && Utf16Length(t[..k]) < MinGroupInterior && t[k] == ')' && ')' !in t[..k]
    ensures !LongGroupStart(t)
  {
    if k > 0 && t[0] == '(' {
      assert t[1..][..k - 1] == t[..k][1..];
      IndexOfAt(t[1..], ')', k - 1);
    }
  }

  /** The interior after the head is no longer in code units than the whole prefix. */
  lemma ShortPrefixUnits(t: string, k: nat)
    requires 0 < k <= |t|
    ensures Utf16Length(t[1..][..k - 1]) <= Utf16Length(t[..k])
  {
    assert t[1..][..k - 1] == t[..k][1..];
  }

  lemma ShortPrefixShift(t: string, k: nat)
    requires 0 < k < |t| && t[k] == ')' && ')' !in t[..k]
    ensures t[1..][k - 1] == ')' && ')' !in t[1..][..k - 1]
    ensures t[1..][k..] == t[k + 1..] && t[..k + 1] == [t[0]] + t[1..][..k]
  {
    assert t[1..][..k - 1] == t[..k][1..];
  }

  lemma PrefixStep(t: string, k: nat, ru: string, rest: string)
    requires 0 < k < |t| && ru == t[1..][..k] + rest
    ensures [t[0]] + ru == t[..k + 1] + rest
  {
    assert t[..k + 1] == [t[0]] + t[1..][..k];
  }

  /** Text up to and including a ')' fewer than 17 code units ahead, with no ')'
      before it, is kept as it is: a short group survives. */
  lemma {:induction false} KeepsShortPrefix(t: string, k: nat)
    requires k < |t| && Utf16Length(t[..k]) < MinGroupInterior && t[k] == ')' && ')' !in t[..k]
    ensures RemoveParenthesesContent(t) == t[..k + 1] + RemoveParenthesesContent(t[k + 1..])
  {
    ShortGroupNotLong(t, k);
    KeepsHead(t);
    var u := t[1..];
    if k == 0 {
      assert t[..1] == [t[0]];
    } else {
      ShortPrefixShift(t, k);
      ShortPrefixUnits(t, k);
      KeepsShortPrefix(u, k - 1);
      PrefixStep(t, k, RemoveParenthesesContent(u), RemoveParenthesesContent(t[k + 1..]));
    }
  }

  /** Prepending a character that starts no long group keeps a text free of them. */
  lemma ConsNoLongGroup(c: char, rest: string)
    requires NoLongGroup(rest) && !LongGroupStart([c] + rest)
    ensures NoLongGroup([c] + rest)
  {
    var r := [c] + rest;
    forall i | 0 <= i < |r| ensures !LongGroupStart(r[i..]) {
      if i == 0 {
        assert r[0..] == r;
      } else {
        assert r[i..] == rest[i - 1..];
      }
    }
  }

  /** A kept first character does not start a long group in the output either: the
      ')' that closed it early is still the first ')' after it. */
  lemma KeptHeadNotLong(s: string)
    requires |s| > 0 && !LongGroupStart(s)
    ensures !LongGroupStart([s[0]] + RemoveParenthesesContent(s[1..]))
  {
    var t := s[1..];
    var rest := RemoveParenthesesContent(t);
    var r := [s[0]] + rest;
    assert r[1..] == rest;
    if s[0] == '(' {
      var k := IndexOf(t, ')');
      if k == -1 {
        RemovedCharsFromInput(t);
        assert ')' !in rest;
      } else {
        KeepsShortPrefix(t, k);
        assert rest[k] == ')' && rest[..k] == t[..k];
        IndexOfAt(rest, ')', k);
      }
    }
  }

  /** What the replacement leaves holds no further match. */
  lemma {:induction false} RemovedHasNoLongGroup(s: string)
    ensures NoLongGroup(RemoveParenthesesContent(s))
    decreases |s|
  {
    if |s| == 0 {
    } else if LongGroupStart(s) {
      DropsLongGroup(s);
      RemovedHasNoLongGroup(AfterLongGroup(s));
    } else {
      RemovedHasNoLongGroup(s[1..]);
      KeptHeadNotLong(s);
      ConsNoLongGroup(s[0], RemoveParenthesesContent(s[1..]));
    }
  }

  /** Text without a match is returned unchanged. */
  lemma {:induction false} NoLongGroupUnchanged(s: string)
    requires NoLongGroup(s)
    ensures RemoveParenthesesContent(s) == s
    decreases |s|
  {
    if |s| > 0 {
      assert s[0..] == s;
      forall i | 0 <= i < |s| - 1 ensures !LongGroupStart(s[1..][i..]) {
        assert s[1..][i..] == s[i + 1..];
      }
      NoLongGroupUnchanged(s[1..]);
    }
  }

  /** A title without '(' is left as it is. */
  lemma NoOpenParenUnchanged(s: string)
    requires '(' !in s
    ensures RemoveParenthesesContent(s) == s
  {
    forall i | 0 <= i < |s| ensures !LongGroupStart(s[i..]) {
      assert s[i..][0] == s[i];
    }
    NoLongGroupUnchanged(s);
  }

  /** Applying the replacement twice is the same as applying it once. */
  lemma RemoveParenthesesIdempotent(s: string)
    ensures RemoveParenthesesContent(RemoveParenthesesContent(s)) == RemoveParenthesesContent(s)
  {
    RemovedHasNoLongGroup(s);
    NoLongGroupUnchanged(RemoveParenthesesContent(s));
  }

  // ---- formatTime ------------------------------------------------------------------

  /** `n` '0' characters. */
  function Zeros(n: nat): (z: string)
    ensures |z| == n
    ensures forall i :: 0 <= i < n ==> z[i] == '0'
  {
    seq(n, _ => '0')
  }

  /** `r` is `x` preceded by nothing but '0's. */
  predicate ZeroPadded(r: string, x: string) {
    |x| <= |r| && r == Zeros(|r| - |x|) + x
  }

  /** `x.padStart(2, '0')`: `x` itself, preceded by as many '0's as bring it to two. */
  function PadTwo(x: string): (r: string)
    ensures |r| == if |x| >= 2 then |x| else 2
    ensures ZeroPadded(r, x)
  {
    if |x| >= 2 then x else Zeros(2 - |x|) + x
  }

  /** JavaScript's `t % 60` on numbers: the remainder truncated toward zero. */
  function JsRem60(t: real): real {
    var q := t / 60.0;
    var trunc := if q >= 0.0 then q.Floor else -((-q).Floor);
    t - 60.0 * (trunc as real)
  }

  /** `formatTime(t)`: whole minutes, ':', whole seconds padded to two digits. */
  function FormatTime(t: real): string {
    var minutes := (t / 60.0).Floor;
    var seconds := JsRem60(t).Floor;
    IntToString(minutes) + ":" + PadTwo(IntToString(seconds))
  }

  /** Reads an `m:ss` clock back as a number of seconds. */
  function ParseClock(s: string): Option<int> {
    var i := IndexOf(s, ':');
    if i < 0 then None
    else
      var secs := s[i + 1..];
      match (ParseNat(s[..i]), ParseNat(secs))
      case (Some(m), Some(sec)) =>
        if |secs| == 2 && sec < 60 then Some(m * 60 + sec) else None
      case _ => None
  }

  /** For t >= 0 the minutes and seconds fields split the whole seconds of t, with the
      seconds field in 0..59. */
  lemma ClockFields(t: real, m: int, sec: int)
    requires t >= 0.0 && m == (t / 60.0).Floor && sec == JsRem60(t).Floor
    ensures m >= 0 && 0 <= sec < 60 && m * 60 + sec == t.Floor
  {
    assert (m as real) <= t / 60.0 < (m as real) + 1.0;
    assert 60.0 * (m as real) <= t < 60.0 * (m as real) + 60.0;
    var rem := JsRem60(t);
    assert rem == t - 60.0 * (m as real);
    assert (sec as real) <= rem < (sec as real) + 1.0;
    assert ((m * 60 + sec) as real) <= t < ((m * 60 + sec) as real) + 1.0;
  }

  lemma TwoDigitField(sec: nat)
    requires sec < 60
    ensures |PadTwo(NatToString(sec))| == 2
    ensures ParseNat(PadTwo(NatToString(sec))) == Some(sec)
  {
    if sec < 10 {
      assert PadTwo(NatToString(sec)) == ['0', DigitChar(sec)];
      assert ['0', DigitChar(sec)][..1] == ['0'];
    } else {
      assert NatToString(sec) == NatToString(sec / 10) + [DigitChar(sec % 10)];
      ParseNatToString(sec);
    }
  }

  /** A clock reads back from its first ':' when its fields parse. */
  lemma ParseClockFields(ms: string, ss: string, m: nat, sec: nat)
    requires ':' !in ms && ParseNat(ms) == Some(m)
    requires |ss| == 2 && ParseNat(ss) == Some(sec) && sec < 60
    ensures ParseClock(ms + ":" + ss) == Some(m * 60 + sec)
  {
    var s := ms + ":" + ss;
    assert s[|ms|] == ':' && s[..|ms|] == ms;
    IndexOfAt(s, ':', |ms|);
    assert s[|ms| + 1..] == ss;
  }

  /** A clock of `m` minutes and `sec` seconds reads back as `m * 60 + sec`. */
  lemma ClockReadsBack(m: nat, sec: nat)
    requires sec < 60
    ensures ParseClock(NatToString(m) + ":" + PadTwo(NatToString(sec))) == Some(m * 60 + sec)
  {
    var ms := NatToString(m);
    assert ':' !in ms by {
      forall i | 0 <= i < |ms| ensures ms[i] != ':' { assert IsDigit(ms[i]); }
    }
    ParseNatToString(m);
    TwoDigitField(sec);
    ParseClockFields(ms, PadTwo(NatToString(sec)), m, sec);
  }

  /** The formatted clock of a non-negative time is built from its two fields. */
  lemma FormatTimeFields(t: real, m: nat, sec: nat)
    requires m == (t / 60.0).Floor && sec == JsRem60(t).Floor
    ensures FormatTime(t) == NatToString(m) + ":" + PadTwo(NatToString(sec))
  {
  }

  /** The formatted clock reads back as its minutes times 60 plus its seconds. */
  lemma FormattedReadsBack(t: real, m: nat, sec: nat)
    requires m == (t / 60.0).Floor && sec == JsRem60(t).Floor && sec < 60
    ensures ParseClock(FormatTime(t)) == Some(m * 60 + sec)
  {
    FormatTimeFields(t, m, sec);
    ClockReadsBack(m, sec);
  }

  /** For t >= 0, reading the formatted clock back gives the whole seconds of t. */
  lemma FormatTimeRoundTrip(t: real)
    requires t >= 0.0
    ensures ParseClock(FormatTime(t)) == Some(t.Floor)
  {
    var m := (t / 60.0).Floor;
    var sec := JsRem60(t).Floor;
    ClockFields(t, m, sec);
    var n: nat := m * 60 + sec;
    FormattedReadsBack(t, m, sec);
    assert n == t.Floor;
  }

  // ---- media session -----------------------------------------------------------

  /** The media-session artist line: the first two artist names joined by ", ". */
  function MediaArtist(t: Track): (r: string)
    ensures |t.artists| == 0 ==> r == ""
    ensures |t.artists| == 1 ==> r == t.artists[0].name
    ensures |t.artists| >= 2 ==> r == t.artists[0].name + ", " + t.artists[1].name
  {
    var firstTwo := t.artists[..if |t.artists| < 2 then |t.artists| else 2];
    var names := seq(|firstTwo|, i requires 0 <= i < |firstTwo| => firstTwo[i].name);
    assert |names| == 2 ==> names[0] == t.artists[0].name && names[1] == t.artists[1].name;
    assert |names| == 2 ==> Join(names, ", ") == names[0] + ", " + Join(names[1..], ", ");
    assert |names| == 2 ==> names[1..] == [names[1]];
    Join(names, ", ")
  }

  /** The `seekto` action handler: with an audio element and a seek time, the element's
      position and the reported position both become that time. */
  method SeekTo(player: Player, seekTime: Option<real>)
    modifies player, player.audio
    ensures player.audio != null && seekTime.Some? ==>
      player.State() == old(player.State()).(currentTime := seekTime.value) &&
      player.audio.State() == old(player.audio.State()).(currentTime := seekTime.value)
    ensures !(player.audio != null && seekTime.Some?) ==> player.State() == old(player.State())
    ensures player.audio != null && seekTime.None? ==> player.audio.State() == old(player.audio.State())
  {
    if player.audio != null && seekTime.Some? {
      player.audio.currentTime := seekTime.value;
      player.SetCurrentTime(seekTime.value);
    }
  }

  /** The `play` action handler: `audio.play()` and then `togglePlayPause()`; when the
      provider already thought it was playing, the toggle pauses again. */
  method MediaPlay(player: Player)
    modifies player, player.audio
    ensures player.audio != null ==>
      player.State() == old(player.State()).(isPlaying := !old(player.isPlaying)) &&
      player.audio.State() == old(player.audio.State()).(paused := old(player.isPlaying))
    ensures player.audio == null ==> player.State() == old(player.State())
  {
    if player.audio != null {
      player.audio.paused := false;
    }
    player.TogglePlayPause();
  }

  /** The `pause` action handler: `audio.pause()` and then `togglePlayPause()`. */
  method MediaPause(player: Player)
    modifies player, player.audio
    ensures player.audio != null ==>
      player.State() == old(player.State()).(isPlaying := !old(player.isPlaying)) &&
      player.audio.State() == old(player.audio.State()).(paused := old(player.isPlaying))
    ensures player.audio == null ==> player.State() == old(player.State())
  {
    if player.audio != null {
      player.audio.paused := true;
    }
    player.TogglePlayPause();
  }

  /** The `timeupdate` listener: the reported position follows the element's. */
  method TimeUpdate(player: Player)
    requires player.audio != null
    modifies player
    ensures player.State() == old(player.State()).(currentTime := player.audio.currentTime)
  {
    player.SetCurrentTime(player.audio.currentTime);
  }

  /** The `loadedmetadata` listener: the duration is the current track's, or 0. */
  method LoadedMetadata(player: Player)
    modifies player
    ensures player.State() == old(player.State()).(duration :=
      if old(player.currentTrack).Some? then old(player.currentTrack).value.duration else 0.0)
  {
    var d := if player.currentTrack.Some? then player.currentTrack.value.duration else 0.0;
    player.SetDuration(d);
  }

  // ---- progress and volume bars -------------------------------------------------

  /** `Math.max(0, Math.min(100, (x / width) * 100))` for a click at `clientX` on a bar
      starting at `left`. */
  function ClickPercentage(clientX: real, left: real, width: real): (p: real)
    requires width > 0.0
    ensures 0.0 <= p <= 100.0
    ensures clientX <= left ==> p == 0.0
    ensures clientX >= left + width ==> p == 100.0
  {
    var raw := ((clientX - left) / width) * 100.0;
    assert clientX >= left + width ==> (clientX - left) / width >= 1.0;
    if raw > 100.0 then 100.0 else if raw < 0.0 then 0.0 else raw
  }

  /** `(percentage / 100) * duration`: a position inside the track. */
  function SeekTarget(percentage: real, duration: real): (t: real)
    requires 0.0 <= percentage <= 100.0
    ensures duration >= 0.0 ==> 0.0 <= t <= duration
    ensures percentage == 0.0 ==> t == 0.0
    ensures percentage == 100.0 ==> t == duration
  {
    var f := percentage / 100.0;
    assert 0.0 <= f <= 1.0;
    assert duration >= 0.0 ==> f * duration <= 1.0 * duration;
    f * duration
  }

  /** `handleProgressChange`: a click on the bar moves both the element and the
      reported position to the same point of the track. */
  method HandleProgressChange(player: Player, barMounted: bool, clientX: real, left: real, width: real)
    requires width > 0.0
    modifies player, player.audio
    ensures barMounted && player.audio != null ==>
      var t := SeekTarget(ClickPercentage(clientX, left, width), old(player.duration));
      player.State() == old(player.State()).(currentTime := t) &&
      player.audio.State() == old(player.audio.State()).(currentTime := t)
    ensures !(barMounted && player.audio != null) ==> player.State() == old(player.State())
    ensures !barMounted && player.audio != null ==> player.audio.State() == old(player.audio.State())
  {
    if barMounted && player.audio != null {
      var percentage := ClickPercentage(clientX, left, width);
      var newTime := SeekTarget(percentage, player.duration);
      player.audio.currentTime := newTime;
      player.SetCurrentTime(newTime);
    }
  }

  /** The element volume the volume effect sets: 0 when muted, else the percentage / 100. */
  function EffectiveVolume(volume: real, isMuted: bool): real {
    if isMuted then 0.0 else volume / 100.0
  }

  /** The volume control's own state. */
  class VolumeControl {
    var volume: real
    var isMuted: bool

    ghost predicate Valid()
      reads this
    {
      0.0 <= volume <= 100.0
    }

    /** The element's volume agrees with this control. */
    ghost predicate Synced(audio: Audio?)
      reads this, audio
    {
      audio != null ==> audio.volume == EffectiveVolume(volume, isMuted)
    }

    constructor ()
      ensures Valid() && volume == 100.0 && !isMuted
    {
      volume, isMuted := 100.0, false;
    }

    /** The effect run when `volume` or `isMuted` changes. */
    method SyncVolume(audio: Audio?)
      modifies audio
      ensures Synced(audio)
      ensures audio != null ==> audio.State() == old(audio.State()).(volume := EffectiveVolume(volume, isMuted))
    {
      if audio != null {
        audio.volume := if isMuted then 0.0 else volume / 100.0;
      }
    }

    /** `handleVolumeChange`: the clicked percentage becomes the volume, muted exactly
        when it is 0, and the element follows at once. */
    method HandleVolumeChange(audio: Audio?, barMounted: bool, clientX: real, left: real, width: real)
      requires Valid() && width > 0.0
      modifies this, audio
      ensures Valid()
      ensures barMounted ==>
        volume == ClickPercentage(clientX, left, width) && isMuted == (volume == 0.0) && Synced(audio)
      ensures barMounted && audio != null ==> audio.State() == old(audio.State()).(volume := volume / 100.0)
      ensures !barMounted ==> volume == old(volume) && isMuted == old(isMuted)
      ensures !barMounted && audio != null ==> audio.State() == old(audio.State())
    {
      if barMounted {
        var percentage := ClickPercentage(clientX, left, width);
        volume := percentage;
        if audio != null {
          audio.volume := percentage / 100.0;
        }
        isMuted := percentage == 0.0;
      }
    }

    /** `toggleMute`: only with an audio element; flips the mute state, keeps the chosen
        volume, and sets the element to 0 or back to that volume. */
    method ToggleMute(audio: Audio?)
      requires Valid()
      modifies this, audio
      ensures Valid() && volume == old(volume)
      ensures audio != null ==> isMuted == !old(isMuted) && Synced(audio)
      ensures audio != null ==>
        audio.State() == old(audio.State()).(volume := EffectiveVolume(volume, isMuted))
      ensures audio == null ==> isMuted == old(isMuted)
    {
      if audio != null {
        if isMuted {
          audio.volume := volume / 100.0;
          isMuted := false;
        } else {
          audio.volume := 0.0;
          isMuted := true;
        }
      }
    }
  }

  // ---- checkSong -------------------------------------------------------------------

  /** How a `fetch` ends: an ok status, another status, or a rejected promise. */
  datatype FetchResult = FetchOk | FetchNotOk | FetchRejects

  /** `checkSong(track)`: probe the song route; when the probe is not ok, show loading,
      stop, request the download, and on success replay `track`. The replay does not
      check that `track` is still the current track. */
  method CheckSong(player: Player, track: Track, probe: FetchResult, download: FetchResult)
    modifies player, player.audio
    ensures probe != FetchNotOk ==> player.State() == old(player.State())
    ensures probe != FetchNotOk && player.audio != null ==> player.audio.State() == old(player.audio.State())
    ensures probe == FetchNotOk ==>
      var failed := old(player.State()).(isLoading := true, isPlaying := false,
                                          downloadRequests := old(player.downloadRequests) + [track.id]);
      player.State() == if download == FetchOk then AfterPlay(failed.(isLoading := false), track) else failed
    ensures probe == FetchNotOk && player.audio != null ==>
      player.audio.State() == if download == FetchOk then AudioAfterPlay(old(player.audio.State()), track)
                              else old(player.audio.State())
  {
    if probe == FetchNotOk {
      player.SetIsLoading(true);
      player.SetIsPlaying(false);
      player.RequestDownload(track.id);
      if download == FetchOk {
        player.SetIsLoading(false);
        player.PlayTrack(track);
      }
    }
  }
}

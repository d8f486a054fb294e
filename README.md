# musics — a verified model of the player, playlist and access core

This project models, in Dafny, the core of a self-hosted music streaming web
application: the client-side playback engine, the download-broker session, the
playlist store operations, the request gate in front of every page, the player
bar, one row of a track list, the "create playlist" dialog and the
authentication rules. One module per source file:

| module | source file | form |
|---|---|---|
| `Playback` | src/app/playback-context.tsx | class `Player` (the provider's state) over a nullable `Audio` element; queue arithmetic as functions |
| `WebSocket` | src/lib/web-socket.ts | class `BrokerConnection` holding the three module variables |
| `Playlists` | src/lib/playlist.ts | class `PlaylistStore` (documents by id); the listing rules as functions |
| `Middleware` | src/middleware.ts | pure: the redirect sanitiser and the per-request decision |
| `PlayerBar` | src/components/player-bar.tsx | pure text helpers; methods over `Player`; class `VolumeControl` |
| `TrackItem` | src/components/track-item.tsx | pure path parsing, track normalisation and menus; class `TrackItemView` |
| `CreatePlaylist` | src/components/dialog/CreatePlaylistDialog.tsx | class `CreatePlaylistDialog`; its outcome as a function |
| `Auth` | src/lib/auth.ts | pure accreditation, token and credential rules; class `UserStore` for sign-in |

Helper modules: `Wrappers` (`Option`), `Strings` (JavaScript `split`, `join`,
`split(...).pop()`, UTF-16 length, decimal digits), `Tracks` (the client track shape), `Uri`
(`encodeURIComponent` as UTF-8 percent-encoding, and the decoding of ASCII escapes).

JavaScript semantics are written out where they matter: `%` truncates toward
zero (`Playback.JsRem`, `PlayerBar.JsRem60`), `findIndex` answers -1,
`split` keeps empty parts, `||` skips every falsy value while `??` skips only
null/undefined (`Auth.Coalesce`), `trim` removes the full ECMAScript whitespace
set, `padStart` pads on the left, and string lengths, including the counted
repetitions of a regular expression without the `u` flag, are in UTF-16 code units
(`Strings.Utf16Length`: two for a character above U+FFFF). The media-session "previoustrack" and
"nexttrack" actions (src/components/player-bar.tsx:173-174) are bound directly to
`Player.PlayPreviousTrack` and `Player.PlayNextTrack`.

Where a description of the system and the code differ, the model follows the code:

- `getClientId` has no single-flight guard. `connectionPromise` is written but never
  read, so a second call during a handshake opens a second socket. The model
  records every socket opened.
- `checkSong` replays the track it probed once the download succeeds. It does not
  check that this track is still the current one.
- `handleKeyNavigation` with no focusable items does not do nothing: `x % 0` is
  NaN, `items[NaN]` is undefined, and `.focus()` on it throws
  (`Playback.KeyNavigation` answers `Throws`).
- With the current track not in the queue, "previous" lands on the second-to-last
  entry, because `(-1 - 1 + n) % n` is `n - 2`.
- `authorize` reads the user with a projection that lists `_id` but not `id`, on a
  lean record. The user it returns therefore has no `id` (`Auth.AuthUser.id` is `None`).

## Model

| member | source | states |
|---|---|---|
| Playback.JsRem | src/app/playback-context.tsx:116 | JavaScript `%`: the result has the dividend's sign and magnitude below the divisor, equals Euclidean `%` for a non-negative dividend, and differs from the dividend by a multiple of the divisor, which together fix its value |
| Playback.FindIndex | src/app/playback-context.tsx:115 | the result is the first position holding the id, and it is -1 exactly when no entry has that id |
| Playback.NextIndex | src/app/playback-context.tsx:116 | the next index stays in range: one more than the current index, wrapping from the last entry to 0, and 0 when the track is not queued |
| Playback.PrevIndex | src/app/playback-context.tsx:124 | the previous index stays in range: one less than the current index, wrapping from 0 to the last entry, and n-2 (or 0 when n is 1) when the track is not queued |
| Playback.PrevAfterNext | src/app/playback-context.tsx:113-127 | the previous index of the next index is the index you started from |
| Playback.NextTrack | src/app/playback-context.tsx:113-119 | "next" plays something exactly when there is a current track and the queue is non-empty, and what it plays is a queue entry |
| Playback.PreviousTrack | src/app/playback-context.tsx:121-127 | "previous" plays something exactly when there is a current track and the queue is non-empty, and what it plays is a queue entry |
| Playback.NextTrackWraps | src/app/playback-context.tsx:113-119 | next plays the entry after the current one, wrapping to the first; with the current track not queued it plays the first entry |
| Playback.PreviousTrackWraps | src/app/playback-context.tsx:121-127 | when queue ids are distinct, previous plays the entry before the current one, wrapping to the last |
| Playback.NextThenPrevious | src/app/playback-context.tsx:113-127 | when queue ids are distinct, "next" then "previous" returns to the queued track you started from |
| Playback.PreviousThenNext | src/app/playback-context.tsx:113-127 | when queue ids are distinct, "previous" then "next" returns to the queued track you started from |
| Playback.PrefetchOnlyAfterFirst | src/app/playback-context.tsx:100-107 | a download is requested exactly when the first occurrence of the played id has an entry after it, and it is for that entry |
| Playback.GetAudioSrc | src/app/playback-context.tsx:129-135 | a URL that is not a `file://` URL is returned unchanged; a `file://` URL is rewritten under `/api/audio/` |
| Playback.GetAudioSrcFile | src/app/playback-context.tsx:129-133 | a `file://` URL is served by the encoded text after its last '/'; that text follows a '/' and holds no '/', and neither does its encoding |
| Strings.LastSegment | src/app/playback-context.tsx:131 | `split('/').pop()` holds no '/' and is the suffix of the input after its last '/' (or the whole input) |
| Playback.SongRouteUnchanged | src/app/playback-context.tsx:97 | the song route of any track id passes through `getAudioSrc` unchanged |
| Playback.KeyNavigation | src/app/playback-context.tsx:50-63 | down/j moves focus to the next item, wrapping to 0; up/k moves to the previous item, wrapping to the last; any other key changes nothing; a move over no items throws |
| Playback.DownThenUp | src/app/playback-context.tsx:50-63 | down then up returns focus to the item that had it |
| Playback.Audio.Start | src/app/playback-context.tsx:97-98 | the element's source becomes the URL, its position returns to 0 (assigning `src` reloads the media) and it is no longer paused; its volume is kept |
| Playback.PlayStartsAtZero | src/app/playback-context.tsx:94-98 | after playing a track both the element and the player state sit at position 0, the element's volume is unchanged, and the auto-advance condition does not hold |
| Playback.Player.constructor | src/app/playback-context.tsx:70-76 | the provider starts stopped, with no track, time and duration 0, an empty queue, not loading, and the sidebar as the active panel |
| Playback.Player.TogglePlayPause | src/app/playback-context.tsx:80-89 | with an element: the element pauses when the provider was playing and plays otherwise, and `isPlaying` flips; without one, nothing changes |
| Playback.Player.PlayTrack | src/app/playback-context.tsx:91-111 | the track becomes current and playing from 0 with the tracklist active, the element plays its song route from position 0 with its volume kept, and the next queue entry's download is requested as PrefetchFor describes |
| Playback.Player.PlayNextTrack | src/app/playback-context.tsx:113-119 | plays NextTrack's choice from position 0, in the player state and in the element, or changes nothing when there is none |
| Playback.Player.PlayPreviousTrack | src/app/playback-context.tsx:121-127 | plays PreviousTrack's choice from position 0, in the player state and in the element, or changes nothing when there is none |
| Playback.Player.AutoAdvance | src/app/playback-context.tsx:153-157 | advances exactly when the position has reached the duration, a track is current and the position is positive; an advance to an existing next track restarts the element on it at position 0, and after it the condition no longer holds |
| Playback.Player.GlobalKeyDown | src/app/playback-context.tsx:137-151 | space on the page body with an element flips the playing flag and pauses the element when it was playing, resumes it when it was not, changing nothing else; any other key changes neither the provider nor the element; the search box is focused exactly when the key is '/' |
| Playback.Player.RegisterPanelRef | src/app/playback-context.tsx:39-41 | the panel joins the registered panels and nothing else changes |
| Playback.Player.HandleKeyNavigation | src/app/playback-context.tsx:43-64 | an unregistered or unmounted panel is ignored; otherwise the focus moves as KeyNavigation says |
| Playback.Player.RequestDownload | src/app/playback-context.tsx:103-105 | one download request for the id is appended and nothing else changes |
| Playback.Player.SetActivePanel | src/app/playback-context.tsx:33 | only the active panel changes |
| Playback.Player.SetPlaylist | src/app/playback-context.tsx:74 | only the queue changes |
| Playback.Player.SetCurrentTime | src/app/playback-context.tsx:72 | only the reported position changes |
| Playback.Player.SetDuration | src/app/playback-context.tsx:73 | only the duration changes |
| Playback.Player.SetIsLoading | src/app/playback-context.tsx:75 | only the loading flag changes |
| Playback.Player.SetIsPlaying | src/app/playback-context.tsx:70 | only the playing flag changes |
| WebSocket.Settle | src/lib/web-socket.ts:23-39 | the connection opens exactly when the broker accepts within the 5000 ms timeout, and fails with an error exactly when the broker fails it within that time; otherwise the timer settles it |
| WebSocket.BrokerConnection.constructor | src/lib/web-socket.ts:7-9 | no session id, no socket, no pending connection |
| WebSocket.BrokerConnection.CloseWebSocket | src/lib/web-socket.ts:11-17 | the socket and the pending connection are gone; the session id is kept |
| WebSocket.BrokerConnection.OnClose | src/lib/web-socket.ts:41-47 | a closed socket is forgotten, whether or not the close was clean; the session id is kept for the next reconnect |
| WebSocket.BrokerConnection.GetClientId | src/lib/web-socket.ts:51-68 | an open socket with a cached id answers that id and opens nothing; otherwise one socket is opened under the cached id or a fresh one; on success that id is cached and returned; on error or timeout the id is dropped, nothing stays open, and the matching message is reported |
| Uri.EncodeURIComponent | src/app/playback-context.tsx:132 | the output holds only unreserved characters and '%', and unreserved input is returned unchanged |
| Uri.EncodedHasNoDelimiters | src/middleware.ts:35 | an encoded component holds no '/', '?', '&', '=' or '#' |
| Uri.DecodeEncodeAscii | src/middleware.ts:35 | decoding the encoding of an ASCII string gives it back |
| Middleware.KeepAllowed | src/middleware.ts:16 | the output holds only allowed characters, all taken from the input; an allowed first character leads the output and an all-allowed input is unchanged |
| Middleware.KeepAllowedCounts | src/middleware.ts:16 | every allowed character survives as many times as it occurs in the input |
| Middleware.KeepAllowedAppend | src/middleware.ts:16 | the replacement works character by character: filtering a concatenation concatenates the filtered parts, so the kept characters stay in order |
| Middleware.KeepAllowedSingle | src/middleware.ts:16 | a single character is kept exactly when it matches `[\w\-\/\?\&\=]` |
| Middleware.SanitizeRedirectUrl | src/middleware.ts:10-17 | a path not starting with '/' or starting with a blocked prefix becomes "/"; any other path loses its disallowed characters; the result always starts with '/' and holds only allowed characters |
| Middleware.SanitizeKeepsCleanPath | src/middleware.ts:10-17 | a path that starts with '/', is not blocked and holds only allowed characters is returned unchanged |
| Middleware.PrefixBlocksLongerNames | src/middleware.ts:13-14 | the blocked-prefix test is a plain prefix test, so "/apix" and "/images/cover" are refused too |
| Middleware.SanitizeDropsDot | src/middleware.ts:10-17 | "/a.pi" is not blocked and comes out as "/api" |
| Middleware.SanitizeNotIdempotent | src/middleware.ts:10-17 | sanitising twice can differ from sanitising once: "/a.pi" gives "/api" and then "/" |
| Middleware.ClientIp | src/middleware.ts:6-7 | the client address is never empty: a missing or empty forwarded header gives 127.0.0.1 |
| Middleware.Decide | src/middleware.ts:4-51 | a failing token lookup redirects to /error with no header; otherwise the forwarded header is set. The request passes exactly on a public path or with an unexpired token whose access is granted. It goes to the login redirect exactly on a protected path with no token or an expired one, and to /denied exactly with an unexpired token without access |
| Middleware.SanitizedIsAscii | src/middleware.ts:16 | only ASCII survives the sanitiser |
| Middleware.LoginCallbackRoundTrip | src/middleware.ts:35 | the login redirect carries the sanitised path as its callback, decoding it gives that path back, and the encoded value holds no '/', '?', '&' or '=' |
| PlayerBar.RemovedCharsFromInput | src/components/player-bar.tsx:12 | stripping long parenthesised groups only deletes: every character left was in the title |
| PlayerBar.RemovesLongGroup | src/components/player-bar.tsx:12 | a '(' followed by 17 or more UTF-16 code units other than ')' and a ')' is removed together with its contents |
| PlayerBar.KeepsShortPrefix | src/components/player-bar.tsx:12 | text up to a ')' fewer than 17 UTF-16 code units ahead is kept verbatim: short groups survive |
| PlayerBar.RemovedHasNoLongGroup | src/components/player-bar.tsx:12 | the stripped title holds no further long group |
| PlayerBar.NoLongGroupUnchanged | src/components/player-bar.tsx:12 | a title without a long group is returned unchanged |
| PlayerBar.NoOpenParenUnchanged | src/components/player-bar.tsx:12 | a title without '(' is returned unchanged |
| PlayerBar.RemoveParenthesesIdempotent | src/components/player-bar.tsx:12 | stripping twice is the same as stripping once |
| PlayerBar.PadTwo | src/components/player-bar.tsx:50 | `padStart(2, '0')` returns the text preceded by only '0's, as many as bring it to two characters; longer text keeps its length |
| PlayerBar.ClockFields | src/components/player-bar.tsx:47-51 | for a non-negative time, the minutes and seconds fields split its whole seconds, with seconds in 0..59 |
| PlayerBar.FormatTimeRoundTrip | src/components/player-bar.tsx:47-51 | reading the `m:ss` clock back gives the whole seconds of any non-negative time |
| PlayerBar.MediaArtist | src/components/player-bar.tsx:151-154 | the media-session artist line is empty, the only artist's name, or the first two names joined by ", " |
| PlayerBar.SeekTo | src/components/player-bar.tsx:176-181 | with an element and a seek time, both the element and the reported position move to it; otherwise the provider is unchanged |
| PlayerBar.MediaPlay | src/components/player-bar.tsx:163-166 | the element plays and then the toggle runs, so the provider's flag flips and the element ends paused when the provider thought it was playing |
| PlayerBar.MediaPause | src/components/player-bar.tsx:168-171 | the element pauses and then the toggle runs, so the element ends playing when the provider thought it was paused |
| PlayerBar.TimeUpdate | src/components/player-bar.tsx:134 | the reported position follows the element's |
| PlayerBar.LoadedMetadata | src/components/player-bar.tsx:135 | the duration becomes the current track's, or 0 without one |
| PlayerBar.ClickPercentage | src/components/player-bar.tsx:55-57 | the clicked percentage is clamped to 0..100: 0 left of the bar, 100 right of it |
| PlayerBar.SeekTarget | src/components/player-bar.tsx:58 | the seek position lies within the track: 0 at 0 %, the duration at 100 % |
| PlayerBar.HandleProgressChange | src/components/player-bar.tsx:53-62 | with the bar and the element mounted, both the element and the reported position move to the same point of the track; without the bar neither the provider nor the element changes, and without an element the provider does not change |
| PlayerBar.VolumeControl.constructor | src/components/player-bar.tsx:81-82 | the volume starts at 100 and unmuted |
| PlayerBar.VolumeControl.SyncVolume | src/components/player-bar.tsx:85-89 | the element's volume becomes 0 when muted and the volume / 100 otherwise |
| PlayerBar.VolumeControl.HandleVolumeChange | src/components/player-bar.tsx:91-102 | the clicked percentage becomes the volume, muted exactly when it is 0; the element follows and the volume stays in 0..100 |
| PlayerBar.VolumeControl.ToggleMute | src/components/player-bar.tsx:104-114 | with an element the mute state flips, the chosen volume is kept, and the element is set to match; without one nothing changes |
| PlayerBar.CheckSong | src/components/player-bar.tsx:241-262 | an ok or failed probe changes nothing. A not-ok probe shows loading, stops playback and requests the download; when the download succeeds the probed track is played again from position 0 |
| TrackItem.PlaylistIdOf | src/components/track-item.tsx:54 | there is a playlist id exactly on paths under `/playlist/`, and it holds no '/' |
| TrackItem.PlaylistIdOfPath | src/components/track-item.tsx:54 | on `/playlist/<id>` followed by nothing or by '/…', the id is `<id>` |
| TrackItem.EmptyPlaylistIdHidden | src/components/track-item.tsx:153-154 | on `/playlist/` itself the id is the empty string, which hides the remove action |
| TrackItem.TrackData | src/components/track-item.tsx:55-65 | a catalogue track keeps its id and name, takes the album's images, has artists and album reduced to id and name, and has its duration in seconds; a client-shape track is used unchanged |
| TrackItem.TrackDataKeepsIds | src/components/track-item.tsx:55-65 | normalising keeps the album id and the first artist id the menu guards read |
| TrackItem.TrackDataIdempotent | src/components/track-item.tsx:55-65 | normalising twice is normalising once |
| TrackItem.AlbumRouteParses | src/components/track-item.tsx:70 | "go to album" navigates to a route that splits on '/' into "", "album" and the album id, for any id without '/' |
| TrackItem.AlbumRouteInjective | src/components/track-item.tsx:70 | different album ids lead to different routes |
| TrackItem.GoToArtistRoute | src/components/track-item.tsx:71 | "go to artist" navigates exactly when the first artist has a non-empty id, to `/artist/` followed by that id |
| TrackItem.ArtistRouteParses | src/components/track-item.tsx:71 | for a first artist with a non-empty id without '/', "go to artist" navigates to a route that splits into "", "artist" and that id |
| TrackItem.HeartRequest | src/components/track-item.tsx:119 | the heart removes the track when it is a favourite and adds it otherwise |
| TrackItem.HeartToggles | src/components/track-item.tsx:119 | one press flips the track's favourite membership and leaves every other track's membership alone |
| TrackItem.HeartTwiceRestores | src/components/track-item.tsx:119 | two presses restore every track's membership |
| TrackItem.RemoveThenAddLast | src/app/api/favourites/route.ts:25-52 | removing the last-added favourite and adding it back restores the exact list |
| TrackItem.DesktopArtistEntries | src/components/track-item.tsx:133-159 | as written, the desktop menu always shows "Go to artist", twice unless the first artist id starts with 'G-' |
| TrackItem.DesktopMenu | src/components/track-item.tsx:132-160 | as written, the desktop dropdown shows "Go to album" exactly when the album id does not start with 'G-'; it always holds "Go to artist" and "Add to queue" and never "Add to playlist" (a dialog of its own beside it); the separator appears exactly on a page with a truthy playlist id |
| TrackItem.DesktopMenuIntended | src/components/track-item.tsx:132-160 | the intended dropdown has the same album guard, queue entry, separator and no "Add to playlist" |
| TrackItem.DesktopTail | src/components/track-item.tsx:149-159 | after the artist entries come "Add to queue" and, exactly on a page with a truthy playlist id, the separator and the removal of this track from that playlist |
| TrackItem.MobileMenu | src/components/track-item.tsx:187-208 | the mobile sheet always offers album, artist, add to queue and add to playlist, with no 'G-' guard and no separator, plus removal on a page with a truthy playlist id |
| TrackItem.DuplicateArtistEntry | src/components/track-item.tsx:139-148 | a concrete catalogue track shows "Go to artist" twice |
| TrackItem.DesktopIntendedArtistEntry | src/components/track-item.tsx:139-144 | with the guarded entry only, "Go to artist" appears at most once, and exactly when the first artist id does not start with 'G-' |
| TrackItem.RemoveOffered | src/components/track-item.tsx:153-159 | desktop and mobile menus offer removal exactly when the playlist id is truthy, and only for that playlist and this track |
| TrackItem.TrackItemView.constructor | src/components/track-item.tsx:51-52 | both sheets start closed |
| TrackItem.TrackItemView.HandleAddToQueue | src/components/track-item.tsx:72-75 | the queue becomes the old queue with the normalised track appended, and the action sheet closes |
| TrackItem.TrackItemView.HandleAddToPlaylist | src/components/track-item.tsx:76-79 | the playlist sheet opens and the action sheet closes |
| TrackItem.TrackItemView.HandlePlayTrack | src/components/track-item.tsx:69 | plays the normalised track from position 0, as PlayTrack does |
| TrackItem.AddToQueueAppends | src/components/track-item.tsx:73 | adding to the queue keeps every earlier entry in place and puts the track last |
| Playlists.AddToSet | src/lib/playlist.ts:147 | `$addToSet`: an absent value is appended at the end and a present one leaves the list unchanged; hence the value is present afterwards, nothing else is added, and a duplicate-free list stays duplicate-free |
| Playlists.Pull | src/lib/playlist.ts:171 | `$pull`: every occurrence of the value goes, every other value keeps its number of occurrences, and a list without the value is unchanged |
| Playlists.PullAppend | src/lib/playlist.ts:171 | pulling from a concatenation concatenates the pulled parts, so the remaining values keep their order |
| Playlists.PullSingle | src/lib/playlist.ts:171 | a one-entry list loses its entry exactly when it is the pulled value |
| Playlists.PullAddToSet | src/lib/playlist.ts:129-181 | adding a track that was absent and then removing it restores the list |
| Playlists.PlaylistStore.CreatePlaylist | src/lib/playlist.ts:10-22 | an empty playlist with the name, owner and fresh id is stored and its id returned with status 200; a failing insert answers 500 and stores nothing |
| Playlists.PlaylistStore.DeletePlaylist | src/lib/playlist.ts:24-39 | an unknown id answers 404 and changes nothing; a known one is removed with status 200 |
| Playlists.PlaylistStore.AddTrackToPlaylist | src/lib/playlist.ts:129-157 | an unknown track is saved first, and a failed save is answered as is or as 500; then an unknown playlist answers 404; a track already present answers 200 with no change; otherwise the track is added with `$addToSet` |
| Playlists.PlaylistStore.RemoveTrackFromPlaylist | src/lib/playlist.ts:159-181 | an unknown playlist, an unknown track, or a track not in the playlist answers 404 with no change; otherwise the track is pulled with status 200 |
| Playlists.CoverIndex | src/lib/playlist.ts:113 | with tracks present, a cover index `floor(n * k / 5)` points inside the playlist |
| Playlists.CoverIndexIncreasing | src/lib/playlist.ts:113 | with four tracks or more, the four cover indices increase strictly |
| Playlists.ImageIndices | src/lib/playlist.ts:113 | no index for an empty playlist; otherwise all four cover indices, all in range, and strictly increasing once there are four tracks |
| Playlists.Truthy | src/lib/playlist.ts:120 | `filter(Boolean)` keeps only defined, non-empty URLs taken from the input, and every such URL of the input is kept |
| Playlists.TruthyCounts | src/lib/playlist.ts:120 | every defined, non-empty URL is kept as many times as it occurs |
| Playlists.TruthyAppend | src/lib/playlist.ts:120 | filtering a concatenation concatenates the filtered parts, so kept URLs stay in order |
| Playlists.TruthySingle | src/lib/playlist.ts:120 | a single entry is kept exactly when it is a defined, non-empty URL |
| Playlists.TruthyKeepsAll | src/lib/playlist.ts:120 | a list of defined, non-empty URLs passes whole |
| Playlists.CoverImages | src/lib/playlist.ts:113-120 | with four tracks or more, the result is `filter(Boolean)` applied to the first-image URLs of the four cover-index tracks in index order, so at most four non-empty URLs; with fewer, one entry per track, its first image URL or none |
| Playlists.CoverImagesAllFour | src/lib/playlist.ts:113-120 | when all four cover tracks have an image, all four URLs are listed in index order |
| Playlists.TotalDurationAppend | src/lib/playlist.ts:118 | the summed duration of two track lists is the sum of their durations |
| Playlists.TotalDurationNonNegative | src/lib/playlist.ts:118 | tracks of non-negative duration sum to a non-negative duration |
| Playlists.ListPlaylists | src/lib/playlist.ts:109-122 | the listing holds the summary of every playlist of the user except the favourites, and nothing else |
| Playlists.GetPlaylists | src/lib/playlist.ts:102-127 | null exactly without a user; otherwise exactly the listing of that user's playlists without the favourites |
| CreatePlaylist.ValidateName | src/components/dialog/CreatePlaylistDialog.tsx:17-24 | "required" exactly for a blank name, "too short" exactly for a non-blank name under 3 UTF-16 code units, and no error otherwise |
| CreatePlaylist.PaddedShortNamePasses | src/components/dialog/CreatePlaylistDialog.tsx:17-24 | length is counted before trimming and in code units: " a " passes, "ab" is too short, "   " is required, and a character above U+FFFF plus one letter passes |
| CreatePlaylist.ServerMessage | src/components/dialog/CreatePlaylistDialog.tsx:39 | the message shown is never empty: the server's, or 'Internal server error' |
| CreatePlaylist.CreateOutcome | src/components/dialog/CreatePlaylistDialog.tsx:16-55 | as written: a validation error is shown, and the dialog closes and clears exactly on an ok JSON answer. Every other outcome shows 'Internal server error', including a refused request |
| CreatePlaylist.CreateOutcomeIntended | src/components/dialog/CreatePlaylistDialog.tsx:16-55 | with a refused request ending the handler, the server's message is shown; the dialog closes exactly on an ok JSON answer |
| CreatePlaylist.ServerMessageLost | src/components/dialog/CreatePlaylistDialog.tsx:35-54 | a refusal with message "Name taken" ends showing 'Internal server error' |
| CreatePlaylist.IntendedShowsServerMessage | src/components/dialog/CreatePlaylistDialog.tsx:35-44 | in the corrected handler, a refusal with a non-empty message shows exactly that message and keeps the dialog and the name |
| CreatePlaylist.IntendedAgreesOtherwise | src/components/dialog/CreatePlaylistDialog.tsx:26-54 | the corrected handler agrees with the written one on every request that is not refused |
| CreatePlaylist.CreatePlaylistDialog.constructor | src/components/dialog/CreatePlaylistDialog.tsx:10-12 | empty name, no error, closed |
| CreatePlaylist.CreatePlaylistDialog.OnChange | src/components/dialog/CreatePlaylistDialog.tsx:74-77 | the typed text replaces the name and clears the error |
| CreatePlaylist.CreatePlaylistDialog.SetOpen | src/components/dialog/CreatePlaylistDialog.tsx:58 | only the open flag changes |
| CreatePlaylist.CreatePlaylistDialog.HandleCreate | src/components/dialog/CreatePlaylistDialog.tsx:16-55 | the written handler, run step by step with the body's consumed flag, leaves the state CreateOutcome describes |
| CreatePlaylist.CreatePlaylistDialog.HandleCreateIntended | src/components/dialog/CreatePlaylistDialog.tsx:16-55 | the corrected handler leaves the state CreateOutcomeIntended describes |
| Auth.CheckAccreditation | src/lib/auth.ts:150-166 | access is never granted without a session and a user record |
| Auth.CheckAccreditationRequest | src/lib/auth.ts:158-165 | with a session and a user, `access:action` (anything after a further ':' ignored) is granted exactly when the accreditation maps access to a list holding action |
| Auth.NoActionDenied | src/lib/auth.ts:158-165 | a request without ':' is never granted |
| Auth.AppAccess | src/lib/auth.ts:79 | the 'app:access' check is exactly the grant of action "access" under "app" |
| Auth.EnhanceToken | src/lib/auth.ts:77-89 | the access claim becomes the check's answer; when the check throws, the token is returned unchanged; expiry is kept either way |
| Auth.FailedCheckKeepsAccess | src/lib/auth.ts:77-89 | a failing check never revokes access written by an earlier successful check |
| Auth.MiddlewareSeesAccess | src/lib/auth.ts:81-84 | on a protected path with an unexpired token, the gate's decision (src/middleware.ts:34-46) lets the request through exactly when the last check wrote `access: true`, and redirects to /denied otherwise |
| Auth.LimiterKeyInjective | src/lib/auth.ts:42 | distinct client addresses never share a limiter bucket |
| Auth.SharedDefaultBucket | src/lib/auth.ts:41-42 | a forwarded address shares the bucket of unforwarded requests exactly when it is empty or is 127.0.0.1 |
| Auth.Authorize | src/lib/auth.ts:37-73 | no credentials is a rejection. A limited address is an error, and every error reads 'An error occurred'. A user is returned exactly for a known, verified email with a password hash that matches; it carries that record's email, names and favourites but no id. Past the limiter it throws exactly for a stored, verified user without a password hash, and returns `null` exactly for an unknown or unverified email or a wrong password |
| Auth.UnforwardedShareBucket | src/lib/auth.ts:41-42 | requests without a forwarded address, or with an empty one, share the limiter bucket of 127.0.0.1 |
| Auth.Coalesce | src/lib/auth.ts:103-105 | a `??` chain yields the first present value, and yields none exactly when no value is present |
| Auth.DeriveUserData | src/lib/auth.ts:97-109 | username, image and name are each the first present value of their `??` chain, in the order written; the user is verified exactly for Google or GitHub; a stored user keeps its accreditation and a new one gets the default; the name is absent only when every source is; a profile name wins for both name and username |
| Auth.EmptyProfileNameKept | src/lib/auth.ts:103-105 | an empty profile name is kept, since `??` skips only null |
| Auth.RemoveDashes | src/lib/auth.ts:111 | the new user id holds no '-', is no longer than the uuid, and a uuid without '-' is unchanged |
| Auth.RemoveDashesCounts | src/lib/auth.ts:111 | every character other than '-' is kept as many times as it occurs |
| Auth.RemoveDashesAppend | src/lib/auth.ts:111 | removing dashes from a concatenation concatenates the results, so the other characters keep their order |
| Auth.UuidGroupsJoined | src/lib/auth.ts:111 | a uuid of five dash-separated groups becomes the five groups joined |
| Auth.UserStore.HandleSignIn | src/lib/auth.ts:91-125 | no email or no default accreditation refuses and writes nothing. A stored user is refreshed with the derived fields. A new user is created with a dash-free id and given a 'Favourites' playlist; when that playlist fails the sign-in is refused and the user stays without favourites |
| Auth.VerifiedProviders | src/lib/auth.ts:97-107 | a Google or GitHub sign-in is verified; one without a provider is a 'credentials' sign-in and is not verified |

## Left out

- Network, database and timer effects are inputs to the model. These are how a broker handshake ends, what a `fetch` answers, whether a database write throws, what `uuid()` returns, the limiter's verdict and the bcrypt comparison. Where freshness matters, a fresh id not yet in use is a precondition.
- The 1-second sleeps in `authorize`, and the delay of the 5-second connection timer, are not modelled. Only which event comes first matters. An open and the timer at the same millisecond count as the timer.
- Interleavings are not modelled: concurrent `getClientId` calls, and socket events arriving after a settled handshake. Examples are the `onclose` that `close()` triggers later, and a second socket opened during a handshake. `GetClientId` runs one call to completion.
- Stale React closures are not modelled: callbacks see the current state when they run, and state updates within one handler apply in order.
- Database exceptions other than the failed insert in `createPlaylist` are not modelled. These are the catch blocks answering 500 or null in src/lib/playlist.ts and the `db.connect` failure in src/lib/auth.ts.
- `getPlaylist` and `getFavouritePlaylist` (src/lib/playlist.ts:41-100) are not modelled beyond the cover and duration rules they share with `getPlaylists`. Their track population is a database join. The user lookup of `getUser` is an input (`GetPlaylists` receives the user id and the favourites id).
- A playlist's `_id` and its `id` are identified: one id stands for both in the favourites filter and in `favouritePlaylist`.
- Numbers are Dafny `real` and `int`. NaN, infinities and floating-point rounding are not modelled. The cover indices use exact `floor(n * k / 5)` in place of `Math.floor(n * 0.2)` and the like.
- PlayerBar.FormatTimeRoundTrip: stated for non-negative times only; negative positions do not occur.
- PlayerBar.HandleProgressChange: requires a bar of positive width. On a zero-width bar JavaScript's division gives ±Infinity, which the clamp turns into 0 or 100, and NaN only for a click exactly at the left edge. A zero-width bar offers no area to click, so the case is not modelled.
- PlayerBar.VolumeControl.HandleVolumeChange: requires a bar of positive width, for the same reason.
- The media-session metadata other than the artist line is not modelled: title, album, artwork and the position state (player-bar.tsx:183-200). Unbinding handlers is not modelled either.
- Rendering, styling, the `config` display flags and `moment` formatting are not modelled. The same goes for the other track-list components (src/components/TrackItem.tsx, queue-view.tsx, the add-to-playlist dialog and sheet) and for `router.refresh()`.
- In the dialog a JSON body of `null` makes `data.message` throw. The model folds that case into "not JSON", which ends the same way.
- A refreshed user record under `findOneAndUpdate` is the stored record with the derived fields written. A new user's `favouritePlaylist` is the created playlist's id.
- The `lastLogin` update in the `signIn` event is not modelled, nor is the rest of `authOptions`.
- `checkAccreditation` receives the session and the populated accreditation as inputs. Two cases are left out: a dangling accreditation reference, which throws, and names inherited from `Object.prototype`.
- The song and download routes and the download pipeline behind the broker are not part of this model.

## Findings

| source | as written | input that shows it | evidently intended | confidence | as-written member | corrected member |
|---|---|---|---|---|---|---|
| src/components/dialog/CreatePlaylistDialog.tsx:35-54 | after a non-ok answer the handler reads the body a second time (`response.json()` at line 46); that read rejects, and the outer catch overwrites the server's message with 'Internal server error' | name "Road trip", server answers non-ok with `{"message": "Name taken"}`: the dialog shows 'Internal server error' | a refused request shows the server's message and stops | not executed | CreatePlaylist.ServerMessageLost | CreatePlaylist.IntendedShowsServerMessage |
| src/components/track-item.tsx:139-148 | a second, unguarded "Go to artist" item follows the guarded one | a catalogue track whose first artist id is "a1": the desktop menu lists "Go to artist" twice, and an artist with a 'G-' id still gets one | one "Go to artist", shown only when the first artist id does not start with 'G-' | not executed | TrackItem.DuplicateArtistEntry | TrackItem.DesktopIntendedArtistEntry |

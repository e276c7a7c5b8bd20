# BeatStream web client: a verified model of its core

BeatStream is a music-streaming web client. Its core is covered here:

- the player provider: one audio element, a queue with a cursor, the transport flags, and the de-duplicated listening-history write;
- the player bar: the clock text, the volume icon, the progress bar, and the local mute/volume bookkeeping;
- the listening-history join;
- the playlist and like services: Firestore documents and the counters kept beside them;
- the featured-banner carousel;
- the banner dialog and the song-upload form of the admin screen;
- the admin song table: search, footer and delete;
- the home-page section grid;
- the playlist card;
- the responsive breakpoints.

Each module corresponds to one source file:

| Dafny file | module | source |
|---|---|---|
| types.dfy | `Types` | track, song, section and banner records; `findIndex`/`find` |
| strings.dfy | `Strings` | decimal rendering, ASCII lower-casing, `includes`, `startsWith`, `padStart` |
| player.dfy | `Player` | `src/features/player/context/PlayerContext.tsx` |
| player_bar.dfy | `PlayerBar` | `src/features/player/components/PlayerBar.tsx` |
| history.dfy | `History` | `src/features/history/hooks/useHistory.ts` |
| playlists.dfy | `Playlists` | `src/features/playlists/services/playlistService.ts` |
| likes.dfy | `Likes` | `src/features/likes/services/likeService.ts` |
| featured_banner.dfy | `FeaturedBanner` | `src/features/banner/components/FeaturedBanner.tsx` |
| banner_form.dfy | `BannerForm` | `src/features/banner/components/BannerModalForm.tsx` |
| upload_form.dfy | `UploadForm` | `src/features/admin/components/UploadSongForm.tsx` |
| song_manager.dfy | `SongManager` | `src/features/admin/components/SongManager.tsx` |
| dynamic_section.dfy | `DynamicSection` | `src/features/sections/components/DynamicSection.tsx` |
| playlist_card.dfy | `PlaylistCard` | `src/features/playlists/components/PlaylistCard.tsx` |
| responsive.dfy | `Responsive` | `src/components/layout/hooks/useResponsive.ts` |

**How state-changing code is modelled.** Three files change state step by step: the player provider, the playlist service and the like service. Each is a `class` whose fields are the source's state. Every method is proved to produce exactly what a pure step function computes from the old state (`ensures State() == PlayTrackStep(old(State()), …)`), and the properties are lemmas about those step functions.

The same holds for the components with local state:

- the carousel index;
- the volume bookkeeping;
- the banner dialog;
- the upload form;
- the song table;
- the history hook.

The remaining files are pure and are modelled as datatypes, functions and lemmas.

**Inputs the code cannot see.** The following are method parameters:

- whether the device accepts `play()`;
- whether an upload, a banner write, a song delete or a history write succeeds;
- the user's answer to a confirmation dialog;
- the object URL made for a file.

The Firestore database is a pair of maps: playlist documents with their `songs` sub-collection, and like documents with each song's `likeCount`.

An update to a document that does not exist rejects the whole batch or transaction, so such a call changes nothing (outcome `Rejected`). The playlist and like services take no success flag: a missing document is their only failure.

**What `PlayerContext.tsx` does, as the model follows it:**

- `playTrack` keeps no generation token, so overlapping `play()` calls are not ordered.
- `seek` and `setVolume` store their argument without clamping.
- The transport is the `isPlaying` flag alone; there is no separate "ended" or "error" state.
- The history marker moves only after a successful write.
- The cursor starts at 0.
- The `ended` listener plays the next entry without moving the cursor (`Player.EndedTwiceReplaysSameNext`).

## Model

| member | source | states |
|---|---|---|
| Types.FindIndex | src/features/player/context/PlayerContext.tsx:45 | `findIndex`: the first position whose element satisfies the test, or -1 exactly when none does |
| Types.Find | src/features/banner/components/FeaturedBanner.tsx:51-53 | `find`: present exactly when some element satisfies the test, and then the first such element |
| Player.InitialValid | src/features/player/context/PlayerContext.tsx:27-35 | the initial state has an empty queue, cursor 0, and satisfies the cursor invariant |
| Player.PlayTrackStep | src/features/player/context/PlayerContext.tsx:39-53 | with a list, the queue becomes the list and the cursor is the first position holding the track's id, or -1 when no entry has it; without a list, queue and cursor are kept; the element loads the track's URL at position 0 (the text "undefined" when the track has none); `isPlaying` becomes true only if `play()` is accepted; the cursor invariant is preserved |
| Player.NextStep | src/features/player/context/PlayerContext.tsx:56-68 | with a next entry, the cursor moves one forward and that entry is loaded; at the end, nothing changes (no wraparound) |
| Player.PreviousStep | src/features/player/context/PlayerContext.tsx:71-83 | with a previous entry, the cursor moves one back and that entry is loaded; at the start, nothing changes |
| Player.TogglePlayStep | src/features/player/context/PlayerContext.tsx:86-97 | `isPlaying` always flips and the element pauses when it was playing; otherwise output starts only if the device accepts; nothing else changes |
| Player.SeekStep | src/features/player/context/PlayerContext.tsx:100-106 | the element position and `currentTime` both become the requested time, unclamped; nothing else changes |
| Player.Sync | src/features/player/context/PlayerContext.tsx:172-178 | the element's volume and muted flag become the state's; nothing else changes |
| Player.ToggleMuteStep | src/features/player/context/PlayerContext.tsx:109-111 | `isMuted` flips, the volume is kept, and the element follows |
| Player.SetVolumeStep | src/features/player/context/PlayerContext.tsx:172-178 | the volume is stored as given and the element follows |
| Player.EndedStep | src/features/player/context/PlayerContext.tsx:131-149 | the next entry is played when one exists, otherwise `isPlaying` clears; the cursor and queue never change |
| Player.HistoryAttempt | src/features/player/context/PlayerContext.tsx:152-169 | a write is issued if and only if there is a track, a user, and the track differs from the last one saved; it names that user and track |
| Player.HistoryStep | src/features/player/context/PlayerContext.tsx:159-166 | the marker moves to the track only after a successful write; otherwise nothing changes |
| Player.HistoryDeduplicates | src/features/player/context/PlayerContext.tsx:155-162 | after a successful write, the effect re-run for the same track writes nothing |
| Player.HistoryRetriesAfterFailure | src/features/player/context/PlayerContext.tsx:159-165 | after a failed write the marker stays put, so if the effect runs again for the same track and user, it issues the same write (the code itself never retries; the effect re-runs only when `currentTrack` or `user` changes) |
| Player.HistoryNeedsUser | src/features/player/context/PlayerContext.tsx:153 | without a user, no write is issued and nothing changes |
| Player.EndedTwiceReplaysSameNext | src/features/player/context/PlayerContext.tsx:135-141 | two consecutive `ended` events play the same next entry twice, where two `playNext` calls reach the entry after it |
| Player.NextTimesCursor | src/features/player/context/PlayerContext.tsx:56-68 | n presses of "next" leave the cursor at min(i + n, last), with the queue unchanged |
| Player.NextThenPreviousReturns | src/features/player/context/PlayerContext.tsx:56-83 | when a next entry exists, "next" then "previous" returns to the same entry and track |
| Player.ToggleMuteTwice | src/features/player/context/PlayerContext.tsx:109-111 | two mute toggles restore the state, with the element synchronised |
| Player.RefusedStartLeavesStaleFlag | src/features/player/context/PlayerContext.tsx:49-52 | a refused `play()` after a playing track leaves `isPlaying` true while the element is paused |
| Player.AudioElement.SetSource | src/features/player/context/PlayerContext.tsx:49 | assigning `src` reloads: new source, position 0, paused |
| Player.AudioElement.Play | src/features/player/context/PlayerContext.tsx:51 | output starts exactly when the device accepts |
| Player.AudioElement.Pause | src/features/player/context/PlayerContext.tsx:91 | the element pauses and nothing else changes |
| Player.AudioElement.SetCurrentTime | src/features/player/context/PlayerContext.tsx:104 | only the position changes |
| Player.AudioElement.SetVolumeAndMuted | src/features/player/context/PlayerContext.tsx:176-177 | only the volume and muted flag change |
| Player.PlayerProvider.constructor | src/features/player/context/PlayerContext.tsx:25-35 | a fresh element and the initial state |
| Player.PlayerProvider.PlayTrack | src/features/player/context/PlayerContext.tsx:39-53 | the fields become `PlayTrackStep` of the old state; the invariant is kept |
| Player.PlayerProvider.PlayNext | src/features/player/context/PlayerContext.tsx:56-68 | the fields become `NextStep` of the old state |
| Player.PlayerProvider.PlayPrevious | src/features/player/context/PlayerContext.tsx:71-83 | the fields become `PreviousStep` of the old state |
| Player.PlayerProvider.TogglePlay | src/features/player/context/PlayerContext.tsx:86-97 | the fields become `TogglePlayStep` of the old state |
| Player.PlayerProvider.Seek | src/features/player/context/PlayerContext.tsx:100-106 | the fields become `SeekStep` of the old state |
| Player.PlayerProvider.SyncVolume | src/features/player/context/PlayerContext.tsx:172-178 | the fields become `Sync` of the old state |
| Player.PlayerProvider.ToggleMute | src/features/player/context/PlayerContext.tsx:109-111 | the fields become `ToggleMuteStep` of the old state |
| Player.PlayerProvider.SetVolume | src/features/player/context/PlayerContext.tsx:33 | the fields become `SetVolumeStep` of the old state |
| Player.PlayerProvider.OnEnded | src/features/player/context/PlayerContext.tsx:135-142 | the fields become `EndedStep` of the old state |
| Player.PlayerProvider.SaveToHistory | src/features/player/context/PlayerContext.tsx:152-169 | the write issued is `HistoryAttempt` and the fields become `HistoryStep` |
| PlayerBar.FloorParts | src/features/player/components/PlayerBar.tsx:15-18 | for t >= 0, the minutes and seconds are the quotient and remainder of the whole seconds by 60 |
| PlayerBar.FormatTime | src/features/player/components/PlayerBar.tsx:15-18 | for t >= 0, the clock text of the whole seconds' quotient and remainder by 60 |
| PlayerBar.TwoDigitSeconds | src/features/player/components/PlayerBar.tsx:18 | `padStart(2, "0")` renders seconds below 60 as exactly two digits |
| PlayerBar.FormatTimeShape | src/features/player/components/PlayerBar.tsx:15-18 | for t >= 0, the text is the decimal minutes, a colon, and two digits for 00-59 |
| PlayerBar.ParseClockText | src/features/player/components/PlayerBar.tsx:18 | reading a clock text back gives minutes * 60 + seconds |
| PlayerBar.ClockRoundTrip | src/features/player/components/PlayerBar.tsx:15-18 | parsing `formatTime(t)` gives the whole seconds of t |
| PlayerBar.GetVolumeIcon | src/features/player/components/PlayerBar.tsx:92-97 | exactly one icon per volume, chosen by the thresholds 0, 0.3 and 0.7 (each as an if-and-only-if) |
| PlayerBar.VolumeIconMonotone | src/features/player/components/PlayerBar.tsx:92-97 | over the slider's range, a louder volume never shows a lower icon |
| PlayerBar.ProgressPercent | src/features/player/components/PlayerBar.tsx:237 | with no duration, the divisor is 1; for 0 <= t <= duration the width is in [0, 100]; otherwise the width is t/duration*100 |
| PlayerBar.Layout | src/features/player/components/PlayerBar.tsx:99-102 | nothing without a track; mobile layout exactly when there is a track and the screen is mobile |
| PlayerBar.MuteButtonLevels | src/features/player/components/PlayerBar.tsx:78-86 | above zero, the level is remembered and goes to 0; at zero, the remembered level returns |
| PlayerBar.MuteThenUnmuteRestoresLevel | src/features/player/components/PlayerBar.tsx:78-86 | muting then unmuting returns to the original level |
| PlayerBar.SliderChange | src/features/player/components/PlayerBar.tsx:72-76 | the slider sets the local, provider and element volume; the mute flag is kept |
| PlayerBar.ToggleMuteAsWritten | src/features/player/components/PlayerBar.tsx:78-90 | the levels swap, the provider's volume follows, and `isMuted` flips on every press |
| PlayerBar.SliderToZeroSilencesButton | src/features/player/components/PlayerBar.tsx:72-90 | after the slider reaches 0 unmuted, no number of mute-button presses makes the player audible |
| PlayerBar.ButtonKeepsSilence | src/features/player/components/PlayerBar.tsx:78-90 | from an out-of-step silent state, every press leads to another silent state |
| PlayerBar.ToggleMuteCorrected | src/features/player/components/PlayerBar.tsx:78-90 | corrected button: the levels swap as written and `isMuted` is kept equal to "the new level is 0" |
| PlayerBar.CorrectedButtonFlipsAudibility | src/features/player/components/PlayerBar.tsx:78-90 | with the correction, every press flips audibility and unmuting restores the remembered level |
| PlayerBar.VolumeControl.constructor | src/features/player/components/PlayerBar.tsx:39-51 | both levels start at `playerVolume \|\| 0.7`; the sync then copies the provider's volume |
| PlayerBar.VolumeControl.HandleVolumeChange | src/features/player/components/PlayerBar.tsx:72-76 | the state becomes `SliderChange` of the old state |
| PlayerBar.VolumeControl.HandleToggleMute | src/features/player/components/PlayerBar.tsx:78-90 | the state becomes `ToggleMuteAsWritten` of the old state |
| History.ResolveIds | src/features/history/hooks/useHistory.ts:70-72 | at most one song per id; every song returned is in the catalogue and carries an id from the list |
| History.HistoryTracks | src/features/history/hooks/useHistory.ts:67-73 | empty when either list is empty; otherwise the resolved ids |
| History.SourcesCount | src/features/history/hooks/useHistory.ts:70-72 | each result comes from exactly one history position |
| History.SourcesIncreasing | src/features/history/hooks/useHistory.ts:70-72 | results keep the order of the history ids |
| History.SourcesResolve | src/features/history/hooks/useHistory.ts:71 | the k-th result is `songs.find` of the id at its source position |
| History.SourceAt | src/features/history/hooks/useHistory.ts:70-72 | the k-th result is the song found for the id at the k-th resolving position |
| History.SourcesComplete | src/features/history/hooks/useHistory.ts:72 | every id that resolves contributes a result; only unknown ids are dropped |
| History.HistoryTrackIsFirstMatch | src/features/history/hooks/useHistory.ts:71 | each result is the first catalogue song with its id |
| History.HistoryHook.constructor | src/features/history/hooks/useHistory.ts:16-19 | no ids, loading, and key 0 |
| History.HistoryHook.Receive | src/features/history/hooks/useHistory.ts:43-47 | the ids are stored and loading ends |
| History.HistoryHook.Refresh | src/features/history/hooks/useHistory.ts:75-77 | the key increases by one; nothing else changes |
| History.HistoryHook.Loading | src/features/history/hooks/useHistory.ts:81 | not loading if and only if neither the history nor the songs are loading |
| History.HistoryHook.Tracks | src/features/history/hooks/useHistory.ts:67-73 | the hook's `historyTracks`: at most one song per stored id, each a catalogue song whose id is in the history |
| Playlists.CreateStep | src/features/playlists/services/playlistService.ts:45-58 | the new document has the given name, owner and cover, is private and has 0 songs; nothing else changes |
| Playlists.CoverAfterAdd | src/features/playlists/services/playlistService.ts:120-129 | an existing cover is kept; an empty cover is set if and only if the song has a truthy image |
| Playlists.AddSongStep | src/features/playlists/services/playlistService.ts:89-130 | an existing song: skipped, no change; a missing playlist: rejected, no change; otherwise the song is stored, the count rises by one and only that playlist's cover may change |
| Playlists.RemoveSongStep | src/features/playlists/services/playlistService.ts:137-159 | a missing playlist: rejected; otherwise the song document is deleted and the count drops by one, present or not |
| Playlists.ApplyPatch | src/features/playlists/services/playlistService.ts:204-209 | each supplied field replaces the stored one; the others are kept |
| Playlists.UpdateStep | src/features/playlists/services/playlistService.ts:204-209 | a missing document: rejected; otherwise the playlist becomes `ApplyPatch` of its stored fields (each supplied field replaces the stored one), and every other playlist and song document is kept |
| Playlists.DeleteStep | src/features/playlists/services/playlistService.ts:216-232 | the playlist and every song under it are gone; every other document is kept |
| Playlists.CreateDefaults | src/features/playlists/services/playlistService.ts:45-58 | without a cover, the new playlist is ("", private, 0 songs) |
| Playlists.AddTwiceIsAddOnce | src/features/playlists/services/playlistService.ts:101-102 | adding the same song twice equals adding it once |
| Playlists.AddKeepsExistingCover | src/features/playlists/services/playlistService.ts:120-129 | an existing cover is never overwritten |
| Playlists.AddSetsMissingCover | src/features/playlists/services/playlistService.ts:120-129 | an empty cover takes the new song's image |
| Playlists.AddThenRemoveRestores | src/features/playlists/services/playlistService.ts:89-159 | adding a new song and removing it restores the songs, the count and the other playlists |
| Playlists.SongsOfAdd | src/features/playlists/services/playlistService.ts:104-108 | storing a song document adds its key to that playlist's songs only |
| Playlists.SongsOfRemove | src/features/playlists/services/playlistService.ts:145-147 | deleting a song document removes its key |
| Playlists.AddKeepsCountsInStep | src/features/playlists/services/playlistService.ts:104-117 | adding keeps every `songCount` equal to the number of song documents |
| Playlists.RemovePresentKeepsCountsInStep | src/features/playlists/services/playlistService.ts:137-159 | removing a present song keeps every count in step |
| Playlists.RemoveAbsentDesynchronisesCount | src/features/playlists/services/playlistService.ts:137-159 | removing an absent song still decrements, so the count falls one below the number of songs |
| Playlists.UpdateOnlySuppliedFields | src/features/playlists/services/playlistService.ts:204-209 | fields not supplied are unchanged, and an empty patch changes nothing |
| Playlists.UpdateIdempotent | src/features/playlists/services/playlistService.ts:204-209 | applying the same update twice equals applying it once |
| Playlists.DeleteKeepsCountsInStep | src/features/playlists/services/playlistService.ts:216-232 | deleting keeps the other playlists' counts in step |
| Playlists.PlaylistStore.constructor | src/features/playlists/services/playlistService.ts:1-20 | an empty database |
| Playlists.PlaylistStore.CreatePlaylist | src/features/playlists/services/playlistService.ts:45-58 | returns the new id; the store becomes `CreateStep` |
| Playlists.PlaylistStore.AddSongToPlaylist | src/features/playlists/services/playlistService.ts:89-130 | the store and outcome are `AddSongStep` |
| Playlists.PlaylistStore.RemoveSongFromPlaylist | src/features/playlists/services/playlistService.ts:137-159 | the store and outcome are `RemoveSongStep` |
| Playlists.PlaylistStore.UpdatePlaylist | src/features/playlists/services/playlistService.ts:204-209 | the store and outcome are `UpdateStep` |
| Playlists.PlaylistStore.DeletePlaylist | src/features/playlists/services/playlistService.ts:216-232 | a loop over a snapshot of the playlist's songs deletes each, then the playlist; the store becomes `DeleteStep` |
| Likes.ToggleStep | src/features/likes/services/likeService.ts:8-34 | a missing song document: rejected, no change; a liked song: the like is deleted and the count falls by one; otherwise the like is created and the count rises by one |
| Likes.ToggleTwiceRestores | src/features/likes/services/likeService.ts:18-31 | two toggles restore the likes and the counts |
| Likes.ToggleTouchesOneDocument | src/features/likes/services/likeService.ts:12-13 | only that user's like for that song and that song's count change |
| Likes.LikesOfAdd | src/features/likes/services/likeService.ts:26-28 | creating a like adds one to that song's likes |
| Likes.LikesOfRemove | src/features/likes/services/likeService.ts:20 | deleting a like removes one |
| Likes.CountDeltaMatchesLikeDelta | src/features/likes/services/likeService.ts:18-31 | the change in `likeCount` equals the change in the number of likes |
| Likes.ToggleKeepsCountsMatchingLikes | src/features/likes/services/likeService.ts:15-33 | the toggle keeps every `likeCount` equal to the number of like documents |
| Likes.Store.constructor | src/features/likes/services/likeService.ts:12-13 | no likes; every song's count is 0 |
| Likes.Store.ToggleLikeTransaction | src/features/likes/services/likeService.ts:8-34 | the store and outcome are `ToggleStep` |
| FeaturedBanner.JsMod | src/features/banner/components/FeaturedBanner.tsx:33 | JavaScript `%`: the remainder is smaller than the divisor in magnitude, is never negative for a positive dividend nor positive for a negative one, and equals the Euclidean remainder or that minus n |
| FeaturedBanner.NextIndex | src/features/banner/components/FeaturedBanner.tsx:307 | `(prev + 1) % n`: one slide forward, and from the last slide back to the first |
| FeaturedBanner.PrevIndex | src/features/banner/components/FeaturedBanner.tsx:293 | `(prev - 1 + n) % n`: one slide back, and from the first slide to the last |
| FeaturedBanner.IndexUpdatesInRange | src/features/banner/components/FeaturedBanner.tsx:293-307 | next and previous from any index >= 0 land on a slide that exists |
| FeaturedBanner.Advance | src/features/banner/components/FeaturedBanner.tsx:32-34 | the slide after k auto-slide ticks stays in range from any slide in range |
| FeaturedBanner.NextPrevInverse | src/features/banner/components/FeaturedBanner.tsx:293-307 | next then previous, and previous then next, return to the slide shown |
| FeaturedBanner.AdvanceCycles | src/features/banner/components/FeaturedBanner.tsx:32-34 | auto-slide moves one slide per tick, wraps from last to first, and n ticks return to the start |
| FeaturedBanner.AutoSlideArmed | src/features/banner/components/FeaturedBanner.tsx:30 | the interval runs if and only if there are banners and none is hovered |
| FeaturedBanner.Render | src/features/banner/components/FeaturedBanner.tsx:39-41 | nothing when loading or empty; otherwise the current banner with counter "current+1 / n"; a render error exactly when the index is past the end |
| FeaturedBanner.SongToTrack | src/features/banner/components/FeaturedBanner.tsx:20-26 | copies every field unchanged; a song without audio gives a track whose audio URL is still absent, not "" |
| FeaturedBanner.SongsToTracks | src/features/banner/components/FeaturedBanner.tsx:61 | the tracks match the songs position by position |
| FeaturedBanner.PlayClick | src/features/banner/components/FeaturedBanner.tsx:43-78 | a song redirect plays if and only if the song exists, with every song as the queue; artist and section redirects navigate to their paths; anything else does nothing; the track played is the first catalogue song with the redirect id |
| FeaturedBanner.FindIndexMapped | src/features/banner/components/FeaturedBanner.tsx:61-63 | mapping songs to tracks keeps the position of the first id match |
| FeaturedBanner.BannerPlayPositionsCursor | src/features/banner/components/FeaturedBanner.tsx:50-65 | playing a banner's song puts the cursor on that song's first catalogue position, with the whole catalogue as the queue |
| FeaturedBanner.BannerPlayLoadsSongAudio | src/features/banner/components/FeaturedBanner.tsx:20-26 | playing a banner's song makes it the current track and loads its audio URL; a song without audio makes the element load the text "undefined" |
| FeaturedBanner.Carousel.constructor | src/features/banner/components/FeaturedBanner.tsx:13 | starts at slide 0, not hovered |
| FeaturedBanner.Carousel.Next | src/features/banner/components/FeaturedBanner.tsx:307 | the index becomes `NextIndex`, within range |
| FeaturedBanner.Carousel.Prev | src/features/banner/components/FeaturedBanner.tsx:293 | the index becomes `PrevIndex`, within range |
| FeaturedBanner.Carousel.Tick | src/features/banner/components/FeaturedBanner.tsx:32-34 | an armed tick advances the index, within range |
| FeaturedBanner.Carousel.GoTo | src/features/banner/components/FeaturedBanner.tsx:232 | a dot jumps to its slide |
| FeaturedBanner.Carousel.SetHovered | src/features/banner/components/FeaturedBanner.tsx:97-98 | hover changes only the hover flag |
| BannerForm.InitialForm | src/features/banner/components/BannerModalForm.tsx:25-34 | a new banner gets the defaults ("Listen Now", "song", order 1, "image"); an edited one keeps its fields, with each falsy one replaced by its default |
| BannerForm.InitialFormHasDefaults | src/features/banner/components/BannerModalForm.tsx:29-33 | every form starts with a button text, redirect type, media type and non-zero order |
| BannerForm.SubmitAllowed | src/features/banner/components/BannerModalForm.tsx:67-70 | the handler's guard: it passes every form the submit button enables, and also a form with a title and an image but no redirect id |
| BannerForm.SubmitEnabled | src/features/banner/components/BannerModalForm.tsx:321 | enabled if and only if not loading or uploading and title, image and redirect id are all set |
| BannerForm.EnabledImpliesAllowed | src/features/banner/components/BannerModalForm.tsx:321 | an enabled button always passes the handler's check, but the handler alone accepts a missing redirect id |
| BannerForm.SetRedirectType | src/features/banner/components/BannerModalForm.tsx:224-226 | the type changes, the id clears, and nothing else changes |
| BannerForm.RedirectTypeChangeDisablesSubmit | src/features/banner/components/BannerModalForm.tsx:224-226 | changing the type disables submit until an id is chosen |
| BannerForm.MediaTypeFor | src/features/banner/components/BannerModalForm.tsx:56 | "video" if and only if the MIME type starts with "video"; otherwise "image" |
| BannerForm.AfterUpload | src/features/banner/components/BannerModalForm.tsx:53-57 | only the image URL and media type change |
| BannerForm.SubmitWrite | src/features/banner/components/BannerModalForm.tsx:66-94 | refused if and only if the title or image is missing; otherwise the edited banner is updated in place, or a new active banner is added |
| BannerForm.UntouchedNewFormRefused | src/features/banner/components/BannerModalForm.tsx:67-70 | submitting an untouched new form is refused |
| BannerForm.BannerFormModal.constructor | src/features/banner/components/BannerModalForm.tsx:25-38 | the form is `InitialForm`, nothing is busy, and the preview is the banner's image |
| BannerForm.BannerFormModal.ChangeRedirectType | src/features/banner/components/BannerModalForm.tsx:224-226 | the form becomes `SetRedirectType` |
| BannerForm.BannerFormModal.HandleFileUpload | src/features/banner/components/BannerModalForm.tsx:41-64 | no file: no change; only a successful upload changes the form and preview; `uploading` always ends false |
| BannerForm.BannerFormModal.HandleSubmit | src/features/banner/components/BannerModalForm.tsx:66-94 | issues `SubmitWrite`; closes if and only if the write was issued and succeeded; `loading` ends false |
| UploadForm.RemoveAll | src/features/admin/components/UploadSongForm.tsx:92 | keeps exactly the ids different from the one removed |
| UploadForm.ToggleSection | src/features/admin/components/UploadSongForm.tsx:89-95 | a selected id is removed (and nothing else is); an unselected id is appended |
| UploadForm.RemoveAbsent | src/features/admin/components/UploadSongForm.tsx:92 | removing an absent id changes nothing |
| UploadForm.RemoveAppend | src/features/admin/components/UploadSongForm.tsx:92 | removal distributes over concatenation |
| UploadForm.ToggleAbsentTwice | src/features/admin/components/UploadSongForm.tsx:89-95 | toggling an unselected id twice restores the selection exactly |
| UploadForm.ToggleTwiceSameSet | src/features/admin/components/UploadSongForm.tsx:89-95 | toggling any id twice restores the selection as a set |
| UploadForm.RemoveKeepsNoDuplicates | src/features/admin/components/UploadSongForm.tsx:92 | removal keeps a duplicate-free selection duplicate-free |
| UploadForm.ToggleKeepsNoDuplicates | src/features/admin/components/UploadSongForm.tsx:89-95 | the selection never holds an id twice |
| UploadForm.RemoveAtPosition | src/features/admin/components/UploadSongForm.tsx:92 | deselecting cuts out exactly that position; the other ids stay in order |
| UploadForm.ActiveSections | src/features/admin/components/UploadSongForm.tsx:164-167 | exactly the active sections are offered |
| UploadForm.ActiveSectionsInOrder | src/features/admin/components/UploadSongForm.tsx:164-167 | the offered sections keep the order in which the sections are listed |
| UploadForm.UploadSongForm.constructor | src/features/admin/components/UploadSongForm.tsx:12-20 | an empty form |
| UploadForm.UploadSongForm.Toggle | src/features/admin/components/UploadSongForm.tsx:89-95 | the selection becomes `ToggleSection`; nothing else changes |
| UploadForm.UploadSongForm.ChooseAudio | src/features/admin/components/UploadSongForm.tsx:22-31 | the file is stored; the preview becomes its name only when a file was chosen |
| UploadForm.UploadSongForm.ChooseCover | src/features/admin/components/UploadSongForm.tsx:22-39 | the file is stored; the preview becomes its object URL only when a file was chosen |
| UploadForm.UploadSongForm.ClearFile | src/features/admin/components/UploadSongForm.tsx:42-53 | clears only the chosen kind's file and preview |
| UploadForm.UploadSongForm.HandleSubmit | src/features/admin/components/UploadSongForm.tsx:55-87 | nothing unless both files are chosen; otherwise the request carries the fields; success resets the form, failure keeps it; `loading` ends false |
| UploadForm.SubmitRequest | src/features/admin/components/UploadSongForm.tsx:119-140 | an upload starts if and only if the `required` title and artist hold text and both files are chosen; it carries those fields |
| UploadForm.UploadSongForm.Submit | src/features/admin/components/UploadSongForm.tsx:110-140 | a press of the submit button: the browser blocks an empty title or artist and nothing changes; otherwise `handleSubmit` runs, and the request is `SubmitRequest` of the old fields; a successful upload clears every field, the selection and a truthy cover preview, a failed one keeps them, and `loading` ends false |
| SongManager.Matches | src/features/admin/components/SongManager.tsx:35-36 | the lower-cased title or artist includes the lower-cased term; an empty term matches every song |
| SongManager.FilteredSongs | src/features/admin/components/SongManager.tsx:34-37 | keeps exactly the songs whose lower-cased title or artist includes the lower-cased term |
| SongManager.FilteredIsSublist | src/features/admin/components/SongManager.tsx:34-37 | the result keeps catalogue order |
| SongManager.CaseOfTermIrrelevant | src/features/admin/components/SongManager.tsx:35-36 | terms equal up to letter case give the same result |
| SongManager.LowerCasedTermSameResult | src/features/admin/components/SongManager.tsx:35-36 | searching for the lower-cased term gives the same result |
| SongManager.EmptyTermKeepsAll | src/features/admin/components/SongManager.tsx:34-37 | an empty term keeps every song |
| SongManager.CountText | src/features/admin/components/SongManager.tsx:200 | "1 song" for one; otherwise "N songs" |
| SongManager.FilterSuffix | src/features/admin/components/SongManager.tsx:201 | the suffix appears if and only if there is a term and the count differs from the total; it names the total |
| SongManager.EmptyTermFooter | src/features/admin/components/SongManager.tsx:200-201 | with no term, the footer is "Total: " and the full count, with no suffix |
| SongManager.Footer | src/features/admin/components/SongManager.tsx:200-201 | when the search hides nothing, the footer is "Total: " and the full count; when a term hides songs, it is "Total: " and the shown count followed by " (filtered from N total)" |
| SongManager.SongTable.constructor | src/features/admin/components/SongManager.tsx:13 | nothing is being deleted |
| SongManager.SongTable.HandleDelete | src/features/admin/components/SongManager.tsx:16-31 | deleted if and only if confirmed and the delete succeeded; `deletingId` is cleared after a confirmed attempt |
| DynamicSection.SectionSongs | src/features/sections/components/DynamicSection.tsx:16-20 | keeps exactly the songs listing the section's id |
| DynamicSection.SectionSongsInOrder | src/features/sections/components/DynamicSection.tsx:16-20 | the section's songs keep catalogue order |
| DynamicSection.Render | src/features/sections/components/DynamicSection.tsx:22-53 | hidden if and only if inactive, or loaded with no songs; a skeleton while active and loading |
| DynamicSection.CardsArePrefix | src/features/sections/components/DynamicSection.tsx:84-92 | the cards are the first min(n, limit) songs, each playing from the whole section |
| DynamicSection.Indicators | src/features/sections/components/DynamicSection.tsx:70-113 | "+k more" if and only if the songs overflow the grid, with k the remainder; "View All" past 6; "Browse all" off mobile past 10 |
| PlaylistCard.GradientIndex | src/features/playlists/components/PlaylistCard.tsx:29 | always one of the six gradients; an absent name gives the first |
| PlaylistCard.Gradient | src/features/playlists/components/PlaylistCard.tsx:19-31 | always one of the listed gradient classes |
| PlaylistCard.SameLengthSameGradient | src/features/playlists/components/PlaylistCard.tsx:29 | names of equal length get the same gradient |
| PlaylistCard.GradientPeriodic | src/features/playlists/components/PlaylistCard.tsx:29 | the gradient repeats every six characters |
| PlaylistCard.ShortNamesDistinct | src/features/playlists/components/PlaylistCard.tsx:20-30 | lengths 0 to 5 get six different gradients; an absent name matches the empty one |
| PlaylistCard.FromStored | src/components/LibraryPage.tsx:65-66 | a stored playlist gives the card no `coverUrl` field, only `coverURL` |
| PlaylistCard.CoverAsWritten | src/features/playlists/components/PlaylistCard.tsx:44-54 | the image shows if and only if `coverUrl` is truthy; otherwise the name's gradient |
| PlaylistCard.StoredCoverNeverShown | src/features/playlists/components/PlaylistCard.tsx:95-108 | a card for a stored playlist always shows the gradient |
| PlaylistCard.AutoCoverInvisibleAsWritten | src/features/playlists/components/PlaylistCard.tsx:44 | after the service copies a song image into `coverURL`, the card as written still shows the gradient; the corrected card shows the image |
| PlaylistCard.CoverCorrected | src/features/playlists/components/PlaylistCard.tsx:95-108 | corrected: the image shows if and only if `coverURL` is truthy |
| PlaylistCard.StoredCoverShownWhenSet | src/features/playlists/components/PlaylistCard.tsx:95-108 | with the correction, a stored playlist shows its cover exactly when it has one |
| PlaylistCard.Badge | src/features/playlists/components/PlaylistCard.tsx:67-70 | shown if and only if the count is positive; "1 song" or "N songs" |
| PlaylistCard.Render | src/features/playlists/components/PlaylistCard.tsx:44-158 | the card as written: it links to `/playlist/<id>`, shows the name and the badge, and chooses the cover from `coverUrl` |
| PlaylistCard.RenderCorrected | src/features/playlists/components/PlaylistCard.tsx:44-158 | the same card with the cover chosen from `coverURL` |
| PlaylistCard.NewPlaylistCard | src/features/playlists/components/PlaylistCard.tsx:137-140 | the card of a freshly created playlist, as written, shows no badge and the name's gradient even when the playlist was created with a cover |
| PlaylistCard.NewPlaylistCardCorrected | src/features/playlists/components/PlaylistCard.tsx:137-140 | with the corrected cover field, a freshly created playlist shows no badge and shows its cover exactly when created with one |
| Responsive.DeviceName | src/components/layout/hooks/useResponsive.ts:15 | each name if and only if the flags before it are false and its own is true; "large" when none holds |
| Responsive.BreakpointsAsWritten | src/components/layout/hooks/useResponsive.ts:5-8 | each flag holds if and only if the width is in its media-query range |
| Responsive.WholePixelsOneDevice | src/components/layout/hooks/useResponsive.ts:5-15 | on whole-pixel widths, exactly one of mobile/tablet/desktop holds, large implies desktop, and the device is never "large" |
| Responsive.FractionalWidthFallsThrough | src/components/layout/hooks/useResponsive.ts:5-15 | at 639.5 or 1023.5 pixels no flag holds and the device is "large" |
| Responsive.BreakpointsCorrected | src/components/layout/hooks/useResponsive.ts:5-8 | ranges closed against each other: mobile < 640 <= tablet < 1024 <= desktop |
| Responsive.CorrectedOneDevice | src/components/layout/hooks/useResponsive.ts:5-15 | for every width, exactly one device flag holds and the device names it |
| Responsive.CorrectedAgreesOnWholePixels | src/components/layout/hooks/useResponsive.ts:5-8 | the corrected and written breakpoints agree on whole-pixel widths |

## Left out

- **Side effects outside the model:**
  - Subscriptions (`onSnapshot`, `subscribeToHistory`), timers (`setTimeout`, `setInterval`), `console` output, `alert` and `window.confirm`: these are I/O. Their outcomes enter the model as parameters.
  - Cloudinary uploads and `URL.createObjectURL` / `revokeObjectURL`: these are foreign calls. Their results are parameters.
- **Rendering:**
  - JSX markup, CSS classes and hover overlays: presentation only.
  - The click-outside handler and slider visibility of the player bar, and the "Learn more" handler: presentation only; the latter only logs.
- **Concurrency and reads:**
  - React's batching of state updates, and the stale closures of `playNext`/`playPrevious` and of the `ended` listener: the model runs each handler to completion, in order.
  - Firestore batching and transaction retry: a batch or transaction is modelled as one atomic step.
  - `getUserPlaylists`, `getPlaylistById`, `subscribeToUserPlaylists` and `subscribeToPlaylistSongs`: these are reads with no state change.
- **Not modelled in the player:**
  - The `timeupdate` and `loadedmetadata` listeners of `PlayerContext.tsx:118-122`: they copy the element's clock into state and are not modelled.
  - `Player.AudioElement.SetCurrentTime`, `Player.AudioElement.SetVolumeAndMuted`: the element stores any position and volume. A real element clamps `currentTime` to the media's length and throws `IndexSizeError` for a volume outside [0, 1]; both are left out because the media length is not modelled and the slider keeps the volume within [0, 1].
  - `Player.PlayTrackStep`: overlapping `playTrack` calls whose `play()` promises settle out of order are not modelled. Each call settles before the next starts.
- **Data representation:**
  - Timestamps (`createdAt`, `addedAt`) and each document's stored `id` field: they do not affect any behaviour modelled.
  - Times and volumes are `real`, not IEEE doubles, so rounding is not modelled.
  - `toLowerCase` covers ASCII letters only.
  - `PlaylistCard.GradientIndex`: a name's length is counted in characters, not in UTF-16 code units as JavaScript's `.length` counts it. A name with characters outside the Basic Multilingual Plane, such as an emoji, gets a different gradient here than in the browser; `SameLengthSameGradient`, `GradientPeriodic` and `ShortNamesDistinct` use the same length.
  - Files are represented by their names.
- **Narrowed or weaker contracts:**
  - `SongManager.Matches`: the optional chaining on `title`/`artist` is dropped, because song records declare both fields as required strings.
  - `Playlists.AddSongStep`: `addSongToPlaylist` makes three separate round trips: the duplicate check, the batch commit, and the cover read and update. The model runs them as one atomic step, so it cannot represent a committed batch whose cover write then failed (song stored and count raised, cover still empty).
  - `Playlists.PlaylistStore`, `Likes.Store.ToggleLikeTransaction`: a network or permission failure of these writes is not modelled; only a missing document makes a call fail.
  - `UploadForm.SubmitRequest`: the audio and cover file inputs are `required` too, but the browser checks the input's own file list, which is not modelled; the handler's own check that both files are chosen is.
  - `History.HistoryHook`: two branches are not modelled. Without a user (`!uid`), a timer empties the ids and clears `loading`. When subscribing throws, the hook sets `error` and clears `loading`. Both run from timers and the subscription, which are I/O here.
  - `BannerForm.BannerFormModal.HandleFileUpload`: the handler spreads the form captured before the upload's `await`, so an edit made during the upload can be overwritten. The model applies the upload to the form as it is when the upload ends.
  - `FeaturedBanner.Carousel.Next`, `FeaturedBanner.Carousel.Prev`: these require at least one banner. The arrows render only when a banner is shown.
  - `PlayerBar.VolumeControl.HandleToggleMute`: it follows the code as written, not the corrected button (see Findings).
- **Rest of the repository:** shuffle, drag-and-drop, authentication, pages and the remaining services are not part of this model.

## Findings

| source | as written | input that shows it | evidently intended | confidence | as-written member | corrected member |
|---|---|---|---|---|---|---|
| src/features/player/components/PlayerBar.tsx:78-90 | the mute button swaps the local level and also calls the provider's `toggleMute`, which flips `isMuted` on every press | drag the volume slider to 0 while unmuted, then press the mute button any number of times: the state alternates between "level restored but muted" and "level 0 but unmuted", never audible | the button toggles audibility: a silent player becomes audible at the remembered level | not executed | PlayerBar.ToggleMuteAsWritten, PlayerBar.SliderToZeroSilencesButton | PlayerBar.ToggleMuteCorrected, PlayerBar.CorrectedButtonFlipsAudibility |
| src/features/playlists/components/PlaylistCard.tsx:44-97 | the card reads `playlist.coverUrl`, but playlist documents store `coverURL` (playlistService.ts:26,53,127) | a playlist whose first added song has an image: the service sets `coverURL`, yet the library card still shows the gradient | the card shows the stored cover, as the library page's other views already do (LibraryPage.tsx:167) | not executed | PlaylistCard.Render, PlaylistCard.StoredCoverNeverShown, PlaylistCard.AutoCoverInvisibleAsWritten | PlaylistCard.RenderCorrected, PlaylistCard.StoredCoverShownWhenSet, PlaylistCard.NewPlaylistCardCorrected |
| src/components/layout/hooks/useResponsive.ts:5-7 | the mobile query ends at 639px and the tablet query starts at 640px (likewise 1023px and 1024px) | a fractional viewport width such as 639.5 CSS pixels (browser zoom): no flag holds and the device is "large" | every width falls in exactly one of mobile, tablet and desktop | not executed | Responsive.BreakpointsAsWritten, Responsive.FractionalWidthFallsThrough | Responsive.BreakpointsCorrected, Responsive.CorrectedOneDevice |

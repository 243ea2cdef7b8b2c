# Media player: mode, source table and upload validation

A model of a small browser media-player widget. The shell component
(`src/App.tsx`) owns the active mode (video or audio) and a four-field source
table: a source URL and a display title for each mode. It hands the player the
pair that belongs to the active mode. The player component
(`src/components/MediaPlayer.tsx`) checks the MIME type of an uploaded file
against the mode. It forwards an accepted file to the shell, which replaces
the active mode's pair, and raises an alert for a rejected one. It also keeps
two optimistic flags, playing and muted, that its transport buttons flip.

Modules:

- `Prefix` (`prefix.dfy`): the `startsWith` test used on MIME types.
- `Shell` (`shell.dfy`): `Mode`, `SourceTable`, the initial state, the
  displayed pair and the shell's upload handler.
- `Player` (`player.dfy`): the file-input change handler, the flags and their
  toggles, the fullscreen handler, the picker's accept filter.
- `Widget` (`widget.dfy`): the two components together. It defines user
  actions, one step, a run of steps, and what a run leaves behind.

Browser effects are data. The object URL that `URL.createObjectURL` would
return is an opaque `url` string carried by the file-selection action. The
alert is an error value carrying its message (`Player.Dispatch.Alert`,
`Widget.UploadResult.WrongKind`, `Widget.Signal.Alerted`). Calls on the media
element (play, pause, setting `muted`, entering and leaving fullscreen) are
returned as `Player.NativeCall` values. Whether `mediaRef.current` is set is a
`mounted` parameter. In `Widget` it is always true, because both render
branches mount an element. The outcome of a native `play()` request is not an
input to any handler, so the playing flag cannot depend on it. This is the
optimistic mirroring the source does. `event.target.files?.[0]` is modelled by
a `seq<File>`: a null list and an empty list are both the empty sequence.

## Model

| member | source | states |
|---|---|---|
| Prefix.StartsWith | src/components/MediaPlayer.tsx:55-56 | defines the `startsWith` test on a file's MIME type: the prefix is no longer than the type and equals its leading characters |
| Prefix.StartsWithIffConcat | src/components/MediaPlayer.tsx:55-56 | the prefix test holds exactly when the type is the prefix followed by some rest |
| Prefix.DifferentHeadsExclude | src/components/MediaPlayer.tsx:54-57 | a string cannot start with two prefixes whose first characters differ, so "video/" and "audio/" exclude each other |
| Shell.Display | src/App.tsx:58-59 | defines the `src`/`title` props: the video URL and title in video mode, the audio URL and title in audio mode |
| Shell.DisplayDeterminesTable | src/App.tsx:58-59 | the video pair and the audio pair shown by the shell determine the whole table: the table has no other field |
| Shell.HandleFileUpload | src/App.tsx:13-28 | after an upload the active mode shows (url, file name) and the other mode shows what it showed before |
| Shell.UploadReplacesExactlyActivePair | src/App.tsx:15-26 | in video mode only `video` and `videoTitle` change, and in audio mode only `audio` and `audioTitle` change |
| Shell.UploadLastWins | src/App.tsx:15-26 | a second upload into the same mode fully overwrites the first |
| Shell.UploadsInDifferentModesCommute | src/App.tsx:15-26 | uploads into different modes write disjoint fields, so their order does not matter |
| Player.Accepts | src/components/MediaPlayer.tsx:54-57 | defines the validator's condition as the source writes it: video mode and a "video/" type, or audio mode and an "audio/" type |
| Player.AlertMessage | src/components/MediaPlayer.tsx:60 | defines the alert text "Please select a valid <mode> file", with the mode spelled "video" or "audio" |
| Player.AcceptsIffModePrefix | src/components/MediaPlayer.tsx:54-57 | a type is accepted exactly when it is the mode's name, "/", and anything |
| Player.OtherKindRejected | src/components/MediaPlayer.tsx:54-57 | a type with the other mode's prefix is always rejected |
| Player.HandleFileUpload | src/components/MediaPlayer.tsx:51-63 | an empty selection does nothing. Otherwise the first file is forwarded unchanged iff its type starts with the mode's prefix, and if not the alert reads "Please select a valid <mode> file" |
| Player.TogglePlay | src/components/MediaPlayer.tsx:17-26 | with an element present the playing flag flips, and pause is requested iff the flag was set and play iff it was not. Without one, nothing happens. Muted never changes |
| Player.PlayFlagMirrorsRequest | src/components/MediaPlayer.tsx:17-24 | with an element present, after a press the flag says playing exactly when play was just requested |
| Player.TogglePlayTwice | src/components/MediaPlayer.tsx:17-26 | two presses restore the flags whether or not an element is present; with an element present they issue one play and one pause request |
| Player.ToggleMute | src/components/MediaPlayer.tsx:28-33 | with an element present the muted flag flips and the element's `muted` is set to the new flag. Without one, nothing happens. Playing never changes |
| Player.ToggleMuteTwice | src/components/MediaPlayer.tsx:28-33 | two presses restore the flags, and the element ends up muted exactly as the original flag |
| Player.HandleFullscreen | src/components/MediaPlayer.tsx:35-43 | only video mode with an element present requests anything: exit when a fullscreen element exists, otherwise enter |
| Player.FullscreenControlShown | src/components/MediaPlayer.tsx:153-160 | defines when the fullscreen button is rendered: in video mode only |
| Player.FullscreenOnlyWhereShown | src/components/MediaPlayer.tsx:153-160 | the fullscreen button is absent in audio mode, and the action has an effect exactly where the button is rendered |
| Player.AcceptFilter | src/components/MediaPlayer.tsx:78 | the picker's accept filter is the validator's prefix followed by "*" ("video/*" or "audio/*") |
| Widget.Upload | src/components/MediaPlayer.tsx:51-63 | validation composed with the shell's handler: Ok when the first file is accepted, and then the active pair becomes (url, name) and the other pair stays. It is WrongKind with the alert text when the file is rejected, and NothingSelected when no file is chosen |
| Widget.Step | src/App.tsx:34-53 | choosing a mode changes only the mode. An upload never changes the mode or the flags, and after an accepted one the player shows (url, name). Only selections change the table. An alert leaves the state unchanged. Fullscreen changes no state and acts only in video mode |
| Widget.RunMode | src/App.tsx:34-53 | after any sequence of actions the mode is the last one chosen, or the starting mode |
| Widget.RunFlagsParity | src/components/MediaPlayer.tsx:12-33 | after any sequence of actions each flag differs from its start exactly when its button was pressed an odd number of times. Mode switches and uploads do not reset the flags |
| Widget.RunShowsLastAccepted | src/App.tsx:13-28 | after any sequence of actions each mode shows the URL and name of the last file accepted while that mode was active, or its starting pair |
| Widget.NoSelectionKeepsTable | src/App.tsx:34-53 | sequences of mode switches and transport presses never change the source table |
| Widget.RejectedSelectionChangesNothing | src/components/MediaPlayer.tsx:59-61 | a rejected file leaves the whole state unchanged and raises the alert naming the active mode |
| Widget.InitialScreen | src/App.tsx:5-11 | the first screen is video mode with the Big Buck Bunny sample; the audio slot holds the Baby Elephant Walk sample; both player flags start false, as the player's state initialises them at src/components/MediaPlayer.tsx:12-13 |
| Widget.SwitchToAudioScenario | src/App.tsx:44-53 | switching to audio shows "Baby Elephant Walk", hides the fullscreen button and makes the fullscreen action inert |
| Widget.UploadSongScenario | src/App.tsx:21-26 | "song.mp3" of type "audio/mpeg" in audio mode becomes the shown pair without an alert, and the video pair is untouched |
| Widget.UploadMovieInAudioScenario | src/components/MediaPlayer.tsx:54-61 | "clip.mov" of type "video/quicktime" in audio mode raises "Please select a valid audio file" and changes nothing |

## Left out

- `skip(seconds)` (src/components/MediaPlayer.tsx:45-49): a floating-point seek on the native element, with clamping left to the host.
- Native `play()`, `pause()`, `requestFullscreen()`, `exitFullscreen()` and `document.fullscreenElement`: these are browser APIs. The handlers return the call they would issue, and the fullscreen state is an input.
- `URL.createObjectURL`: a browser call. Its result is an opaque string parameter. Releasing the previous object URL is not modelled, and the source does not do it either.
- `alert` as a modal dialog: it is modelled as an error value carrying the message.
- `triggerFileUpload` and the hidden file input: this is click plumbing. Only the change handler is modelled.
- JSX layout, CSS classes and icons: these are presentational. Only the props `src`/`title`, the accept filter and whether the fullscreen button is rendered are modelled.
- React state batching and re-render timing: each action is one atomic step.
- The hidden file input's value is never reset (src/components/MediaPlayer.tsx:74-80), so a browser typically sends no `change` event when the same file is chosen again. `Widget.Run` accepts every action sequence, including such repeated selections that the browser never delivers; for those the model predicts a second upload or alert where the program does nothing. The properties proved hold for every sequence, so they hold for the ones that can really happen.
- Player.TogglePlay: the real playback state of the element is not modelled. Nothing here shows that a rejected `play()` leaves the flag saying playing, though the source does let that happen.

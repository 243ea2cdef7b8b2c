/**
 The player component (src/components/MediaPlayer.tsx): the upload validator
 that dispatches a chosen file to the shell or raises an alert, the two
 optimistic transport flags and their toggles, and the mode-dependent
 fullscreen action and file-picker filter.

 Calls into the native media element (play, pause, muted, fullscreen) are not
 performed here; each handler returns the call it would issue as a
 `NativeCall` value. Whether `mediaRef.current` is set is the `mounted` flag.
 */
module Player {
  import opened Shell
  import opened Prefix

  /** A selected file: its declared MIME type (`File.type`) and its name. */
  datatype File = File(kind: string, name: string)

  /** The MIME-type prefix a file must carry to be accepted in mode `m`. */
  function KindPrefix(m: Mode): string {
    ModeName(m) + "/"
  }

  /** The validator's condition, in the shape the source writes it. */
  predicate Accepts(m: Mode, kind: string) {
    (m == Video && StartsWith(kind, "video/")) || (m == Audio && StartsWith(kind, "audio/"))
  }

  /** The validator accepts exactly the types that are the mode's name, a slash, and anything. */
  lemma AcceptsIffModePrefix(m: Mode, kind: string)
    ensures Accepts(m, kind) <==> exists rest: string :: kind == ModeName(m) + "/" + rest
  {
    StartsWithIffConcat(kind, KindPrefix(m));
  }

  /** A file of one kind is never accepted in the other mode. */
  lemma OtherKindRejected(m: Mode, kind: string)
    requires StartsWith(kind, KindPrefix(Other(m)))
    ensures !Accepts(m, kind)
  {
    if m == Video {
      DifferentHeadsExclude(kind, "audio/", "video/");
    } else {
      DifferentHeadsExclude(kind, "video/", "audio/");
    }
  }

  /** The text of the alert raised for a file of the wrong kind. */
  function AlertMessage(m: Mode): string {
    "Please select a valid " + ModeName(m) + " file"
  }

  /** What the change handler of the file input does with a selection. */
  datatype Dispatch =
    | NoFile                  // nothing selected: neither callback nor alert
    | Forward(file: File)     // one call of `onFileUpload` with this file
    | Alert(message: string)  // the modal alert, and no callback

  /**
   The change handler of the file input: only the first selected file is
   looked at; it is forwarded when it has the active mode's kind, otherwise an
   alert names the expected kind.
   */
  function HandleFileUpload(m: Mode, files: seq<File>): (r: Dispatch)
    ensures r.NoFile? <==> |files| == 0
    ensures r.Forward? <==> |files| > 0 && StartsWith(files[0].kind, KindPrefix(m))
    ensures r.Forward? ==> r.file == files[0]
    ensures r.Alert? ==> r.message == AlertMessage(m) && |files| > 0
  {
    if |files| == 0 then NoFile
    else
      var file := files[0];
      if Accepts(m, file.kind) then Forward(file) else Alert(AlertMessage(m))
  }

  /** The player's two optimistic flags. */
  datatype Flags = Flags(playing: bool, muted: bool)

  /** Both flags start false. */
  const InitialFlags: Flags := Flags(false, false)

  /** A request made of the native media element or document by a handler. */
  datatype NativeCall = NoCall | Play | Pause | SetMuted(muted: bool) | EnterFullscreen | ExitFullscreen

  /** The flags after a handler, and the native call it issued. */
  datatype Reaction = Reaction(flags: Flags, call: NativeCall)

  /**
   The play/pause button: with an element present it asks the element to
   pause if the flag says playing and to play otherwise, and flips the flag
   without waiting for the outcome.
   */
  function TogglePlay(f: Flags, mounted: bool): (r: Reaction)
    ensures r.flags.muted == f.muted
    ensures r.flags.playing != f.playing <==> mounted
    ensures r.call.Play? <==> mounted && !f.playing
    ensures r.call.Pause? <==> mounted && f.playing
    ensures !mounted ==> r.call == NoCall
  {
    if mounted then
      Reaction(f.(playing := !f.playing), if f.playing then Pause else Play)
    else
      Reaction(f, NoCall)
  }

  /**
   The flag always reports the state most recently requested: after a
   toggle, it says playing exactly when the call was a play request.
   */
  lemma PlayFlagMirrorsRequest(f: Flags)
    ensures var r := TogglePlay(f, true); r.flags.playing <==> r.call == Play
  {
  }

  /** Two presses restore the flags, and the two requests issued are opposite. */
  lemma TogglePlayTwice(f: Flags, mounted: bool)
    ensures TogglePlay(TogglePlay(f, mounted).flags, mounted).flags == f
    ensures mounted ==> {TogglePlay(f, mounted).call, TogglePlay(TogglePlay(f, mounted).flags, mounted).call} == {Play, Pause}
  {
  }

  /**
   The mute button: with an element present it sets the element's `muted`
   to the negated flag and flips the flag.
   */
  function ToggleMute(f: Flags, mounted: bool): (r: Reaction)
    ensures r.flags.playing == f.playing
    ensures r.flags.muted != f.muted <==> mounted
    ensures mounted ==> r.call == SetMuted(r.flags.muted)
    ensures !mounted ==> r.call == NoCall
  {
    if mounted then
      Reaction(f.(muted := !f.muted), SetMuted(!f.muted))
    else
      Reaction(f, NoCall)
  }

  /**
   Two presses restore the flags; the element is last told the original
   flag value, so it ends up agreeing with the flag even if the two had drifted.
   */
  lemma ToggleMuteTwice(f: Flags, mounted: bool)
    ensures ToggleMute(ToggleMute(f, mounted).flags, mounted).flags == f
    ensures mounted ==> ToggleMute(ToggleMute(f, mounted).flags, mounted).call == SetMuted(f.muted)
  {
  }

  /**
   The fullscreen button: only in video mode with an element present; it
   leaves fullscreen when the document has a fullscreen element, and asks the
   video element to enter fullscreen otherwise.
   */
  function HandleFullscreen(m: Mode, mounted: bool, fullscreenActive: bool): (c: NativeCall)
    ensures c != NoCall <==> mounted && m == Video
    ensures c == ExitFullscreen <==> mounted && m == Video && fullscreenActive
    ensures c == EnterFullscreen <==> mounted && m == Video && !fullscreenActive
  {
    if mounted && m == Video then
      if fullscreenActive then ExitFullscreen else EnterFullscreen
    else
      NoCall
  }

  /** Whether the fullscreen button is rendered in mode `m`. */
  predicate FullscreenControlShown(m: Mode) {
    m == Video
  }

  /** The fullscreen action has an effect only where its button is rendered, and the button is absent in audio mode. */
  lemma FullscreenOnlyWhereShown(m: Mode, mounted: bool, fullscreenActive: bool)
    ensures HandleFullscreen(m, mounted, fullscreenActive) != NoCall ==> FullscreenControlShown(m)
    ensures !FullscreenControlShown(Audio)
    ensures mounted ==> (FullscreenControlShown(m) <==> HandleFullscreen(m, mounted, fullscreenActive) != NoCall)
  {
  }

  /** The file picker's `accept` filter: the validator's prefix followed by a wildcard. */
  function AcceptFilter(m: Mode): (a: string)
    ensures a == KindPrefix(m) + "*"
  {
    if m == Video then "video/*" else "audio/*"
  }
}

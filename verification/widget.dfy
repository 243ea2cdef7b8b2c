/**
 The two components together: the shell's mode and source table, the
 player's flags, and the user's actions on them. The player always has a
 media element mounted here, since both of its render branches mount one.
 */
module Widget {
  import opened Shell
  import Player
  import Prefix

  /** Everything that survives between user actions. */
  datatype State = State(mode: Mode, table: SourceTable, flags: Player.Flags)

  /** The state after the first render. */
  const Initial: State := State(InitialMode, InitialTable, Player.InitialFlags)

  /** The `src` and `title` props the shell hands the player. */
  function Props(s: State): Shown {
    Display(s.table, s.mode)
  }

  /** The outcome of choosing files, with the alert as an error value. */
  datatype UploadResult =
    | NothingSelected
    | Uploaded(table: SourceTable)
    | WrongKind(message: string)

  /**
   Choosing files in the current mode: the player validates the first file and
   either forwards it to the shell, which stores (url, name) for the active
   mode, or raises the alert. `url` stands for the object URL created for it.
   */
  function Upload(s: State, files: seq<Player.File>, url: string): (r: UploadResult)
    ensures r.NothingSelected? <==> |files| == 0
    ensures r.Uploaded? <==> |files| > 0 && Player.Accepts(s.mode, files[0].kind)
    ensures r.Uploaded? ==> Display(r.table, s.mode) == Shown(url, files[0].name)
    ensures r.Uploaded? ==> Display(r.table, Other(s.mode)) == Display(s.table, Other(s.mode))
    ensures r.WrongKind? ==> r.message == Player.AlertMessage(s.mode)
  {
    match Player.HandleFileUpload(s.mode, files)
    case NoFile => NothingSelected
    case Forward(file) => Uploaded(HandleFileUpload(s.table, s.mode, url, file.name))
    case Alert(message) => WrongKind(message)
  }

  /** A user action. */
  datatype Event =
    | ChooseMode(mode: Mode)
    | ChooseFiles(files: seq<Player.File>, url: string)
    | PressPlay
    | PressMute
    | PressFullscreen(fullscreenActive: bool)

  /** What an action produces besides the new state. */
  datatype Signal = Quiet | Alerted(message: string) | Native(call: Player.NativeCall)

  datatype Outcome = Outcome(state: State, signal: Signal)

  /** One user action. */
  function Step(s: State, e: Event): (o: Outcome)
    ensures e.ChooseMode? ==> o.state == s.(mode := e.mode)
    ensures e.ChooseFiles? ==> o.state.mode == s.mode && o.state.flags == s.flags
    ensures !e.ChooseFiles? ==> o.state.table == s.table
    ensures e.ChooseFiles? && Upload(s, e.files, e.url).Uploaded? ==> Props(o.state) == Shown(e.url, e.files[0].name)
    ensures o.signal.Alerted? ==> o.state == s && e.ChooseFiles? && |e.files| > 0 && !Player.Accepts(s.mode, e.files[0].kind)
    ensures e.PressFullscreen? ==> o.state == s && (o.signal != Native(Player.NoCall) <==> s.mode == Video)
  {
    match e
    case ChooseMode(m) => Outcome(s.(mode := m), Quiet)
    case ChooseFiles(files, url) =>
      (match Upload(s, files, url)
       case NothingSelected => Outcome(s, Quiet)
       case Uploaded(t) => Outcome(s.(table := t), Quiet)
       case WrongKind(message) => Outcome(s, Alerted(message)))
    case PressPlay =>
      var r := Player.TogglePlay(s.flags, true);
      Outcome(s.(flags := r.flags), Native(r.call))
    case PressMute =>
      var r := Player.ToggleMute(s.flags, true);
      Outcome(s.(flags := r.flags), Native(r.call))
    case PressFullscreen(active) =>
      Outcome(s, Native(Player.HandleFullscreen(s.mode, true, active)))
  }

  /** The state after a sequence of actions, taken in order. */
  function Run(s: State, evs: seq<Event>): State
    decreases |evs|
  {
    if evs == [] then s else Run(Step(s, evs[0]).state, evs[1..])
  }

  /** Running a sequence and then one more action is one more step. */
  lemma {:induction false} RunSnoc(s: State, evs: seq<Event>, e: Event)
    ensures Run(s, evs + [e]) == Step(Run(s, evs), e).state
    decreases |evs|
  {
    if evs == [] {
      assert evs + [e] == [e];
      assert [e][1..] == [];
    } else {
      assert (evs + [e])[0] == evs[0];
      assert (evs + [e])[1..] == evs[1..] + [e];
      RunSnoc(Step(s, evs[0]).state, evs[1..], e);
    }
  }

  // ---------------------------------------------------------------------
  // Reference definitions for what a run of actions leaves behind
  // ---------------------------------------------------------------------

  /** The mode of the most recent mode choice, or `m0` if there was none. */
  function LastChosenMode(m0: Mode, evs: seq<Event>): Mode
    decreases |evs|
  {
    if evs == [] then m0
    else if evs[|evs| - 1].ChooseMode? then evs[|evs| - 1].mode
    else LastChosenMode(m0, evs[..|evs| - 1])
  }

  /** The mode after any run is the last one the user chose; nothing else moves it. */
  lemma {:induction false} RunMode(s: State, evs: seq<Event>)
    ensures Run(s, evs).mode == LastChosenMode(s.mode, evs)
    decreases |evs|
  {
    if evs != [] {
      var init, e := evs[..|evs| - 1], evs[|evs| - 1];
      assert evs == init + [e];
      RunSnoc(s, init, e);
      RunMode(s, init);
    }
  }

  /** The number of play/pause presses. */
  function PlayPresses(evs: seq<Event>): nat
    decreases |evs|
  {
    if evs == [] then 0
    else (if evs[0].PressPlay? then 1 else 0) + PlayPresses(evs[1..])
  }

  /** The number of mute presses. */
  function MutePresses(evs: seq<Event>): nat
    decreases |evs|
  {
    if evs == [] then 0
    else (if evs[0].PressMute? then 1 else 0) + MutePresses(evs[1..])
  }

  /**
   The playing flag after any run differs from the starting flag exactly when
   the button was pressed an odd number of times, whatever else happened
   (mode switches and uploads do not reset it).
   */
  lemma {:induction false} RunFlagsParity(s: State, evs: seq<Event>)
    ensures Run(s, evs).flags.playing == (s.flags.playing != (PlayPresses(evs) % 2 == 1))
    ensures Run(s, evs).flags.muted == (s.flags.muted != (MutePresses(evs) % 2 == 1))
    decreases |evs|
  {
    if evs != [] {
      RunFlagsParity(Step(s, evs[0]).state, evs[1..]);
    }
  }

  /** True iff `e`, taken while mode `m` is active, is a selection the player forwards. */
  predicate AcceptedSelection(m: Mode, e: Event) {
    e.ChooseFiles? && |e.files| > 0 && Player.Accepts(m, e.files[0].kind)
  }

  /**
   The pair mode `m` should show after `evs`: the URL and name of the last
   accepted selection made while `m` was the active mode, or the starting pair
   if there was none.
   */
  function LastAcceptedPair(s0: State, evs: seq<Event>, m: Mode): Shown
    decreases |evs|
  {
    if evs == [] then Display(s0.table, m)
    else
      var init, e := evs[..|evs| - 1], evs[|evs| - 1];
      if LastChosenMode(s0.mode, init) == m && AcceptedSelection(m, e) then Shown(e.url, e.files[0].name)
      else LastAcceptedPair(s0, init, m)
  }

  /**
   After any run, each mode shows exactly the last file accepted in that mode
   (or its starting pair): rejected files, empty selections, uploads in the
   other mode, mode switches and transport presses never change it.
   */
  lemma {:induction false} RunShowsLastAccepted(s: State, evs: seq<Event>, m: Mode)
    ensures Display(Run(s, evs).table, m) == LastAcceptedPair(s, evs, m)
    decreases |evs|
  {
    if evs != [] {
      var init, e := evs[..|evs| - 1], evs[|evs| - 1];
      assert evs == init + [e];
      RunSnoc(s, init, e);
      RunMode(s, init);
      RunShowsLastAccepted(s, init, m);
      var mid := Run(s, init);
      if e.ChooseFiles? && Upload(mid, e.files, e.url).Uploaded? && mid.mode != m {
        assert m == Other(mid.mode);
      }
    }
  }

  /** Runs with no file selection leave the source table alone: mode switches only change which pair is shown. */
  lemma {:induction false} NoSelectionKeepsTable(s: State, evs: seq<Event>)
    requires forall i :: 0 <= i < |evs| ==> !evs[i].ChooseFiles?
    ensures Run(s, evs).table == s.table
    decreases |evs|
  {
    if evs != [] {
      NoSelectionKeepsTable(Step(s, evs[0]).state, evs[1..]);
    }
  }

  /** A rejected selection changes nothing and raises the alert naming the expected kind. */
  lemma RejectedSelectionChangesNothing(s: State, files: seq<Player.File>, url: string)
    requires |files| > 0 && !Player.Accepts(s.mode, files[0].kind)
    ensures Step(s, ChooseFiles(files, url)) == Outcome(s, Alerted(Player.AlertMessage(s.mode)))
  {
  }

  // ---------------------------------------------------------------------
  // Scenarios
  // ---------------------------------------------------------------------

  /** The first screen: video mode, the sample video and its title, both flags off. */
  lemma InitialScreen()
    ensures Initial.mode == Video
    ensures Props(Initial) == Shown(SampleVideoUrl, "Big Buck Bunny")
    ensures Display(Initial.table, Audio) == Shown(SampleAudioUrl, "Baby Elephant Walk")
    ensures !Initial.flags.playing && !Initial.flags.muted
  {
  }

  /** Choosing audio first shows the audio sample's title and hides the fullscreen action. */
  lemma SwitchToAudioScenario()
    ensures var s := Step(Initial, ChooseMode(Audio)).state;
      && Props(s).title == "Baby Elephant Walk"
      && !Player.FullscreenControlShown(s.mode)
      && Step(s, PressFullscreen(false)).signal == Native(Player.NoCall)
  {
  }

  /** An MP3 chosen in audio mode becomes the audio pair, with no alert. */
  lemma UploadSongScenario(url: string)
    ensures var s := Step(Initial, ChooseMode(Audio)).state;
      var o := Step(s, ChooseFiles([Player.File("audio/mpeg", "song.mp3")], url));
      && o.signal == Quiet
      && Props(o.state) == Shown(url, "song.mp3")
      && Display(o.state.table, Video) == Display(Initial.table, Video)
  {
  }

  /** A QuickTime movie chosen in audio mode is refused with the audio alert, and nothing changes. */
  lemma UploadMovieInAudioScenario(url: string)
    ensures var s := Step(Initial, ChooseMode(Audio)).state;
      Step(s, ChooseFiles([Player.File("video/quicktime", "clip.mov")], url))
        == Outcome(s, Alerted("Please select a valid audio file"))
  {
    var s := Step(Initial, ChooseMode(Audio)).state;
    assert Prefix.StartsWith("video/quicktime", "video/") by {
      assert "video/quicktime"[..6] == "video/";
    }
    Player.OtherKindRejected(Audio, "video/quicktime");
    RejectedSelectionChangesNothing(s, [Player.File("video/quicktime", "clip.mov")], url);
    assert Player.AlertMessage(Audio) == "Please select a valid audio file";
  }
}

/**
 The shell component (src/App.tsx): it owns the active mode and the table of
 media sources, selects the (src, title) pair the player shows, and rewrites
 the active mode's pair when the player forwards an uploaded file.
 */
module Shell {

  /** The closed set of player modes. */
  datatype Mode = Video | Audio

  /** The mode's name as the source spells it ('video' / 'audio'); it appears in messages and MIME types. */
  function ModeName(m: Mode): string {
    match m
    case Video => "video"
    case Audio => "audio"
  }

  /** The mode that is not `m`. */
  function Other(m: Mode): (o: Mode)
    ensures o != m
  {
    if m == Video then Audio else Video
  }

  /** The four-field source table: one (source URL, title) pair per mode, stored flat. */
  datatype SourceTable = SourceTable(video: string, audio: string, videoTitle: string, audioTitle: string)

  /** What the player is handed: the `src` and `title` props. */
  datatype Shown = Shown(src: string, title: string)

  const SampleVideoUrl: string := "https://test-videos.co.uk/vids/bigbuckbunny/mp4/h264/360/Big_Buck_Bunny_360_10s_1MB.mp4"
  const SampleAudioUrl: string := "https://www2.cs.uic.edu/~i101/SoundFiles/BabyElephantWalk60.wav"

  /** The state the shell starts in. */
  const InitialMode: Mode := Video
  const InitialTable: SourceTable := SourceTable(SampleVideoUrl, SampleAudioUrl, "Big Buck Bunny", "Baby Elephant Walk")

  /** The pair of the table that belongs to mode `m`, as passed to the player. */
  function Display(t: SourceTable, m: Mode): Shown {
    match m
    case Video => Shown(t.video, t.videoTitle)
    case Audio => Shown(t.audio, t.audioTitle)
  }

  /** A table is fully determined by the two pairs it shows: there are no hidden fields. */
  lemma DisplayDeterminesTable(t: SourceTable, u: SourceTable)
    requires Display(t, Video) == Display(u, Video)
    requires Display(t, Audio) == Display(u, Audio)
    ensures t == u
  {
  }

  /**
   The shell's upload handler, given the object URL created for the file and the
   file's name: the active mode's pair becomes (url, name); the other pair stays.
   */
  function HandleFileUpload(t: SourceTable, m: Mode, url: string, name: string): (t': SourceTable)
    ensures Display(t', m) == Shown(url, name)
    ensures Display(t', Other(m)) == Display(t, Other(m))
  {
    match m
    case Video => t.(video := url, videoTitle := name)
    case Audio => t.(audio := url, audioTitle := name)
  }

  /** Exactly the two fields of the active mode change: written field by field. */
  lemma UploadReplacesExactlyActivePair(t: SourceTable, m: Mode, url: string, name: string)
    ensures m == Video ==> HandleFileUpload(t, m, url, name) == SourceTable(url, t.audio, name, t.audioTitle)
    ensures m == Audio ==> HandleFileUpload(t, m, url, name) == SourceTable(t.video, url, t.videoTitle, name)
  {
  }

  /** Uploading twice into the same mode: only the second upload is visible. */
  lemma UploadLastWins(t: SourceTable, m: Mode, url1: string, name1: string, url2: string, name2: string)
    ensures HandleFileUpload(HandleFileUpload(t, m, url1, name1), m, url2, name2) == HandleFileUpload(t, m, url2, name2)
  {
  }

  /** Uploads into different modes touch disjoint pairs, so their order does not matter. */
  lemma UploadsInDifferentModesCommute(t: SourceTable, m: Mode, u1: string, n1: string, u2: string, n2: string)
    ensures HandleFileUpload(HandleFileUpload(t, m, u1, n1), Other(m), u2, n2)
         == HandleFileUpload(HandleFileUpload(t, Other(m), u2, n2), m, u1, n1)
  {
  }
}

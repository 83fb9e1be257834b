/**
 * `downloadSpotify` (routes/spotify.js): the same fixed menu as the Apple Music adapter, with a
 * single metadata endpoint, and a filename that starts with the song title exactly as the
 * payload gives it.
 */
module SpotifyRoute {
  import opened JsText
  import opened DownloadEngine
  import opened Routes

  /** The payload `data.data`, as far as the download uses it. */
  datatype Song = Song(mp3DownloadLink: Option<string>, coverDownloadLink: Option<string>, songTitle: Option<string>)

  /** The payload test: a truthy `mp3DownloadLink`. */
  predicate Playable(s: Song) {
    Truthy(s.mp3DownloadLink)
  }

  /** The literal menu. */
  function Choices(s: Song): seq<Choice<TrackPick>> {
    [ Pick(" Download MP3", TrackPick(s.mp3DownloadLink, Audio)),
      Pick(" Download Cover Image", TrackPick(s.coverDownloadLink, Image)),
      Cancel ]
  }

  /** `${songTitle || 'Spotify'}_${type}_${Date.now()}.${extension}`: the title is not
      sanitised. */
  function Filename(songTitle: Option<string>, kind: Kind, now: nat): string {
    TrackFilename("", OrElse(songTitle, "Spotify"), kind, now)
  }

  /** The adapter for the metadata response, the user's pick in the menu and the clock. */
  function Plan(r: Response<Song>, pick: nat, now: nat, basePath: string): (o: Outcome)
    requires Gate(r).Pass? && Playable(Gate(r).payload) ==> pick < 3
    ensures o.Download? <==> Gate(r).Pass? && Playable(Gate(r).payload) && pick < 2
    ensures Gate(r).Fail? ==> o == Stopped(Gate(r).why)
    ensures Gate(r).Pass? && !Playable(Gate(r).payload) ==> o == Stopped(InvalidData)
    ensures Gate(r).Pass? && Playable(Gate(r).payload) && pick == 2 ==> o == Stopped(Cancelled)
    // the first entry fetches the MP3 link behind the size guard
    ensures o.Download? && pick == 0 ==>
              var s := Gate(r).payload;
              o.request == Request(s.mp3DownloadLink, Filename(s.songTitle, Audio, now), basePath, Some(MAX_FILE_SIZE))
    // the second fetches the cover link, unguarded
    ensures o.Download? && pick == 1 ==>
              var s := Gate(r).payload;
              o.request == Request(s.coverDownloadLink, Filename(s.songTitle, Image, now), basePath, None)
  {
    match Gate(r)
    case Fail(why) => Stopped(why)
    case Pass(s) =>
      if !Playable(s) then Stopped(InvalidData)
      else
        match Choices(s)[pick]
        case Cancel => Stopped(Cancelled)
        case Pick(_, TrackPick(url, kind)) =>
          Download(Request(url, Filename(s.songTitle, kind, now), basePath, MaxSizeFor(kind)))
  }

  lemma FallbackHasNoSlash()
    ensures '/' !in "Spotify"
  {
  }

  /** The name holds a '/' exactly when the song title does. `path.join` then names a file in a
      subdirectory of the base directory ("AC/DC" gives `base/AC/DC_audio_…`), which
      `downloadFile` never creates: unless it exists already the write stream cannot open
      (the OpenFailed transfer) and the call throws. */
  lemma SlashInTitleReachesPath(songTitle: Option<string>, kind: Kind, now: nat)
    ensures '/' in Filename(songTitle, kind, now) <==> Truthy(songTitle) && '/' in songTitle.value
  {
    FallbackHasNoSlash();
    TrackFilenameAvoids('/', "", OrElse(songTitle, "Spotify"), kind, now);
  }

  /** A download is guarded exactly when it is the MP3, and only the MP3 is named ".mp3". */
  lemma GuardOnlyForAudio(r: Response<Song>, pick: nat, now: nat, basePath: string)
    requires Gate(r).Pass? && Playable(Gate(r).payload) && pick < 2
    ensures var o := Plan(r, pick, now, basePath);
            && (GuardEnabled(o.request.maxSize) <==> pick == 0)
            && (EndsWith(o.request.filename, ".mp3") <==> pick == 0)
  {
    var s := Gate(r).payload;
    var kind := if pick == 0 then Audio else Image;
    TrackFilenameSuffix("", OrElse(s.songTitle, "Spotify"), kind, now);
  }

  /** A missing title and an empty one both name the file after "Spotify". */
  lemma MissingTitleIsSpotify(kind: Kind, now: nat)
    ensures Filename(None, kind, now) == Filename(Some(""), kind, now)
    ensures Filename(None, kind, now) == Filename(Some("Spotify"), kind, now)
  {
  }
}

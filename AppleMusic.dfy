/**
 * `downloadAppleMusic` (routes/applemusic.js): a fixed menu of the MP3, the cover image and
 * Cancel; the file is named after the artist with every character outside [A-Za-z0-9]
 * replaced, and only the MP3 is fetched behind the size guard.
 */
module AppleMusicRoute {
  import opened JsText
  import opened DownloadEngine
  import opened Routes

  /** The payload `data.data`, as far as the download uses it. */
  datatype Track = Track(mp3DownloadLink: Option<string>, coverDownloadLink: Option<string>, artist: Option<string>)

  /** The payload test: a truthy `mp3DownloadLink`. */
  predicate Playable(t: Track) {
    Truthy(t.mp3DownloadLink)
  }

  /** The literal menu. */
  function Choices(t: Track): seq<Choice<TrackPick>> {
    [ Pick("  Download MP3", TrackPick(t.mp3DownloadLink, Audio)),
      Pick("  Download Cover Image", TrackPick(t.coverDownloadLink, Image)),
      Cancel ]
  }

  /** `(artist || 'AppleMusic').replace(/[^a-z0-9]/gi, '_')`. */
  function ArtistSegment(artist: Option<string>): (a: string)
    ensures |a| == |OrElse(artist, "AppleMusic")|
    ensures forall i :: 0 <= i < |a| ==> IsAsciiAlnum(a[i]) || a[i] == '_'
  {
    ReplaceNonAlnum(OrElse(artist, "AppleMusic"))
  }

  /** `applemusic_${sanitizedArtist}_${type}_${Date.now()}.${extension}`. */
  function Filename(artist: Option<string>, kind: Kind, now: nat): string {
    TrackFilename("applemusic_", ArtistSegment(artist), kind, now)
  }

  /** The adapter for the metadata response, the user's pick in the menu and the clock. */
  function Plan(r: Response<Track>, pick: nat, now: nat, basePath: string): (o: Outcome)
    requires Gate(r).Pass? && Playable(Gate(r).payload) ==> pick < 3
    ensures o.Download? <==> Gate(r).Pass? && Playable(Gate(r).payload) && pick < 2
    ensures Gate(r).Fail? ==> o == Stopped(Gate(r).why)
    ensures Gate(r).Pass? && !Playable(Gate(r).payload) ==> o == Stopped(InvalidData)
    ensures Gate(r).Pass? && Playable(Gate(r).payload) && pick == 2 ==> o == Stopped(Cancelled)
    // the first entry fetches the MP3 link behind the size guard
    ensures o.Download? && pick == 0 ==>
              var t := Gate(r).payload;
              o.request == Request(t.mp3DownloadLink, Filename(t.artist, Audio, now), basePath, Some(MAX_FILE_SIZE))
    // the second fetches the cover link, unguarded
    ensures o.Download? && pick == 1 ==>
              var t := Gate(r).payload;
              o.request == Request(t.coverDownloadLink, Filename(t.artist, Image, now), basePath, None)
  {
    match Gate(r)
    case Fail(why) => Stopped(why)
    case Pass(t) =>
      if !Playable(t) then Stopped(InvalidData)
      else
        match Choices(t)[pick]
        case Cancel => Stopped(Cancelled)
        case Pick(_, TrackPick(url, kind)) =>
          Download(Request(url, Filename(t.artist, kind, now), basePath, MaxSizeFor(kind)))
  }

  /** Every download goes into the base directory itself: the name holds no '/', whatever the
      artist field holds. */
  lemma FilenameStaysInBaseDirectory(artist: Option<string>, kind: Kind, now: nat)
    ensures '/' !in Filename(artist, kind, now)
  {
    var a := ArtistSegment(artist);
    assert '/' !in a by {
      forall i | 0 <= i < |a| ensures a[i] != '/' {
        assert IsAsciiAlnum(a[i]) || a[i] == '_';
      }
    }
    PrefixHasNoSlash();
    TrackFilenameAvoids('/', "applemusic_", a, kind, now);
  }

  lemma PrefixHasNoSlash()
    ensures '/' !in "applemusic_"
  {
  }

  /** A download is guarded exactly when it is the MP3, and only the MP3 is named ".mp3". */
  lemma GuardOnlyForAudio(r: Response<Track>, pick: nat, now: nat, basePath: string)
    requires Gate(r).Pass? && Playable(Gate(r).payload) && pick < 2
    ensures var o := Plan(r, pick, now, basePath);
            && (GuardEnabled(o.request.maxSize) <==> pick == 0)
            && (EndsWith(o.request.filename, ".mp3") <==> pick == 0)
  {
    var t := Gate(r).payload;
    var kind := if pick == 0 then Audio else Image;
    TrackFilenameSuffix("applemusic_", ArtistSegment(t.artist), kind, now);
  }

  /** A missing artist and an empty one both name the file after "AppleMusic". */
  lemma MissingArtistIsAppleMusic(kind: Kind, now: nat)
    ensures Filename(None, kind, now) == Filename(Some(""), kind, now)
    ensures ArtistSegment(None) == ArtistSegment(Some("AppleMusic"))
  {
  }
}

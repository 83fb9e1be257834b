/**
 * `downloadBluesky` (routes/bluesky.js): no menu; the post's `downloadLink` is fetched
 * unguarded, named after the author's handle with '@' and '.' replaced, and given the
 * extension of a video when the post has a `videoUrl` and of an image otherwise.
 */
module BlueskyRoute {
  import opened JsText
  import opened DownloadEngine
  import opened Routes

  /** `data.data.profile`, as far as the filename uses it. */
  datatype Profile = Profile(handle: Option<string>)

  /** The payload `data.data`. */
  datatype Post = Post(downloadLink: Option<string>, videoUrl: Option<string>, profile: Option<Profile>,
                       caption: Option<string>)

  /** The payload test: a truthy `downloadLink`. */
  predicate Downloadable(p: Post) {
    Truthy(p.downloadLink)
  }

  /** `data.data.videoUrl ? 'video' : 'image'`. */
  predicate IsVideo(p: Post) {
    Truthy(p.videoUrl)
  }

  /** `mediaType === 'video' ? 'mp4' : 'jpg'`. */
  function MediaExtension(video: bool): string {
    if video then "mp4" else "jpg"
  }

  /** `profile?.handle?.replace(/[@.]/g, '_') || 'bluesky'`: a missing profile, a missing handle
      and an empty one all fall back to "bluesky". */
  function Handle(profile: Option<Profile>): (h: string)
    ensures |h| > 0
    ensures forall i :: 0 <= i < |h| ==> h[i] != '@' && h[i] != '.'
  {
    if profile.Some? && Truthy(profile.value.handle) then ReplaceAtAndDot(profile.value.handle.value)
    else "bluesky"
  }

  /** `bluesky_${handle}_${Date.now()}.${extension}`. */
  function Filename(profile: Option<Profile>, video: bool, now: nat): string {
    "bluesky_" + Handle(profile) + "_" + Decimal(now) + "." + MediaExtension(video)
  }

  /** The caption line: shown only for a caption that is not blank, cut to its first 100
      characters with "..." appended when it is longer. */
  function ShownCaption(caption: Option<string>): Option<string> {
    if Truthy(caption) && Trim(caption.value) != "" then
      var c := caption.value;
      Some(if |c| > 100 then c[..100] + "..." else c)
    else None
  }

  /** The adapter for the metadata response and the clock: the only media link fetched is
      `downloadLink`, whatever the media type. */
  function Plan(r: Response<Post>, now: nat, basePath: string): (o: Outcome)
    ensures o.Download? <==> Gate(r).Pass? && Downloadable(Gate(r).payload)
    ensures Gate(r).Fail? ==> o == Stopped(Gate(r).why)
    ensures Gate(r).Pass? && !Downloadable(Gate(r).payload) ==> o == Stopped(InvalidData)
    ensures o.Download? ==>
              var p := Gate(r).payload;
              o.request == Request(p.downloadLink, Filename(p.profile, IsVideo(p), now), basePath, None)
  {
    match Gate(r)
    case Fail(why) => Stopped(why)
    case Pass(p) =>
      if !Downloadable(p) then Stopped(InvalidData)
      else Download(Request(p.downloadLink, Filename(p.profile, IsVideo(p), now), basePath, None))
  }

  lemma FallbackIsPlain()
    ensures '.' !in "bluesky_" && '@' !in "bluesky_"
  {
  }

  /** The name holds no '@', and its only '.' is the one before the three-letter extension,
      whatever the handle held. */
  lemma OnlyDotIsExtensionSeparator(profile: Option<Profile>, video: bool, now: nat)
    ensures var f := Filename(profile, video, now);
            && '@' !in f
            && |f| >= 4 && f[|f| - 4] == '.'
            && forall i :: 0 <= i < |f| - 4 ==> f[i] != '.'
  {
    var h, d, e := Handle(profile), Decimal(now), MediaExtension(video);
    FallbackIsPlain();
    DecimalHasOnlyDigits(now, '.');
    DecimalHasOnlyDigits(now, '@');
    assert '.' !in h && '@' !in h by {
      forall i | 0 <= i < |h| ensures h[i] != '@' && h[i] != '.' { }
    }
    assert '.' !in e && '@' !in e && |e| == 3;
    var body := "bluesky_" + h + "_" + d;
    assert '.' !in body && '@' !in body;
    var f := Filename(profile, video, now);
    assert f == body + "." + e;
    forall i | 0 <= i < |f| - 4 ensures f[i] != '.' {
      assert f[i] == body[i];
    }
  }

  /** The extension is "mp4" exactly for a post with a video URL. */
  lemma VideoGetsMp4(profile: Option<Profile>, video: bool, now: nat)
    ensures EndsWith(Filename(profile, video, now), ".mp4") <==> video
  {
    var f := Filename(profile, video, now);
    var tail := "." + MediaExtension(video);
    assert f == ("bluesky_" + Handle(profile) + "_" + Decimal(now)) + tail;
    assert f[|f| - 4..] == tail;
    assert ".jpg" != ".mp4" by { assert ".jpg"[1] != ".mp4"[1]; }
  }

  /** A missing profile, a missing handle and an empty handle all name the file after
      "bluesky". */
  lemma MissingHandleIsBluesky(video: bool, now: nat)
    ensures Filename(None, video, now) == Filename(Some(Profile(None)), video, now)
    ensures Filename(None, video, now) == Filename(Some(Profile(Some(""))), video, now)
    ensures Handle(None) == "bluesky"
  {
  }

  /** The caption line is printed exactly when the caption has a character other than
      whitespace. */
  lemma CaptionShownUnlessBlank(caption: Option<string>)
    ensures ShownCaption(caption).Some? <==>
              caption.Some? && exists k :: 0 <= k < |caption.value| && !IsSpace(caption.value[k])
  {
    if caption.Some? {
      TrimEmptyIffBlank(caption.value);
    }
  }

  /** A shown caption is the caption itself up to 100 characters, and its first 100 characters
      followed by "..." beyond. */
  lemma CaptionCutAt100(caption: Option<string>)
    requires ShownCaption(caption).Some?
    ensures var c, shown := caption.value, ShownCaption(caption).value;
            && |shown| <= 103
            && (|c| <= 100 ==> shown == c)
            && (|c| > 100 ==> shown[..100] == c[..100] && |shown| == 103)
  {
    var c, shown := caption.value, ShownCaption(caption).value;
    if |c| > 100 {
      assert shown == c[..100] + "...";
    }
  }
}

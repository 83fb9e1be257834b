/**
 * `downloadTikTok` (routes/tiktok.js): the primary endpoint first, the fallback endpoint
 * only when the first attempt throws or is rejected, the URL list of whichever endpoint was
 * accepted offered as "Video Quality n" entries, and one unguarded download.
 */
module TikTokRoute {
  import opened JsText
  import opened DownloadEngine
  import opened Routes

  /** `data.metadata`; only whether `metadata.stats` is present matters to the control flow. */
  datatype Metadata = Metadata(hasStats: bool)

  /** The payload `data.data` of either endpoint: `urls` (primary), `download.video` (fallback,
      None also when `download` itself is missing) and `metadata`. */
  datatype TikTokData = TikTokData(urls: Option<seq<string>>, video: Option<seq<string>>, metadata: Option<Metadata>)

  /** `apiVersion`. */
  datatype ApiVersion = V2 | V1

  /** `getApi.tiktok` (the one the code calls v2) and `getApi.tiktokV1`. */
  datatype Endpoint = Primary | Fallback

  /** The state after the nested try/catch: `data` with `apiVersion`, or the error that
      escaped to the outer catch block. */
  datatype Fetched = Accepted(version: ApiVersion, data: TikTokData) | FetchThrew(message: string)

  const BOTH_FAILED := "Both v2 and v1 APIs failed"

  /** The primary response is used: status truthy and a non-empty `data.urls`. */
  predicate V2Accepts(r: Response<TikTokData>) {
    r.Returned? && r.status && r.data.Some? && r.data.value.urls.Some? && |r.data.value.urls.value| > 0
  }

  /** The fallback response is used: status truthy and `data.download.video` present (an
      array is truthy even when empty). */
  predicate V1Accepts(r: Response<TikTokData>) {
    r.Returned? && r.status && r.data.Some? && r.data.value.video.Some?
  }

  /** The outcome of the two-endpoint fetch; each outcome carries one endpoint's payload, never a
      mixture of both. */
  function Fetch(v2: Response<TikTokData>, v1: Response<TikTokData>): (f: Fetched)
    ensures f.Accepted? && f.version == V2 <==> V2Accepts(v2)
    ensures f.Accepted? && f.version == V2 ==> f.data == v2.data.value
    ensures f.Accepted? && f.version == V1 <==> !V2Accepts(v2) && V1Accepts(v1)
    ensures f.Accepted? && f.version == V1 ==> f.data == v1.data.value
    ensures f.FetchThrew? && v1.Threw? ==> f.message == v1.message
    ensures f.FetchThrew? && !v1.Threw? ==> f.message == BOTH_FAILED
  {
    if V2Accepts(v2) then Accepted(V2, v2.data.value)
    else if V1Accepts(v1) then Accepted(V1, v1.data.value)
    else if v1.Threw? then FetchThrew(v1.message)
    else FetchThrew(BOTH_FAILED)
  }

  /** The nested try/catch, step by step; `requested` lists the endpoints in the order they
      were called. The fallback is called only after the primary attempt failed. */
  method FetchWithFallback(v2: Response<TikTokData>, v1: Response<TikTokData>) returns (fetched: Fetched, requested: seq<Endpoint>)
    ensures fetched == Fetch(v2, v1)
    ensures requested == if V2Accepts(v2) then [Primary] else [Primary, Fallback]
  {
    var data: Option<TikTokData> := None;
    var apiVersion := V2;
    requested := [Primary];
    var v2Error := true;
    if V2Accepts(v2) {
      data, apiVersion, v2Error := Some(v2.data.value), V2, false;
    }
    if v2Error {
      requested := requested + [Fallback];
      if v1.Threw? {
        return FetchThrew(v1.message), requested;
      }
      if V1Accepts(v1) {
        data, apiVersion := Some(v1.data.value), V1;
      } else {
        return FetchThrew(BOTH_FAILED), requested;
      }
    }
    fetched := Accepted(apiVersion, data.value);
  }

  /** The URL list offered after the information display, or None where the display reads a
      missing `metadata` (either endpoint) or `metadata.stats` (fallback) and throws. */
  function Listing(f: Fetched): (l: Option<seq<string>>)
    requires f.Accepted? ==> (if f.version == V2 then f.data.urls.Some? else f.data.video.Some?)
    ensures l.Some? <==> f.Accepted? && f.data.metadata.Some? && (f.version == V1 ==> f.data.metadata.value.hasStats)
    ensures l.Some? ==> l.value == if f.version == V2 then f.data.urls.value else f.data.video.value
  {
    match f
    case FetchThrew(_) => None
    case Accepted(V2, d) => if d.metadata.None? then None else d.urls
    case Accepted(V1, d) => if d.metadata.None? || !d.metadata.value.hasStats then None else d.video
  }

  /** The menu: one "Video Quality n" entry per URL in provider order, then Cancel. */
  function Choices(urls: seq<string>): (r: seq<Choice<string>>)
    ensures |r| == |urls| + 1 && r[|urls|] == Cancel
    ensures forall i :: 0 <= i < |urls| ==> r[i] == Pick(" Video Quality " + Decimal(i + 1), urls[i])
  {
    Menu(urls, (u: string, i: nat) => " Video Quality " + Decimal(i + 1), (u: string, i: nat) => u)
  }

  /** `tiktok_video_${Date.now()}.mp4`. */
  function Filename(now: nat): string {
    "tiktok_video_" + Decimal(now) + ".mp4"
  }

  /** The whole adapter for the two responses, the user's pick in the menu and the clock. */
  function Plan(v2: Response<TikTokData>, v1: Response<TikTokData>, pick: nat, now: nat, basePath: string): (o: Outcome)
    requires Listing(Fetch(v2, v1)).Some? ==> pick <= |Listing(Fetch(v2, v1)).value|
    // a download happens only for an accepted payload that displays, and a pick that is not Cancel
    ensures o.Download? <==> Listing(Fetch(v2, v1)).Some? && pick < |Listing(Fetch(v2, v1)).value|
    // it fetches the picked URL into tiktok_video_<ts>.mp4, without a size guard
    ensures o.Download? ==>
              o.request == Request(Some(Listing(Fetch(v2, v1)).value[pick]), Filename(now), basePath, None)
    ensures Fetch(v2, v1).FetchThrew? ==> o == Stopped(RequestFailed(Fetch(v2, v1).message))
    // an accepted payload whose display reads missing metadata throws inside the try block
    ensures Fetch(v2, v1).Accepted? && Listing(Fetch(v2, v1)).None? ==> o == Stopped(Crashed)
    // the list is shown and the user picks Cancel, its last entry
    ensures Listing(Fetch(v2, v1)).Some? && pick == |Listing(Fetch(v2, v1)).value| ==> o == Stopped(Cancelled)
  {
    var f := Fetch(v2, v1);
    match Listing(f)
    case None => if f.FetchThrew? then Stopped(RequestFailed(f.message)) else Stopped(Crashed)
    case Some(urls) =>
      var choices := Choices(urls);
      match choices[pick]
      case Cancel => Stopped(Cancelled)
      case Pick(_, url) => Download(Request(Some(url), Filename(now), basePath, None))
  }

  /** When both endpoints fail nothing is downloaded, and the message says so unless the
      fallback request itself threw. */
  lemma BothFailedNoDownload(v2: Response<TikTokData>, v1: Response<TikTokData>, pick: nat, now: nat, basePath: string)
    requires !V2Accepts(v2) && !V1Accepts(v1)
    ensures Plan(v2, v1, pick, now, basePath) ==
              Stopped(RequestFailed(if v1.Threw? then v1.message else BOTH_FAILED))
  {
  }

  /** The fallback's test accepts an empty `download.video`, which leaves only Cancel to pick. */
  lemma EmptyFallbackListOffersOnlyCancel(v2: Response<TikTokData>, v1: Response<TikTokData>)
    requires !V2Accepts(v2) && V1Accepts(v1) && v1.data.value.video.value == []
    requires v1.data.value.metadata == Some(Metadata(true))
    ensures Fetch(v2, v1).Accepted?
    ensures Choices(Listing(Fetch(v2, v1)).value) == [Cancel]
  {
  }
}

/**
 * `downloadThreads` (routes/threads.js): no menu; the payload's `download` link is fetched
 * unguarded as an MP4 named only after the clock.
 */
module ThreadsRoute {
  import opened JsText
  import opened DownloadEngine
  import opened Routes

  /** The payload `data.data`, as far as the download uses it. */
  datatype Clip = Clip(download: Option<string>)

  /** The payload test: a truthy `download` link. */
  predicate Downloadable(c: Clip) {
    Truthy(c.download)
  }

  /** `threads_video_${Date.now()}.mp4`. */
  function Filename(now: nat): string {
    "threads_video_" + Decimal(now) + ".mp4"
  }

  /** The adapter for the metadata response and the clock. */
  function Plan(r: Response<Clip>, now: nat, basePath: string): (o: Outcome)
    ensures o.Download? <==> Gate(r).Pass? && Downloadable(Gate(r).payload)
    ensures Gate(r).Fail? ==> o == Stopped(Gate(r).why)
    ensures Gate(r).Pass? && !Downloadable(Gate(r).payload) ==> o == Stopped(InvalidData)
    ensures o.Download? ==> o.request == Request(Gate(r).payload.download, Filename(now), basePath, None)
  {
    match Gate(r)
    case Fail(why) => Stopped(why)
    case Pass(c) =>
      if !Downloadable(c) then Stopped(InvalidData)
      else Download(Request(c.download, Filename(now), basePath, None))
  }

  /** The name depends on the clock alone, and different clock values give different names. */
  lemma FilenameIdentifiesTime(n1: nat, n2: nat)
    requires Filename(n1) == Filename(n2)
    ensures n1 == n2
  {
    StampedNameInjective("threads_video_", ".mp4", n1, n2);
  }
}

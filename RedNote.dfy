/**
 * `downloadRedNote` (routes/rednote.js): the menu built by pushing every video, then every
 * image, then "Download All" when there is more than one medium, then Cancel; a single
 * download for a single pick; and the "Download All" batch, which downloads the videos and
 * then the images one after another and stops at the first call that throws.
 */
module RedNoteRoute {
  import opened JsText
  import opened DownloadEngine
  import opened Routes

  /** An entry of `data.downloads`. */
  datatype Video = Video(quality: string, url: Option<string>)

  /** The payload `data.data`: its `downloads` and `images` lists. */
  datatype Post = Post(downloads: Option<seq<Video>>, images: Option<seq<string>>)

  /** The value of a menu entry other than Cancel. */
  datatype MediaPick = VideoPick(video: Video, index: nat) | ImagePick(image: string, index: nat) | AllPick

  /** The videos offered: `downloads` when `hasVideos`, otherwise none. */
  function Videos(p: Post): (v: seq<Video>)
    ensures v == [] || p.downloads == Some(v)
  {
    if p.downloads.Some? then p.downloads.value else []
  }

  /** The images offered: `images` when `hasImages`, otherwise none. */
  function Images(p: Post): (v: seq<string>)
    ensures v == [] || p.images == Some(v)
  {
    if p.images.Some? then p.images.value else []
  }

  /** The length of the menu for nv videos and ni images. */
  function MenuLength(nv: nat, ni: nat): nat {
    nv + ni + (if nv + ni > 1 then 1 else 0) + 1
  }

  /** The label of the i-th image entry. */
  function ImageLabel(i: nat): string {
    " Image " + Decimal(i + 1)
  }

  /** The p-th entry of the menu: the videos in order, the images in order, "Download All"
      only when there is more than one medium, and Cancel last. */
  function MenuEntry(videos: seq<Video>, images: seq<string>, p: nat): Choice<MediaPick> {
    if p < |videos| then Pick(" Video - " + videos[p].quality, VideoPick(videos[p], p))
    else if p < |videos| + |images| then Pick(ImageLabel(p - |videos|), ImagePick(images[p - |videos|], p - |videos|))
    else if |videos| + |images| > 1 && p == |videos| + |images| then Pick(" Download All", AllPick)
    else Cancel
  }

  /** The menu, pushed entry by entry. */
  method BuildChoices(videos: seq<Video>, images: seq<string>) returns (choices: seq<Choice<MediaPick>>)
    ensures |choices| == MenuLength(|videos|, |images|)
    ensures forall p :: 0 <= p < |choices| ==> choices[p] == MenuEntry(videos, images, p)
  {
    choices := [];
    var i := 0;
    while i < |videos|
      invariant 0 <= i <= |videos| && |choices| == i
      invariant forall p :: 0 <= p < i ==> choices[p] == MenuEntry(videos, images, p)
    {
      choices := choices + [Pick(" Video - " + videos[i].quality, VideoPick(videos[i], i))];
      i := i + 1;
    }
    i := 0;
    while i < |images|
      invariant 0 <= i <= |images| && |choices| == |videos| + i
      invariant forall p :: 0 <= p < |videos| + i ==> choices[p] == MenuEntry(videos, images, p)
    {
      choices := choices + [Pick(ImageLabel(i), ImagePick(images[i], i))];
      i := i + 1;
    }
    if |choices| > 1 {
      choices := choices + [Pick(" Download All", AllPick)];
    }
    choices := choices + [Cancel];
  }

  /** Cancel is the last entry and the only one; "Download All" is offered exactly when there
      is more than one medium, just before Cancel; every video and every image has an entry of
      its own, carrying that medium and its index. */
  lemma MenuShape(videos: seq<Video>, images: seq<string>)
    ensures var n := MenuLength(|videos|, |images|);
            forall p :: 0 <= p < n ==> (MenuEntry(videos, images, p) == Cancel <==> p == n - 1)
    ensures forall p :: 0 <= p < MenuLength(|videos|, |images|) ==>
              (MenuEntry(videos, images, p) == Pick(" Download All", AllPick) <==>
                 |videos| + |images| > 1 && p == |videos| + |images|)
    ensures forall i :: 0 <= i < |videos| ==> MenuEntry(videos, images, i).value == VideoPick(videos[i], i)
    ensures forall i :: 0 <= i < |images| ==>
              MenuEntry(videos, images, |videos| + i).value == ImagePick(images[i], i)
  {
  }

  // ---------------------------------------------------------------- filenames and requests

  /** `rednote_video_${safeQuality}_${Date.now()}.mp4`, for a single pick. */
  function VideoFilename(quality: string, now: nat): string {
    "rednote_video_" + ReplaceNonAlnum(quality) + "_" + Decimal(now) + ".mp4"
  }

  /** `rednote_image_${Date.now()}.jpg`, for a single pick. */
  function ImageFilename(now: nat): string {
    "rednote_image_" + Decimal(now) + ".jpg"
  }

  /** `rednote_video_${safeQuality}_${Date.now()}_${i}.mp4`, inside the batch. */
  function BatchVideoFilename(quality: string, now: nat, i: nat): string {
    "rednote_video_" + ReplaceNonAlnum(quality) + "_" + Decimal(now) + "_" + Decimal(i) + ".mp4"
  }

  /** `rednote_image_${Date.now()}_${i}.jpg`, inside the batch. */
  function BatchImageFilename(now: nat, i: nat): string {
    "rednote_image_" + Decimal(now) + "_" + Decimal(i) + ".jpg"
  }

  /** The sanitised quality keeps its length and holds only ASCII letters, digits and '_', so
      it cannot take the file out of the base directory. */
  lemma SafeQuality(quality: string)
    ensures |ReplaceNonAlnum(quality)| == |quality|
    ensures forall i :: 0 <= i < |quality| ==>
              var c := ReplaceNonAlnum(quality)[i]; IsAsciiAlnum(c) || c == '_'
    ensures '/' !in ReplaceNonAlnum(quality) && '.' !in ReplaceNonAlnum(quality)
  {
    var r := ReplaceNonAlnum(quality);
    assert forall i :: 0 <= i < |r| ==> r[i] != '/' && r[i] != '.';
  }

  /** The `downloadFile` calls of the batch, in order: first the videos, then the images. The
      k-th call (counting from 0, so `downloadIndex` is k + 1) reads the clock as `now(k)`; the
      index in a filename is the loop's own `i`. */
  function BatchRequests(videos: seq<Video>, images: seq<string>, now: nat -> nat, basePath: string): (reqs: seq<Request>)
    ensures |reqs| == |videos| + |images|
    ensures forall k :: 0 <= k < |reqs| ==> reqs[k].maxSize.None? && reqs[k].basePath == basePath
    ensures forall k :: 0 <= k < |videos| ==>
              reqs[k] == Request(videos[k].url, BatchVideoFilename(videos[k].quality, now(k), k), basePath, None)
    ensures forall k :: |videos| <= k < |reqs| ==>
              reqs[k] == Request(Some(images[k - |videos|]), BatchImageFilename(now(k), k - |videos|), basePath, None)
  {
    seq(|videos| + |images|, k requires 0 <= k < |videos| + |images| =>
          if k < |videos| then Request(videos[k].url, BatchVideoFilename(videos[k].quality, now(k), k), basePath, None)
          else Request(Some(images[k - |videos|]), BatchImageFilename(now(k), k - |videos|), basePath, None))
  }

  // ---------------------------------------------------------------- distinct batch paths

  /** The characters after the last '_' of x (all of x when it has none). */
  function AfterLastUnderscore(x: string): string {
    if x == [] || x[|x| - 1] == '_' then [] else AfterLastUnderscore(x[..|x| - 1]) + [x[|x| - 1]]
  }

  /** Appending "_" and a segment without '_' makes that segment the last one. */
  lemma {:induction false} AfterLastUnderscoreOf(p: string, d: string)
    requires '_' !in d
    ensures AfterLastUnderscore(p + "_" + d) == d
  {
    if d != [] {
      var n := |d| - 1;
      assert (p + "_" + d)[..|p + "_" + d| - 1] == p + "_" + d[..n];
      AfterLastUnderscoreOf(p, d[..n]);
      assert d[..n] + [d[n]] == d;
    } else {
      assert p + "_" + d == p + "_";
    }
  }

  /** A string that ends in "_" + d + ext, with no '_' in d, determines d. */
  lemma LastSegment(p1: string, d1: string, p2: string, d2: string, ext: string)
    requires '_' !in d1 && '_' !in d2
    requires p1 + "_" + d1 + ext == p2 + "_" + d2 + ext
    ensures d1 == d2
  {
    var x1, x2 := p1 + "_" + d1, p2 + "_" + d2;
    assert x1 == (x1 + ext)[..|x1|];
    assert x2 == (x2 + ext)[..|x2|];
    AfterLastUnderscoreOf(p1, d1);
    AfterLastUnderscoreOf(p2, d2);
  }

  /** The i-th and j-th batch requests go to different paths. */
  lemma BatchPathsDiffer(videos: seq<Video>, images: seq<string>, now: nat -> nat, basePath: string, i: nat, j: nat)
    requires i < j < |videos| + |images|
    ensures var reqs := BatchRequests(videos, images, now, basePath);
            PathOf(reqs[i]) != PathOf(reqs[j])
  {
    var reqs := BatchRequests(videos, images, now, basePath);
    BatchFilenamesDiffer(videos, images, now, basePath, i, j);
    JoinPathInjective(basePath, reqs[i].filename, reqs[j].filename);
  }

  lemma BatchFilenamesDiffer(videos: seq<Video>, images: seq<string>, now: nat -> nat, basePath: string, i: nat, j: nat)
    requires i < j < |videos| + |images|
    ensures var reqs := BatchRequests(videos, images, now, basePath);
            reqs[i].filename != reqs[j].filename
  {
    var reqs := BatchRequests(videos, images, now, basePath);
    if j < |videos| {
      VideoNamesDiffer(videos[i].quality, now(i), i, videos[j].quality, now(j), j);
    } else if |videos| <= i {
      ImageNamesDiffer(now(i), i - |videos|, now(j), j - |videos|);
    } else {
      assert reqs[i].filename[8] == 'v' by {
        VideoMarker(videos[i].quality, now(i), i);
      }
      assert reqs[j].filename[8] == 'i' by {
        ImageMarker(now(j), j - |videos|);
      }
    }
  }

  /** Every batch filename differs from every other one, even when the clock reads the same
      for all of them: videos and images differ in their prefix, and two of a kind in the loop
      index that ends the name. */
  lemma BatchPathsDistinct(videos: seq<Video>, images: seq<string>, now: nat -> nat, basePath: string)
    ensures var reqs := BatchRequests(videos, images, now, basePath);
            forall i, j :: 0 <= i < j < |reqs| ==> PathOf(reqs[i]) != PathOf(reqs[j])
  {
    forall i: nat, j: nat | i < j < |videos| + |images|
      ensures PathOf(BatchRequests(videos, images, now, basePath)[i]) != PathOf(BatchRequests(videos, images, now, basePath)[j])
    {
      BatchPathsDiffer(videos, images, now, basePath, i, j);
    }
  }

  lemma VideoNamesDiffer(q1: string, t1: nat, i: nat, q2: string, t2: nat, j: nat)
    requires i != j
    ensures BatchVideoFilename(q1, t1, i) != BatchVideoFilename(q2, t2, j)
  {
    if BatchVideoFilename(q1, t1, i) == BatchVideoFilename(q2, t2, j) {
      DecimalHasOnlyDigits(i, '_');
      DecimalHasOnlyDigits(j, '_');
      assert BatchVideoFilename(q1, t1, i) == ("rednote_video_" + ReplaceNonAlnum(q1) + "_" + Decimal(t1)) + "_" + Decimal(i) + ".mp4";
      assert BatchVideoFilename(q2, t2, j) == ("rednote_video_" + ReplaceNonAlnum(q2) + "_" + Decimal(t2)) + "_" + Decimal(j) + ".mp4";
      LastSegment("rednote_video_" + ReplaceNonAlnum(q1) + "_" + Decimal(t1), Decimal(i),
                  "rednote_video_" + ReplaceNonAlnum(q2) + "_" + Decimal(t2), Decimal(j), ".mp4");
      DecimalInjective(i, j);
    }
  }

  lemma ImageNamesDiffer(t1: nat, i: nat, t2: nat, j: nat)
    requires i != j
    ensures BatchImageFilename(t1, i) != BatchImageFilename(t2, j)
  {
    if BatchImageFilename(t1, i) == BatchImageFilename(t2, j) {
      DecimalHasOnlyDigits(i, '_');
      DecimalHasOnlyDigits(j, '_');
      LastSegment("rednote_image_" + Decimal(t1), Decimal(i), "rednote_image_" + Decimal(t2), Decimal(j), ".jpg");
      DecimalInjective(i, j);
    }
  }

  /** The ninth character tells a batch video name ('v') from a batch image name ('i'). */
  lemma VideoMarker(q: string, t: nat, i: nat)
    ensures |BatchVideoFilename(q, t, i)| > 8 && BatchVideoFilename(q, t, i)[8] == 'v'
  {
  }

  lemma ImageMarker(t: nat, i: nat)
    ensures |BatchImageFilename(t, i)| > 8 && BatchImageFilename(t, i)[8] == 'i'
  {
  }

  /** After "Download All", every item whose transfer finished before the batch stopped is on
      disk with its whole body, under its own batch filename. */
  lemma BatchKeepsEveryFinishedItem(st: FsState, videos: seq<Video>, images: seq<string>, now: nat -> nat,
                                    basePath: string, net: nat -> Transfer, k: nat)
    requires k < RunBatch(st, BatchRequests(videos, images, now, basePath), net).attempted
    requires net(k).Finished?
    ensures var reqs := BatchRequests(videos, images, now, basePath);
            var files := RunBatch(st, reqs, net).state.files;
            PathOf(reqs[k]) in files && files[PathOf(reqs[k])] == net(k).content
  {
    BatchPathsDistinct(videos, images, now, basePath);
    RunBatchKeepsFinished(st, BatchRequests(videos, images, now, basePath), net, k);
  }

  // ---------------------------------------------------------------- the adapter

  /** The "Download All" branch: the two `for` loops with their shared `downloadIndex`. The
      first call that throws leaves the loop, and the function, at once. `downloadIndex` ends
      as the number of calls made, out of `total`. */
  method DownloadAll(fs: FileSystem, videos: seq<Video>, images: seq<string>, basePath: string,
                     now: nat -> nat, net: nat -> Transfer)
    returns (downloadIndex: nat, total: nat, failed: bool)
    modifies fs
    ensures total == |videos| + |images|
    ensures var b := RunBatch(old(fs.State()), BatchRequests(videos, images, now, basePath), net);
            fs.State() == b.state && failed == b.failed && downloadIndex == b.attempted
  {
    ghost var st0 := fs.State();
    ghost var reqs := BatchRequests(videos, images, now, basePath);
    total := |videos| + |images|;
    downloadIndex, failed := DownloadVideos(fs, videos, images, basePath, now, net);
    if failed {
      RunBatchStopsAtFailure(st0, reqs, downloadIndex, net);
      return;
    }
    downloadIndex, failed := DownloadImages(fs, videos, images, basePath, now, net, st0);
  }

  /** The first loop: every video, `downloadIndex` counting the calls from 1. */
  method DownloadVideos(fs: FileSystem, videos: seq<Video>, images: seq<string>, basePath: string,
                        now: nat -> nat, net: nat -> Transfer)
    returns (downloadIndex: nat, failed: bool)
    modifies fs
    ensures downloadIndex <= |videos| && (!failed ==> downloadIndex == |videos|)
    ensures var b := RunBatch(old(fs.State()), BatchRequests(videos, images, now, basePath)[..downloadIndex], net);
            fs.State() == b.state && failed == b.failed && b.attempted == downloadIndex
  {
    ghost var st0 := fs.State();
    ghost var reqs := BatchRequests(videos, images, now, basePath);
    downloadIndex, failed := 0, false;
    assert reqs[..0] == [];
    var i := 0;
    while i < |videos|
      invariant 0 <= i <= |videos| && downloadIndex == i
      invariant fs.State() == RunBatch(st0, reqs[..downloadIndex], net).state
      invariant !RunBatch(st0, reqs[..downloadIndex], net).failed
    {
      downloadIndex := downloadIndex + 1;
      var video := videos[i];
      var safeQuality := ReplaceNonAlnum(video.quality);
      var filename := "rednote_video_" + safeQuality + "_" + Decimal(now(i)) + "_" + Decimal(i) + ".mp4";
      var r := fs.DownloadFile(Request(video.url, filename, basePath, None), HeadThrew, net(i));
      BatchVideoStep(st0, videos, images, now, basePath, net, i);
      if r.Failed? {
        return downloadIndex, true;
      }
      i := i + 1;
    }
  }

  /** The second loop: every image, `downloadIndex` going on from the number of videos. */
  method DownloadImages(fs: FileSystem, videos: seq<Video>, images: seq<string>, basePath: string,
                        now: nat -> nat, net: nat -> Transfer, ghost st0: FsState)
    returns (downloadIndex: nat, failed: bool)
    requires var b := RunBatch(st0, BatchRequests(videos, images, now, basePath)[..|videos|], net);
             fs.State() == b.state && !b.failed
    modifies fs
    ensures var b := RunBatch(st0, BatchRequests(videos, images, now, basePath), net);
            fs.State() == b.state && failed == b.failed && downloadIndex == b.attempted
  {
    ghost var reqs := BatchRequests(videos, images, now, basePath);
    downloadIndex, failed := |videos|, false;
    var i := 0;
    while i < |images|
      invariant 0 <= i <= |images| && downloadIndex == |videos| + i
      invariant fs.State() == RunBatch(st0, reqs[..downloadIndex], net).state
      invariant !RunBatch(st0, reqs[..downloadIndex], net).failed
    {
      downloadIndex := downloadIndex + 1;
      var image := images[i];
      var filename := "rednote_image_" + Decimal(now(|videos| + i)) + "_" + Decimal(i) + ".jpg";
      var r := fs.DownloadFile(Request(Some(image), filename, basePath, None), HeadThrew, net(|videos| + i));
      BatchImageStep(st0, videos, images, now, basePath, net, |videos| + i);
      if r.Failed? {
        RunBatchStopsAtFailure(st0, reqs, downloadIndex, net);
        return downloadIndex, true;
      }
      i := i + 1;
    }
    assert reqs[..downloadIndex] == reqs;
  }

  /** The batch after the video at position k is the batch before it followed by the download
      of that video. */
  lemma BatchVideoStep(st: FsState, videos: seq<Video>, images: seq<string>, now: nat -> nat, basePath: string,
                       net: nat -> Transfer, k: nat)
    requires k < |videos|
    requires !RunBatch(st, BatchRequests(videos, images, now, basePath)[..k], net).failed
    ensures var reqs := BatchRequests(videos, images, now, basePath);
            var req := Request(videos[k].url, BatchVideoFilename(videos[k].quality, now(k), k), basePath, None);
            var s := Attempt(RunBatch(st, reqs[..k], net).state, req, HeadThrew, net(k));
            RunBatch(st, reqs[..k + 1], net) == BatchRun(s.state, k + 1, s.result.Failed?)
  {
    var reqs := BatchRequests(videos, images, now, basePath);
    var req := Request(videos[k].url, BatchVideoFilename(videos[k].quality, now(k), k), basePath, None);
    assert reqs[k] == req;
    RunBatchStep(st, reqs, k, net, req);
  }

  /** The batch after the image at position k (counted after the videos) is the batch before
      it followed by the download of that image. */
  lemma BatchImageStep(st: FsState, videos: seq<Video>, images: seq<string>, now: nat -> nat, basePath: string,
                       net: nat -> Transfer, k: nat)
    requires |videos| <= k < |videos| + |images|
    requires !RunBatch(st, BatchRequests(videos, images, now, basePath)[..k], net).failed
    ensures var reqs := BatchRequests(videos, images, now, basePath);
            var req := Request(Some(images[k - |videos|]), BatchImageFilename(now(k), k - |videos|), basePath, None);
            var s := Attempt(RunBatch(st, reqs[..k], net).state, req, HeadThrew, net(k));
            RunBatch(st, reqs[..k + 1], net) == BatchRun(s.state, k + 1, s.result.Failed?)
  {
    var reqs := BatchRequests(videos, images, now, basePath);
    var req := Request(Some(images[k - |videos|]), BatchImageFilename(now(k), k - |videos|), basePath, None);
    assert reqs[k] == req;
    RunBatchStep(st, reqs, k, net, req);
  }

  /** How `downloadRedNote` ends. */
  datatype RedNoteOutcome =
    | Ended(why: Failure)
    | Single(request: Request, result: DownloadResult)
    | All(downloadIndex: nat, total: nat, failed: bool)

  /** Whether the post passes the checks and has a medium: the menu is then shown. */
  predicate Offers(r: Response<Post>) {
    Gate(r).Pass? && |Videos(Gate(r).payload)| + |Images(Gate(r).payload)| > 0
  }

  /** `downloadRedNote(url, basePath)` for the metadata response, the user's pick in the menu,
      the clock readings and the transfers, on the filesystem `fs`. */
  method DownloadRedNote(fs: FileSystem, response: Response<Post>, pick: nat, now: nat -> nat,
                         net: nat -> Transfer, basePath: string)
    returns (outcome: RedNoteOutcome)
    requires Offers(response) ==>
               pick < MenuLength(|Videos(Gate(response).payload)|, |Images(Gate(response).payload)|)
    modifies fs
    // nothing is written unless the menu was shown and something other than Cancel picked
    ensures !Offers(response) ==> fs.State() == old(fs.State())
    ensures Gate(response).Fail? ==> outcome == Ended(Gate(response).why)
    ensures Gate(response).Pass? && !Offers(response) ==> outcome == Ended(NoMedia)
    ensures Offers(response) ==>
              var p := Gate(response).payload;
              var v, im := Videos(p), Images(p);
              // Cancel, always last
              && (pick == MenuLength(|v|, |im|) - 1 ==> outcome == Ended(Cancelled) && fs.State() == old(fs.State()))
              // one video, under a name without index
              && (pick < |v| ==>
                    var req := Request(v[pick].url, VideoFilename(v[pick].quality, now(0)), basePath, None);
                    var s := Attempt(old(fs.State()), req, HeadThrew, net(0));
                    outcome == Single(req, s.result) && fs.State() == s.state)
              // one image
              && (|v| <= pick < |v| + |im| ==>
                    var req := Request(Some(im[pick - |v|]), ImageFilename(now(0)), basePath, None);
                    var s := Attempt(old(fs.State()), req, HeadThrew, net(0));
                    outcome == Single(req, s.result) && fs.State() == s.state)
              // "Download All"
              && (|v| + |im| > 1 && pick == |v| + |im| ==>
                    var b := RunBatch(old(fs.State()), BatchRequests(v, im, now, basePath), net);
                    outcome.All? && outcome.total == |v| + |im| && outcome.failed == b.failed
                    && outcome.downloadIndex == b.attempted && fs.State() == b.state)
  {
    var gate := Gate(response);
    if gate.Fail? {
      return Ended(gate.why);
    }
    var post := gate.payload;
    var hasVideos := post.downloads.Some? && |post.downloads.value| > 0;
    var hasImages := post.images.Some? && |post.images.value| > 0;
    if !hasVideos && !hasImages {
      return Ended(NoMedia);
    }
    var videos := if hasVideos then post.downloads.value else [];
    var images := if hasImages then post.images.value else [];
    var choices := BuildChoices(videos, images);
    match choices[pick]
    case Cancel =>
      outcome := Ended(Cancelled);
    case Pick(_, AllPick) =>
      var downloadIndex, total, failed := DownloadAll(fs, videos, images, basePath, now, net);
      outcome := All(downloadIndex, total, failed);
    case Pick(_, VideoPick(video, _)) =>
      var filename := VideoFilename(video.quality, now(0));
      var req := Request(video.url, filename, basePath, None);
      var r := fs.DownloadFile(req, HeadThrew, net(0));
      outcome := Single(req, r);
    case Pick(_, ImagePick(image, _)) =>
      var filename := ImageFilename(now(0));
      var req := Request(Some(image), filename, basePath, None);
      var r := fs.DownloadFile(req, HeadThrew, net(0));
      outcome := Single(req, r);
  }
}

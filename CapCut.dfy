/**
 * `downloadCapcut` (routes/capcut.js): a single media item is downloaded at once, without a
 * menu; several are offered by quality with Cancel last, and the chosen one is saved under a
 * name whose whitespace runs are folded into '_'.
 */
module CapCutRoute {
  import opened JsText
  import opened DownloadEngine
  import opened Routes

  /** An entry of `data.medias`; each field may be missing, and the code reads all three
      without a check. */
  datatype Media = Media(url: Option<string>, quality: Option<string>, extension: Option<string>)

  /** The payload `data.data`: its `medias` list, its `unique_id` and its `duration` in
      milliseconds. */
  datatype Clip = Clip(medias: Option<seq<Media>>, uniqueId: Option<string>, duration: int)

  /** The payload test: a `medias` list that is present and not empty. */
  predicate HasMedia(c: Clip) {
    c.medias.Some? && |c.medias.value| > 0
  }

  /** `Math.floor(duration / 1000)`, the duration shown in whole seconds, rounded down also for
      a negative value. */
  function DurationSeconds(ms: int): (s: int)
    ensures s * 1000 <= ms < s * 1000 + 1000
  {
    ms / 1000
  }

  /** The menu for several media items: " <quality>" per item, in order, then Cancel. */
  function Choices(medias: seq<Media>): (r: seq<Choice<Media>>)
    ensures |r| == |medias| + 1 && r[|medias|] == Cancel
    ensures forall i :: 0 <= i < |medias| ==> r[i] == Pick(" " + Interpolate(medias[i].quality), medias[i])
  {
    Menu(medias, (m: Media, i: nat) => " " + Interpolate(m.quality), (m: Media, i: nat) => m)
  }

  /** `capcut_${unique_id}_${Date.now()}.${extension}`, for the only media item; a missing
      field is interpolated as "undefined". */
  function SingleFilename(uniqueId: Option<string>, extension: Option<string>, now: nat): string {
    "capcut_" + Interpolate(uniqueId) + "_" + Decimal(now) + "." + Interpolate(extension)
  }

  /** `capcut_${unique_id}_${quality with \s+ replaced by _}_${Date.now()}.${extension}`, for a
      quality that is present (`.replace` throws on a missing one). */
  function ChosenFilename(uniqueId: Option<string>, quality: string, extension: Option<string>, now: nat): string {
    "capcut_" + Interpolate(uniqueId) + "_" + CollapseSpaces(quality) + "_" + Decimal(now) + "." + Interpolate(extension)
  }

  /** The adapter for the metadata response, the user's pick in the menu (read only when a
      menu is shown) and the clock. */
  function Plan(r: Response<Clip>, pick: nat, now: nat, basePath: string): (o: Outcome)
    requires Gate(r).Pass? && HasMedia(Gate(r).payload) ==> pick <= |Gate(r).payload.medias.value|
    ensures Gate(r).Fail? ==> o == Stopped(Gate(r).why)
    ensures Gate(r).Pass? && !HasMedia(Gate(r).payload) ==> o == Stopped(InvalidData)
    ensures Gate(r).Pass? && HasMedia(Gate(r).payload) ==>
              var c := Gate(r).payload;
              var ms := c.medias.value;
              // one item: downloaded without a menu, its name carries no quality
              && (|ms| == 1 ==>
                    o == Download(Request(ms[0].url, SingleFilename(c.uniqueId, ms[0].extension, now), basePath, None)))
              // several: Cancel, the last entry, downloads nothing
              && (|ms| > 1 && pick == |ms| ==> o == Stopped(Cancelled))
              // several: the picked item without a quality makes `.replace` throw
              && (|ms| > 1 && pick < |ms| && ms[pick].quality.None? ==> o == Stopped(Crashed))
              // several: the picked item, unguarded
              && (|ms| > 1 && pick < |ms| && ms[pick].quality.Some? ==>
                    o == Download(Request(ms[pick].url,
                                          ChosenFilename(c.uniqueId, ms[pick].quality.value, ms[pick].extension, now),
                                          basePath, None)))
  {
    match Gate(r)
    case Fail(why) => Stopped(why)
    case Pass(c) =>
      if !HasMedia(c) then Stopped(InvalidData)
      else
        var ms := c.medias.value;
        if |ms| == 1 then
          Download(Request(ms[0].url, SingleFilename(c.uniqueId, ms[0].extension, now), basePath, None))
        else
          match Choices(ms)[pick]
          case Cancel => Stopped(Cancelled)
          case Pick(_, m) =>
            if m.quality.None? then Stopped(Crashed)
            else Download(Request(m.url, ChosenFilename(c.uniqueId, m.quality.value, m.extension, now), basePath, None))
  }

  /** With a single media item no menu is shown: the answer to the prompt plays no part. */
  lemma SingleMediaNeedsNoPick(r: Response<Clip>, pick1: nat, pick2: nat, now: nat, basePath: string)
    requires Gate(r).Pass? && Gate(r).payload.medias.Some? && |Gate(r).payload.medias.value| == 1
    requires pick1 <= 1 && pick2 <= 1
    ensures Plan(r, pick1, now, basePath) == Plan(r, pick2, now, basePath)
    ensures Plan(r, pick1, now, basePath).Download?
  {
  }

  /** A missing `extension` does not stop the download: the file is saved with the extension
      "undefined". */
  lemma MissingExtensionNamesUndefined(uniqueId: Option<string>, now: nat)
    ensures EndsWith(SingleFilename(uniqueId, None, now), ".undefined")
  {
    var f := SingleFilename(uniqueId, None, now);
    var head := "capcut_" + Interpolate(uniqueId) + "_" + Decimal(now);
    assert f == head + ".undefined";
    assert f[|f| - 10..] == ".undefined";
  }

  /** s holds no `\s` character. */
  predicate NoSpace(s: string) {
    forall i :: 0 <= i < |s| ==> !IsSpace(s[i])
  }

  lemma NoSpaceAppend(a: string, b: string)
    requires NoSpace(a) && NoSpace(b)
    ensures NoSpace(a + b)
  {
    forall i | 0 <= i < |a + b| ensures !IsSpace((a + b)[i]) {
      if i >= |a| { assert (a + b)[i] == b[i - |a|]; }
    }
  }

  /** The chosen item's name holds no whitespace when the id and the extension hold none: every
      run of whitespace in the quality has become '_'. */
  lemma ChosenFilenameHasNoSpace(uniqueId: Option<string>, quality: string, extension: Option<string>, now: nat)
    requires NoSpace(Interpolate(uniqueId)) && NoSpace(Interpolate(extension))
    ensures NoSpace(ChosenFilename(uniqueId, quality, extension, now))
  {
    var d := Decimal(now);
    assert NoSpace(d) by {
      forall i | 0 <= i < |d| ensures !IsSpace(d[i]) {
        assert IsDigit(d[i]);
      }
    }
    var s := "capcut_";
    NoSpaceAppend(s, Interpolate(uniqueId));
    s := s + Interpolate(uniqueId);
    NoSpaceAppend(s, "_");
    s := s + "_";
    NoSpaceAppend(s, CollapseSpaces(quality));
    s := s + CollapseSpaces(quality);
    NoSpaceAppend(s, "_");
    s := s + "_";
    NoSpaceAppend(s, d);
    s := s + d;
    NoSpaceAppend(s, ".");
    s := s + ".";
    NoSpaceAppend(s, Interpolate(extension));
  }
}

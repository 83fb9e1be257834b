/**
 * What every provider adapter under routes/ has in common: the metadata response it
 * receives, the first two checks it makes on it, the `inquirer` list it builds (entries
 * mapped from the payload with Cancel pushed last), and the single `downloadFile` call it
 * ends in, or the reason it stops before one.
 */
module Routes {
  import opened JsText
  import opened DownloadEngine

  /** One metadata `axios.get`: it throws (timeout, error status, network failure) with a
      message; or it yields `response.data`, which is falsy (NoBody) or carries a `status`
      whose truthiness is recorded and an optional payload `data`. */
  datatype Response<P> = Threw(message: string) | NoBody | Returned(status: bool, data: Option<P>)

  /** One entry of an `inquirer` list: a label and its value, or the grey Cancel entry. */
  datatype Choice<T> = Pick(name: string, value: T) | Cancel

  /** Why an adapter ends without calling `downloadFile`. */
  datatype Failure =
    | RequestFailed(message: string) // the catch block: the metadata request threw
    | FetchFailed                    // "Failed to fetch ...": falsy body or falsy status
    | InvalidData                    // "Invalid ... data received": the payload test failed
    | NoMedia                        // RedNote: neither videos nor images
    | Crashed                        // a field read on a missing object threw inside the try block
    | Cancelled                      // the user picked Cancel

  /** An adapter's run: it stops, or it makes the one `downloadFile` call described. */
  datatype Outcome = Stopped(why: Failure) | Download(request: Request)

  /** The result of the two checks every adapter makes before looking at the payload. */
  datatype Gated<P> = Pass(payload: P) | Fail(why: Failure)

  /** `catch (error)`, then `if (!data || !data.status)`, then `if (!data.data ...)`. */
  function Gate<P>(r: Response<P>): (g: Gated<P>)
    ensures g.Pass? <==> r.Returned? && r.status && r.data.Some?
    ensures g.Pass? ==> g.payload == r.data.value
    ensures r.Threw? ==> g == Fail(RequestFailed(r.message))
    ensures r.NoBody? || (r.Returned? && !r.status) ==> g == Fail(FetchFailed)
    ensures r.Returned? && r.status && r.data.None? ==> g == Fail(InvalidData)
  {
    match r
    case Threw(m) => Fail(RequestFailed(m))
    case NoBody => Fail(FetchFailed)
    case Returned(status, data) =>
      if !status then Fail(FetchFailed)
      else if data.None? then Fail(InvalidData)
      else Pass(data.value)
  }

  /** `items.map((item, index) => ({ name, value }))`: one entry per item, in order. */
  function Entries<A, T>(items: seq<A>, name: (A, nat) -> string, value: (A, nat) -> T): (r: seq<Choice<T>>)
    ensures |r| == |items|
    ensures forall i :: 0 <= i < |items| ==> r[i] == Pick(name(items[i], i), value(items[i], i))
  {
    if items == [] then []
    else
      var n := |items| - 1;
      var prefix := Entries(items[..n], name, value);
      assert forall i :: 0 <= i < n ==> items[..n][i] == items[i];
      prefix + [Pick(name(items[n], n), value(items[n], n))]
  }

  /** The mapped entries followed by `downloadChoices.push(Cancel)`. */
  function Menu<A, T>(items: seq<A>, name: (A, nat) -> string, value: (A, nat) -> T): (r: seq<Choice<T>>)
    ensures |r| == |items| + 1
    ensures r[|items|] == Cancel
    ensures forall i :: 0 <= i < |items| ==> r[i] == Pick(name(items[i], i), value(items[i], i))
  {
    Entries(items, name, value) + [Cancel]
  }

  /** The two media types of the audio adapters' fixed menus. */
  datatype Kind = Audio | Image

  /** `selectedDownload.type` as it appears in the filename. */
  function KindName(k: Kind): string {
    match k
    case Audio => "audio"
    case Image => "image"
  }

  /** `selectedDownload.type === 'audio' ? 'mp3' : 'jpg'`. */
  function Extension(k: Kind): (e: string)
    ensures e == "mp3" <==> k == Audio
    ensures e == "jpg" <==> k.Image?
  {
    assert "mp3"[0] != "jpg"[0];
    if k == Audio then "mp3" else "jpg"
  }

  /** `selectedDownload.type === 'audio' ? MAX_FILE_SIZE : null`: the size guard is switched on
      for the audio file only. */
  function MaxSizeFor(k: Kind): (m: Option<int>)
    ensures GuardEnabled(m) <==> k == Audio
  {
    if k == Audio then Some(MAX_FILE_SIZE) else None
  }

  /** The value of an entry of the audio adapters' fixed menus. */
  datatype TrackPick = TrackPick(url: Option<string>, kind: Kind)

  /** `${prefix}${segment}_${type}_${Date.now()}.${extension}`: the name the audio adapters give
      the MP3 or the cover image. */
  function TrackFilename(prefix: string, segment: string, kind: Kind, now: nat): string {
    prefix + segment + "_" + KindName(kind) + "_" + Decimal(now) + "." + Extension(kind)
  }

  /** The words the template puts in are made of letters and digits. */
  lemma KindWordsAreLetters(kind: Kind)
    ensures forall i :: 0 <= i < |KindName(kind)| ==> IsAsciiAlnum(KindName(kind)[i])
    ensures forall i :: 0 <= i < |Extension(kind)| ==> IsAsciiAlnum(Extension(kind)[i])
  {
    match kind
    case Audio => assert Extension(kind) == "mp3";
    case Image => assert Extension(kind) == "jpg";
  }

  /** A character that is neither a letter, a digit, '_' nor '.' appears in the name only where
      the prefix or the segment brings it. */
  lemma TrackFilenameAvoids(c: char, prefix: string, segment: string, kind: Kind, now: nat)
    requires !IsAsciiAlnum(c) && c != '_' && c != '.'
    ensures c in TrackFilename(prefix, segment, kind, now) <==> c in prefix || c in segment
  {
    var k, d, e := KindName(kind), Decimal(now), Extension(kind);
    KindWordsAreLetters(kind);
    DecimalHasOnlyDigits(now, c);
    assert c !in k by {
      forall i | 0 <= i < |k| ensures k[i] != c {
        assert IsAsciiAlnum(k[i]);
      }
    }
    assert c !in e by {
      forall i | 0 <= i < |e| ensures e[i] != c {
        assert IsAsciiAlnum(e[i]);
      }
    }
    var tail := "_" + k + "_" + d + "." + e;
    assert c !in tail;
    assert TrackFilename(prefix, segment, kind, now) == prefix + segment + tail;
  }

  /** Only the audio file's name ends in ".mp3". */
  lemma TrackFilenameSuffix(prefix: string, segment: string, kind: Kind, now: nat)
    ensures EndsWith(TrackFilename(prefix, segment, kind, now), ".mp3") <==> kind == Audio
  {
    var f := TrackFilename(prefix, segment, kind, now);
    var body := prefix + segment + "_" + KindName(kind) + "_" + Decimal(now);
    var tail := "." + Extension(kind);
    assert f == body + tail;
    assert f[|f| - 4..] == tail;
    assert tail == ".mp3" <==> Extension(kind) == "mp3" by {
      if tail == ".mp3" { assert Extension(kind) == tail[1..]; }
    }
  }

  /** A name that embeds `Date.now()` between a fixed prefix and a fixed suffix tells the clock
      values apart: two downloads of the same item at different times never share a name. */
  lemma StampedNameInjective(prefix: string, suffix: string, n1: nat, n2: nat)
    requires prefix + Decimal(n1) + suffix == prefix + Decimal(n2) + suffix
    ensures n1 == n2
  {
    var d1, d2 := Decimal(n1), Decimal(n2);
    var s1, s2 := prefix + d1 + suffix, prefix + d2 + suffix;
    assert |d1| == |d2|;
    assert d1 == s1[|prefix|..|prefix| + |d1|];
    assert d2 == s2[|prefix|..|prefix| + |d2|];
    DecimalInjective(n1, n2);
  }
}

/**
 * `downloadFacebook` (routes/facebook.js): every entry of the payload's `data` list is offered
 * as "<resolution> - <FORMAT>", Cancel last, and the chosen one is downloaded unguarded under a
 * name made of its resolution and, as extension, its format.
 */
module FacebookRoute {
  import opened JsText
  import opened DownloadEngine
  import opened Routes

  /** An entry of `data.data.data`: its link, its resolution and its format, each of which
      the payload may leave out. */
  datatype Item = Item(url: Option<string>, resolution: Option<string>, format: Option<string>)

  /** The payload `data.data`: its `data` list, when present. */
  datatype Video = Video(items: Option<seq<Item>>)

  /** The payload test: a `data` list that is present and not empty. */
  predicate HasItems(v: Video) {
    v.items.Some? && |v.items.value| > 0
  }

  /** Building the menu calls `item.format.toUpperCase()` on every entry: it throws when one
      of them has no format. */
  predicate MenuThrows(items: seq<Item>) {
    exists i :: 0 <= i < |items| && items[i].format.None?
  }

  /** The label `${resolution} - ${format.toUpperCase()}`. */
  function Label(it: Item): string {
    Interpolate(it.resolution) + " - " + Upper(it.format.GetOr(""))
  }

  /** The menu: one labelled entry per item, in order, then Cancel. */
  function Choices(items: seq<Item>): (r: seq<Choice<Item>>)
    requires !MenuThrows(items)
    ensures |r| == |items| + 1 && r[|items|] == Cancel
    ensures forall i :: 0 <= i < |items| ==>
              r[i] == Pick(Interpolate(items[i].resolution) + " - " + Upper(items[i].format.value), items[i])
  {
    Menu(items, (it: Item, i: nat) => Label(it), (it: Item, i: nat) => it)
  }

  /** `facebook_${resolution}_${Date.now()}.${format}`. */
  function Filename(resolution: Option<string>, format: string, now: nat): string {
    "facebook_" + Interpolate(resolution) + "_" + Decimal(now) + "." + format
  }

  /** The adapter for the metadata response, the user's pick in the menu and the clock. */
  function Plan(r: Response<Video>, pick: nat, now: nat, basePath: string): (o: Outcome)
    requires Gate(r).Pass? && HasItems(Gate(r).payload) && !MenuThrows(Gate(r).payload.items.value) ==>
               pick <= |Gate(r).payload.items.value|
    ensures Gate(r).Fail? ==> o == Stopped(Gate(r).why)
    ensures Gate(r).Pass? && !HasItems(Gate(r).payload) ==> o == Stopped(InvalidData)
    ensures Gate(r).Pass? && HasItems(Gate(r).payload) ==>
              var items := Gate(r).payload.items.value;
              && (MenuThrows(items) ==> o == Stopped(Crashed))
              && (!MenuThrows(items) && pick == |items| ==> o == Stopped(Cancelled))
              // the picked item, unguarded, with its format as the extension
              && (!MenuThrows(items) && pick < |items| ==>
                    o == Download(Request(items[pick].url, Filename(items[pick].resolution, items[pick].format.value, now),
                                          basePath, None)))
  {
    match Gate(r)
    case Fail(why) => Stopped(why)
    case Pass(v) =>
      if !HasItems(v) then Stopped(InvalidData)
      else if MenuThrows(v.items.value) then Stopped(Crashed)
      else
        match Choices(v.items.value)[pick]
        case Cancel => Stopped(Cancelled)
        case Pick(_, it) => Download(Request(it.url, Filename(it.resolution, it.format.value, now), basePath, None))
  }

  /** The saved file's extension is the chosen item's format, verbatim. */
  lemma FilenameEndsWithFormat(resolution: Option<string>, format: string, now: nat)
    ensures EndsWith(Filename(resolution, format, now), "." + format)
  {
    var f := Filename(resolution, format, now);
    var body := "facebook_" + Interpolate(resolution) + "_" + Decimal(now);
    assert f == body + ("." + format);
    assert f[|f| - |"." + format|..] == "." + format;
  }

  /** Two downloads of the same item at different times get different names. */
  lemma FilenameIdentifiesTime(resolution: Option<string>, format: string, n1: nat, n2: nat)
    requires Filename(resolution, format, n1) == Filename(resolution, format, n2)
    ensures n1 == n2
  {
    var prefix, suffix := "facebook_" + Interpolate(resolution) + "_", "." + format;
    assert Filename(resolution, format, n1) == prefix + Decimal(n1) + suffix;
    assert Filename(resolution, format, n2) == prefix + Decimal(n2) + suffix;
    StampedNameInjective(prefix, suffix, n1, n2);
  }
}

/**
 * `processUserInput` of index.js and of its near-copy utils/input.js: the slash-command
 * switch with its continue/stop answer, extraction of the first `http(s)://` token,
 * and the ordered hostname tests that pick the one adapter to call.
 *
 * The hostname that the `URL` constructor yields (or its failure, None) is an input,
 * given as `hostOf`. The adapters themselves are not called here: the reply names the
 * call that is made, with its arguments.
 */
module Dispatcher {
  import opened JsText
  import DownloadEngine

  datatype Platform =
    | TikTok | Facebook | Instagram | Twitter | Douyin | Spotify | Pinterest | AppleMusic
    | YouTube | CapCut

  /** Which copy of the dispatcher: index.js, or utils/input.js with YouTube and CapCut added. */
  datatype Chain = IndexChain | InputChain

  // ---------------------------------------------------------------- URL extraction

  /** The regular expression /(https?:\/\/[^\s]+)/ matches at position i of s. */
  predicate UrlAt(s: string, i: nat) {
    || (At(s, "https://", i) && i + 8 < |s| && !IsSpace(s[i + 8]))
    || (At(s, "http://", i) && i + 7 < |s| && !IsSpace(s[i + 7]))
  }

  /** The end of the run of non-`\s` characters that starts at i. */
  function TokenEnd(s: string, i: nat): (j: nat)
    requires i <= |s|
    ensures i <= j <= |s|
    ensures forall k :: i <= k < j ==> !IsSpace(s[k])
    ensures j == |s| || IsSpace(s[j])
    decreases |s| - i
  {
    if i == |s| || IsSpace(s[i]) then i else TokenEnd(s, i + 1)
  }

  /** The leftmost match of the regular expression at or after position i; the greedy
      `[^\s]+` takes the whole run of non-`\s` characters. */
  function FirstUrlFrom(s: string, i: nat): (r: Option<string>)
    requires i <= |s|
    ensures r.None? <==> forall j :: i <= j < |s| ==> !UrlAt(s, j)
    ensures r.Some? ==>
              exists k :: i <= k < |s| && UrlAt(s, k) && (forall j :: i <= j < k ==> !UrlAt(s, j))
                          && r.value == s[k..TokenEnd(s, k)]
    decreases |s| - i
  {
    if i == |s| then None
    else if UrlAt(s, i) then Some(s[i..TokenEnd(s, i)])
    else FirstUrlFrom(s, i + 1)
  }

  /** `trimmedInput.match(urlRegex)` followed by `urls[0]`; None where `match` gives null. */
  function FirstUrl(s: string): Option<string> {
    FirstUrlFrom(s, 0)
  }

  /** A match at i yields a token that starts with the scheme, has a character after it,
      and contains no `\s` character. */
  lemma MatchShape(s: string, i: nat)
    requires i < |s| && UrlAt(s, i)
    ensures var u := s[i..TokenEnd(s, i)];
            && ((StartsWith(u, "https://") && |u| > 8) || (StartsWith(u, "http://") && |u| > 7))
            && forall k :: 0 <= k < |u| ==> !IsSpace(u[k])
  {
    var e := TokenEnd(s, i);
    if At(s, "https://", i) && i + 8 < |s| && !IsSpace(s[i + 8]) {
      assert e > i + 8 by {
        forall k | i <= k < i + 8 ensures !IsSpace(s[k]) {
          assert s[k] == s[i..i + 8][k - i];
        }
      }
      assert s[i..e][..8] == s[i..i + 8];
    } else {
      assert e > i + 7 by {
        forall k | i <= k < i + 7 ensures !IsSpace(s[k]) {
          assert s[k] == s[i..i + 7][k - i];
        }
      }
      assert s[i..e][..7] == s[i..i + 7];
    }
  }

  /** The extracted URL is the leftmost match, it starts with "http://" or "https://" with
      at least one character after the scheme, and it contains no `\s` character. No match
      means no URL. */
  lemma FirstUrlIsLeftmostMatch(s: string)
    ensures FirstUrl(s).None? <==> forall j :: 0 <= j < |s| ==> !UrlAt(s, j)
    ensures FirstUrl(s).Some? ==>
              exists i :: 0 <= i < |s| && UrlAt(s, i) && (forall j :: 0 <= j < i ==> !UrlAt(s, j))
                          && FirstUrl(s).value == s[i..TokenEnd(s, i)]
    ensures FirstUrl(s).Some? ==>
              var u := FirstUrl(s).value;
              && ((StartsWith(u, "https://") && |u| > 8) || (StartsWith(u, "http://") && |u| > 7))
              && forall k :: 0 <= k < |u| ==> !IsSpace(u[k])
  {
    if FirstUrl(s).Some? {
      var i :| 0 <= i < |s| && UrlAt(s, i) && (forall j :: 0 <= j < i ==> !UrlAt(s, j))
               && FirstUrl(s).value == s[i..TokenEnd(s, i)];
      MatchShape(s, i);
    }
  }

  // ---------------------------------------------------------------- platform classification

  /** `hostname.endsWith(d) || hostname === d`, the test the chain applies per domain. */
  predicate DomainTest(host: string, d: string) {
    EndsWith(host, d) || host == d
  }

  /** The test the chain applies for each platform, on the lower-cased hostname and the raw URL. */
  predicate Matches(p: Platform, host: string, url: string) {
    match p
    case TikTok => DomainTest(host, "tiktok.com")
    case Facebook => DomainTest(host, "facebook.com") || DomainTest(host, "fb.watch")
    case Instagram => DomainTest(host, "instagram.com")
    case Twitter => DomainTest(host, "twitter.com") || host == "x.com"
    case Douyin => DomainTest(host, "douyin.com")
    case Spotify => DomainTest(host, "spotify.com")
    case Pinterest => DomainTest(host, "pinterest.com") || DomainTest(host, "pin.it")
    case AppleMusic => EndsWith(host, "apple.com") && Includes(url, "music.apple.com")
    case YouTube => DomainTest(host, "youtube.com") || DomainTest(host, "youtu.be")
    case CapCut => DomainTest(host, "capcut.com")
  }

  /** The per-platform test for one lower-cased hostname and raw URL. */
  function TestFor(host: string, url: string): Platform -> bool {
    p => Matches(p, host, url)
  }

  /** The order in which each copy of the dispatcher tries the platforms. */
  function Order(chain: Chain): seq<Platform> {
    [TikTok] + ([Facebook] + ([Instagram] + ([Twitter] + ([Douyin] + ([Spotify] + ([Pinterest]
    + ([AppleMusic] + Added(chain))))))))
  }

  /** The platforms utils/input.js tries after those of index.js. */
  function Added(chain: Chain): seq<Platform> {
    if chain == InputChain then [YouTube] + [CapCut] else []
  }

  /** Reference definition: the first platform of `order` that passes `test`. */
  function FirstMatch(order: seq<Platform>, test: Platform -> bool): (r: Option<Platform>)
    ensures r.None? <==> forall k :: 0 <= k < |order| ==> !test(order[k])
    ensures r.Some? ==>
              exists k :: 0 <= k < |order| && order[k] == r.value && test(order[k])
                          && forall j :: 0 <= j < k ==> !test(order[j])
  {
    if order == [] then None
    else if test(order[0]) then Some(order[0])
    else
      var r := FirstMatch(order[1..], test);
      assert r.Some? ==> exists k :: 0 <= k < |order| && order[k] == r.value && test(order[k])
                                     && forall j :: 0 <= j < k ==> !test(order[j]) by {
        if r.Some? {
          var k :| 0 <= k < |order[1..]| && order[1..][k] == r.value && test(order[1..][k])
                   && forall j :: 0 <= j < k ==> !test(order[1..][j]);
          assert forall j :: 0 <= j < k + 1 ==> !test(order[j]) by {
            forall j | 0 <= j < k + 1 ensures !test(order[j]) {
              if j > 0 { assert order[j] == order[1..][j - 1]; }
            }
          }
        }
      }
      r
  }

  /** The if/else-if chain of `processUserInput`, one branch per platform, given its test. */
  function Pick(chain: Chain, test: Platform -> bool): Option<Platform> {
    if test(TikTok) then Some(TikTok)
    else if test(Facebook) then Some(Facebook)
    else if test(Instagram) then Some(Instagram)
    else if test(Twitter) then Some(Twitter)
    else if test(Douyin) then Some(Douyin)
    else if test(Spotify) then Some(Spotify)
    else if test(Pinterest) then Some(Pinterest)
    else if test(AppleMusic) then Some(AppleMusic)
    else if chain == IndexChain then None
    else if test(YouTube) then Some(YouTube)
    else if test(CapCut) then Some(CapCut)
    else None
  }

  /** The platform `processUserInput` routes a lower-cased hostname and URL to. */
  function Classify(chain: Chain, host: string, url: string): Option<Platform> {
    Pick(chain, TestFor(host, url))
  }

  /** One step of the reference definition. */
  lemma FirstMatchCons(p: Platform, rest: seq<Platform>, test: Platform -> bool)
    ensures FirstMatch([p] + rest, test) == if test(p) then Some(p) else FirstMatch(rest, test)
  {
    assert ([p] + rest)[1..] == rest;
  }

  /** Four steps of the reference definition. */
  lemma FirstMatchFour(a: Platform, b: Platform, c: Platform, d: Platform, rest: seq<Platform>,
                       test: Platform -> bool)
    ensures FirstMatch([a] + ([b] + ([c] + ([d] + rest))), test) ==
              if test(a) then Some(a) else if test(b) then Some(b)
              else if test(c) then Some(c) else if test(d) then Some(d)
              else FirstMatch(rest, test)
  {
    FirstMatchCons(d, rest, test);
    FirstMatchCons(c, [d] + rest, test);
    FirstMatchCons(b, [c] + ([d] + rest), test);
    FirstMatchCons(a, [b] + ([c] + ([d] + rest)), test);
  }

  /** The chain is first-match over the fixed order, whatever the tests are. */
  lemma {:induction false} PickIsFirstMatch(chain: Chain, test: Platform -> bool)
    ensures Pick(chain, test) == FirstMatch(Order(chain), test)
  {
    var t := Added(chain);
    if chain == InputChain {
      FirstMatchCons(CapCut, [], test);
      assert [CapCut] + [] == [CapCut];
      FirstMatchCons(YouTube, [CapCut], test);
    }
    var tail := [Douyin] + ([Spotify] + ([Pinterest] + ([AppleMusic] + t)));
    FirstMatchFour(Douyin, Spotify, Pinterest, AppleMusic, t, test);
    FirstMatchFour(TikTok, Facebook, Instagram, Twitter, tail, test);
  }

  /** The hostname goes to platform p exactly when p's test passes and the test of every
      platform before p in the order fails; no platform at all exactly when every test fails. */
  lemma ClassifyIsFirstMatch(chain: Chain, host: string, url: string)
    ensures Classify(chain, host, url).None? <==>
              forall k :: 0 <= k < |Order(chain)| ==> !Matches(Order(chain)[k], host, url)
    ensures Classify(chain, host, url).Some? ==>
              exists k :: 0 <= k < |Order(chain)| && Order(chain)[k] == Classify(chain, host, url).value
                          && Matches(Order(chain)[k], host, url)
                          && forall j :: 0 <= j < k ==> !Matches(Order(chain)[j], host, url)
  {
    PickIsFirstMatch(chain, TestFor(host, url));
  }

  /** utils/input.js tries YouTube and then CapCut only after every test of index.js failed. */
  lemma InputChainExtendsIndexChain(test: Platform -> bool)
    ensures Pick(IndexChain, test).Some? ==> Pick(InputChain, test) == Pick(IndexChain, test)
    ensures Pick(IndexChain, test).None? ==>
              Pick(InputChain, test) ==
                if test(YouTube) then Some(YouTube) else if test(CapCut) then Some(CapCut) else None
  {
  }

  /** The `=== d` disjuncts are redundant: a string that equals d also ends with d. */
  lemma EqualityDisjunctRedundant(host: string, d: string)
    ensures DomainTest(host, d) <==> EndsWith(host, d)
  {
    if host == d {
      assert host[|host| - |d|..] == d;
    }
  }

  /** Suffix tests have no dot boundary: an unrelated domain ending in "tiktok.com" is TikTok. */
  lemma SuffixHasNoDotBoundary(chain: Chain, url: string)
    ensures Classify(chain, "nottiktok.com", url) == Some(TikTok)
  {
    assert "nottiktok.com"[3..] == "tiktok.com";
  }

  /** Twitter takes any hostname ending in "twitter.com", but "x.com" only as the whole hostname. */
  lemma XComMatchesOnlyExactly(url: string)
    ensures Matches(Twitter, "x.com", url)
    ensures Matches(Twitter, "mobile.twitter.com", url)
    ensures !Matches(Twitter, "www.x.com", url)
  {
    assert "mobile.twitter.com"[7..] == "twitter.com";
  }

  /** The Apple Music test reads the raw URL, so it is case-sensitive even though the hostname
      is lower-cased: a URL without the lower-case text "music.apple.com" fails it, whatever its
      hostname. */
  lemma AppleMusicTestIsCaseSensitive(host: string, url: string)
    requires !OccursIn("music.apple.com", url)
    ensures !Matches(AppleMusic, host, url)
  {
  }

  /** A URL written as "https://MUSIC.APPLE.COM/..." parses to the lower-cased hostname
      "music.apple.com", which only the Apple Music test could accept; that test fails, so both
      copies of the dispatcher answer that the platform is not supported. */
  lemma UpperCaseAppleMusicUrlIsUnsupported(chain: Chain, url: string)
    requires !OccursIn("music.apple.com", url)
    ensures Classify(chain, "music.apple.com", url) == None
  {
    var h := "music.apple.com";
    NoTestAcceptsMusicHost(h, url);
    assert forall p :: !TestFor(h, url)(p);
  }

  /** No platform's test accepts the hostname "music.apple.com" with such a URL. */
  lemma NoTestAcceptsMusicHost(h: string, url: string)
    requires h == "music.apple.com" && !OccursIn(h, url)
    ensures forall p :: !Matches(p, h, url)
  {
    forall p ensures !Matches(p, h, url) {
      match p
      case TikTok => NotSuffix(h, "tiktok.com");
      case Facebook => NotSuffix(h, "facebook.com"); NotSuffix(h, "fb.watch");
      case Instagram => NotSuffix(h, "instagram.com");
      case Twitter => NotSuffix(h, "twitter.com");
      case Douyin => NotSuffix(h, "douyin.com");
      case Spotify => NotSuffix(h, "spotify.com");
      case Pinterest => NotSuffix(h, "pinterest.com"); NotSuffix(h, "pin.it");
      case AppleMusic =>
      case YouTube => NotSuffix(h, "youtube.com"); NotSuffix(h, "youtu.be");
      case CapCut => NotSuffix(h, "capcut.com");
    }
  }

  /** A domain that differs from h in the character where it would have to start, or in its
      last character, is not a suffix of h. */
  lemma NotSuffix(h: string, d: string)
    requires 1 <= |d| <= |h|
    requires h[|h| - |d|] != d[0] || h[|h| - 1] != d[|d| - 1]
    ensures !EndsWith(h, d) && h != d
  {
  }

  // ---------------------------------------------------------------- the reply to one input line

  /** What `processUserInput` does with one line, besides its return value. */
  datatype Action =
    | ShowHelp
    | Farewell
    | ClearScreen
    | ShowPath(path: string)
    | SetPathUsage
    | SetPath(newPath: string)
    | UnknownCommand(command: string)
    | InvalidUrl
    | CallAdapter(platform: Platform, url: string, basePath: string)
    | Unsupported
    | AskForUrl

  datatype Reply = Reply(keepGoing: bool, action: Action)

  /** The answer to a trimmed line that starts with '/'. */
  function RespondCommand(t: string, path: string): (r: Reply)
    requires StartsWith(t, "/")
    ensures !r.action.CallAdapter? && !r.action.InvalidUrl? && !r.action.Unsupported? && !r.action.AskForUrl?
    ensures !r.keepGoing <==> r.action == Farewell
  {
    var command := Lower(t[1..]);
    if command == "help" then Reply(true, ShowHelp)
    else if command == "quit" || command == "exit" then Reply(false, Farewell)
    else if command == "clear" then Reply(true, ClearScreen)
    else if command == "path" then Reply(true, ShowPath(path))
    else if command == "setpath" then
      var parts := Split(t, ' ');
      if |parts| < 2 || Trim(parts[1]) == "" then Reply(true, SetPathUsage)
      else Reply(true, SetPath(Trim(Join(parts[1..], " "))))
    else Reply(true, UnknownCommand(command))
  }

  /** The answer to any other trimmed line: look for a URL and classify its hostname. */
  function RespondUrl(chain: Chain, t: string, path: string, hostOf: string -> Option<string>): (r: Reply)
    ensures r.keepGoing
    ensures r.action.AskForUrl? || r.action.InvalidUrl? || r.action.CallAdapter? || r.action.Unsupported?
    ensures r.action.CallAdapter? ==> r.action.basePath == path
  {
    match FirstUrl(t)
    case None => Reply(true, AskForUrl)
    case Some(url) =>
      match hostOf(url)
      case None => Reply(true, InvalidUrl)
      case Some(h) =>
        match Classify(chain, Lower(h), url)
        case Some(p) => Reply(true, CallAdapter(p, url, path))
        case None => Reply(true, Unsupported)
  }

  /** The decision `processUserInput` takes for `input` while the download path is `path`: the
      loop stops exactly when the farewell is printed, and an adapter always receives the
      current download path. */
  function Respond(chain: Chain, input: string, path: string, hostOf: string -> Option<string>): (r: Reply)
    ensures !r.keepGoing <==> r.action == Farewell
    ensures r.action.CallAdapter? ==> r.action.basePath == path
  {
    var t := Trim(input);
    if StartsWith(t, "/") then RespondCommand(t, path) else RespondUrl(chain, t, path, hostOf)
  }

  /** The line asks to quit: after trimming it is "/quit" or "/exit", letters in any case. */
  ghost predicate IsQuitCommand(input: string) {
    var t := Trim(input);
    StartsWith(t, "/") && |t| == 5 && (CaseVariant(t[1..], "quit") || CaseVariant(t[1..], "exit"))
  }

  /** The words that stop the loop, in terms of the lower-cased command. */
  lemma QuitWords(t: string)
    requires StartsWith(t, "/")
    ensures (Lower(t[1..]) == "quit" || Lower(t[1..]) == "exit") <==>
              (|t| == 5 && (CaseVariant(t[1..], "quit") || CaseVariant(t[1..], "exit")))
  {
    LowerIsCaseInsensitive(t[1..], "quit");
    LowerIsCaseInsensitive(t[1..], "exit");
  }

  /** `processUserInput` answers false exactly for a quit command and true for every other line. */
  lemma StopsOnlyOnQuit(chain: Chain, input: string, path: string, hostOf: string -> Option<string>)
    ensures !Respond(chain, input, path, hostOf).keepGoing <==> IsQuitCommand(input)
  {
    var t := Trim(input);
    if StartsWith(t, "/") {
      assert !RespondCommand(t, path).keepGoing <==> Lower(t[1..]) == "quit" || Lower(t[1..]) == "exit";
      QuitWords(t);
    }
  }

  /** A trimmed line that is the `setpath` command is "/" and seven letters: it holds no space. */
  lemma {:induction false} SetPathCommandIsOneWord(t: string)
    requires StartsWith(t, "/") && Lower(t[1..]) == "setpath"
    ensures Split(t, ' ') == [t]
  {
    LowerIsCaseInsensitive(t[1..], "setpath");
    assert ' ' !in t by {
      forall k | 0 <= k < |t| ensures t[k] != ' ' {
        if k > 0 { assert t[1..][k - 1] == t[k]; }
      }
    }
    SplitWithoutSeparator(t, ' ');
  }

  /** `case 'setpath'` is taken only for the bare command, which holds no space, so `split(' ')`
      yields one part and the assignment to the download path is never reached. */
  lemma SetPathNeverAssigns(chain: Chain, input: string, path: string, hostOf: string -> Option<string>)
    ensures !Respond(chain, input, path, hostOf).action.SetPath?
  {
    var t := Trim(input);
    if StartsWith(t, "/") {
      CommandNeverAssigns(t, path);
    }
  }

  /** The command half of SetPathNeverAssigns. */
  lemma CommandNeverAssigns(t: string, path: string)
    requires StartsWith(t, "/")
    ensures !RespondCommand(t, path).action.SetPath?
  {
    if Lower(t[1..]) == "setpath" {
      SetPathCommandIsOneWord(t);
    }
  }

  /** A line that starts with '/' after trimming is a command: it never reaches URL
      extraction, classification or an adapter. */
  lemma CommandsNeverDownload(chain: Chain, input: string, path: string, hostOf: string -> Option<string>)
    requires StartsWith(Trim(input), "/")
    ensures var a := Respond(chain, input, path, hostOf).action;
            !a.CallAdapter? && !a.InvalidUrl? && !a.Unsupported? && !a.AskForUrl?
  {
  }

  /** At most one adapter is called, and it is called exactly when the line is not a command,
      holds a URL, the URL parses, and the chain picks a platform; it gets the extracted URL
      and the current download path. */
  lemma AdapterCalledExactly(chain: Chain, input: string, path: string, hostOf: string -> Option<string>,
                             p: Platform, url: string)
    ensures Respond(chain, input, path, hostOf).action == CallAdapter(p, url, path) <==>
              && !StartsWith(Trim(input), "/")
              && FirstUrl(Trim(input)) == Some(url)
              && hostOf(url).Some?
              && Classify(chain, Lower(hostOf(url).value), url) == Some(p)
  {
    var t := Trim(input);
    if StartsWith(t, "/") {
      assert Respond(chain, input, path, hostOf) == RespondCommand(t, path);
    } else {
      assert Respond(chain, input, path, hostOf) == RespondUrl(chain, t, path, hostOf);
    }
  }

  /** Without a URL token nothing is downloaded; an unparseable URL or a hostname that no
      test accepts calls no adapter either. */
  lemma NoAdapterWithoutMatch(chain: Chain, input: string, path: string, hostOf: string -> Option<string>)
    requires !StartsWith(Trim(input), "/")
    ensures FirstUrl(Trim(input)).None? ==> Respond(chain, input, path, hostOf).action == AskForUrl
    ensures FirstUrl(Trim(input)).Some? && hostOf(FirstUrl(Trim(input)).value).None? ==>
              Respond(chain, input, path, hostOf).action == InvalidUrl
    ensures FirstUrl(Trim(input)).Some? && hostOf(FirstUrl(Trim(input)).value).Some?
            && Classify(chain, Lower(hostOf(FirstUrl(Trim(input)).value).value), FirstUrl(Trim(input)).value).None? ==>
              Respond(chain, input, path, hostOf).action == Unsupported
  {
  }

  /** One copy of the dispatcher with its module-level `currentDownloadPath`. */
  class Cli {
    const chain: Chain
    var currentDownloadPath: string

    constructor(chain: Chain)
      ensures this.chain == chain && currentDownloadPath == DownloadEngine.DEFAULT_BASE_PATH
    {
      this.chain := chain;
      currentDownloadPath := DownloadEngine.DEFAULT_BASE_PATH;
    }

    /** `processUserInput(input)`. The body assigns the download path only in the `setpath`
        case; since that assignment cannot be reached, the path never changes. */
    method ProcessUserInput(input: string, hostOf: string -> Option<string>) returns (keepGoing: bool, action: Action)
      modifies this
      ensures Reply(keepGoing, action) == Respond(chain, input, old(currentDownloadPath), hostOf)
      ensures currentDownloadPath == old(currentDownloadPath)
    {
      keepGoing := true;
      var trimmedInput := Trim(input);
      if StartsWith(trimmedInput, "/") {
        var command := Lower(trimmedInput[1..]);
        if command == "help" {
          action := ShowHelp;
        } else if command == "quit" || command == "exit" {
          keepGoing, action := false, Farewell;
        } else if command == "clear" {
          action := ClearScreen;
        } else if command == "path" {
          action := ShowPath(currentDownloadPath);
        } else if command == "setpath" {
          var parts := Split(trimmedInput, ' ');
          if |parts| < 2 || Trim(parts[1]) == "" {
            action := SetPathUsage;
          } else {
            var newPath := Trim(Join(parts[1..], " "));
            currentDownloadPath := newPath;
            action := SetPath(newPath);
          }
        } else {
          action := UnknownCommand(command);
        }
      } else {
        var urls := FirstUrl(trimmedInput);
        if urls.Some? {
          var url := urls.value;
          var parsed := hostOf(url);
          if parsed.None? {
            action := InvalidUrl;
          } else {
            var hostname := Lower(parsed.value);
            var platform := Classify(chain, hostname, url);
            if platform.Some? {
              action := CallAdapter(platform.value, url, currentDownloadPath);
            } else {
              action := Unsupported;
            }
          }
        } else {
          action := AskForUrl;
        }
      }
      SetPathNeverAssigns(chain, input, old(currentDownloadPath), hostOf);
    }
  }
}

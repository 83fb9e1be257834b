# prenivdlapp-cli, the decision core in Dafny

prenivdlapp-cli is an interactive Node.js downloader for social-media links. The user types a
line. `processUserInput` treats it either as a slash command or as text holding a URL. It finds
the first `http(s)://` token, lower-cases its hostname and tries the platforms in a fixed order.
The first platform that matches gets the URL and the current download path. Each provider adapter
under `routes/` then:

- asks a metadata API about the link;
- checks the response (status truthy, plus a required payload field);
- offers a menu built from the payload;
- builds a filename from sanitised fields;
- makes one call of `downloadFile`.

RedNote's "Download All" makes a batch of such calls instead.

`downloadFile` (utils/download.js) runs an optional size guard against `MAX_FILE_SIZE`. It then
creates the base directory when it is missing and streams the body to `basePath/filename`.

The model turns every piece of I/O into an input:

- the metadata response becomes a `Routes.Response` value;
- the user's menu answer becomes a pick index;
- the hostname the `URL` constructor yields becomes a function `hostOf`;
- `Date.now()` becomes a number `now`, and in the batch a function from call number to reading;
- the HEAD request becomes a `DownloadEngine.Head` and the streamed GET a `DownloadEngine.Transfer`.

The filesystem is an abstract state: a set of directories and a map from paths to contents.

Modules, one per file:

- `JsText`: the JavaScript string operations the code relies on. These are `trim`, the exact
  `\s` set, `toLowerCase`/`toUpperCase`, the three regex replaces, `split`/`join`, `includes`
  and the decimal rendering of a number in a template literal.
- `DownloadEngine`: `MAX_FILE_SIZE`, `checkFileSize`, the size guard, and `downloadFile`. The
  last is both a specification function (`Attempt`) and a method on the `FileSystem` class. The
  module also holds the specification of a sequential batch of calls that stops at the first one
  that throws (`RunBatch`).
- `Dispatcher`: `processUserInput` of index.js and of utils/input.js, as the `Cli` class with its
  `currentDownloadPath` field, and the pure decision (`Respond`) it is proved against.
- `Routes`: what the adapters share. This covers the response, the first two checks (`Gate`),
  the menu with Cancel appended (`Menu`), the audio/image kinds, and the filename template of the
  two music adapters.
- `TikTokRoute`, `RedNoteRoute`, `CapCutRoute`, `AppleMusicRoute`, `SpotifyRoute`,
  `FacebookRoute`, `BlueskyRoute`, `ThreadsRoute`: one module per adapter. Each has its
  acceptance test, its menu, its filename and its `Plan` (or, for RedNote, the imperative
  `DownloadRedNote`).

Two behaviours of the code shape the model:

- An item whose `downloadFile` call throws ends RedNote's "Download All" batch. `downloadFile`
  rethrows, and the loops at routes/rednote.js:104-126 have no per-item `catch`, so the remaining
  items are never attempted. (A call that never settles, listed under "Left out", hangs the batch
  instead.)
- routes/spotify.js calls a single endpoint and reads a single payload shape.

## Model

| member | source | states |
|---|---|---|
| JsText.Trim | utils/input.js:28 | `trim()` returns a slice of the input. Only `\s` characters are cut off on either side, and the result neither starts nor ends with one. |
| JsText.TrimEmptyIffBlank | routes/bluesky.js:36 | `s.trim()` is empty exactly when every character of s is whitespace. |
| JsText.Lower | index.js:31 | `toLowerCase()` keeps the length and maps every character in place. |
| JsText.Upper | routes/facebook.js:39 | `toUpperCase()` keeps the length and maps every character in place. |
| JsText.LowerIsCaseInsensitive | index.js:31-37 | The lower-cased command equals a lower-case word exactly when the command spells that word in any mix of cases. |
| JsText.Includes | index.js:119 | `includes` is true exactly when the text occurs at some position. |
| JsText.ReplaceNonAlnum | routes/applemusic.js:73 | `/[^a-z0-9]/gi` → `_`: the length is kept, ASCII letters and digits are kept, every other character of the string becomes one `_`, and the result holds only `[A-Za-z0-9_]`. |
| JsText.ReplaceAtAndDot | routes/bluesky.js:49 | `/[@.]/g` → `_`: the length is kept, every `@` and `.` becomes `_`, and no `@` or `.` is left. |
| JsText.CollapseSpaces | routes/capcut.js:71 | `/\s+/g` → `_`: the result has no whitespace, is no longer than the input, and equals it when the input has no whitespace. |
| JsText.CollapseScan | routes/capcut.js:71 | Reference definition of the replacement as a left-to-right scan that remembers whether it is inside a whitespace run: a non-whitespace character is kept, the first whitespace character of a run gives one `_`, and the rest of the run gives nothing. |
| JsText.CollapseSpacesScansLeftToRight | routes/capcut.js:71 | The replacement equals the scan: every non-whitespace character is kept in order, and each maximal whitespace run becomes exactly one `_`. |
| JsText.Split | index.js:52 | `split(' ')` gives at least one part, and no part holds the separator. |
| JsText.JoinSplit | utils/input.js:59 | Joining the parts of `split` with the same separator gives back the string. |
| JsText.SplitWithoutSeparator | utils/input.js:53 | A string without the separator splits into exactly one part, itself. |
| JsText.Decimal | routes/tiktok.js:88 | `${n}` renders as at least one digit and nothing but digits, and as at least two digits from 10 on. |
| JsText.DecimalHasOnlyDigits | routes/rednote.js:123 | A rendered timestamp or index holds no `_`, `.`, `/`, `@` or other non-digit. |
| JsText.DecimalInjective | routes/rednote.js:113 | Different numbers render differently. |
| DownloadEngine.CheckFileSize | utils/download.js:8-20 | The result is null exactly when the HEAD request throws. Otherwise the size is the parsed length, and `exceedsLimit` holds exactly for a length strictly greater than `MAX_FILE_SIZE`; NaN never exceeds. |
| DownloadEngine.MaxFileSizeIs35MiB | utils/download.js:6 | `MAX_FILE_SIZE` is 36,700,160 bytes (35 MiB), below the 50 MB its comment names. |
| DownloadEngine.RejectsExactly | utils/download.js:24-30 | The guard turns a download down exactly when `maxSize` is truthy and the HEAD length is strictly greater than `MAX_FILE_SIZE`. |
| DownloadEngine.GuardFailsOpen | utils/download.js:17-19 | A failed HEAD request or an unreadable length never turns a download down. |
| DownloadEngine.GuardIgnoresMaxSizeValue | utils/download.js:24-26 | Only the truthiness of `maxSize` matters: any two enabling values decide alike, because the comparison is against `MAX_FILE_SIZE`. |
| DownloadEngine.Attempt | utils/download.js:22-61 | One `downloadFile` call, covering each outcome. Rejected (null) exactly when the guard rejects, and then no directory and no file is touched. Otherwise the base directory exists afterwards. Saved exactly when the transfer finishes: the result is `path.join(basePath, filename)`, and that path holds the whole body, replacing any earlier file. Failed (rethrown) for every other modelled transfer outcome. A GET that throws, or a write stream that cannot open its path, writes no file; a write error leaves the partial body. |
| DownloadEngine.AttemptWritesOnlyTarget | utils/download.js:39-48 | One call writes no path other than `basePath/filename`. |
| DownloadEngine.FileSystem.DownloadFile | utils/download.js:22-61 | The step-by-step `downloadFile` (guard, conditional `mkdirSync`, write stream) leaves exactly the state and returns exactly the result that `Attempt` specifies. |
| DownloadEngine.RunBatch | routes/rednote.js:104-126 | Awaited calls one after another: the run stops at the first call that throws. The number of calls made is at most the number of requests, and all of them when none failed. Every transfer before the failing one finished. |
| DownloadEngine.RunBatchStep | routes/rednote.js:108-114 | A run that has not failed, extended by one request, makes exactly that request's call. |
| DownloadEngine.RunBatchStopsAtFailure | routes/rednote.js:104-126 | Once a call has thrown, the remaining requests change nothing: the batch is aborted. |
| DownloadEngine.JoinPathInjective | utils/download.js:39 | Under one base directory, two paths are equal only when the filenames are. |
| DownloadEngine.RunBatchFrame | routes/rednote.js:104-126 | A batch writes no path outside its requests' own paths. |
| DownloadEngine.RunBatchKeepsFinished | routes/rednote.js:104-126 | When the requests' paths are pairwise distinct, every finished transfer's whole body is on disk at the end of the run. |
| Dispatcher.UrlAt | index.js:73 | The regular expression `https?:\/\/[^\s]+` matches at a position: `https://` or `http://` starts there and a non-whitespace character follows the scheme. |
| Dispatcher.TokenEnd | index.js:73 | The greedy `[^\s]+` stops at the first `\s` character or at the end of the line. |
| Dispatcher.FirstUrlFrom | index.js:73-77 | None exactly when no position matches `https?://\S`. Otherwise the result is the token at the leftmost matching position. |
| Dispatcher.MatchShape | index.js:73 | A matched token starts with `http://` or `https://`, has at least one character after the scheme, and holds no `\s` character. |
| Dispatcher.FirstUrl | index.js:74-77 | `trimmedInput.match(urlRegex)` followed by `urls[0]`: the first match, or none where `match` gives null. |
| Dispatcher.FirstUrlIsLeftmostMatch | utils/input.js:74-78 | `urls[0]` is the leftmost match and has the scheme shape; there is no URL exactly when nothing matches. |
| Dispatcher.Matches | index.js:91-119 | Each platform's test: `endsWith(d) \|\| === d` for its domains, the exact `x.com` for Twitter, and for Apple Music a hostname ending in `apple.com` together with a raw URL that includes `music.apple.com`. YouTube and CapCut follow utils/input.js:124-128. |
| Dispatcher.Pick | utils/input.js:92-136 | The if/else-if chain, one branch per platform in source order; index.js stops after Apple Music, utils/input.js goes on with YouTube and CapCut. |
| Dispatcher.Classify | index.js:83-127 | The chain applied to the lower-cased hostname and the raw URL. |
| Dispatcher.FirstMatch | index.js:91-127 | Reference definition: the first platform in an order whose test passes, or none exactly when every test fails. |
| Dispatcher.PickIsFirstMatch | index.js:91-127 | The if/else-if chain equals first-match over TikTok, Facebook, Instagram, Twitter, Douyin, Spotify, Pinterest, Apple Music (then YouTube and CapCut in utils/input.js), whatever the tests are. |
| Dispatcher.ClassifyIsFirstMatch | index.js:91-127 | A hostname goes to a platform exactly when that platform's test passes and every earlier test fails. It goes to none exactly when all tests fail. |
| Dispatcher.InputChainExtendsIndexChain | utils/input.js:120-131 | utils/input.js agrees with index.js wherever index.js picks a platform. It tries YouTube and then CapCut only after Apple Music failed. |
| Dispatcher.EqualityDisjunctRedundant | index.js:91 | `endsWith(d) \|\| === d` is the same test as `endsWith(d)`. |
| Dispatcher.SuffixHasNoDotBoundary | index.js:91 | `nottiktok.com` is classified as TikTok. |
| Dispatcher.XComMatchesOnlyExactly | index.js:103 | `x.com` and `mobile.twitter.com` are Twitter, but `www.x.com` fails the Twitter test. |
| Dispatcher.AppleMusicTestIsCaseSensitive | utils/input.js:120 | The test reads the raw URL: a URL that does not include the lower-case text `music.apple.com` fails the Apple Music test, whatever its hostname. |
| Dispatcher.UpperCaseAppleMusicUrlIsUnsupported | index.js:119-127 | A URL such as `https://MUSIC.APPLE.COM/...` has the hostname `music.apple.com` after lower-casing, but both copies of the chain classify it as unsupported. |
| Dispatcher.RespondCommand | index.js:30-71 | A slash command never extracts a URL, calls an adapter, or prints the invalid-URL, unsupported or usage message. It returns false exactly with the farewell. |
| Dispatcher.Respond | index.js:27-136 | The decision for one line: a command after trimming goes to the switch, anything else to URL extraction. The loop stops exactly when the farewell is printed, and an adapter always receives the current download path. |
| Dispatcher.RespondUrl | index.js:73-135 | A line that is not a command always continues the loop. It ends in a usage message, an invalid-URL message, an adapter call or the unsupported message, and an adapter call carries the current download path. |
| Dispatcher.QuitWords | index.js:36-40 | The lower-cased command is `quit` or `exit` exactly when the trimmed line is five characters long and spells one of them in any case. |
| Dispatcher.StopsOnlyOnQuit | index.js:30-135 | `processUserInput` returns false exactly for `/quit` or `/exit` in any case (after trimming), and true for every other line. |
| Dispatcher.SetPathCommandIsOneWord | index.js:51-53 | When `case 'setpath'` is taken, the trimmed line has no space, so `split(' ')` yields the line alone. |
| Dispatcher.SetPathNeverAssigns | index.js:51-63 | No line reaches the assignment of a new download path. |
| Dispatcher.CommandNeverAssigns | utils/input.js:52-64 | No slash command reaches the `/setpath` assignment at line 60. |
| Dispatcher.CommandsNeverDownload | index.js:30-71 | A line that starts with `/` after trimming never reaches URL extraction, classification or an adapter. |
| Dispatcher.AdapterCalledExactly | index.js:76-127 | An adapter is called with a given URL exactly when all of these hold: the line is not a command; that URL is its first match; the URL parses; and the chain picks that platform. The adapter gets the current download path. At most one adapter is called per line. |
| Dispatcher.NoAdapterWithoutMatch | utils/input.js:77-142 | No URL token gives the usage message, an unparseable URL the invalid-URL message, and a hostname that no test accepts the unsupported message. In none of these cases is an adapter called. |
| Dispatcher.Cli.constructor | utils/input.js:25 | The download path starts as `resultdownload_preniv`. |
| Dispatcher.Cli.ProcessUserInput | utils/input.js:27-145 | The method's return value and action equal `Respond` on the path before the call, and `currentDownloadPath` is left unchanged. |
| Routes.Gate | routes/spotify.js:11-29 | A thrown request goes to the catch block. A falsy body or status is a fetch failure, and a missing payload is invalid data. The adapter goes on exactly when the status is truthy and the payload is present. |
| Routes.Entries | routes/facebook.js:38-41 | `map` gives one entry per item, in order, each with the item's label and value. |
| Routes.Menu | routes/capcut.js:46-54 | The mapped entries in order, then Cancel last. |
| Routes.Extension | routes/applemusic.js:71 | The extension is `mp3` exactly for audio and `jpg` exactly for the image. |
| Routes.MaxSizeFor | routes/applemusic.js:75 | The size guard is switched on exactly for audio. |
| Routes.TrackFilenameAvoids | routes/applemusic.js:74 | Take a character that is not a letter, a digit, `_` or `.`, such as `/`. It is in `<prefix><segment>_<type>_<ts>.<ext>` exactly when the prefix or the segment brings it. |
| Routes.TrackFilenameSuffix | routes/spotify.js:71-72 | The name ends in `.mp3` exactly for audio. |
| Routes.StampedNameInjective | routes/threads.js:39 | A name with `Date.now()` between a fixed prefix and suffix determines the timestamp. |
| TikTokRoute.V2Accepts | routes/tiktok.js:24 | The primary response is used when it has a truthy status and a non-empty `data.urls`. |
| TikTokRoute.V1Accepts | routes/tiktok.js:39 | The fallback response is used when it has a truthy status and a `data.download.video` array, which is truthy even when empty. |
| TikTokRoute.Fetch | routes/tiktok.js:14-45 | The primary payload is used exactly when its status is truthy and `urls` is non-empty. The fallback payload is used exactly when the primary was refused and the fallback's status is truthy with `download.video` present. Each outcome carries one endpoint's payload, never a mixture. Otherwise the error is the fallback's own or "Both v2 and v1 APIs failed". |
| TikTokRoute.FetchWithFallback | routes/tiktok.js:11-45 | The nested try/catch yields `Fetch`. The fallback endpoint is requested exactly when the primary attempt threw or was refused, and always after it. |
| TikTokRoute.Listing | routes/tiktok.js:57-104 | The list offered is `urls` (v2) or `download.video` (v1). It is offered exactly when the information display does not read a missing `metadata` (or, for v1, a missing `metadata.stats`). |
| TikTokRoute.Choices | routes/tiktok.js:63-71 | One ` Video Quality i+1` entry per URL, in provider order, then Cancel last. |
| TikTokRoute.Filename | routes/tiktok.js:88 | `tiktok_video_<ts>.mp4`, the same for both endpoints (line 129). |
| TikTokRoute.Plan | routes/tiktok.js:47-130 | A download happens exactly for a displayed list and a pick other than Cancel. It fetches the picked URL as `tiktok_video_<ts>.mp4` with no size guard. A failed fetch ends in the catch block with its message. An accepted payload whose display reads missing metadata crashes, and picking Cancel from a displayed list downloads nothing. |
| TikTokRoute.BothFailedNoDownload | routes/tiktok.js:39-44 | When both endpoints are refused nothing is downloaded. The message is "Both v2 and v1 APIs failed" unless the fallback request itself threw. |
| TikTokRoute.EmptyFallbackListOffersOnlyCancel | routes/tiktok.js:104-112 | The fallback test accepts an empty `download.video`, which leaves only Cancel in the menu. |
| RedNoteRoute.Videos | routes/rednote.js:51 | The videos offered are `downloads` or none. |
| RedNoteRoute.Images | routes/rednote.js:52 | The images offered are `images` or none. |
| RedNoteRoute.MenuEntry | routes/rednote.js:59-88 | Reference definition of the p-th menu entry: the videos in order, then the images, then "Download All" when there is more than one medium, and Cancel last. |
| RedNoteRoute.BuildChoices | routes/rednote.js:59-88 | The pushes build exactly the reference menu `MenuEntry`, of length videos + images + (1 if more than one medium) + 1. |
| RedNoteRoute.MenuShape | routes/rednote.js:59-88 | Cancel is the last entry and only the last. "Download All" comes just before it, exactly when there is more than one medium. Every video and then every image has its own entry, carrying that medium and its index. |
| RedNoteRoute.VideoFilename | routes/rednote.js:132 | `rednote_video_<sanitised quality>_<ts>.mp4`, for a single video. |
| RedNoteRoute.ImageFilename | routes/rednote.js:136 | `rednote_image_<ts>.jpg`, for a single image. |
| RedNoteRoute.BatchVideoFilename | routes/rednote.js:113 | `rednote_video_<sanitised quality>_<ts>_<i>.mp4`, inside the batch. |
| RedNoteRoute.BatchImageFilename | routes/rednote.js:123 | `rednote_image_<ts>_<i>.jpg`, inside the batch. |
| RedNoteRoute.SafeQuality | routes/rednote.js:112 | The sanitised quality keeps its length and holds only `[A-Za-z0-9_]`, hence no `/` or `.`. |
| RedNoteRoute.BatchRequests | routes/rednote.js:107-126 | The batch's calls in order: first each video as `rednote_video_<quality>_<ts>_<i>.mp4`, then each image as `rednote_image_<ts>_<i>.jpg`, all unguarded under the base path. |
| RedNoteRoute.BatchFilenamesDiffer | routes/rednote.js:113-123 | Any two calls of one batch use different filenames. |
| RedNoteRoute.BatchPathsDiffer | routes/rednote.js:113-123 | Any two calls of one batch write different paths. |
| RedNoteRoute.BatchPathsDistinct | routes/rednote.js:113-123 | All paths of a batch are pairwise distinct, even when every clock reading is the same. |
| RedNoteRoute.VideoNamesDiffer | routes/rednote.js:113 | Batch video names with different loop indices differ, whatever the quality and the clock. |
| RedNoteRoute.ImageNamesDiffer | routes/rednote.js:123 | Batch image names with different loop indices differ, whatever the clock. |
| RedNoteRoute.BatchKeepsEveryFinishedItem | routes/rednote.js:104-126 | After "Download All", every item whose transfer finished before the batch stopped is on disk with its whole body. |
| RedNoteRoute.DownloadAll | routes/rednote.js:104-126 | The batch makes the calls of `BatchRequests` one after another and stops at the first that throws, leaving the `RunBatch` state. `downloadIndex` ends as the number of calls made, out of `totalItems` = videos + images. |
| RedNoteRoute.DownloadVideos | routes/rednote.js:107-116 | The video loop makes the first calls of the batch, as many as `downloadIndex` counts. It makes all of them unless one throws. |
| RedNoteRoute.DownloadImages | routes/rednote.js:118-126 | The image loop continues the same batch after the videos and ends in the state of the whole run. |
| RedNoteRoute.BatchVideoStep | routes/rednote.js:108-114 | The batch after video i is the batch before it plus that video's call. |
| RedNoteRoute.BatchImageStep | routes/rednote.js:119-124 | The batch after image i is the batch before it plus that image's call. |
| RedNoteRoute.DownloadRedNote | routes/rednote.js:8-139 | A failed check or no media writes nothing and ends with the reason. Cancel writes nothing. One video or image is fetched as `rednote_video_<quality>_<ts>.mp4` / `rednote_image_<ts>.jpg` with exactly the `downloadFile` effect. "Download All" ends in the `RunBatch` state and reports its counter and total. |
| CapCutRoute.DurationSeconds | routes/capcut.js:36 | `Math.floor(duration / 1000)`: the largest s with s·1000 ≤ duration, also for negative values. |
| CapCutRoute.Choices | routes/capcut.js:46-54 | One ` <quality>` entry per media item, in order, then Cancel last; a missing quality reads `undefined`. |
| CapCutRoute.SingleFilename | routes/capcut.js:42 | `capcut_<unique_id>_<ts>.<extension>`, with a missing field interpolated as `undefined`. |
| CapCutRoute.ChosenFilename | routes/capcut.js:71 | `capcut_<unique_id>_<quality with whitespace runs as _>_<ts>.<extension>`. |
| CapCutRoute.Plan | routes/capcut.js:20-72 | A falsy status, or a missing or empty `medias`, stops with no download. A single item is downloaded without a menu as `capcut_<unique_id>_<ts>.<ext>`, even when its extension is missing. With several items, Cancel downloads nothing. A pick without a quality throws at `.replace`. Any other pick fetches that item with its quality in the name. No size guard is ever passed. |
| CapCutRoute.MissingExtensionNamesUndefined | routes/capcut.js:42 | A missing `extension` does not stop the download: the file name ends in `.undefined`. |
| CapCutRoute.SingleMediaNeedsNoPick | routes/capcut.js:40-44 | With one media item the user's answer plays no part and a download is always made. |
| CapCutRoute.ChosenFilenameHasNoSpace | routes/capcut.js:71 | The multi-choice filename has no whitespace when the id and the extension have none. |
| AppleMusicRoute.ArtistSegment | routes/applemusic.js:72-73 | The artist segment is as long as `artist \|\| 'AppleMusic'` and holds only `[A-Za-z0-9_]`. |
| AppleMusicRoute.Filename | routes/applemusic.js:74 | `applemusic_<sanitised artist>_<type>_<ts>.<ext>`. |
| AppleMusicRoute.Plan | routes/applemusic.js:20-76 | A download happens exactly for a truthy status, a truthy `mp3DownloadLink` and a pick of the first two entries. The first entry fetches the MP3 link behind the size guard, the second the cover link without it, and Cancel downloads nothing. |
| AppleMusicRoute.FilenameStaysInBaseDirectory | routes/applemusic.js:72-74 | The filename holds no `/`, whatever the artist field holds. |
| AppleMusicRoute.GuardOnlyForAudio | routes/applemusic.js:71-76 | The guard is on exactly for the MP3, and only the MP3's name ends in `.mp3`. |
| AppleMusicRoute.MissingArtistIsAppleMusic | routes/applemusic.js:72 | A missing artist and an empty one both give the artist `AppleMusic`. |
| SpotifyRoute.Filename | routes/spotify.js:72 | `<songTitle \|\| 'Spotify'>_<type>_<ts>.<ext>`, with the title unsanitised. |
| SpotifyRoute.Plan | routes/spotify.js:20-74 | A download happens exactly for a truthy status, a truthy `mp3DownloadLink` and a pick of the first two entries. The MP3 is fetched behind the size guard and the cover without it, each named `<songTitle>_<type>_<ts>.<ext>`, and Cancel downloads nothing. |
| SpotifyRoute.SlashInTitleReachesPath | routes/spotify.js:72 | The title is not sanitised: the filename holds a `/` exactly when the song title does. `path.join` then names a file in a subdirectory that `downloadFile` never creates. |
| SpotifyRoute.GuardOnlyForAudio | routes/spotify.js:71-74 | The guard is on exactly for the MP3, and only the MP3's name ends in `.mp3`. |
| SpotifyRoute.MissingTitleIsSpotify | routes/spotify.js:72 | A missing title and an empty one both name the file after `Spotify`. |
| FacebookRoute.MenuThrows | routes/facebook.js:38-41 | Building the menu throws when some item has no `format`, since `toUpperCase` is called on every item. |
| FacebookRoute.Choices | routes/facebook.js:38-46 | One `<resolution> - <FORMAT>` entry per item, in provider order, then Cancel last. |
| FacebookRoute.Filename | routes/facebook.js:63 | `facebook_<resolution>_<ts>.<format>`. |
| FacebookRoute.Plan | routes/facebook.js:20-64 | A falsy status or a missing or empty list downloads nothing. An item without a format makes the menu throw. Cancel downloads nothing. Any other pick fetches that item as `facebook_<resolution>_<ts>.<format>` with no size guard. |
| FacebookRoute.FilenameEndsWithFormat | routes/facebook.js:63 | The saved file's extension is the chosen format, verbatim. |
| FacebookRoute.FilenameIdentifiesTime | routes/facebook.js:63 | Two downloads of the same item at different times get different names. |
| BlueskyRoute.Handle | routes/bluesky.js:49 | The handle segment is never empty and holds no `@` or `.`. |
| BlueskyRoute.Filename | routes/bluesky.js:50 | `bluesky_<handle>_<ts>.<mp4 or jpg>`. |
| BlueskyRoute.Plan | routes/bluesky.js:19-52 | A download happens exactly for a truthy status and a truthy `downloadLink`. It always fetches `downloadLink`, whatever the media type, with no size guard. |
| BlueskyRoute.OnlyDotIsExtensionSeparator | routes/bluesky.js:48-50 | The filename holds no `@`, and its only `.` is the one before the three-letter extension. |
| BlueskyRoute.VideoGetsMp4 | routes/bluesky.js:43-48 | The name ends in `.mp4` exactly when `videoUrl` is truthy (otherwise `.jpg`). |
| BlueskyRoute.MissingHandleIsBluesky | routes/bluesky.js:49 | A missing profile, a missing handle and an empty handle all become `bluesky`. |
| BlueskyRoute.ShownCaption | routes/bluesky.js:36-39 | The caption line: none for a missing or blank caption, otherwise the caption, cut to 100 characters plus `...` when longer. |
| BlueskyRoute.CaptionShownUnlessBlank | routes/bluesky.js:36 | The caption line is printed exactly when the caption has a character other than whitespace. |
| BlueskyRoute.CaptionCutAt100 | routes/bluesky.js:37-39 | A caption of up to 100 characters is shown unchanged. A longer one is shown as its first 100 characters plus `...`, 103 in all. |
| ThreadsRoute.Filename | routes/threads.js:39 | `threads_video_<ts>.mp4`. |
| ThreadsRoute.Plan | routes/threads.js:19-40 | A download happens exactly for a truthy status and a truthy `download`. It is that one link, fetched as `threads_video_<ts>.mp4` with no prompt and no size guard. |
| ThreadsRoute.FilenameIdentifiesTime | routes/threads.js:39 | Different timestamps give different names. |

## Left out

- HTTP (axios GET, HEAD and streams, timeouts, headers) is not modelled as traffic. Each metadata response, HEAD outcome and transfer outcome is an input value. The catch blocks' classification of the error shape (timeout, status, network) only prints, and is left out.
- The `inquirer` prompts are reduced to the index of the entry the user picks; `ora` spinners, `chalk` colours and console output are left out, and so is utils/helpers.js (banner, help and footer rendering).
- The `URL` constructor is an input (`hostOf`): its hostname for the token, or None where it throws.
- `Date.now()` is a parameter; in the RedNote batch it is a function of the call number, so any sequence of clock readings is covered.
- The `readline` loop (`startInteractive`), the commander command-line wiring and the Node version check are left out. The loop calls `processUserInput` and stops when it returns false, which `Dispatcher.StopsOnlyOnQuit` characterises. It also stops when `processUserInput` throws (index.js:163-167). None of the modelled adapters can cause that: each wraps its whole body in its own `try`/`catch` (routes/tiktok.js:14/132, routes/rednote.js:11/140, routes/capcut.js:11/74, routes/applemusic.js:11/78, routes/spotify.js:11/76, routes/facebook.js:11/65, routes/bluesky.js:10/54, routes/threads.js:10/41) and its `catch` does not rethrow. Only the adapters that are not part of this model could reach that stop.
- The adapters for Instagram, Twitter, Douyin, Pinterest and YouTube are not part of this model; the dispatcher records the call it makes to them.
- routes/api.js is not part of this model: the endpoint strings only address the requests, which are inputs. That file has no `rednote`, `capcut`, `bluesky` or `threads` key, so those adapters request `undefined...` at run time; the response input covers whatever comes back.
- `sizeInMB` and its `toFixed(2)` formatting are floating point and only displayed.
- Stream piping is reduced to its end: the whole body after 'finish', a partial body after 'error', or an 'error' before anything is written when the write stream cannot open its path. Whether the path can be opened is part of the transfer input, not derived from the directory set: a name with `/` (SpotifyRoute.SlashInTitleReachesPath) opens only when the subdirectory already exists.
- A stream error on the readable side (the connection drops mid-body) is not passed on by `pipe` (utils/download.js:48) to the write stream. The writer then emits neither 'finish' nor 'error', so the promise at utils/download.js:50-56 never settles. The awaiting adapter, the RedNote batch and the input loop (index.js:156) all hang. `DownloadEngine.Transfer` has no such outcome: every modelled call ends in Saved, Rejected or Failed.
- `fs.existsSync` (utils/download.js:36) is also true for a base path that is a regular file. Then `mkdirSync` is skipped and the write stream fails to open, but `DownloadEngine.Attempt` still counts the base path among the directories. A `mkdirSync` that throws, failing the call before the GET, is not an outcome either.
- `path.join` is modelled as `basePath + "/" + filename`, without its normalisation of `..`, repeated separators or an absolute filename; `mkdirSync` creates the base path as one entry of the directory set, without its parents.
- JsText.Lower: maps ASCII letters only; JavaScript's `toLowerCase` also maps non-ASCII letters. Every string it is applied to compares only against ASCII words, or is a hostname the `URL` parser already gave in ASCII.
- JsText.Upper: maps ASCII letters only, for the same reason; only the Facebook menu label uses it.
- Strings are sequences of characters, while JavaScript's `length` and `substring` count UTF-16 code units; the Bluesky caption cut at 100 differs for text outside the Basic Multilingual Plane.
- JsText.ReplaceNonAlnum: replaces each character of the string by one `_`. The regexes `/[^a-z0-9]/gi` (routes/applemusic.js:73) and `/[^a-zA-Z0-9]/g` (routes/rednote.js:112, :131) have no `u` flag, so JavaScript matches each UTF-16 code unit, and a character outside the Basic Multilingual Plane becomes two `_`. The artist "𝕏" (U+1D54F) gives `applemusic___audio_<ts>.mp3` in the program and `applemusic__audio_<ts>.mp3` in the model. The same difference reaches `AppleMusicRoute.ArtistSegment` and `AppleMusicRoute.Filename`, and `RedNoteRoute.SafeQuality` with the RedNote video filenames (`RedNoteRoute.VideoFilename`, `RedNoteRoute.BatchVideoFilename`). The lengths these members state are counted in characters, not in code units. The alphabet `[A-Za-z0-9_]` of the result, and hence the absence of `/` and `.`, holds in both.
- RedNote's `quality` is modelled as a present string: a missing one throws at `.replace` (routes/rednote.js:112) and that path is not modelled. CapCut's `quality` and `extension` and Facebook's `format` are modelled as optional.
- TikTokRoute.Plan: a display that reads a missing `metadata` or `metadata.stats` ends as `Crashed`, where the code reaches its catch block with the TypeError's message.
- CapCutRoute.DurationSeconds: a missing or non-numeric `duration` prints NaN; the model takes the duration as an integer.
- Fields that are only displayed (titles, authors, descriptions, statistics, hashtags, release date, Threads quality) are left out, except the Bluesky caption.
- RedNoteRoute.DownloadAll: the progress text `(downloadIndex/totalItems)` is reduced to the counter and the total; the two `for` loops are the helper methods `DownloadVideos` and `DownloadImages`.
- The RedNote single download reads the clock as `now(0)` and the transfer as `net(0)`, the first (and only) call of that branch.

# video-quick-eval core, modelled in Dafny

video-quick-eval takes a video link from Bilibili or YouTube and produces
material for judging the video quickly. It can search Bilibili by keyword. It
downloads the audio track (or the video) with yt-dlp, and transcribes the
audio with a local Whisper model. This project models the deterministic logic
that coordinates those external tools, and proves properties of it:

- `VideoId` (`video_id.dfy`) models `extract_video_id`. Each of the three
  regular-expression searches (Bilibili `BV` numbers, YouTube `v=` /
  `youtu.be/` tokens, Douyin `/video/` digit runs) is a leftmost scan with a
  greedy run or a fixed 11-character token. Each result is characterised
  exactly in terms of substrings of the URL.
- `BilibiliSearch` (`bilibili_search.dfy`) models several pieces:
  - the duration codec (`_parse_duration` / `format_duration`) and its round trip;
  - the play-count formatter;
  - the order-key fallback;
  - the result-normalisation loop of `search_bilibili_videos`. The loop is an
    imperative method proved against a reference function.
- `Downloader` (`downloader.dfy`) models the following:
  - the bitrate map and the platform registry;
  - the yt-dlp option records;
  - the `Downloader` class, whose `Download` and `DownloadVideo` methods act on
    a `FileSystem` object. That object holds the set of existing paths and a
    log of engine calls.
- `Transcriber` (`transcriber.dfy`) models device and compute-type selection,
  the `MODEL_MAP` check, `get_transcriber`, and the `WhisperTranscriber` class.
  Its `Transcript` loop assembles the segments and the full text.
- `Models` (`models.dfy`) holds the records of `src/models.py`.
- `Text` (`text.dfy`) holds the Python string built-ins the core relies on:
  - decimal rendering and `int()` parsing;
  - ASCII `lower()`, `strip()` and `split()`;
  - POSIX `os.path.join`.

Python semantics are kept where they matter:
- `//` and `%` floor, and for the positive divisors used here they coincide
  with Dafny's Euclidean operators. So `format_duration` is modelled on every
  integer, and `format_duration(-5)` is `"-1:55"`.
- `videos[:count]` with a negative count drops entries from the end.
- `f"{None}"` is `"None"`, so an unparsable link gives a cache path ending in
  `None.mp4`.
- `os.makedirs("")` raises.

The external tools become parameters:
- the bilibili search API is a function from keyword and order to a reply;
- yt-dlp is a function from URL and options to a downloaded info record plus
  the set of paths written, or a failure;
- `snapshot_download` is a function from repository and local directory to a
  path;
- the Whisper runtime is a function from model configuration and file to
  segments and language, or a failure;
- CUDA availability and the presence of the local model directory are
  booleans;
- the working directory is a string.

The two downloader subclasses share one `Downloader` class. It has a constant
`platform` field, and the field selects the platform tag and the format
strings.

## Model

| member | source | states |
|---|---|---|
| Models.DownloadQuality.Value | src/models.py:9-13 | each quality's value is one of "fast", "medium", "slow", and reading that value back yields the same member |
| Models.QualityFromValue | src/models.py:9-13 | a string names a quality exactly when it is "fast", "medium" or "slow" |
| Models.QualityValueInjective | src/models.py:9-13 | two qualities have the same value if and only if they are the same member |
| Text.NatToString | src/bilibili_search.py:134 | the decimal rendering is non-empty, all digits, has no leading zero, and denotes the number |
| Text.Pad2 | src/bilibili_search.py:134 | the `:02d` rendering is all digits, exactly two wide below 100, and denotes the number |
| Text.ParseInt | src/bilibili_search.py:117-120 | `int()` on ASCII digits with an optional sign: a string that parses is non-empty. ParseDigits, ParseSigned, ParseNoDigits, ParseIntRejects and ParseIntToString give the value of each accepted form and the rejected ones |
| Text.ParseIntToString | src/bilibili_search.py:117 | `int()` of the decimal rendering of any integer gives that integer back |
| Text.ParseIntRejects | src/bilibili_search.py:117 | a string with a non-digit anywhere other than a leading sign does not parse as an integer |
| Text.ParseSigned | src/bilibili_search.py:117-120 | a `+` or `-` followed by digits, leading zeros allowed, reads as the signed value of the digits |
| Text.ParseNoDigits | src/bilibili_search.py:117-124 | the empty string and a lone `+` or `-` do not parse |
| Text.Lower | src/downloader.py:269 | lowering keeps the length and maps each character through the ASCII case fold |
| Text.TrimEndSlice | src/transcriber.py:131 | trimming the right keeps a prefix of the text, removes only whitespace, and leaves no trailing whitespace |
| Text.TrimStartSlice | src/transcriber.py:131 | trimming the left keeps a suffix of the text and removes only whitespace |
| Text.Strip | src/transcriber.py:131 | a stripped text is empty or begins and ends with a non-whitespace character |
| Text.StripIsSlice | src/transcriber.py:131 | the stripped text is a contiguous slice of the input, with only whitespace cut on either side |
| Text.StripAppendSpace | src/transcriber.py:132-141 | adding a trailing space does not change what `strip()` returns |
| Text.Split | src/bilibili_search.py:114 | splitting gives at least one part, no part contains the separator, and joining the parts with the separator rebuilds the input |
| Text.SplitWithout | src/bilibili_search.py:114 | a text without the separator splits into itself alone |
| Text.SplitFirst | src/bilibili_search.py:114 | the text before the first separator is the first part, and the rest splits on its own |
| Text.PathJoin | src/downloader.py:104 | POSIX `os.path.join`: an absolute name replaces the directory. Otherwise the name follows the directory, with one `/` between them unless the directory is empty or already ends in `/` |
| Text.PathJoinInjective | src/downloader.py:129 | within one directory, different relative file names give different paths |
| VideoId.ExtractVideoId | src/utils.py:66-89 | a tag other than the exact three gives None; a Bilibili id starts with `BV`; a YouTube id has 11 characters. The three *IdCharacterised lemmas state each branch's result exactly |
| VideoId.FindFrom | src/utils.py:76 | a found position is a match, and no position before it matches |
| VideoId.RunLength | src/utils.py:76 | the run is all in the character class and cannot be extended |
| VideoId.LeftmostUnique | src/utils.py:76 | there is at most one leftmost match position |
| VideoId.MaximalRunUnique | src/utils.py:76 | there is at most one maximal run at a position |
| VideoId.FindFromLeftmost | src/utils.py:76 | the scan finds the leftmost match, and finds nothing exactly when nothing matches |
| VideoId.FindFromIs | src/utils.py:76 | the scan returns any leftmost match position |
| VideoId.RunLengthMaximal | src/utils.py:76 | the greedy run is the maximal run |
| VideoId.BilibiliFromScan | src/utils.py:74-77 | where the scan finds `BV` followed by an alphanumeric, the id is `BV` plus the maximal alphanumeric run there |
| VideoId.BilibiliIdAtUnique | src/utils.py:76-77 | the Bilibili id read at a leftmost match is unique |
| VideoId.BilibiliIdCharacterised | src/utils.py:74-77 | the result is `id` if and only if `id` is `BV` plus the maximal alphanumeric run after the leftmost `BV` that has one; the result is None if and only if no such `BV` occurs |
| VideoId.BilibiliIdShape | src/utils.py:76-77 | a Bilibili id starts with `BV`, has at least 3 characters, is alphanumeric after `BV`, and occurs in the URL |
| VideoId.YoutubeIdAtUnique | src/utils.py:81-82 | the YouTube token read at a leftmost match is unique |
| VideoId.YoutubeIdCharacterised | src/utils.py:79-82 | the result is `id` if and only if `id` is the 11 token characters after the leftmost `v=` or `youtu.be/` that has them; the result is None if and only if no such prefix occurs |
| VideoId.YoutubeIdShape | src/utils.py:81-82 | a YouTube id has exactly 11 characters from `[0-9A-Za-z_-]` and occurs in the URL |
| VideoId.DouyinIdCharacterised | src/utils.py:84-87 | the result is `id` if and only if `id` is the maximal digit run after the leftmost `/video/` followed by a digit; the result is None if and only if there is no such match |
| VideoId.DouyinIdShape | src/utils.py:86-87 | a Douyin id is a non-empty string of digits |
| VideoId.OtherPlatformsYieldNone | src/utils.py:89 | any platform tag other than the three exact, case-sensitive ones yields None |
| VideoId.BilibiliIdOfUrl | src/utils.py:76-77 | with no earlier `B`, the id is the `BV` and the maximal alphanumeric run at the first `BV` |
| VideoId.YoutubeIdOfShortUrl | src/utils.py:81-82 | in a `youtu.be/` link with no earlier `v` or `y`, the id is the 11 characters after the slash |
| VideoId.BilibiliExample | src/utils.py:75-77 | the bilibili.com link for `BV1vc411b7Wa` yields `BV1vc411b7Wa` |
| VideoId.YoutubeExample | src/utils.py:80-82 | `https://youtu.be/dQw4w9WgXcQ` yields `dQw4w9WgXcQ` |
| BilibiliSearch.ParseDuration | src/bilibili_search.py:108-124 | a text that is not two or three colon-separated parts gives 0. ParseDurationTwoParts, ParseDurationThreeParts and ParseDurationBadPart give the value of every other text |
| BilibiliSearch.FormatDuration | src/bilibili_search.py:126-139 | the text is at least 4 characters long and ends in a colon and two digits. FormatDurationText gives the text of every field, FormatDurationFields their values, and DurationRoundTrip the inverse |
| BilibiliSearch.FormatDurationFields | src/bilibili_search.py:126-139 | below an hour, the text is two fields: the minutes, and two characters of seconds under 60. From an hour up it is three fields: the hours (at least 1), then two characters of minutes and two of seconds, each under 60. Each field parses, and the fields recombine to the input |
| BilibiliSearch.FormatDurationText | src/bilibili_search.py:131-139 | below an hour, the fields are `str(d // 60)` (with a minus sign for a negative value) and the `:02d` digits of the seconds. From an hour up they are `str(d // 3600)` and the `:02d` digits of the minutes and of the seconds |
| BilibiliSearch.DefaultDurationIsZero | src/bilibili_search.py:91 | the default duration text "0:00" is 0 seconds |
| BilibiliSearch.DurationRoundTrip | src/bilibili_search.py:108-139 | parsing a formatted duration gives back every integer, negative ones included |
| BilibiliSearch.ParseDurationTwoParts | src/bilibili_search.py:115-117 | any `M:S` text whose parts read as integers is `m*60+s`, with no bound on either field ("75:12", "1:75") |
| BilibiliSearch.ParseDurationThreeParts | src/bilibili_search.py:118-120 | any `H:M:S` text whose parts read as integers is `h*3600+m*60+s` |
| BilibiliSearch.ParseLongMinutesExample | src/bilibili_search.py:115-117 | "75:12", a duration past an hour written without an hour field, is 4512 seconds |
| BilibiliSearch.ParseDurationWrongShape | src/bilibili_search.py:114-122 | a text that splits into neither 2 nor 3 parts yields 0 |
| BilibiliSearch.ParseDurationBadPart | src/bilibili_search.py:113-124 | a part that is not an integer yields 0 instead of an error |
| BilibiliSearch.ParseMinutesExample | src/bilibili_search.py:111-117 | "10:30" is 630 seconds |
| BilibiliSearch.ParseHoursExample | src/bilibili_search.py:111-120 | "1:05:20" is 3920 seconds |
| BilibiliSearch.ParseDurationNoColon | src/bilibili_search.py:121-122 | the empty text and text without a colon yield 0 |
| BilibiliSearch.FormatMinutesExample | src/bilibili_search.py:129-134 | 630 seconds format as "10:30" |
| BilibiliSearch.FormatHoursExample | src/bilibili_search.py:129-139 | 3920 seconds format as "1:05:20" |
| BilibiliSearch.FormatNegativeExample | src/bilibili_search.py:131-134 | -5 seconds format as "-1:55" under floor division |
| BilibiliSearch.RoundedTenths | src/bilibili_search.py:147 | the count in tenths of 万 is the nearest such value, and ties go to even |
| BilibiliSearch.FormatPlayCount | src/bilibili_search.py:141-149 | below 10000 the text is `str(count)`: the canonical digits, with a minus sign for a negative count, and it parses back to the count. From 10000 up it is the rounded tenths of 万, with one decimal digit and the suffix 万. The text ends in 万 if and only if the count is at least 10000 |
| BilibiliSearch.PlayCountBelowTenThousand | src/bilibili_search.py:144-149 | 9999 is written "9999" |
| BilibiliSearch.PlayCountTenThousand | src/bilibili_search.py:144-149 | 10000 is written "1.0万" |
| BilibiliSearch.PlayCountMillion | src/bilibili_search.py:144-149 | 1000000 is written "100.0万" |
| BilibiliSearch.OrderType | src/bilibili_search.py:47-54 | a known order key selects its own order, and any other key selects totalrank |
| BilibiliSearch.OrderTypeOfKey | src/bilibili_search.py:47-54 | every order is reachable through its own key |
| BilibiliSearch.Take | src/bilibili_search.py:81 | `videos[:count]` is a prefix of length min(count, len). A negative count drops that many entries from the end |
| BilibiliSearch.Summarise | src/bilibili_search.py:83-94 | a kept entry's summary carries its non-empty bvid and the video URL built from it. SummaryFields gives the other fields |
| BilibiliSearch.SummaryFields | src/bilibili_search.py:89-94 | the title and the author are the entry's own or "未知标题" and "未知UP主"; play is the entry's own or 0; the duration is the entry's text parsed, or "0:00" parsed when missing |
| BilibiliSearch.MissingDurationIsZero | src/bilibili_search.py:91 | an entry without a duration is summarised with duration 0 |
| BilibiliSearch.Kept | src/bilibili_search.py:80-99 | the filter keeps at most one summary per entry. KeptAppend, KeptOne, KeptWellFormed and KeptAllValid state which ones, and in what order |
| BilibiliSearch.Normalised | src/bilibili_search.py:69-102 | a failed call or a missing result gives no videos, and a non-negative count bounds the number returned |
| BilibiliSearch.SearchBilibiliVideos | src/bilibili_search.py:10-102 | the returned list is the normalisation of the API's reply for the mapped order: empty on failure or on no result, otherwise the summaries of the entries with a bvid among the first `count`. It has at most `count` entries. `count` defaults to 5 and `order` to "totalrank" |
| BilibiliSearch.KeptAppend | src/bilibili_search.py:80-95 | filtering distributes over concatenation, so the original order is kept |
| BilibiliSearch.KeptOne | src/bilibili_search.py:83-95 | an entry contributes its summary if it has a bvid, and nothing otherwise |
| BilibiliSearch.KeptWellFormed | src/bilibili_search.py:80-95 | at most one summary per entry, each with a non-empty bvid and the video URL built from that bvid |
| BilibiliSearch.KeptAllValid | src/bilibili_search.py:80-95 | when every entry has a bvid, each is kept and summarised in place |
| BilibiliSearch.MissingIdDropped | src/bilibili_search.py:83-85 | an entry without a bvid is skipped and later ones are still kept |
| BilibiliSearch.NegativeCountDropsLast | src/bilibili_search.py:81 | a count of -1 considers every entry but the last |
| BilibiliSearch.TruncateThenFilter | src/bilibili_search.py:81-85 | truncation happens before filtering: with count 1 and a first entry without a bvid, the result is empty |
| Downloader.QualityBitrate | src/downloader.py:17-21 | the bitrate is "32", "64" or "128", and any key other than fast, medium or slow gives "64" |
| Downloader.QualityBitratePresets | src/downloader.py:17-21 | fast, medium and slow map to "32", "64" and "128" |
| Downloader.QualityBitrateDistinguishes | src/downloader.py:17-21 | two qualities get the same bitrate if and only if they are the same quality |
| Downloader.IdText | src/downloader.py:129 | an id is rendered as itself, and a missing id as "None" |
| Downloader.Platform.Tag | src/downloader.py:256-259 | each registered platform has the tag "bilibili" or "youtube" |
| Downloader.LookupPlatform | src/downloader.py:262-271 | lookup succeeds exactly when the lowered name is a registered tag, and then yields the platform with that tag; otherwise the error names the original string |
| Downloader.LookupIgnoresCase | src/downloader.py:269 | names that lower to the same text look up the same platform |
| Downloader.LookupOfTag | src/downloader.py:256-259 | every platform is found by its own tag |
| Downloader.LookupExamples | src/downloader.py:269-271 | "BILIBILI" finds Bilibili, and "local" fails with the message for the unsupported platform "local" |
| Downloader.AudioOptions | src/downloader.py:83-95 | the audio options use each platform's format string (`bestaudio[ext=m4a]/bestaudio/best` for Bilibili, `bestaudio/best` for YouTube). They write into the output directory's id template, extract mp3 at the mapped bitrate, and disable playlists |
| Downloader.VideoOptions | src/downloader.py:138-144 | the video options use each platform's format string (`bv*[ext=mp4]/bestvideo+bestaudio/best` for Bilibili, `bestvideo[ext=mp4]+bestaudio[ext=m4a]/best[ext=mp4]/best` for YouTube). They write into the output directory's id template, merge to mp4, extract nothing, and disable playlists |
| Downloader.FileSystem.MakeDirs | src/downloader.py:80 | creating a directory succeeds if and only if the name is non-empty, and it is idempotent: the path set only gains that directory |
| Downloader.FileSystem.RunEngine | src/downloader.py:98-99 | one engine call is logged, and the files it writes join the path set |
| Downloader.DataDir | src/utils.py:42-46 | the data directory is never empty |
| Downloader.OutputDir | src/downloader.py:77-78 | a missing output directory becomes the cache directory |
| Downloader.AudioResult | src/downloader.py:100-116 | the audio result is `<dir>/<id>.mp3`, with the class's platform tag and the engine's info passed through unchanged. A missing duration becomes 0, a duration present as None stays None, and the video path is always None |
| Downloader.CachedVideoPath | src/downloader.py:128-129 | the cache lookup path names an `.mp4` file |
| Downloader.Mp4Path | src/downloader.py:129 | joining `<id>.mp4` onto a directory always ends in `.mp4` |
| Downloader.CachedPathsDistinct | src/downloader.py:128-132 | within one directory, different extracted ids (not starting with `/`) are looked up under different paths |
| Downloader.DownloadedVideoPath | src/downloader.py:149-150 | the path checked after the engine ran names an `.mp4` file |
| Downloader.CachedPathWithoutId | src/downloader.py:128-129 | when no id can be extracted, the cache path is `<dir>/None.mp4` |
| Downloader.Downloader.constructor | src/downloader.py:27-29 | a new downloader has quality "32" and the working directory's data directory, and that directory now exists |
| Downloader.Downloader.Download | src/downloader.py:69-116 | it creates the output directory and fails if that name is empty. Otherwise it runs the engine once with the audio options, whose result or failure passes through, and the new files join the path set. `need_video` is ignored, and `video_path` is None. The output directory defaults to the cache, the quality to "fast", and `need_video` to false |
| Downloader.Downloader.DownloadVideo | src/downloader.py:118-156 | a cache hit on `<dir>/<extracted id>.mp4` returns that path without calling the engine. Otherwise the engine runs once, and the result is `<dir>/<engine id>.mp4` if that file exists, or a not-found error. A returned path always exists |
| Downloader.GetDownloader | src/downloader.py:262-273 | an unknown platform yields the lookup error with no change to the file system. A known one yields a fresh downloader for that platform |
| Transcriber.SelectDevice | src/transcriber.py:63-66 | the device is cpu or cuda, and it is cuda exactly when a device other than cpu was asked for and CUDA is available |
| Transcriber.CudaFallbackExactly | src/transcriber.py:67-68 | the fallback warning is issued exactly when cuda was asked for and is unavailable |
| Transcriber.SelectComputeType | src/transcriber.py:70 | a non-empty compute type is kept; otherwise it is float16 on cuda and int8 on cpu |
| Transcriber.ModelRepo | src/transcriber.py:18-27 | exactly the eight listed model sizes have a repository, named by the common prefix and the size |
| Transcriber.ResolveModelPath | src/transcriber.py:73-87 | a present local directory is used as is. Otherwise a known size is downloaded there. An unknown size is an error if and only if the local directory is absent, and the error names the size |
| Transcriber.UnknownSizeFails | src/transcriber.py:79-81 | "huge" without a local directory fails with the size in the message |
| Transcriber.Texts | src/transcriber.py:130-132 | there is one stripped text per raw segment |
| Transcriber.TextsAt | src/transcriber.py:131 | the k-th text is the k-th raw text stripped |
| Transcriber.NormaliseAll | src/transcriber.py:130-137 | there is one output segment per raw segment, and each is that segment normalised |
| Transcriber.Normalise | src/transcriber.py:131-137 | a kept segment keeps its start and end, and its text has no whitespace at either end |
| Transcriber.Accumulated | src/transcriber.py:128-132 | the accumulator is empty exactly when there are no segments, and otherwise ends with a space. AccumulatedIsJoin states it exactly |
| Transcriber.Assemble | src/transcriber.py:127-144 | the transcript keeps the language, has no raw data, has one segment per raw segment, and its full text has no whitespace at either end |
| Transcriber.WhisperTranscriber.constructor | src/transcriber.py:91-97 | the transcriber holds the model configuration it was given |
| Transcriber.WhisperTranscriber.Transcript | src/transcriber.py:116-151 | a runtime failure passes through unchanged. Otherwise the result is the assembled transcript of the runtime's segments and language |
| Transcriber.AssembleSegments | src/transcriber.py:127-144 | the transcript keeps the language and has no raw data. It has one segment per raw segment, in order, each with the same start and end and the stripped text |
| Transcriber.AccumulatedIsJoin | src/transcriber.py:128-132 | the accumulated text is the stripped texts joined by single spaces, plus one trailing space |
| Transcriber.JoinSnoc | src/transcriber.py:132 | joining one more text adds a separator and that text |
| Transcriber.FullTextIsStrippedJoin | src/transcriber.py:128-141 | the full text is the stripped space-join of the stripped segment texts |
| Transcriber.FullTextTrimmed | src/transcriber.py:141 | the full text is empty or has no whitespace at either end |
| Transcriber.EmptyTranscript | src/transcriber.py:127-141 | no segments give an empty full text |
| Transcriber.TwoSegments | src/transcriber.py:130-141 | two non-blank segments join with exactly one space |
| Transcriber.BlankSegmentInBetween | src/transcriber.py:130-141 | a segment that strips to empty between two others leaves a double space |
| Transcriber.StripJoined | src/transcriber.py:141 | stripping trimmed text joined by spaces, plus a trailing space, removes only that trailing space |
| Transcriber.HelloWorldExample | src/transcriber.py:130-141 | segments "hello" and " world " give the full text "hello world" |
| Transcriber.NewWhisperTranscriber | src/transcriber.py:47-97 | a model-path error passes through. Otherwise a fresh transcriber holds the resolved path, the selected device and compute type, the thread count and the model directory. The defaults are size "base", device "cpu", no compute type and one thread |
| Transcriber.TranscriberKindOf | src/transcriber.py:167-170 | the kind is accepted exactly when it lowers to "whisper"; otherwise the error names the original kind |
| Transcriber.TranscriberKindExample | src/transcriber.py:167-168 | "WHISPER" is accepted |
| Transcriber.GetTranscriber | src/transcriber.py:154-170 | an unknown kind yields its error. Otherwise the result is a Whisper transcriber for the given size and device, with the constructor's default compute type and thread count. The defaults are "whisper", "base" and "cpu" |

## Left out

- The network side of `search_bilibili_videos` is not modelled: the `bilibili_api` import and its ImportError path, `sync`, the async `_search`, and the outer catch-all. It becomes a function argument returning `ApiFailed` or a reply.
- Search entries are records, not dictionaries. The per-entry `try`/`except` can therefore never fire, and a key present with the value `None` is not distinguished from a missing key. `play` is carried as an integer and `duration` as text. A non-text duration, which makes `_parse_duration` fail and return 0, is not modelled.
- yt-dlp, FFmpeg post-processing and the real file system are left out. The engine is a function from URL and options to an info record plus the set of files written. The file system is a set of paths: `makedirs` adds exactly the one directory, and creating parent directories is not modelled. Failures for a file in the way or for permissions are not modelled either.
- The Whisper runtime, `snapshot_download`, the torch/CUDA probe and `get_model_dir`'s directory creation are parameters or booleans. Errors raised while loading a model are not modelled, and the `cpu_threads` value is only stored.
- Logging, including the CUDA fallback warning, is left out. `CudaFallback` only states when it would be issued.
- `VideoId.DouyinIdCharacterised` and `VideoId.DouyinIdShape` read `\d` as the ASCII digits. Python's `\d` also matches other Unicode decimal digits, so a Douyin link with such digits after `/video/` is not modelled.
- `Text.ParseInt` accepts ASCII digits with an optional sign. Python's `int()` also allows surrounding whitespace, underscores and non-ASCII digits. Those inputs are not modelled.
- `Text.Lower` folds ASCII letters only. Python's `str.lower()` also folds other scripts; this matters only for tags that are not ASCII.
- `BilibiliSearch.RoundedTenths` rounds the exact quotient count/10000 half to even at the tenths. Python formats the nearest binary double to that quotient, so the digits differ whenever the two roundings part:
  - at exact ties: 10500 prints as `"1.1万"` in Python, because 1.05 is stored slightly above the tie, while the model gives `"1.0万"`;
  - once the quotient passes about 2^40, also away from ties: 17656508020927499 prints as `"1765650802092.8万"` in Python and `"1765650802092.7万"` in the model;
  - once the quotient passes 2^53, in whole integer digits too: 90071992547409930000 prints as `"9007199254740992.0万"` in Python and `"9007199254740993.0万"` in the model, and 10^27 prints as `"99999999999999991611392.0万"` against `"100000000000000000000000.0万"`.
- `BilibiliSearch.FormatPlayCount` inherits those digit differences from 10000 up. For counts from about 1.8·10^312 up, `count / 10000` raises `OverflowError` in Python, because the quotient does not fit in a double. The model returns a string there instead. Below that bound the branch, the shape and the suffix agree.
- `src/bilibili_search.py:144` says in its docstring that 1000000 formats as `"100万"`. The code produces `"100.0万"`, and the model follows the code.
- `src/utils.py:94-109` (`is_cuda_available`, `is_torch_installed`) and `get_output_dir` are not part of this model. CUDA availability is a boolean input.
- There is no local-file downloader, because the registry holds only bilibili and youtube. So `"local"` is rejected like any other unknown platform.
- `Download` returns the `.mp3` path without checking that the file exists, so nothing promises that the audio file exists on success. The video path, which the code does check, is proved to exist.
- A failed existence check after the engine ran is `FileNotFound`, which mirrors Python's `FileNotFoundError`.
- Durations, segment times and other floats are `real` values that are only copied, never computed with.

/**
 * The acquisition backends (src/downloader.py): the audio quality map,
 * the platform registry, and the control flow of the audio and video
 * downloads over a filesystem, which is a set of existing paths, and a
 * download engine, which is an opaque function from a URL and an
 * options record to an info record plus the paths it wrote.
 */
module Downloader {
  import opened Models
  import opened Text
  import opened VideoId

  // ------------------------------------------------------------ quality map

  /** `QUALITY_MAP.get(quality, '64')`: the audio bitrate handed to the post-processor. */
  function QualityBitrate(quality: string): (kbps: string)
    ensures kbps in {"32", "64", "128"}
    ensures quality !in {"fast", "medium", "slow"} ==> kbps == "64"
  {
    if quality == "fast" then "32"
    else if quality == "medium" then "64"
    else if quality == "slow" then "128"
    else "64"
  }

  /** The bitrate of each quality preset. */
  lemma QualityBitratePresets()
    ensures QualityBitrate(Fast.Value()) == "32"
    ensures QualityBitrate(Medium.Value()) == "64"
    ensures QualityBitrate(Slow.Value()) == "128"
  {
  }

  /** Distinct presets get distinct bitrates. */
  lemma QualityBitrateDistinguishes(p: DownloadQuality, q: DownloadQuality)
    ensures QualityBitrate(p.Value()) == QualityBitrate(q.Value()) <==> p == q
  {
    QualityValueInjective(p, q);
  }

  // ------------------------------------------------------------ paths

  /** `f"{video_id}"`: the ID, or the text "None" when there is none. */
  function IdText(id: Option<string>): (t: string)
    ensures id.Some? ==> t == id.value
    ensures id.None? ==> t == "None"
  {
    if id.Some? then id.value else "None"
  }

  /** The engine's output template: files are named after the media ID and extension. */
  const OutputTemplate := "%(id)s.%(ext)s"

  // ------------------------------------------------------------ registry

  /** The platforms with a downloader. */
  datatype Platform = Bilibili | Youtube
  {
    /** The registry key, which is also the tag put in results. */
    function Tag(): (t: string)
      ensures t in {"bilibili", "youtube"}
    {
      match this
      case Bilibili => "bilibili"
      case Youtube => "youtube"
    }
  }

  /** `PLATFORM_DOWNLOADERS.get(platform.lower())`, raising `ValueError` on a miss. */
  function LookupPlatform(platform: string): (r: Result<Platform, string>)
    ensures r.Ok? <==> Lower(platform) in {"bilibili", "youtube"}
    ensures r.Ok? ==> r.value.Tag() == Lower(platform)
    ensures r.Err? ==> r.error == "不支持的平台: " + platform
  {
    var key := Lower(platform);
    if key == "bilibili" then Ok(Bilibili)
    else if key == "youtube" then Ok(Youtube)
    else Err("不支持的平台: " + platform)
  }

  /** The lookup ignores ASCII case: two spellings with the same lower case find the same platform. */
  lemma LookupIgnoresCase(p: string, q: string)
    requires Lower(p) == Lower(q)
    ensures LookupPlatform(p).Ok? <==> LookupPlatform(q).Ok?
    ensures LookupPlatform(p).Ok? ==> LookupPlatform(p).value == LookupPlatform(q).value
  {
  }

  /** Every platform is found under its own tag. */
  lemma LookupOfTag(p: Platform)
    ensures LookupPlatform(p.Tag()) == Ok(p)
  {
    var t := p.Tag();
    assert forall i :: 0 <= i < |t| ==> 'a' <= t[i] <= 'z';
    LowerOfLowerCase(t);
  }

  lemma LowerOfLowerCase(s: string)
    requires forall i :: 0 <= i < |s| ==> !('A' <= s[i] <= 'Z')
    ensures Lower(s) == s
  {
  }

  /** "BILIBILI" finds the bilibili downloader; "local" has no downloader. */
  lemma LookupExamples(upper: string, local: string)
    requires upper == "BILIBILI" && local == "local"
    ensures LookupPlatform(upper) == Ok(Bilibili)
    ensures LookupPlatform(local) == Err("不支持的平台: local")
  {
    assert Lower(upper) == "bilibili";
    LowerOfLowerCase(local);
    assert "不支持的平台: " + local == "不支持的平台: local";
  }

  // ------------------------------------------------------------ engine

  /** The FFmpeg audio extraction step: codec and bitrate. */
  datatype AudioExtraction = AudioExtraction(codec: string, preferredQuality: string)

  /** The options record handed to the engine (`ydl_opts`). */
  datatype EngineOptions = EngineOptions(
    format: string,
    outtmpl: string,
    extraction: Option<AudioExtraction>,
    mergeOutputFormat: Option<string>,
    noPlaylist: bool,
    quiet: bool)

  /** The audio options each downloader uses. */
  function AudioOptions(platform: Platform, dir: string, quality: string): (o: EngineOptions)
    ensures o.outtmpl == PathJoin(dir, OutputTemplate)
    ensures o.extraction == Some(AudioExtraction("mp3", QualityBitrate(quality)))
    ensures o.mergeOutputFormat == None && o.noPlaylist && !o.quiet
    ensures platform == Bilibili ==> o.format == "bestaudio[ext=m4a]/bestaudio/best"
    ensures platform == Youtube ==> o.format == "bestaudio/best"
  {
    var format := match platform
      case Bilibili => "bestaudio[ext=m4a]/bestaudio/best"
      case Youtube => "bestaudio/best";
    EngineOptions(format, PathJoin(dir, OutputTemplate),
      Some(AudioExtraction("mp3", QualityBitrate(quality))), None, true, false)
  }

  /** The video options each downloader uses: no extraction, merged into mp4. */
  function VideoOptions(platform: Platform, dir: string): (o: EngineOptions)
    ensures o.outtmpl == PathJoin(dir, OutputTemplate)
    ensures o.extraction == None && o.mergeOutputFormat == Some("mp4") && o.noPlaylist && !o.quiet
    ensures platform == Bilibili ==> o.format == "bv*[ext=mp4]/bestvideo+bestaudio/best"
    ensures platform == Youtube ==> o.format == "bestvideo[ext=mp4]+bestaudio[ext=m4a]/best[ext=mp4]/best"
  {
    var format := match platform
      case Bilibili => "bv*[ext=mp4]/bestvideo+bestaudio/best"
      case Youtube => "bestvideo[ext=mp4]+bestaudio[ext=m4a]/best[ext=mp4]/best";
    EngineOptions(format, PathJoin(dir, OutputTemplate), None, Some("mp4"), true, false)
  }

  /** What one engine run gives: the info record and the files it wrote, or the error it raised. */
  datatype EngineOutcome =
    | Downloaded(info: InfoDict, written: set<string>)
    | EngineFailed(message: string)

  /** The download engine (`YoutubeDL.extract_info(url, download=True)`). */
  type Engine = (string, EngineOptions) -> EngineOutcome

  /** One invocation of the engine, as recorded by the filesystem. */
  datatype EngineCall = EngineCall(url: string, options: EngineOptions)

  /** How a download fails. */
  datatype DownloadError =
    | MakeDirsFailed(dir: string)   // `os.makedirs` raised
    | EngineError(message: string)  // the engine raised; passed on unchanged
    | FileNotFound(path: string)    // the engine returned but the expected file is missing

  // ------------------------------------------------------------ filesystem

  /** The existing paths, and a log of engine runs, which are the only way files appear. */
  class FileSystem {
    var paths: set<string>
    var engineCalls: seq<EngineCall>

    constructor(initial: set<string>)
      ensures paths == initial && engineCalls == []
    {
      paths := initial;
      engineCalls := [];
    }

    /** `os.path.exists(p)`. */
    predicate Exists(p: string)
      reads this
    {
      p in paths
    }

    /**
     * `os.makedirs(dir, exist_ok=True)`: succeeds, and is idempotent, for
     * every non-empty path; the empty path raises.
     */
    method MakeDirs(dir: string) returns (ok: bool)
      modifies this
      ensures ok <==> dir != ""
      ensures paths == if ok then old(paths) + {dir} else old(paths)
      ensures engineCalls == old(engineCalls)
    {
      if dir == "" {
        return false;
      }
      paths := paths + {dir};
      return true;
    }

    /** Runs the engine once: it is logged, and what it wrote now exists. */
    method RunEngine(url: string, options: EngineOptions, engine: Engine) returns (outcome: EngineOutcome)
      modifies this
      ensures outcome == engine(url, options)
      ensures engineCalls == old(engineCalls) + [EngineCall(url, options)]
      ensures paths == old(paths) + (if outcome.Downloaded? then outcome.written else {})
    {
      outcome := engine(url, options);
      engineCalls := engineCalls + [EngineCall(url, options)];
      if outcome.Downloaded? {
        paths := paths + outcome.written;
      }
    }
  }

  // ------------------------------------------------------------ downloaders

  /** `get_data_dir()`: the "data" directory under the working directory. */
  function DataDir(cwd: string): (d: string)
    ensures d != ""
  {
    PathJoin(cwd, "data")
  }

  /** The directory a download writes to: the given one, else the cache directory. */
  function OutputDir(outputDir: Option<string>, cacheData: string): (d: string)
    ensures outputDir.Some? ==> d == outputDir.value
    ensures outputDir.None? ==> d == cacheData
  {
    if outputDir.Some? then outputDir.value else cacheData
  }

  /** The audio result built from the engine's info record. */
  function AudioResult(platform: Platform, dir: string, info: InfoDict): (r: AudioDownloadResult)
    ensures r.filePath == PathJoin(dir, IdText(info.id) + ".mp3")
    ensures r.platform == platform.Tag() && r.videoId == info.id && r.rawInfo == info
    ensures r.title == info.title && r.coverUrl == info.thumbnail
    ensures info.duration.Missing? ==> r.duration == Some(0.0)
    ensures info.duration.Null? ==> r.duration == None
    ensures info.duration.Present? ==> r.duration == Some(info.duration.value)
    ensures r.videoPath == None
  {
    AudioDownloadResult(
      PathJoin(dir, IdText(info.id) + ".mp3"),
      info.title,
      match info.duration
      case Missing => Some(0.0)
      case Null => None
      case Present(seconds) => Some(seconds),
      info.thumbnail,
      platform.Tag(),
      info.id,
      info)
  }

  /** Where `download_video` looks for a cached copy: the ID extracted from the URL, ".mp4". */
  function CachedVideoPath(dir: string, extracted: Option<string>): (p: string)
    ensures |p| >= 4 && p[|p| - 4..] == ".mp4"
  {
    Mp4Path(dir, IdText(extracted))
  }

  /** `os.path.join(dir, f"{id}.mp4")`, which always names an mp4 file. */
  function Mp4Path(dir: string, id: string): (p: string)
    ensures |p| >= 4 && p[|p| - 4..] == ".mp4"
  {
    var name := id + ".mp4";
    var p := PathJoin(dir, name);
    assert name[|name| - 4..] == ".mp4";
    assert p[|p| - 4..] == name[|name| - 4..] by {
      if name[0] != '/' {
        assert p[|p| - |name|..] == name;
        assert p[|p| - 4..] == p[|p| - |name|..][|name| - 4..];
      }
    }
    p
  }

  /** Within one directory, different extracted IDs are looked up under different paths. */
  lemma CachedPathsDistinct(dir: string, a: string, b: string)
    requires a != b
    requires (a == [] || a[0] != '/') && (b == [] || b[0] != '/')
    ensures CachedVideoPath(dir, Some(a)) != CachedVideoPath(dir, Some(b))
  {
    var na, nb := a + ".mp4", b + ".mp4";
    assert na[0] != '/' && nb[0] != '/';
    assert na[..|na| - 4] == a && nb[..|nb| - 4] == b;
    if PathJoin(dir, na) == PathJoin(dir, nb) {
      PathJoinInjective(dir, na, nb);
    }
  }

  /** A URL the platform's pattern does not match is looked up in the cache as "None.mp4". */
  lemma CachedPathWithoutId(dir: string)
    ensures CachedVideoPath(dir, None) == PathJoin(dir, "None.mp4")
  {
    assert IdText(None) + ".mp4" == "None.mp4";
  }

  /** Where `download_video` expects the file after the engine ran: the ID the engine reported. */
  function DownloadedVideoPath(dir: string, info: InfoDict): (p: string)
    ensures |p| >= 4 && p[|p| - 4..] == ".mp4"
  {
    Mp4Path(dir, IdText(info.id))
  }

  /**
   * One downloader. The Python code has a class per platform; they
   * differ only in the format strings and the result's platform tag, so
   * here the platform is a constant of the instance.
   */
  class Downloader {
    const platform: Platform
    var quality: string
    var cacheData: string

    /** `__init__`: the default bitrate and the data directory, which is created. */
    constructor(platform: Platform, cwd: string, fs: FileSystem)
      modifies fs
      ensures this.platform == platform
      ensures quality == QualityBitrate("fast") && cacheData == DataDir(cwd)
      ensures fs.paths == old(fs.paths) + {DataDir(cwd)}
      ensures fs.engineCalls == old(fs.engineCalls)
    {
      this.platform := platform;
      quality := QualityBitrate("fast");
      cacheData := DataDir(cwd);
      new;
      var ok := fs.MakeDirs(cacheData);
    }

    /**
     * `download`: fetch the audio track as mp3 into the output directory
     * and describe it. `needVideo` is accepted and ignored.
     */
    method Download(url: string, outputDir: Option<string> := None, quality: string := "fast",
                    needVideo: bool := false,
                    fs: FileSystem, engine: Engine)
      returns (r: Result<AudioDownloadResult, DownloadError>)
      modifies fs
      ensures var dir := OutputDir(outputDir, cacheData);
              if dir == "" then
                r == Err(MakeDirsFailed(dir)) && fs.paths == old(fs.paths) && fs.engineCalls == old(fs.engineCalls)
              else
                && fs.engineCalls == old(fs.engineCalls) + [EngineCall(url, AudioOptions(platform, dir, quality))]
                && match engine(url, AudioOptions(platform, dir, quality))
                   case Downloaded(info, written) =>
                     r == Ok(AudioResult(platform, dir, info)) && fs.paths == old(fs.paths) + {dir} + written
                   case EngineFailed(message) =>
                     r == Err(EngineError(message)) && fs.paths == old(fs.paths) + {dir}
      ensures r.Ok? ==> r.value.videoPath == None && r.value.platform == platform.Tag()
    {
      var dir := OutputDir(outputDir, cacheData);
      var ok := fs.MakeDirs(dir);
      if !ok {
        return Err(MakeDirsFailed(dir));
      }
      var outcome := fs.RunEngine(url, AudioOptions(platform, dir, quality), engine);
      match outcome
      case EngineFailed(message) =>
        r := Err(EngineError(message));
      case Downloaded(info, written) =>
        r := Ok(AudioResult(platform, dir, info));
    }

    /**
     * `download_video`: return the cached mp4 when the path built from the
     * URL's ID exists; otherwise run the engine and return the path built
     * from the ID it reports, but only once that file is seen to exist.
     */
    method DownloadVideo(url: string, outputDir: Option<string> := None, fs: FileSystem, engine: Engine)
      returns (r: Result<string, DownloadError>)
      modifies fs
      ensures var dir := OutputDir(outputDir, cacheData);
              var cached := CachedVideoPath(dir, ExtractVideoId(url, platform.Tag()));
              if dir == "" then
                r == Err(MakeDirsFailed(dir)) && fs.paths == old(fs.paths) && fs.engineCalls == old(fs.engineCalls)
              else if cached in old(fs.paths) + {dir} then
                r == Ok(cached) && fs.paths == old(fs.paths) + {dir} && fs.engineCalls == old(fs.engineCalls)
              else
                && fs.engineCalls == old(fs.engineCalls) + [EngineCall(url, VideoOptions(platform, dir))]
                && match engine(url, VideoOptions(platform, dir))
                   case Downloaded(info, written) =>
                     && fs.paths == old(fs.paths) + {dir} + written
                     && r == (if DownloadedVideoPath(dir, info) in fs.paths
                              then Ok(DownloadedVideoPath(dir, info))
                              else Err(FileNotFound(DownloadedVideoPath(dir, info))))
                   case EngineFailed(message) =>
                     r == Err(EngineError(message)) && fs.paths == old(fs.paths) + {dir}
      ensures r.Ok? ==> r.value in fs.paths
    {
      var dir := OutputDir(outputDir, cacheData);
      var ok := fs.MakeDirs(dir);
      if !ok {
        return Err(MakeDirsFailed(dir));
      }
      var videoId := ExtractVideoId(url, platform.Tag());
      var videoPath := CachedVideoPath(dir, videoId);
      if fs.Exists(videoPath) {
        return Ok(videoPath);
      }
      var outcome := fs.RunEngine(url, VideoOptions(platform, dir), engine);
      match outcome
      case EngineFailed(message) =>
        r := Err(EngineError(message));
      case Downloaded(info, written) =>
        videoPath := DownloadedVideoPath(dir, info);
        if !fs.Exists(videoPath) {
          return Err(FileNotFound(videoPath));
        }
        r := Ok(videoPath);
    }
  }

  /** `get_downloader`: a fresh downloader for a known platform, in any letter case. */
  method GetDownloader(platform: string, cwd: string, fs: FileSystem) returns (r: Result<Downloader, string>)
    modifies fs
    ensures LookupPlatform(platform).Err? ==>
              r == Err(LookupPlatform(platform).error) && fs.paths == old(fs.paths)
    ensures LookupPlatform(platform).Ok? ==>
              && r.Ok? && fresh(r.value)
              && r.value.platform == LookupPlatform(platform).value
              && r.value.cacheData == DataDir(cwd) && r.value.quality == "32"
              && fs.paths == old(fs.paths) + {DataDir(cwd)}
    ensures fs.engineCalls == old(fs.engineCalls)
  {
    var found := LookupPlatform(platform);
    if found.Err? {
      return Err(found.error);
    }
    var d := new Downloader(found.value, cwd, fs);
    return Ok(d);
  }
}

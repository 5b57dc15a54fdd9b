/**
 * The speech-to-text stage (src/transcriber.py): choosing the device and
 * compute type, resolving the model directory, assembling the transcript
 * from the runtime's raw segments, and the transcriber factory. The
 * Whisper runtime, CUDA probing and the model download are parameters.
 */
module Transcriber {
  import opened Models
  import opened Text

  // ------------------------------------------------------------ configuration

  /**
   * The device the model runs on: "cpu" when asked for "cpu" or for
   * nothing; for any other request "cuda" when CUDA is available and
   * "cpu" otherwise, never an error.
   */
  function SelectDevice(device: Option<string>, cudaAvailable: bool): (d: string)
    ensures d == "cpu" || d == "cuda"
    ensures d == "cuda" <==> device.Some? && device.value != "cpu" && cudaAvailable
  {
    if device == Some("cpu") || device.None? then "cpu"
    else if cudaAvailable then "cuda"
    else "cpu"
  }

  /** The case that logs a warning: CUDA was asked for by name and is not there. */
  predicate CudaFallback(device: Option<string>, cudaAvailable: bool)
  {
    device == Some("cuda") && SelectDevice(device, cudaAvailable) == "cpu"
  }

  lemma CudaFallbackExactly(device: Option<string>, cudaAvailable: bool)
    ensures CudaFallback(device, cudaAvailable) <==> device == Some("cuda") && !cudaAvailable
  {
  }

  /**
   * `compute_type or (...)`: a given, non-empty compute type is kept;
   * otherwise "float16" on cuda and "int8" on cpu.
   */
  function SelectComputeType(computeType: Option<string>, device: string): (c: string)
    ensures computeType.Some? && computeType.value != "" ==> c == computeType.value
    ensures (computeType.None? || computeType.value == "") ==>
              c == (if device == "cuda" then "float16" else "int8")
  {
    if computeType.Some? && computeType.value != "" then computeType.value
    else if device == "cuda" then "float16"
    else "int8"
  }

  const ModelRepoPrefix := "pengzhendong/faster-whisper-"

  /** The model sizes `MODEL_MAP` knows. */
  const ModelSizes: set<string> :=
    {"tiny", "base", "small", "medium", "large-v1", "large-v2", "large-v3", "large-v3-turbo"}

  /** `MODEL_MAP.get(size)`: every known size maps to the mirror repository named after it. */
  function ModelRepo(size: string): (repo: Option<string>)
    ensures repo.Some? <==> size in ModelSizes
    ensures repo.Some? ==> repo.value == ModelRepoPrefix + size
  {
    if size in ModelSizes then Some(ModelRepoPrefix + size) else None
  }

  /** `get_model_dir("whisper")`: models/whisper under the working directory. */
  function ModelDir(cwd: string): string
  {
    PathJoin(PathJoin(cwd, "models"), "whisper")
  }

  /** The directory a model of the given size is kept in. */
  function LocalModelPath(modelDir: string, size: string): string
  {
    PathJoin(modelDir, "whisper-" + size)
  }

  /** `snapshot_download(repo, local_dir=...)`: fetches a repository and returns where it put it. */
  type Snapshot = (string, string) -> string

  /**
   * The model path `__init__` loads: the local copy when it exists
   * (whatever the size); else, for a known size, what the download
   * returns; else `ValueError`.
   */
  function ResolveModelPath(modelDir: string, size: string, localPresent: bool, snapshot: Snapshot)
    : (r: Result<string, string>)
    ensures localPresent ==> r == Ok(LocalModelPath(modelDir, size))
    ensures !localPresent && size in ModelSizes ==>
              r == Ok(snapshot(ModelRepoPrefix + size, LocalModelPath(modelDir, size)))
    ensures r.Err? <==> !localPresent && size !in ModelSizes
    ensures r.Err? ==> r.error == "不支持的模型大小: " + size
  {
    var path := LocalModelPath(modelDir, size);
    if localPresent then Ok(path)
    else
      match ModelRepo(size)
      case None => Err("不支持的模型大小: " + size)
      case Some(repo) => Ok(snapshot(repo, path))
  }

  /** An unknown size with no local copy fails, and never reaches the download. */
  lemma UnknownSizeFails(modelDir: string, snapshot: Snapshot)
    ensures ResolveModelPath(modelDir, "huge", false, snapshot) == Err("不支持的模型大小: huge")
  {
    assert "huge" !in ModelSizes;
    assert "不支持的模型大小: " + "huge" == "不支持的模型大小: huge";
  }

  // ------------------------------------------------------------ runtime

  /** One raw segment from the runtime: times and untrimmed text. */
  datatype RawSegment = RawSegment(start: Seconds, end: Seconds, text: string)

  /** What the runtime's `transcribe(file_path)` gives: the segments and detected language, or an error. */
  datatype RuntimeOutcome =
    | Transcribed(segments: seq<RawSegment>, language: Option<string>)
    | RuntimeFailed(message: string)

  /** Everything `WhisperModel(...)` is built from. */
  datatype ModelConfig = ModelConfig(
    modelPath: string,
    device: string,
    computeType: string,
    cpuThreads: int,
    downloadRoot: string)

  /** The Whisper runtime running a loaded model on an audio file. */
  type Runtime = (ModelConfig, string) -> RuntimeOutcome

  // ------------------------------------------------------------ transcript assembly

  /** The segment kept for a raw one: same times, stripped text. */
  function Normalise(seg: RawSegment): (kept: TranscriptSegment)
    ensures kept.start == seg.start && kept.end == seg.end
    ensures kept.text == [] || (!IsSpace(kept.text[0]) && !IsSpace(kept.text[|kept.text| - 1]))
  {
    TranscriptSegment(seg.start, seg.end, Strip(seg.text))
  }

  /** `full_text` before the final strip: each stripped text followed by one space. */
  function Accumulated(raw: seq<RawSegment>): (acc: string)
    ensures raw == [] <==> acc == ""
    ensures raw != [] ==> acc[|acc| - 1] == ' '
  {
    if raw == [] then ""
    else Accumulated(raw[..|raw| - 1]) + Strip(raw[|raw| - 1].text) + " "
  }

  /** The stripped texts, in order. */
  function Texts(raw: seq<RawSegment>): (texts: seq<string>)
    ensures |texts| == |raw|
  {
    if raw == [] then []
    else Texts(raw[..|raw| - 1]) + [Strip(raw[|raw| - 1].text)]
  }

  /** The k-th stripped text is that of the k-th segment. */
  lemma {:induction false} TextsAt(raw: seq<RawSegment>, k: nat)
    requires k < |raw|
    ensures Texts(raw)[k] == Strip(raw[k].text)
    decreases |raw|
  {
    if k < |raw| - 1 {
      TextsAt(raw[..|raw| - 1], k);
    }
  }

  /** The kept segments: one per raw segment, in order. */
  function NormaliseAll(raw: seq<RawSegment>): (segs: seq<TranscriptSegment>)
    ensures |segs| == |raw|
    ensures forall k :: 0 <= k < |raw| ==> segs[k] == Normalise(raw[k])
  {
    if raw == [] then []
    else NormaliseAll(raw[..|raw| - 1]) + [Normalise(raw[|raw| - 1])]
  }

  /** The transcript built from the runtime's segments and detected language. */
  function Assemble(raw: seq<RawSegment>, language: Option<string>): (t: TranscriptResult)
    ensures t.language == language && t.raw == None && |t.segments| == |raw|
    ensures t.fullText == [] || (!IsSpace(t.fullText[0]) && !IsSpace(t.fullText[|t.fullText| - 1]))
  {
    TranscriptResult(language, Strip(Accumulated(raw)), NormaliseAll(raw), None)
  }

  class WhisperTranscriber {
    var model: ModelConfig

    constructor(config: ModelConfig)
      ensures model == config
    {
      model := config;
    }

    /**
     * `transcript`: run the model on the file, then keep one segment per
     * raw segment with its text stripped, and join the stripped texts,
     * each followed by a space, into the full text, which is stripped
     * once more at the end. Runtime errors are passed on unchanged.
     */
    method Transcript(filePath: string, runtime: Runtime) returns (r: Result<TranscriptResult, string>)
      ensures runtime(model, filePath).RuntimeFailed? ==> r == Err(runtime(model, filePath).message)
      ensures runtime(model, filePath).Transcribed? ==>
                r == Ok(Assemble(runtime(model, filePath).segments, runtime(model, filePath).language))
    {
      var outcome := runtime(model, filePath);
      if outcome.RuntimeFailed? {
        return Err(outcome.message);
      }
      var raw := outcome.segments;
      var segments: seq<TranscriptSegment> := [];
      var fullText := "";
      var i := 0;
      while i < |raw|
        invariant 0 <= i <= |raw|
        invariant segments == NormaliseAll(raw[..i])
        invariant fullText == Accumulated(raw[..i])
      {
        var seg := Normalise(raw[i]);
        assert raw[..i + 1][..i] == raw[..i];
        fullText := fullText + seg.text + " ";
        segments := segments + [seg];
        i := i + 1;
      }
      assert raw[..i] == raw;
      r := Ok(TranscriptResult(outcome.language, Strip(fullText), segments, None));
    }
  }

  // ------------------------------------------------------------ properties

  /**
   * What the assembled transcript holds: one segment per raw segment,
   * in order, with the same times and the stripped text; the detected
   * language; no raw runtime info.
   */
  lemma AssembleSegments(raw: seq<RawSegment>, language: Option<string>)
    ensures var t := Assemble(raw, language);
            && t.language == language && t.raw == None
            && |t.segments| == |raw|
            && forall k :: 0 <= k < |raw| ==>
                 t.segments[k].start == raw[k].start && t.segments[k].end == raw[k].end
                 && t.segments[k].text == Strip(raw[k].text)
  {
  }

  /** Before the last strip the full text is the space-join of the stripped texts plus one space. */
  lemma {:induction false} AccumulatedIsJoin(raw: seq<RawSegment>)
    requires |raw| >= 1
    ensures Accumulated(raw) == Join(Texts(raw), ' ') + " "
    decreases |raw|
  {
    if |raw| > 1 {
      var init := raw[..|raw| - 1];
      AccumulatedIsJoin(init);
      JoinSnoc(Texts(init), Strip(raw[|raw| - 1].text), ' ');
      assert Texts(raw) == Texts(init) + [Strip(raw[|raw| - 1].text)];
    } else {
      assert raw[..0] == [];
    }
  }

  /** Joining one more part appends the separator and the part. */
  lemma {:induction false} JoinSnoc(parts: seq<string>, last: string, sep: char)
    requires |parts| >= 1
    ensures Join(parts + [last], sep) == Join(parts, sep) + [sep] + last
    decreases |parts|
  {
    if |parts| > 1 {
      assert (parts + [last])[1..] == parts[1..] + [last];
      JoinSnoc(parts[1..], last, sep);
    } else {
      assert (parts + [last])[1..] == [last];
    }
  }

  /**
   * The full text is the stripped space-join of the stripped segment
   * texts: the trailing space the loop adds makes no difference.
   */
  lemma FullTextIsStrippedJoin(raw: seq<RawSegment>)
    requires |raw| >= 1
    ensures Strip(Accumulated(raw)) == Strip(Join(Texts(raw), ' '))
  {
    AccumulatedIsJoin(raw);
    StripAppendSpace(Join(Texts(raw), ' '));
  }

  /** The full text never starts or ends with whitespace. */
  lemma FullTextTrimmed(raw: seq<RawSegment>)
    ensures var t := Strip(Accumulated(raw));
            t == [] || (!IsSpace(t[0]) && !IsSpace(t[|t| - 1]))
  {
  }

  /** No segments give an empty full text. */
  lemma EmptyTranscript()
    ensures Strip(Accumulated([])) == ""
  {
  }

  /** Two segments whose texts do not blank out give their stripped texts joined by one space. */
  lemma TwoSegments(raw: seq<RawSegment>)
    requires |raw| == 2 && Strip(raw[0].text) != "" && Strip(raw[1].text) != ""
    ensures Strip(Accumulated(raw)) == Strip(raw[0].text) + " " + Strip(raw[1].text)
  {
    var texts := Texts(raw);
    TextsAt(raw, 0);
    TextsAt(raw, 1);
    AccumulatedIsJoin(raw);
    JoinTwo(texts);
    StripJoined(texts[0], " ", texts[1]);
  }

  /** A text that blanks out between two others leaves two spaces between them. */
  lemma BlankSegmentInBetween(raw: seq<RawSegment>)
    requires |raw| == 3 && Strip(raw[0].text) != "" && Strip(raw[1].text) == "" && Strip(raw[2].text) != ""
    ensures Strip(Accumulated(raw)) == Strip(raw[0].text) + "  " + Strip(raw[2].text)
  {
    TextsAt(raw, 0);
    TextsAt(raw, 1);
    TextsAt(raw, 2);
    AccumulatedIsJoin(raw);
    StripThreeJoined(Texts(raw));
  }

  lemma StripThreeJoined(texts: seq<string>)
    requires |texts| == 3 && texts[1] == ""
    requires texts[0] != [] && !IsSpace(texts[0][0]) && !IsSpace(texts[0][|texts[0]| - 1])
    requires texts[2] != [] && !IsSpace(texts[2][0]) && !IsSpace(texts[2][|texts[2]| - 1])
    ensures Strip(Join(texts, ' ') + " ") == texts[0] + "  " + texts[2]
  {
    JoinThree(texts);
    assert Join(texts, ' ') == texts[0] + "  " + texts[2];
    StripJoined(texts[0], "  ", texts[2]);
  }

  lemma JoinTwo(texts: seq<string>)
    requires |texts| == 2
    ensures Join(texts, ' ') == texts[0] + " " + texts[1]
  {
    assert texts[1..] == [texts[1]];
  }

  lemma JoinThree(texts: seq<string>)
    requires |texts| == 3
    ensures Join(texts, ' ') == texts[0] + " " + texts[1] + " " + texts[2]
  {
    JoinTwo(texts[1..]);
  }

  /** Two trimmed texts with spaces between them, plus a trailing space, strip to the texts and the spaces. */
  lemma StripJoined(a: string, gap: string, b: string)
    requires a != [] && !IsSpace(a[0]) && !IsSpace(a[|a| - 1])
    requires b != [] && !IsSpace(b[0]) && !IsSpace(b[|b| - 1])
    requires forall k :: 0 <= k < |gap| ==> gap[k] == ' '
    ensures Strip(a + gap + b + " ") == a + gap + b
  {
    var joined := a + gap + b;
    StripAppendSpace(joined);
    assert joined[0] == a[0] && joined[|joined| - 1] == b[|b| - 1];
    StripOfTrimmed(joined);
  }

  /** Segments "hello" and " world " give the full text "hello world". */
  lemma HelloWorldExample(raw: seq<RawSegment>)
    requires raw == [RawSegment(0.0, 1.0, "hello"), RawSegment(1.0, 2.5, " world ")]
    ensures Strip(Accumulated(raw)) == "hello world"
  {
    var hello, padded := raw[0].text, raw[1].text;
    StripOfTrimmed(hello);
    var world := padded[1..|padded| - 1];
    assert padded == [' '] + world + [' '];
    StripPadded(world);
    TwoSegments(raw);
    assert hello + " " + world == "hello world";
  }

  /** A text with no whitespace at either end is its own strip. */
  lemma StripOfTrimmed(s: string)
    requires s != [] && !IsSpace(s[0]) && !IsSpace(s[|s| - 1])
    ensures Strip(s) == s
  {
  }

  /** One space on each side of a trimmed text is stripped off. */
  lemma StripPadded(core: string)
    requires core != [] && !IsSpace(core[0]) && !IsSpace(core[|core| - 1])
    ensures Strip([' '] + core + [' ']) == core
  {
    var s := [' '] + core + [' '];
    var e := [' '] + core;
    assert s[..|s| - 1] == e;
    assert e[|e| - 1] == core[|core| - 1];
    assert TrimEnd(e) == e;
    assert TrimEnd(s) == e;
    assert e[1..] == core;
    assert TrimStart(e) == TrimStart(core);
  }

  // ------------------------------------------------------------ factory

  /**
   * `WhisperTranscriber(model_size, device, compute_type, cpu_threads)`:
   * pick the device and compute type, resolve the model path, and load
   * the model from it; an unknown size with no local copy raises.
   */
  method NewWhisperTranscriber(
    modelSize: string := "base", device: Option<string> := Some("cpu"),
    computeType: Option<string> := None, cpuThreads: int := 1,
    cwd: string, cudaAvailable: bool, localPresent: bool, snapshot: Snapshot)
    returns (r: Result<WhisperTranscriber, string>)
    ensures var dir := ModelDir(cwd);
            var resolved := ResolveModelPath(dir, modelSize, localPresent, snapshot);
            && (resolved.Err? ==> r == Err(resolved.error))
            && (resolved.Ok? ==>
                  var d := SelectDevice(device, cudaAvailable);
                  && r.Ok? && fresh(r.value)
                  && r.value.model == ModelConfig(resolved.value, d, SelectComputeType(computeType, d), cpuThreads, dir))
  {
    var d := SelectDevice(device, cudaAvailable);
    var c := SelectComputeType(computeType, d);
    var dir := ModelDir(cwd);
    var resolved := ResolveModelPath(dir, modelSize, localPresent, snapshot);
    if resolved.Err? {
      return Err(resolved.error);
    }
    var t := new WhisperTranscriber(ModelConfig(resolved.value, d, c, cpuThreads, dir));
    return Ok(t);
  }

  /** The transcriber kinds `get_transcriber` accepts. */
  datatype TranscriberKind = Whisper

  /** `transcriber_type.lower() == "whisper"`, raising `ValueError` otherwise. */
  function TranscriberKindOf(kind: string): (r: Result<TranscriberKind, string>)
    ensures r.Ok? <==> Lower(kind) == "whisper"
    ensures r.Err? ==> r.error == "不支持的转写器类型: " + kind
  {
    if Lower(kind) == "whisper" then Ok(Whisper) else Err("不支持的转写器类型: " + kind)
  }

  /** "Whisper" in any ASCII case is accepted. */
  lemma TranscriberKindExample(kind: string)
    requires kind == "WHISPER"
    ensures TranscriberKindOf(kind) == Ok(Whisper)
  {
    assert Lower(kind) == "whisper";
  }

  /**
   * `get_transcriber`: a Whisper transcriber with the default compute type
   * and one CPU thread, or `ValueError` for any other kind.
   */
  method GetTranscriber(
    kind: string := "whisper", modelSize: string := "base", device: string := "cpu",
    cwd: string, cudaAvailable: bool, localPresent: bool, snapshot: Snapshot)
    returns (r: Result<WhisperTranscriber, string>)
    ensures TranscriberKindOf(kind).Err? ==> r == Err(TranscriberKindOf(kind).error)
    ensures TranscriberKindOf(kind).Ok? ==>
              var dir := ModelDir(cwd);
              var resolved := ResolveModelPath(dir, modelSize, localPresent, snapshot);
              var d := SelectDevice(Some(device), cudaAvailable);
              && (resolved.Err? ==> r == Err(resolved.error))
              && (resolved.Ok? ==>
                    && r.Ok? && fresh(r.value)
                    && r.value.model == ModelConfig(resolved.value, d, SelectComputeType(None, d), 1, dir))
  {
    var k := TranscriberKindOf(kind);
    if k.Err? {
      return Err(k.error);
    }
    r := NewWhisperTranscriber(
      modelSize := modelSize, device := Some(device),
      cwd := cwd, cudaAvailable := cudaAvailable, localPresent := localPresent, snapshot := snapshot);
  }
}

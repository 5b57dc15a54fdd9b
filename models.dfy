/**
 * The value records the acquisition and transcription pipeline passes
 * between its stages (src/models.py), plus the Option/Result wrappers
 * the other modules use for Python's `None` and for raised exceptions.
 */
module Models {

  /** Python's `Optional[T]`: `None` or a present value. */
  datatype Option<+T> = None | Some(value: T)

  /** A call that either returns a value or raises an exception. */
  datatype Result<+T, +E> = Ok(value: T) | Err(error: E)

  /**
   * One key of a Python dictionary read with a default: the key may be
   * missing, present with the value `None`, or present with a value.
   * `d.get(k, default)` gives the default only in the first case.
   */
  datatype Field<+T> = Missing | Null | Present(value: T)

  /** Media times in seconds. The model only copies them, never computes with them. */
  type Seconds = real

  /** The audio quality presets: a string enum whose values are the member names. */
  datatype DownloadQuality = Fast | Medium | Slow
  {
    /** The enum member's string value, which is also its name. */
    function Value(): (s: string)
      ensures s in {"fast", "medium", "slow"}
      ensures QualityFromValue(s) == Some(this)
    {
      match this
      case Fast => "fast"
      case Medium => "medium"
      case Slow => "slow"
    }
  }

  /** `DownloadQuality(s)`: the member whose value is `s`, if there is one. */
  function QualityFromValue(s: string): (q: Option<DownloadQuality>)
    ensures q.Some? <==> s in {"fast", "medium", "slow"}
  {
    if s == "fast" then Some(Fast)
    else if s == "medium" then Some(Medium)
    else if s == "slow" then Some(Slow)
    else None
  }

  /** No two members share a value, so the enum is a bijection onto its three strings. */
  lemma QualityValueInjective(p: DownloadQuality, q: DownloadQuality)
    ensures p.Value() == q.Value() <==> p == q
  {
    assert QualityFromValue(p.Value()) == Some(p);
    assert QualityFromValue(q.Value()) == Some(q);
  }

  /** One time-aligned piece of a transcript. */
  datatype TranscriptSegment = TranscriptSegment(start: Seconds, end: Seconds, text: string)

  /** The whole transcript: `raw` is the non-serialisable runtime info, normally absent. */
  datatype TranscriptResult = TranscriptResult(
    language: Option<string>,
    fullText: string,
    segments: seq<TranscriptSegment>,
    raw: Option<map<string, string>> := None)

  /**
   * The metadata record the download engine reports for one media item
   * (its `info` dictionary): the keys the downloader reads, plus the rest
   * of the dictionary, which is carried along unread. `info.get(k)` gives
   * `None` for a missing key and for a `None` value alike, so only the
   * duration, which is read with a default, keeps the two apart.
   */
  datatype InfoDict = InfoDict(
    id: Option<string>,
    title: Option<string>,
    duration: Field<Seconds>,
    thumbnail: Option<string>,
    rest: map<string, string>)

  /** What an acquisition backend returns for an audio download. */
  datatype AudioDownloadResult = AudioDownloadResult(
    filePath: string,
    title: Option<string>,
    duration: Option<Seconds>,
    coverUrl: Option<string>,
    platform: string,
    videoId: Option<string>,
    rawInfo: InfoDict,
    videoPath: Option<string> := None)
}

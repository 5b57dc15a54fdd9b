/**
 * The bilibili search adapter (src/bilibili_search.py): the lenient
 * duration parser, the duration and play-count formatters, the mapping
 * of order keys, and the normalisation of the raw result list the search
 * API returns. The API itself is a parameter of the search method.
 */
module BilibiliSearch {
  import opened Models
  import opened Text

  // ------------------------------------------------------------ duration codec

  /**
   * `_parse_duration`: "MM:SS" or "HH:MM:SS" to seconds. Any other number
   * of parts, and any part that does not parse as an integer, gives 0.
   */
  function ParseDuration(text: string): (r: int)
    ensures |Split(text, ':')| != 2 && |Split(text, ':')| != 3 ==> r == 0
  {
    var parts := Split(text, ':');
    if |parts| == 2 then
      match (ParseInt(parts[0]), ParseInt(parts[1]))
      case (Some(m), Some(s)) => m * 60 + s
      case _ => 0
    else if |parts| == 3 then
      match (ParseInt(parts[0]), ParseInt(parts[1]), ParseInt(parts[2]))
      case (Some(h), Some(m), Some(s)) => h * 3600 + m * 60 + s
      case _ => 0
    else 0
  }

  /**
   * `format_duration`: "M:SS" below an hour, "H:MM:SS" from an hour on.
   * Python's `//` and `%` floor, which for the positive divisors used here
   * is what Dafny's `/` and `%` do, so a negative input gives a negative
   * minute count and seconds in 0..59 ("-1:55" for -5).
   */
  function FormatDuration(seconds: int): (r: string)
    ensures |r| >= 4 && r[|r| - 3] == ':' && IsDigit(r[|r| - 2]) && IsDigit(r[|r| - 1])
  {
    var head :=
      if seconds < 3600 then IntToString(seconds / 60)
      else NatToString(seconds / 3600) + ":" + Pad2(seconds % 3600 / 60);
    var secs := Pad2(seconds % 60);
    assert |head| >= 1;
    assert (head + ":" + secs)[|head| + 1..] == secs;
    head + ":" + secs
  }

  /** Splitting pieces that hold no colon, joined by colons, gives the pieces back. */
  lemma SplitTwo(a: string, b: string)
    requires ':' !in a && ':' !in b
    ensures Split(a + ":" + b, ':') == [a, b]
  {
    SplitFirst(a, ':', b);
    SplitWithout(b, ':');
  }

  lemma SplitThree(a: string, b: string, c: string)
    requires ':' !in a && ':' !in b && ':' !in c
    ensures Split(a + ":" + b + ":" + c, ':') == [a, b, c]
  {
    assert a + ":" + b + ":" + c == a + [':'] + (b + ":" + c);
    SplitFirst(a, ':', b + ":" + c);
    SplitTwo(b, c);
  }

  lemma DigitsHaveNoColon(s: string)
    requires AllDigits(s)
    ensures ':' !in s
  {
    assert forall k :: 0 <= k < |s| ==> s[k] != ':';
  }

  lemma IntStringHasNoColon(i: int)
    ensures ':' !in IntToString(i)
  {
    var s := IntToString(i);
    forall k | 0 <= k < |s|
      ensures s[k] != ':'
    {
      if i < 0 && k > 0 {
        assert s[k] == NatToString(-i)[k - 1];
      }
    }
  }

  lemma ParseDigits(s: string)
    requires |s| >= 1 && AllDigits(s)
    ensures ParseInt(s) == Some(DigitsValue(s))
  {
  }

  /**
   * Any two colon-free parts that both read as integers give minutes times
   * 60 plus seconds; neither field is bounded, so "75:12" and "1:75" are
   * read as they stand.
   */
  lemma ParseDurationTwoParts(a: string, b: string)
    requires ':' !in a && ':' !in b && ParseInt(a).Some? && ParseInt(b).Some?
    ensures ParseDuration(a + ":" + b) == ParseInt(a).value * 60 + ParseInt(b).value
  {
    SplitTwo(a, b);
  }

  /** Three colon-free integer parts give hours times 3600 plus minutes times 60 plus seconds. */
  lemma ParseDurationThreeParts(a: string, b: string, c: string)
    requires ':' !in a && ':' !in b && ':' !in c
    requires ParseInt(a).Some? && ParseInt(b).Some? && ParseInt(c).Some?
    ensures ParseDuration(a + ":" + b + ":" + c)
            == ParseInt(a).value * 3600 + ParseInt(b).value * 60 + ParseInt(c).value
  {
    SplitThree(a, b, c);
  }

  /** A search-API duration past an hour has no hour field: "75:12" is 4512 seconds. */
  lemma ParseLongMinutesExample(text: string)
    requires text == "75:12"
    ensures ParseDuration(text) == 4512
  {
    assert text == "75" + ":" + "12";
    ParseDigits("75");
    ParseDigits("12");
    ParseDurationTwoParts("75", "12");
  }

  /**
   * The pieces `format_duration` writes, read back by `int`: below an hour
   * the minutes and two-digit seconds under 60; from an hour on the hours
   * and two-digit minutes and seconds under 60. In both cases the fields
   * add up to the input.
   */
  lemma FormatDurationFields(d: int)
    ensures var parts := Split(FormatDuration(d), ':');
            if d < 3600 then
              && |parts| == 2 && |parts[1]| == 2
              && ParseInt(parts[0]).Some? && ParseInt(parts[1]).Some?
              && 0 <= ParseInt(parts[1]).value < 60
              && ParseInt(parts[0]).value * 60 + ParseInt(parts[1]).value == d
            else
              && |parts| == 3 && |parts[1]| == 2 && |parts[2]| == 2
              && ParseInt(parts[0]).Some? && ParseInt(parts[1]).Some? && ParseInt(parts[2]).Some?
              && 1 <= ParseInt(parts[0]).value
              && 0 <= ParseInt(parts[1]).value < 60 && 0 <= ParseInt(parts[2]).value < 60
              && ParseInt(parts[0]).value * 3600 + ParseInt(parts[1]).value * 60 + ParseInt(parts[2]).value == d
  {
    if d < 3600 {
      var a, b := IntToString(d / 60), Pad2(d % 60);
      IntStringHasNoColon(d / 60);
      DigitsHaveNoColon(b);
      SplitTwo(a, b);
      ParseIntToString(d / 60);
      ParseDigits(b);
    } else {
      var a, b, c := NatToString(d / 3600), Pad2(d % 3600 / 60), Pad2(d % 60);
      DigitsHaveNoColon(a);
      DigitsHaveNoColon(b);
      DigitsHaveNoColon(c);
      SplitThree(a, b, c);
      HourSplit(d);
      ParseDigits(a);
      ParseDigits(b);
      ParseDigits(c);
    }
  }

  /**
   * The text of each field: below an hour `str(d // 60)` and the two
   * digits of the seconds; from an hour on `str(d // 3600)` and the two
   * digits of the minutes and of the seconds.
   */
  lemma FormatDurationText(d: int)
    ensures var parts := Split(FormatDuration(d), ':');
            if d < 3600 then
              && |parts| == 2
              && (d / 60 >= 0 ==> parts[0] == NatToString(d / 60))
              && (d / 60 < 0 ==> parts[0] == "-" + NatToString(-(d / 60)))
              && parts[1] == Pad2(d % 60)
            else
              && |parts| == 3
              && parts[0] == NatToString(d / 3600)
              && parts[1] == Pad2(d % 3600 / 60) && parts[2] == Pad2(d % 60)
  {
    if d < 3600 {
      var a, b := IntToString(d / 60), Pad2(d % 60);
      IntStringHasNoColon(d / 60);
      DigitsHaveNoColon(b);
      SplitTwo(a, b);
    } else {
      var a, b, c := NatToString(d / 3600), Pad2(d % 3600 / 60), Pad2(d % 60);
      DigitsHaveNoColon(a);
      DigitsHaveNoColon(b);
      DigitsHaveNoColon(c);
      SplitThree(a, b, c);
    }
  }

  /** An entry without a duration gets the default "0:00", which is 0 seconds. */
  lemma DefaultDurationIsZero(text: string)
    requires text == "0:00"
    ensures ParseDuration(text) == 0
  {
    assert text == "0" + ":" + "00";
    SplitTwo("0", "00");
    ParseDigits("0");
    ParseDigits("00");
  }

  lemma HourSplit(d: nat)
    ensures (d / 3600) * 3600 + (d % 3600 / 60) * 60 + d % 60 == d
    ensures d % 3600 / 60 < 60
  {
    var r := d % 3600;
    assert d == (d / 3600) * 3600 + r;
    assert r == (r / 60) * 60 + r % 60;
    assert d % 60 == r % 60 by {
      assert d == (d / 3600) * 60 * 60 + r;
      assert d == ((d / 3600) * 60 + r / 60) * 60 + r % 60;
    }
  }

  /** Round trip: parsing what `format_duration` wrote gives back the seconds, negative ones included. */
  lemma DurationRoundTrip(d: int)
    ensures ParseDuration(FormatDuration(d)) == d
  {
    FormatDurationFields(d);
    var parts := Split(FormatDuration(d), ':');
    if d < 3600 {
      assert |parts| == 2;
    } else {
      assert |parts| == 3;
    }
  }

  /** A string that is not two or three colon-separated pieces (such as "") gives 0. */
  lemma ParseDurationWrongShape(text: string)
    requires |Split(text, ':')| != 2 && |Split(text, ':')| != 3
    ensures ParseDuration(text) == 0
  {
  }

  /** A piece that is not an integer makes the whole parse 0 instead of an error. */
  lemma ParseDurationBadPart(text: string, k: nat)
    requires k < |Split(text, ':')| && ParseInt(Split(text, ':')[k]) == None
    ensures ParseDuration(text) == 0
  {
  }

  /** The docstring example "10:30" is 630 seconds. */
  lemma ParseMinutesExample(text: string)
    requires text == "10:30"
    ensures ParseDuration(text) == 630
  {
    assert text == "10" + ":" + "30";
    SplitTwo("10", "30");
    ParseDigits("10");
    ParseDigits("30");
    assert "10"[..1] == "1" && "30"[..1] == "3";
  }

  /** The docstring example "1:05:20" is 3920 seconds. */
  lemma ParseHoursExample(text: string)
    requires text == "1:05:20"
    ensures ParseDuration(text) == 3920
  {
    assert text == "1" + ":" + "05" + ":" + "20";
    SplitThree("1", "05", "20");
    ParseDigits("1");
    ParseDigits("05");
    ParseDigits("20");
    assert "05"[..1] == "0" && "20"[..1] == "2";
  }

  /** The empty string and "garbage" have no colon: one piece, so 0. */
  lemma ParseDurationNoColon(text: string)
    requires text == "" || text == "garbage"
    ensures ParseDuration(text) == 0
  {
    SplitWithout(text, ':');
  }

  /** The docstring example: 630 seconds is "10:30". */
  lemma FormatMinutesExample(d: int)
    requires d == 630
    ensures FormatDuration(d) == "10:30"
  {
    assert d / 60 == 10 && d % 60 == 30;
    assert NatToString(1) == "1";
    assert IntToString(10) == "10" && Pad2(30) == "30";
  }

  /** The docstring example: 3920 seconds is "1:05:20". */
  lemma FormatHoursExample(d: int)
    requires d == 3920
    ensures FormatDuration(d) == "1:05:20"
  {
    assert d / 3600 == 1 && d % 3600 / 60 == 5 && d % 60 == 20;
    assert NatToString(2) == "2";
    assert NatToString(1) == "1" && Pad2(5) == "05" && Pad2(20) == "20";
  }

  /** Floor division: -5 seconds is written "-1:55". */
  lemma FormatNegativeExample(d: int)
    requires d == -5
    ensures FormatDuration(d) == "-1:55"
  {
    assert d / 60 == -1 && d % 60 == 55;
    assert NatToString(5) == "5";
    assert IntToString(-1) == "-1" && Pad2(55) == "55";
  }

  // ------------------------------------------------------------ play count

  /**
   * The count in tenths of 10000, rounded to the nearest, ties to even:
   * the digits `f"{count / 10000:.1f}"` shows.
   */
  function RoundedTenths(count: int): (t: int)
    ensures count - 500 <= t * 1000 <= count + 500
    ensures (t * 1000 == count - 500 || t * 1000 == count + 500) ==> t % 2 == 0
  {
    var tenths := count / 1000;
    var rest := count % 1000;
    if rest > 500 || (rest == 500 && tenths % 2 == 1) then tenths + 1 else tenths
  }

  /**
   * `format_play_count`: below 10000 the plain decimal count; from 10000
   * on the rounded tenths written as units of 10000 with one decimal
   * place, followed by "万".
   */
  function FormatPlayCount(count: int): (r: string)
    ensures count < 10000 ==> ParseInt(r) == Some(count)
    ensures 0 <= count < 10000 ==> r == NatToString(count)
    ensures count < 0 ==> r == "-" + NatToString(-count)
    ensures count >= 10000 ==>
              var t := RoundedTenths(count);
              t >= 10 && r == NatToString(t / 10) + "." + [DigitChar(t % 10)] + "万"
    ensures count >= 10000 <==> (|r| >= 1 && r[|r| - 1] == '万')
  {
    if count >= 10000 then
      var t := RoundedTenths(count);
      NatToString(t / 10) + "." + [DigitChar(t % 10)] + "万"
    else
      ParseIntToString(count);
      var r := IntToString(count);
      assert r[|r| - 1] != '万' by {
        if count < 0 { assert r[|r| - 1] == NatToString(-count)[|NatToString(-count)| - 1]; }
      }
      r
  }

  /** A count just below 10000 is written out in full. */
  lemma PlayCountBelowTenThousand(c: int)
    requires c == 9999
    ensures FormatPlayCount(c) == "9999"
  {
    assert NatToString(9) == "9" && NatToString(99) == "99" && NatToString(999) == "999";
    assert NatToString(9999) == "9999";
  }

  /** 10000 is written as "1.0万". */
  lemma PlayCountTenThousand(c: int)
    requires c == 10000
    ensures FormatPlayCount(c) == "1.0万"
  {
    assert RoundedTenths(c) == 10;
    assert NatToString(1) == "1";
  }

  /** 1000000 is written as "100.0万". */
  lemma PlayCountMillion(c: int)
    requires c == 1000000
    ensures FormatPlayCount(c) == "100.0万"
  {
    assert RoundedTenths(c) == 1000;
    assert NatToString(1) == "1" && NatToString(10) == "10" && NatToString(100) == "100";
  }

  // ------------------------------------------------------------ order keys

  /** The search API's ordering enum. */
  datatype SortOrder = TotalRank | PubDate | Click | Dm

  /** The order key each enum member is selected by. */
  function OrderKey(o: SortOrder): string
  {
    match o
    case TotalRank => "totalrank"
    case PubDate => "pubdate"
    case Click => "click"
    case Dm => "dm"
  }

  /** `order_map.get(order, TOTALRANK)`: a known key selects its order, any other "totalrank". */
  function OrderType(order: string): (o: SortOrder)
    ensures order in {"totalrank", "pubdate", "click", "dm"} ==> OrderKey(o) == order
    ensures order !in {"totalrank", "pubdate", "click", "dm"} ==> o == TotalRank
  {
    if order == "pubdate" then PubDate
    else if order == "click" then Click
    else if order == "dm" then Dm
    else TotalRank
  }

  /** Every order is reachable by its own key. */
  lemma OrderTypeOfKey(o: SortOrder)
    ensures OrderType(OrderKey(o)) == o
  {
  }

  // ------------------------------------------------------------ normalisation

  /**
   * One entry of the API's result list: each key may be missing. `play`
   * is whatever the API reports, carried through unread.
   */
  datatype RawVideo = RawVideo(
    bvid: Option<string>,
    title: Option<string>,
    duration: Option<string>,
    play: Option<int>,
    author: Option<string>)

  /** The uniform summary the adapter returns for each kept entry. */
  datatype VideoSummary = VideoSummary(
    url: string,
    title: string,
    bvid: string,
    duration: int,
    play: int,
    author: string)

  /** What one call of the search API gives back. */
  datatype ApiReply =
    | ApiFailed                           // the call raised
    | Reply(result: Option<seq<RawVideo>>) // `None` when the mapping is empty or has no 'result'

  const VideoUrlPrefix := "https://www.bilibili.com/video/"
  const UnknownTitle := "未知标题"
  const UnknownAuthor := "未知UP主"

  function GetOr<T>(o: Option<T>, default: T): T
  {
    if o.Some? then o.value else default
  }

  /** `video.get('bvid', '')` is truthy. */
  predicate HasBvid(v: RawVideo)
  {
    v.bvid.Some? && v.bvid.value != ""
  }

  /** The summary built for an entry that has a `bvid`. */
  function Summarise(v: RawVideo): (s: VideoSummary)
    requires HasBvid(v)
    ensures s.bvid == v.bvid.value && s.bvid != "" && s.url == VideoUrlPrefix + s.bvid
  {
    VideoSummary(
      VideoUrlPrefix + v.bvid.value,
      GetOr(v.title, UnknownTitle),
      v.bvid.value,
      ParseDuration(GetOr(v.duration, "0:00")),
      GetOr(v.play, 0),
      GetOr(v.author, UnknownAuthor))
  }

  /**
   * The other fields of a summary: the entry's title, author and play
   * count, or their defaults when missing, and its duration text parsed,
   * "0:00" when missing.
   */
  lemma SummaryFields(v: RawVideo)
    requires HasBvid(v)
    ensures var s := Summarise(v);
            && s.title == (if v.title.Some? then v.title.value else UnknownTitle)
            && s.author == (if v.author.Some? then v.author.value else UnknownAuthor)
            && s.play == (if v.play.Some? then v.play.value else 0)
            && s.duration == ParseDuration(if v.duration.Some? then v.duration.value else "0:00")
  {
  }

  /** An entry with no duration is summarised with duration 0. */
  lemma MissingDurationIsZero(v: RawVideo)
    requires HasBvid(v) && v.duration.None?
    ensures Summarise(v).duration == 0
  {
    DefaultDurationIsZero("0:00");
  }

  /** The reference result: the entries with a `bvid`, in order, each summarised. */
  function Kept(videos: seq<RawVideo>): (kept: seq<VideoSummary>)
    ensures |kept| <= |videos|
  {
    if videos == [] then []
    else
      var last := videos[|videos| - 1];
      Kept(videos[..|videos| - 1]) + (if HasBvid(last) then [Summarise(last)] else [])
  }

  /**
   * `videos[:count]`: the first `count` entries; a negative count drops
   * that many entries from the end instead.
   */
  function Take<T>(s: seq<T>, count: int): (r: seq<T>)
    ensures |r| <= |s| && r == s[..|r|]
    ensures 0 <= count ==> |r| == if count < |s| then count else |s|
    ensures count < 0 ==> |r| == if |s| + count < 0 then 0 else |s| + count
  {
    if count < 0 then
      if |s| + count < 0 then [] else s[..|s| + count]
    else if count < |s| then s[..count] else s
  }

  /** `search_bilibili_videos` after the API call: what it returns for a reply. */
  function Normalised(reply: ApiReply, count: int): (r: seq<VideoSummary>)
    ensures 0 <= count ==> |r| <= count
    ensures reply.ApiFailed? || reply.result.None? ==> r == []
  {
    match reply
    case ApiFailed => []
    case Reply(None) => []
    case Reply(Some(videos)) => Kept(Take(videos, count))
  }

  /**
   * `search_bilibili_videos`: ask the API with the mapped order, then walk
   * the first `count` entries, skipping those without a `bvid`.
   */
  method SearchBilibiliVideos(
    keyword: string, count: int := 5, order: string := "totalrank",
    api: (string, SortOrder) -> ApiReply)
    returns (videoList: seq<VideoSummary>)
    ensures videoList == Normalised(api(keyword, OrderType(order)), count)
    ensures 0 <= count ==> |videoList| <= count
  {
    var reply := api(keyword, OrderType(order));
    if reply.ApiFailed? || reply.result.None? {
      return [];
    }
    var videos := reply.result.value;
    if videos == [] {
      return [];
    }
    var window := Take(videos, count);
    videoList := [];
    var i := 0;
    while i < |window|
      invariant 0 <= i <= |window|
      invariant videoList == Kept(window[..i])
    {
      var video := window[i];
      assert window[..i + 1][..i] == window[..i];
      if !HasBvid(video) {
        i := i + 1;
        continue;
      }
      videoList := videoList + [Summarise(video)];
      i := i + 1;
    }
    assert window[..i] == window;
    KeptWellFormed(window);
  }

  // ------------------------------------------------------------ properties

  /** Filtering distributes over concatenation, so order is kept. */
  lemma {:induction false} KeptAppend(a: seq<RawVideo>, b: seq<RawVideo>)
    ensures Kept(a + b) == Kept(a) + Kept(b)
    decreases |b|
  {
    if b != [] {
      var ab := a + b;
      assert ab[..|ab| - 1] == a + b[..|b| - 1];
      assert ab[|ab| - 1] == b[|b| - 1];
      KeptAppend(a, b[..|b| - 1]);
    } else {
      assert a + b == a;
    }
  }

  /** An entry without a `bvid` contributes nothing; one with a `bvid` contributes its summary. */
  lemma KeptOne(v: RawVideo)
    ensures Kept([v]) == if HasBvid(v) then [Summarise(v)] else []
  {
    assert [v][..0] == [];
  }

  /** Each kept summary has a non-empty `bvid` and the video URL built from it. */
  lemma {:induction false} KeptWellFormed(videos: seq<RawVideo>)
    ensures |Kept(videos)| <= |videos|
    ensures forall k :: 0 <= k < |Kept(videos)| ==>
              Kept(videos)[k].bvid != "" && Kept(videos)[k].url == VideoUrlPrefix + Kept(videos)[k].bvid
  {
    if videos != [] {
      KeptWellFormed(videos[..|videos| - 1]);
    }
  }

  /** With every entry carrying a `bvid`, the k-th summary is that of the k-th entry. */
  lemma {:induction false} KeptAllValid(videos: seq<RawVideo>)
    requires forall k :: 0 <= k < |videos| ==> HasBvid(videos[k])
    ensures |Kept(videos)| == |videos|
    ensures forall k :: 0 <= k < |videos| ==> Kept(videos)[k] == Summarise(videos[k])
  {
    if videos != [] {
      var init, last := videos[..|videos| - 1], videos[|videos| - 1];
      KeptAllValid(init);
      var kept := Kept(videos);
      assert kept == Kept(init) + [Summarise(last)];
      forall k | 0 <= k < |videos|
        ensures kept[k] == Summarise(videos[k])
      {
        if k < |init| {
          assert videos[k] == init[k];
        }
      }
    }
  }

  /** One entry missing its ID and one valid entry give the valid entry alone. */
  lemma MissingIdDropped(bad: RawVideo, good: RawVideo)
    requires !HasBvid(bad) && HasBvid(good)
    ensures Kept([bad, good]) == [Summarise(good)]
  {
    KeptAppend([bad], [good]);
    KeptOne(bad);
    KeptOne(good);
    assert [bad] + [good] == [bad, good];
  }

  /** A negative count drops entries from the end: -1 keeps all but the last entry. */
  lemma NegativeCountDropsLast(videos: seq<RawVideo>)
    requires |videos| >= 1
    ensures Normalised(Reply(Some(videos)), -1) == Kept(videos[..|videos| - 1])
  {
  }

  /** Truncation comes before filtering: a dropped entry still uses up one of the `count` places. */
  lemma TruncateThenFilter(bad: RawVideo, good: RawVideo)
    requires !HasBvid(bad) && HasBvid(good)
    ensures Normalised(Reply(Some([bad, good])), 1) == []
  {
    assert Take([bad, good], 1) == [bad];
    KeptOne(bad);
  }
}

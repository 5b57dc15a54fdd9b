/**
 * The video-ID extractor of src/utils.py: one regular-expression search
 * per platform tag, modelled as a left-to-right scan for the leftmost
 * position where the pattern matches, followed by the greedy (or, for
 * YouTube, fixed-width) capture group.
 *
 *   bilibili  BV([0-9A-Za-z]+)                     -> "BV" + group 1
 *   youtube   (?:v=|youtu\.be/)([0-9A-Za-z_-]{11})  -> group 1
 *   douyin    /video/(\d+)                         -> group 1
 */
module VideoId {
  import opened Models
  import opened Text

  /** The character classes the three capture groups range over. */
  datatype CharClass = Alnum | Digits | TokenChars

  predicate InClass(k: CharClass, c: char)
  {
    match k
    case Alnum => IsAsciiAlnum(c)
    case Digits => IsDigit(c)
    case TokenChars => IsAsciiAlnum(c) || c == '_' || c == '-'
  }

  /** The three search patterns. */
  datatype Pattern = BvNumber | YoutubeToken | DouyinNumber

  /** The literal `lit` occurs in `s` at position `i`. */
  predicate HasAt(s: string, i: nat, lit: string)
  {
    i + |lit| <= |s| && s[i..i + |lit|] == lit
  }

  /** `s` holds at least `n` characters of class `k` from position `j` on. */
  predicate ClassRun(k: CharClass, s: string, j: nat, n: nat)
  {
    j + n <= |s| && forall m :: j <= m < j + n ==> InClass(k, s[m])
  }

  /** The pattern matches when the regex engine starts at position `i`. */
  predicate MatchesAt(p: Pattern, s: string, i: nat)
  {
    match p
    case BvNumber => HasAt(s, i, "BV") && ClassRun(Alnum, s, i + 2, 1)
    case YoutubeToken =>
      (HasAt(s, i, "v=") && ClassRun(TokenChars, s, i + 2, 11))
      || (HasAt(s, i, "youtu.be/") && ClassRun(TokenChars, s, i + 9, 11))
    case DouyinNumber => HasAt(s, i, "/video/") && ClassRun(Digits, s, i + 7, 1)
  }

  /** Where the YouTube capture group starts, for a match at `i`. */
  function TokenStart(s: string, i: nat): nat
  {
    if HasAt(s, i, "v=") then i + 2 else i + 9
  }

  /** A literal cannot occur where its first character is absent. */
  lemma NotAt(s: string, i: nat, lit: string)
    requires |lit| > 0 && (i >= |s| || s[i] != lit[0])
    ensures !HasAt(s, i, lit)
  {
    if i + |lit| <= |s| {
      assert s[i..i + |lit|][0] == s[i];
    }
  }

  /** At a YouTube match the 11 token characters start at `TokenStart`. */
  lemma TokenStartRun(s: string, i: nat)
    requires MatchesAt(YoutubeToken, s, i)
    ensures ClassRun(TokenChars, s, TokenStart(s, i), 11)
  {
    assert HasAt(s, i, "v=") ==> s[i] == s[i..i + 2][0] == 'v';
    assert HasAt(s, i, "youtu.be/") ==> s[i] == s[i..i + 9][0] == 'y';
  }

  /** `re.search`'s scan: the first position from `i` on where `p` matches. */
  function FindFrom(p: Pattern, s: string, i: nat): (r: Option<nat>)
    requires i <= |s|
    ensures r.Some? ==> i <= r.value < |s| && MatchesAt(p, s, r.value)
    ensures forall j :: i <= j < (if r.Some? then r.value else |s|) ==> !MatchesAt(p, s, j)
    decreases |s| - i
  {
    if i == |s| then None
    else if MatchesAt(p, s, i) then Some(i)
    else FindFrom(p, s, i + 1)
  }

  /** The length of the greedy run of class-`k` characters starting at `j`. */
  function RunLength(k: CharClass, s: string, j: nat): (n: nat)
    requires j <= |s|
    ensures ClassRun(k, s, j, n)
    ensures j + n == |s| || !InClass(k, s[j + n])
    decreases |s| - j
  {
    if j < |s| && InClass(k, s[j]) then 1 + RunLength(k, s, j + 1) else 0
  }

  /** `extract_video_id(url, platform)`; the platform comparison is exact. */
  function ExtractVideoId(url: string, platform: string): (r: Option<string>)
    ensures platform != "bilibili" && platform != "youtube" && platform != "douyin" ==> r == None
    ensures platform == "bilibili" && r.Some? ==> |r.value| >= 2 && r.value[..2] == "BV"
    ensures platform == "youtube" && r.Some? ==> |r.value| == 11
  {
    if platform == "bilibili" then
      match FindFrom(BvNumber, url, 0)
      case None => None
      case Some(i) => Some("BV" + url[i + 2..i + 2 + RunLength(Alnum, url, i + 2)])
    else if platform == "youtube" then
      match FindFrom(YoutubeToken, url, 0)
      case None => None
      case Some(i) =>
        var j := TokenStart(url, i);
        Some(url[j..j + 11])
    else if platform == "douyin" then
      match FindFrom(DouyinNumber, url, 0)
      case None => None
      case Some(i) => Some(url[i + 7..i + 7 + RunLength(Digits, url, i + 7)])
    else None
  }

  // ------------------------------------------------------------ what the searches match

  /** `i` is the leftmost position at which `p` matches `s`. */
  ghost predicate IsLeftmost(p: Pattern, s: string, i: nat)
  {
    i < |s| && MatchesAt(p, s, i) && forall j :: 0 <= j < i ==> !MatchesAt(p, s, j)
  }

  /** `t` is the longest run of class-`k` characters starting at `j` in `s`. */
  ghost predicate IsMaximalRun(k: CharClass, s: string, j: nat, t: string)
  {
    && j + |t| <= |s|
    && s[j..j + |t|] == t
    && (forall m :: 0 <= m < |t| ==> InClass(k, t[m]))
    && (j + |t| == |s| || !InClass(k, s[j + |t|]))
  }

  ghost predicate NoMatch(p: Pattern, s: string)
  {
    forall i :: 0 <= i < |s| ==> !MatchesAt(p, s, i)
  }

  /** The bilibili ID: "BV" and the maximal alphanumeric run after the leftmost match. */
  ghost predicate IsBilibiliId(url: string, id: string)
  {
    exists i: nat :: BilibiliIdAt(url, i, id)
  }

  ghost predicate BilibiliIdAt(url: string, i: nat, id: string)
  {
    IsLeftmost(BvNumber, url, i) && |id| >= 2 && id[..2] == "BV" && IsMaximalRun(Alnum, url, i + 2, id[2..])
  }

  /** The YouTube ID: the 11 token characters after the leftmost `v=` or `youtu.be/` match. */
  ghost predicate IsYoutubeId(url: string, id: string)
  {
    exists i: nat :: YoutubeIdAt(url, i, id)
  }

  ghost predicate YoutubeIdAt(url: string, i: nat, id: string)
  {
    && IsLeftmost(YoutubeToken, url, i)
    && var j := if HasAt(url, i, "v=") then i + 2 else i + 9;
       j + 11 <= |url| && id == url[j..j + 11]
  }

  /** The douyin ID: the maximal digit run after the leftmost `/video/` match. */
  ghost predicate IsDouyinId(url: string, id: string)
  {
    exists i: nat :: DouyinIdAt(url, i, id)
  }

  ghost predicate DouyinIdAt(url: string, i: nat, id: string)
  {
    IsLeftmost(DouyinNumber, url, i) && IsMaximalRun(Digits, url, i + 7, id)
  }

  lemma LeftmostUnique(p: Pattern, s: string, i: nat, j: nat)
    requires IsLeftmost(p, s, i) && IsLeftmost(p, s, j)
    ensures i == j
  {
  }

  lemma {:induction false} MaximalRunUnique(k: CharClass, s: string, j: nat, t: string, u: string)
    requires IsMaximalRun(k, s, j, t) && IsMaximalRun(k, s, j, u)
    ensures t == u
  {
    assert forall m :: 0 <= m < |t| ==> s[j + m] == t[m];
    assert forall m :: 0 <= m < |u| ==> s[j + m] == u[m];
    assert |t| == |u|;
  }

  lemma FindFromLeftmost(p: Pattern, s: string)
    ensures FindFrom(p, s, 0).Some? ==> IsLeftmost(p, s, FindFrom(p, s, 0).value)
    ensures FindFrom(p, s, 0).None? <==> NoMatch(p, s)
  {
  }

  /** The scan finds the leftmost match. */
  lemma FindFromIs(p: Pattern, s: string, i: nat)
    requires IsLeftmost(p, s, i)
    ensures FindFrom(p, s, 0) == Some(i)
  {
  }

  lemma RunLengthMaximal(k: CharClass, s: string, j: nat)
    requires j <= |s|
    ensures IsMaximalRun(k, s, j, s[j..j + RunLength(k, s, j)])
  {
  }

  lemma BilibiliFromScan(url: string, i: nat)
    requires FindFrom(BvNumber, url, 0) == Some(i)
    ensures ExtractVideoId(url, "bilibili").Some?
    ensures BilibiliIdAt(url, i, ExtractVideoId(url, "bilibili").value)
  {
    var n := RunLength(Alnum, url, i + 2);
    var id := "BV" + url[i + 2..i + 2 + n];
    assert ExtractVideoId(url, "bilibili") == Some(id);
    FindFromLeftmost(BvNumber, url);
    RunLengthMaximal(Alnum, url, i + 2);
    assert id[..2] == "BV" && id[2..] == url[i + 2..i + 2 + n];
  }

  lemma BilibiliIdAtUnique(url: string, i: nat, id: string, i': nat, id': string)
    requires BilibiliIdAt(url, i, id) && BilibiliIdAt(url, i', id')
    ensures id == id'
  {
    LeftmostUnique(BvNumber, url, i, i');
    MaximalRunUnique(Alnum, url, i + 2, id[2..], id'[2..]);
    assert id == id[..2] + id[2..];
    assert id' == id'[..2] + id'[2..];
  }

  /**
   * For "bilibili" the result is exactly the ID the ghost predicates above
   * describe, and it is `None` exactly when no `BV` is followed by an
   * alphanumeric character.
   */
  lemma BilibiliIdCharacterised(url: string, id: string)
    ensures ExtractVideoId(url, "bilibili") == Some(id) <==> IsBilibiliId(url, id)
    ensures ExtractVideoId(url, "bilibili") == None <==> NoMatch(BvNumber, url)
  {
    FindFromLeftmost(BvNumber, url);
    var f := FindFrom(BvNumber, url, 0);
    if f.Some? {
      BilibiliFromScan(url, f.value);
      var mine := ExtractVideoId(url, "bilibili").value;
      if IsBilibiliId(url, id) {
        var i' :| BilibiliIdAt(url, i', id);
        BilibiliIdAtUnique(url, f.value, mine, i', id);
      }
    }
  }

  /** A bilibili ID starts with "BV", has at least three characters and occurs in the URL. */
  lemma BilibiliIdShape(url: string)
    ensures match ExtractVideoId(url, "bilibili")
            case None => true
            case Some(id) =>
              && |id| >= 3 && id[..2] == "BV"
              && (forall m :: 2 <= m < |id| ==> IsAsciiAlnum(id[m]))
              && exists i: nat :: HasAt(url, i, id)
  {
    var f := FindFrom(BvNumber, url, 0);
    if f.Some? {
      var i := f.value;
      var n := RunLength(Alnum, url, i + 2);
      var id := "BV" + url[i + 2..i + 2 + n];
      assert ExtractVideoId(url, "bilibili") == Some(id);
      BvSliceIsId(url, i, n);
      forall m | 2 <= m < |id| ensures IsAsciiAlnum(id[m]) {
        assert id[m] == url[i + m];
      }
    }
  }

  lemma BvSliceIsId(url: string, i: nat, n: nat)
    requires i + 2 + n <= |url| && url[i..i + 2] == "BV"
    ensures HasAt(url, i, "BV" + url[i + 2..i + 2 + n])
  {
    assert url[i..i + 2 + n] == url[i..i + 2] + url[i + 2..i + 2 + n];
  }

  lemma YoutubeIdAtUnique(url: string, i: nat, id: string, i': nat, id': string)
    requires YoutubeIdAt(url, i, id) && YoutubeIdAt(url, i', id')
    ensures id == id'
  {
    LeftmostUnique(YoutubeToken, url, i, i');
  }

  /** For "youtube" the result is exactly the ID the ghost predicates above describe. */
  lemma YoutubeIdCharacterised(url: string, id: string)
    ensures ExtractVideoId(url, "youtube") == Some(id) <==> IsYoutubeId(url, id)
    ensures ExtractVideoId(url, "youtube") == None <==> NoMatch(YoutubeToken, url)
  {
    FindFromLeftmost(YoutubeToken, url);
    var f := FindFrom(YoutubeToken, url, 0);
    if f.Some? {
      var mine := ExtractVideoId(url, "youtube").value;
      TokenStartRun(url, f.value);
      assert YoutubeIdAt(url, f.value, mine);
      if IsYoutubeId(url, id) {
        var i' :| YoutubeIdAt(url, i', id);
        YoutubeIdAtUnique(url, f.value, mine, i', id);
      }
    }
  }

  /** A YouTube ID is 11 token characters taken from the URL. */
  lemma YoutubeIdShape(url: string)
    ensures match ExtractVideoId(url, "youtube")
            case None => true
            case Some(id) =>
              && |id| == 11
              && (forall m :: 0 <= m < 11 ==> InClass(TokenChars, id[m]))
              && exists j: nat :: HasAt(url, j, id)
  {
    var f := FindFrom(YoutubeToken, url, 0);
    if f.Some? {
      var j := TokenStart(url, f.value);
      TokenStartRun(url, f.value);
      var id := url[j..j + 11];
      assert HasAt(url, j, id);
      forall m | 0 <= m < 11 ensures InClass(TokenChars, id[m]) {
        assert id[m] == url[j + m];
      }
    }
  }

  /** For "douyin" the result is exactly the ID the ghost predicates above describe. */
  lemma DouyinIdCharacterised(url: string, id: string)
    ensures ExtractVideoId(url, "douyin") == Some(id) <==> IsDouyinId(url, id)
    ensures ExtractVideoId(url, "douyin") == None <==> NoMatch(DouyinNumber, url)
  {
    FindFromLeftmost(DouyinNumber, url);
    var f := FindFrom(DouyinNumber, url, 0);
    if f.Some? {
      var i := f.value;
      var mine := ExtractVideoId(url, "douyin").value;
      RunLengthMaximal(Digits, url, i + 7);
      assert DouyinIdAt(url, i, mine);
      if IsDouyinId(url, id) {
        var i' :| DouyinIdAt(url, i', id);
        LeftmostUnique(DouyinNumber, url, i, i');
        MaximalRunUnique(Digits, url, i + 7, id, mine);
      }
    }
  }

  /** A douyin ID is a non-empty string of decimal digits. */
  lemma DouyinIdShape(url: string)
    ensures match ExtractVideoId(url, "douyin")
            case None => true
            case Some(id) => |id| >= 1 && AllDigits(id)
  {
    var f := FindFrom(DouyinNumber, url, 0);
    if f.Some? {
      RunLengthMaximal(Digits, url, f.value + 7);
    }
  }

  /** Any other tag, including a differently cased one, yields `None` and never fails. */
  lemma OtherPlatformsYieldNone(url: string, platform: string)
    requires platform != "bilibili" && platform != "youtube" && platform != "douyin"
    ensures ExtractVideoId(url, platform) == None
  {
  }

  /**
   * When the first "B" of a URL, at `i`, opens "BV" and an alphanumeric
   * run of `n >= 1` characters that the URL's end or a non-alphanumeric
   * character closes, the ID is that slice of the URL.
   */
  lemma BilibiliIdOfUrl(url: string, i: nat, n: nat)
    requires i + 2 + n <= |url| && n >= 1
    requires forall j :: 0 <= j < i ==> url[j] != 'B'
    requires url[i..i + 2] == "BV" && ClassRun(Alnum, url, i + 2, n)
    requires i + 2 + n == |url| || !IsAsciiAlnum(url[i + 2 + n])
    ensures ExtractVideoId(url, "bilibili") == Some(url[i..i + 2 + n])
  {
    forall j | 0 <= j < i ensures !MatchesAt(BvNumber, url, j) {
      NotAt(url, j, "BV");
    }
    var id := url[i..i + 2 + n];
    assert id[..2] == "BV" && id[2..] == url[i + 2..i + 2 + n];
    assert BilibiliIdAt(url, i, id);
    BilibiliIdCharacterised(url, id);
  }

  /**
   * When the first "v" or "y" of a URL, at `i`, opens "youtu.be/" and 11
   * token characters, the ID is those 11 characters, whatever follows them.
   */
  lemma YoutubeIdOfShortUrl(url: string, i: nat)
    requires i + 20 <= |url|
    requires forall j :: 0 <= j < i ==> url[j] != 'v' && url[j] != 'y'
    requires url[i..i + 9] == "youtu.be/" && ClassRun(TokenChars, url, i + 9, 11)
    ensures ExtractVideoId(url, "youtube") == Some(url[i + 9..i + 20])
  {
    forall j | 0 <= j < i ensures !MatchesAt(YoutubeToken, url, j) {
      NotAt(url, j, "v=");
      NotAt(url, j, "youtu.be/");
    }
    NotAt(url, i, "v=");
    assert YoutubeIdAt(url, i, url[i + 9..i + 20]);
    YoutubeIdCharacterised(url, url[i + 9..i + 20]);
  }

  /** The bilibili URL from the comment in the source gives its BV number. */
  lemma BilibiliExample(url: string)
    requires url == "https://www.bilibili.com/video/BV1vc411b7Wa"
    ensures ExtractVideoId(url, "bilibili") == Some("BV1vc411b7Wa")
  {
    BilibiliExampleLayout(url);
    BilibiliIdOfUrl(url, 31, 10);
  }

  lemma BilibiliExampleLayout(url: string)
    requires url == "https://www.bilibili.com/video/BV1vc411b7Wa"
    ensures |url| == 43 && url[31..33] == "BV" && url[31..43] == "BV1vc411b7Wa"
    ensures forall j :: 0 <= j < 31 ==> url[j] != 'B'
    ensures ClassRun(Alnum, url, 33, 10)
  {
  }

  /** A short youtu.be link gives its 11-character token. */
  lemma YoutubeExample(url: string)
    requires url == "https://youtu.be/dQw4w9WgXcQ"
    ensures ExtractVideoId(url, "youtube") == Some("dQw4w9WgXcQ")
  {
    YoutubeExampleLayout(url);
    YoutubeIdOfShortUrl(url, 8);
  }

  lemma YoutubeExampleLayout(url: string)
    requires url == "https://youtu.be/dQw4w9WgXcQ"
    ensures |url| == 28 && url[8..17] == "youtu.be/" && url[17..28] == "dQw4w9WgXcQ"
    ensures forall j :: 0 <= j < 8 ==> url[j] != 'v' && url[j] != 'y'
    ensures ClassRun(TokenChars, url, 17, 11)
  {
  }
}

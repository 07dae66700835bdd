/** The video analyser: which addresses count as videos, which player a URL gets, and the guards of
  * URL submission and analysis. */
module VideoAnalyzer {
  import opened Wrappers
  import opened Text
  import opened Json

  const VideoExtensions: seq<string> := [".mp4", ".mov", ".avi", ".mkv", ".webm"]
  const VideoHosts: seq<string> := ["youtube.com", "youtu.be", "vimeo.com", "bilibili.com"]

  /** `isVideoUrl`: the lower-cased URL contains a video extension or a video host name. */
  function IsVideoUrl(url: string): (r: bool)
    ensures r <==> (exists i :: 0 <= i < |VideoExtensions| && Contains(Lower(url), VideoExtensions[i])) ||
                   (exists i :: 0 <= i < |VideoHosts| && Contains(Lower(url), VideoHosts[i]))
  {
    ContainsAny(Lower(url), VideoExtensions) || ContainsAny(Lower(url), VideoHosts)
  }

  predicate IsAlnum(c: char)
  {
    'A' <= c <= 'Z' || 'a' <= c <= 'z' || '0' <= c <= '9'
  }

  /** The longest prefix of ASCII letters and digits. */
  function AlnumRun(s: string): (r: string)
    ensures StartsWith(s, r)
    ensures forall k :: 0 <= k < |r| ==> IsAlnum(r[k])
    ensures |r| < |s| ==> !IsAlnum(s[|r|])
  {
    if s != [] && IsAlnum(s[0]) then [s[0]] + AlnumRun(s[1..]) else []
  }

  /** Where `BV[A-Za-z0-9]+` can match: "BV" and one letter or digit. */
  predicate BvidStart(s: string, i: nat)
  {
    i + 3 <= |s| && s[i] == 'B' && s[i + 1] == 'V' && IsAlnum(s[i + 2])
  }

  /** The leftmost match position of `BV[A-Za-z0-9]+` at or after `from`. */
  function BvidAt(s: string, from: nat): (r: Option<nat>)
    ensures r.Some? ==> from <= r.value && BvidStart(s, r.value)
    ensures r.Some? ==> forall j :: from <= j < r.value ==> !BvidStart(s, j)
    ensures r.None? ==> forall j :: from <= j ==> !BvidStart(s, j)
    decreases |s| - from
  {
    if from + 3 > |s| then None
    else if BvidStart(s, from) then Some(from)
    else BvidAt(s, from + 1)
  }

  /** `url.match(/BV[A-Za-z0-9]+/)[0]`: the leftmost match, extended as far as it goes. */
  function Bvid(url: string): (r: Option<string>)
    ensures r.None? <==> forall j :: 0 <= j ==> !BvidStart(url, j)
    ensures r.Some? ==> (BvidAt(url, 0).Some? &&
      var i := BvidAt(url, 0).value;
      |r.value| >= 3 && r.value[..2] == "BV" && StartsWith(url[i..], r.value) &&
      (forall k :: 2 <= k < |r.value| ==> IsAlnum(r.value[k])) &&
      (i + |r.value| < |url| ==> !IsAlnum(url[i + |r.value|])))
  {
    match BvidAt(url, 0)
    case None => None
    case Some(i) =>
      var run := AlnumRun(url[i + 2..]);
      assert url[i..][..2 + |run|] == "BV" + run;
      Some("BV" + run)
  }

  /** The player `renderVideoPlayer` shows. */
  datatype Player = YouTube(videoId: string) | Vimeo(videoId: string) | Bilibili(bvid: string) | Native(src: string)

  /** `url.split(sep)[1]?.split(stop)[0]`: the text after the first `sep`, up to the next `sep`
    * or `stop`, whichever comes first, or to the end. */
  function IdAfter(url: string, sep: string, stop: char): (r: Option<string>)
    requires sep != []
    ensures r.None? <==> !Contains(url, sep)
    ensures r.Some? ==> (|Before(url, sep)| + |sep| <= |url| &&
      var rest := url[|Before(url, sep)| + |sep|..];
      StartsWith(rest, r.value) &&
      (forall j :: 0 <= j < |r.value| ==> rest[j] != stop && !StartsWith(rest[j..], sep)) &&
      (r.value == rest || rest[|r.value|] == stop || StartsWith(rest[|r.value|..], sep)))
  {
    match SplitSecond(url, sep)
    case None => None
    case Some(piece) =>
      var id := Before(piece, [stop]);
      IdWithinPiece(url[|Before(url, sep)| + |sep|..], sep, stop);
      Some(id)
  }

  /** The two cuts of `IdAfter` applied to the text after the first separator. */
  lemma IdWithinPiece(rest: string, sep: string, stop: char)
    requires sep != []
    ensures var id := Before(Before(rest, sep), [stop]);
      StartsWith(rest, id) &&
      (forall j :: 0 <= j < |id| ==> rest[j] != stop && !StartsWith(rest[j..], sep)) &&
      (id == rest || rest[|id|] == stop || StartsWith(rest[|id|..], sep))
  {
    var piece := Before(rest, sep);
    var id := Before(piece, [stop]);
    assert |id| <= |piece| <= |rest|;
    assert forall j :: 0 <= j < |piece| ==> rest[j] == piece[j];
    forall j | 0 <= j < |id|
      ensures rest[j] != stop
    {
      assert !StartsWith(piece[j..], [stop]);
      assert piece[j..][..1] == [piece[j]];
    }
    assert id == rest[..|id|];
    if id != piece {
      assert StartsWith(piece[|id|..], [stop]);
      assert piece[|id|..][0] == piece[|id|];
    }
  }

  function YouTubeId(url: string): Option<string>
  {
    if Contains(url, "youtu.be") then IdAfter(url, "youtu.be/", '?') else IdAfter(url, "v=", '&')
  }

  /** Branches are tried in the order YouTube, Vimeo, Bilibili, case-sensitively; a platform URL
    * whose id is missing or empty falls back to the native player. */
  function PlayerFor(url: string): (r: Player)
    ensures r.YouTube? ==> ((Contains(url, "youtube.com") || Contains(url, "youtu.be")) &&
      Some(r.videoId) == YouTubeId(url) && r.videoId != "")
    ensures r.Vimeo? ==> (!Contains(url, "youtube.com") && !Contains(url, "youtu.be") &&
      Contains(url, "vimeo.com") && Some(r.videoId) == IdAfter(url, "vimeo.com/", '?') && r.videoId != "")
    ensures r.Bilibili? ==> (!Contains(url, "youtube.com") && !Contains(url, "youtu.be") &&
      !Contains(url, "vimeo.com") && Contains(url, "bilibili.com") && Some(r.bvid) == Bvid(url))
    ensures r.Native? ==> r.src == url
    ensures (!Contains(url, "youtube.com") && !Contains(url, "youtu.be") && !Contains(url, "vimeo.com") &&
      !Contains(url, "bilibili.com")) ==> r == Native(url)
  {
    if Contains(url, "youtube.com") || Contains(url, "youtu.be") then
      match YouTubeId(url)
      case Some(id) => if id != "" then YouTube(id) else Native(url)
      case None => Native(url)
    else if Contains(url, "vimeo.com") then
      match IdAfter(url, "vimeo.com/", '?')
      case Some(id) => if id != "" then Vimeo(id) else Native(url)
      case None => Native(url)
    else if Contains(url, "bilibili.com") then
      match Bvid(url)
      case Some(b) => Bilibili(b)
      case None => Native(url)
    else Native(url)
  }

  /** A host name found as written is found in the lower-cased URL too. */
  lemma HostIsVideoUrl(url: string, i: nat)
    requires i < |VideoHosts| && Contains(url, VideoHosts[i])
    ensures IsVideoUrl(url)
  {
    var h := VideoHosts[i];
    assert forall k :: 0 <= k < |h| ==> LowerChar(h[k]) == h[k];
    ContainsLower(url, h);
  }

  /** Every URL that gets an embedded platform player is also classified as a video URL. */
  lemma EmbeddedIsVideoUrl(url: string)
    ensures !PlayerFor(url).Native? ==> IsVideoUrl(url)
  {
    if Contains(url, "youtube.com") {
      HostIsVideoUrl(url, 0);
    } else if Contains(url, "youtu.be") {
      HostIsVideoUrl(url, 1);
    } else if Contains(url, "vimeo.com") {
      HostIsVideoUrl(url, 2);
    } else if Contains(url, "bilibili.com") {
      HostIsVideoUrl(url, 3);
    }
  }

  /** A source the analysis page holds: an uploaded file or an external link. */
  datatype Source = Source(fileUrl: string, filename: string)

  datatype AnalysisRequest = AnalysisRequest(videoUrl: string, focus: string, description: Option<string>)

  /** `analyzeVideo`'s request: the uploaded file's URL, else the trimmed input; none when both
    * are empty. The description is sent trimmed, and only when not blank. */
  function AnalysisRequestFor(uploaded: Option<Source>, videoUrl: string, focus: string, description: string): (r: Option<AnalysisRequest>)
    ensures uploaded.Some? && uploaded.value.fileUrl != "" ==>
      r.Some? && r.value.videoUrl == uploaded.value.fileUrl
    ensures !(uploaded.Some? && uploaded.value.fileUrl != "") ==>
      (r.None? <==> IsBlank(videoUrl)) && (r.Some? ==> r.value.videoUrl == Trim(videoUrl))
    ensures r.Some? ==> r.value.focus == focus && (r.value.description.None? <==> IsBlank(description))
    ensures r.Some? && r.value.description.Some? ==> r.value.description.value == Trim(description)
  {
    var current := if uploaded.Some? && uploaded.value.fileUrl != "" then uploaded.value.fileUrl else Trim(videoUrl);
    if current == "" then None
    else Some(AnalysisRequest(current, focus, if IsBlank(description) then None else Some(Trim(description))))
  }

  datatype AnalysisReply = AnalysisReply(success: bool, analysis: Option<Json>)

  class Analyzer {
    var uploaded: Option<Source>
    var videoUrl: string
    var focus: string
    var description: string
    var analysis: Option<Json>

    constructor ()
      ensures uploaded == None && videoUrl == "" && focus == "storyboard" && description == "" && analysis == None
    {
      uploaded := None;
      videoUrl := "";
      focus := "storyboard";
      description := "";
      analysis := None;
    }

    /** `handleFileUploaded`: the upload becomes the source and its URL fills the input box. */
    method FileUploaded(result: Source)
      modifies this
      ensures uploaded == Some(result) && videoUrl == result.fileUrl && analysis == None
      ensures focus == old(focus) && description == old(description)
    {
      uploaded := Some(result);
      videoUrl := result.fileUrl;
      analysis := None;
    }

    /** `handleVideoUrlSubmit`: only a non-blank input becomes the source, named '外部视频'. */
    method SubmitUrl()
      modifies this
      ensures !IsBlank(old(videoUrl)) ==> uploaded == Some(Source(Trim(old(videoUrl)), "外部视频")) && analysis == None
      ensures IsBlank(old(videoUrl)) ==> uploaded == old(uploaded) && analysis == old(analysis)
      ensures videoUrl == old(videoUrl) && focus == old(focus) && description == old(description)
    {
      if !IsBlank(videoUrl) {
        uploaded := Some(Source(Trim(videoUrl), "外部视频"));
        analysis := None;
      }
    }

    /** `analyzeVideo` with the reply (`None` for a thrown request). */
    method Analyze(reply: Option<AnalysisReply>) returns (sent: Option<AnalysisRequest>)
      modifies this
      ensures sent == AnalysisRequestFor(old(uploaded), old(videoUrl), old(focus), old(description))
      ensures sent.Some? && reply.Some? && reply.value.success ==> analysis == reply.value.analysis
      ensures !(sent.Some? && reply.Some? && reply.value.success) ==> analysis == old(analysis)
      ensures uploaded == old(uploaded) && videoUrl == old(videoUrl) && focus == old(focus)
      ensures description == old(description)
    {
      sent := AnalysisRequestFor(uploaded, videoUrl, focus, description);
      if sent.Some? && reply.Some? && reply.value.success {
        analysis := reply.value.analysis;
      }
    }

    /** `resetAnalysis`: the focus is kept, everything else is cleared. */
    method Reset()
      modifies this
      ensures uploaded == None && videoUrl == "" && analysis == None && description == ""
      ensures focus == old(focus)
    {
      uploaded := None;
      videoUrl := "";
      analysis := None;
      description := "";
    }
  }

  /** The first `sep` in `pre + sep + rest` is where `pre` ends when the first character of
    * `sep` does not occur in `pre`. */
  lemma FirstSepAfter(pre: string, sep: string, rest: string)
    requires sep != [] && forall j :: 0 <= j < |pre| ==> pre[j] != sep[0]
    ensures Contains(pre + (sep + rest), sep) && |Before(pre + (sep + rest), sep)| == |pre|
  {
    var url := pre + (sep + rest);
    assert url[|pre|..] == sep + rest;
    assert (sep + rest)[..|sep|] == sep;
    ContainsInTail(pre, sep + rest, sep);
    ContainsIffIndexOf(url, sep);
    forall j | 0 <= j < |pre|
      ensures !StartsWith(url[j..], sep)
    {
      assert url[j] == pre[j];
      if |sep| <= |url| - j {
        assert url[j..][..|sep|][0] == url[j];
      }
    }
    BeforeEndsAtIndexOf(url, sep);
  }

  /** In `id + stop + tail`, the text the contract of `IdAfter` describes is `id` when neither
    * `stop` nor the first character of `sep` occurs in `id`. */
  lemma PinnedId(sep: string, id: string, stop: char, tail: string, r: string)
    requires sep != []
    requires forall j :: 0 <= j < |id| ==> id[j] != stop && id[j] != sep[0]
    requires var rest := id + [stop] + tail;
      StartsWith(rest, r) && (forall j :: 0 <= j < |r| ==> rest[j] != stop) &&
      (r == rest || rest[|r|] == stop || StartsWith(rest[|r|..], sep))
    ensures r == id
  {
    var rest := id + [stop] + tail;
    assert rest[|id|] == stop;
    forall j | 0 <= j < |id|
      ensures rest[j] != stop && !StartsWith(rest[j..], sep)
    {
      assert rest[j] == id[j];
      if |sep| <= |rest| - j {
        assert rest[j..][..|sep|][0] == rest[j];
      }
    }
    assert |r| == |id|;
    assert r == rest[..|id|];
  }

  /** The id of a URL laid out as `pre + sep + id + stop + tail`, where the first character of
    * `sep` occurs in neither `pre` nor `id`, and `stop` does not occur in `id`. */
  lemma IdAfterAt(pre: string, sep: string, id: string, stop: char, tail: string)
    requires sep != []
    requires forall j :: 0 <= j < |pre| ==> pre[j] != sep[0]
    requires forall j :: 0 <= j < |id| ==> id[j] != stop && id[j] != sep[0]
    ensures IdAfter(pre + (sep + (id + [stop] + tail)), sep, stop) == Some(id)
  {
    var rest := id + [stop] + tail;
    var url := pre + (sep + rest);
    FirstSepAfter(pre, sep, rest);
    assert url[|pre| + |sep|..] == rest;
    PinnedId(sep, id, stop, tail, IdAfter(url, sep, stop).value);
  }

  /** A URL holding "youtu.be" with a non-empty id after "youtu.be/" plays that YouTube video. */
  lemma ShortLinkBranch(url: string, id: string)
    requires Contains(url, "youtu.be") && IdAfter(url, "youtu.be/", '?') == Some(id) && id != ""
    ensures PlayerFor(url) == YouTube(id)
  {
  }

  /** A URL holding "vimeo.com" but no 'y', with a non-empty id after "vimeo.com/", plays that
    * Vimeo video. */
  lemma VimeoBranch(url: string, id: string)
    requires Contains(url, "vimeo.com") && IdAfter(url, "vimeo.com/", '?') == Some(id) && id != ""
    requires forall i :: 0 <= i < |url| ==> url[i] != 'y'
    ensures PlayerFor(url) == Vimeo(id)
  {
    MissingFirstChar(url, "youtube.com");
    MissingFirstChar(url, "youtu.be");
  }

  /** `host + id + "?" + tail` holds `host` and has `id` after it. */
  lemma LinkParts(host: string, id: string, tail: string)
    requires host != [] && forall j :: 0 <= j < |id| ==> id[j] != '?' && id[j] != host[0]
    ensures var url := host + id + "?" + tail;
      Contains(url, host) && IdAfter(url, host, '?') == Some(id)
  {
    var url := host + id + "?" + tail;
    assert url == "" + (host + (id + ['?'] + tail));
    IdAfterAt("", host, id, '?', tail);
    assert url[..|host|] == host;
    ContainsInTail("", url, host);
  }

  /** A text holding `t` holds every prefix of `t`. */
  lemma ContainsPrefix(s: string, t: string, n: nat)
    requires Contains(s, t) && n <= |t|
    ensures Contains(s, t[..n])
  {
    ContainsIffIndexOf(s, t);
    var i := IndexOf(s, t).value;
    assert s[i..][..n] == t[..n];
    assert s[..i] + s[i..] == s;
    ContainsInTail(s[..i], s[i..], t[..n]);
  }

  /** A short link `youtu.be/<id>?<tail>` plays the YouTube video `<id>`. */
  lemma ShortLinkPlayer(id: string, tail: string)
    requires id != [] && forall j :: 0 <= j < |id| ==> id[j] != '?' && id[j] != 'y'
    ensures PlayerFor("youtu.be/" + id + "?" + tail) == YouTube(id)
  {
    var url := "youtu.be/" + id + "?" + tail;
    LinkParts("youtu.be/", id, tail);
    ContainsPrefix(url, "youtu.be/", 8);
    assert "youtu.be/"[..8] == "youtu.be";
    ShortLinkBranch(url, id);
  }

  lemma VimeoPrefixFacts()
    ensures forall i :: 0 <= i < |"vimeo.com/"| ==> "vimeo.com/"[i] != 'y'
  {
  }

  /** A link `vimeo.com/<id>?<tail>` without a 'y' plays the Vimeo video `<id>`. */
  lemma VimeoLinkPlayer(id: string, tail: string)
    requires id != [] && forall j :: 0 <= j < |id| ==> id[j] != '?' && id[j] != 'v' && id[j] != 'y'
    requires forall j :: 0 <= j < |tail| ==> tail[j] != 'y'
    ensures PlayerFor("vimeo.com/" + id + "?" + tail) == Vimeo(id)
  {
    var host := "vimeo.com/";
    var url := host + id + "?" + tail;
    LinkParts(host, id, tail);
    ContainsPrefix(url, host, 9);
    assert host[..9] == "vimeo.com";
    VimeoPrefixFacts();
    LinkLacks(host, id, tail, 'y');
    VimeoBranch(url, id);
  }

  /** A character in none of the parts, and not '?', is not in `host + id + "?" + tail`. */
  lemma LinkLacks(host: string, id: string, tail: string, c: char)
    requires c != '?'
    requires forall i :: 0 <= i < |host| ==> host[i] != c
    requires forall i :: 0 <= i < |id| ==> id[i] != c
    requires forall i :: 0 <= i < |tail| ==> tail[i] != c
    ensures var url := host + id + "?" + tail; forall i :: 0 <= i < |url| ==> url[i] != c
  {
    var url := host + id + "?" + tail;
    forall i | 0 <= i < |url|
      ensures url[i] != c
    {
      if i < |host| {
        assert url[i] == host[i];
      } else if i < |host| + |id| {
        assert url[i] == id[i - |host|];
      } else if i > |host| + |id| {
        assert url[i] == tail[i - |host| - |id| - 1];
      }
    }
  }
}

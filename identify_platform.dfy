/** The first pipeline step (app/services/video_pipeline/steps/identify_platform.py):
    the platform named by the URL and the video id cut out of it. */
module IdentifyPlatform {
  import opened Wrappers
  import opened Strings
  import opened PipelineContext
  import opened PipelineSteps

  const StepName := "identify_platform"

  predicate IsTwitterUrl(url: string) {
    Contains(url, "twitter.com") || Contains(url, "x.com")
  }

  predicate IsTiktokUrl(url: string) {
    Contains(url, "tiktok.com")
  }

  /** `s.split('?')[0]`. */
  function BeforeQuery(s: string): string {
    Split(s, "?")[0]
  }

  /** `url.split('/')[-1].split('?')[0]`. */
  function LastSegmentId(url: string): string {
    BeforeQuery(Last(Split(url, "/")))
  }

  /** The id of a TikTok URL: after the last "/video/" when there is one,
      otherwise the last path segment; cut at the query either way. */
  function TiktokId(url: string): string {
    if Contains(url, "/video/") then BeforeQuery(Last(Split(url, "/video/"))) else LastSegmentId(url)
  }

  function UnsupportedMessage(url: string): string {
    "Unsupported platform for URL: " + url
  }

  /** What `process` does to a context: Twitter is checked first, then
      TikTok; any other URL adds an error. It never raises. */
  function Identify(s: ContextState): StepOutcome {
    if IsTwitterUrl(s.url) then StepOutcome(s.(videoId := Some(LastSegmentId(s.url)), platform := Some("twitter")), None)
    else if IsTiktokUrl(s.url) then StepOutcome(s.(videoId := Some(TiktokId(s.url)), platform := Some("tiktok")), None)
    else StepOutcome(WithError(s, UnsupportedMessage(s.url)), None)
  }

  /** The cut at the query leaves no '?' and is a prefix of what was cut. */
  lemma {:induction false} BeforeQueryIsPrefix(s: string)
    ensures '?' !in BeforeQuery(s)
    ensures StartsWith(s, BeforeQuery(s))
  {
    SplitPiecesAvoidChar(s, '?', 0);
    SplitFirstIsPrefix(s, "?");
  }

  /** An extracted id never contains '?', and a last-segment id (every
      Twitter id) never contains '/'. */
  lemma {:induction false} IdsAreClean(url: string)
    ensures '?' !in LastSegmentId(url) && '/' !in LastSegmentId(url)
    ensures '?' !in TiktokId(url)
  {
    var pieces := Split(url, "/");
    var segment := Last(pieces);
    SplitPiecesAvoidChar(url, '/', |pieces| - 1);
    BeforeQueryIsPrefix(segment);
    var id := BeforeQuery(segment);
    assert id == segment[..|id|];
    assert forall i :: 0 <= i < |id| ==> id[i] == segment[i];
    if Contains(url, "/video/") {
      BeforeQueryIsPrefix(Last(Split(url, "/video/")));
    }
  }

  /** A share URL ending in '/' without "/video/" has an empty id. */
  lemma {:induction false} TrailingSlashEmptyId(prefix: string)
    ensures LastSegmentId(prefix + "/") == ""
  {
    SplitEndingInSeparator(prefix, '/');
    assert Split("", "?") == [""];
  }

  /** The classification: Twitter exactly for a URL naming twitter.com or
      x.com (whatever else it names), TikTok exactly for one naming
      tiktok.com and neither of those, and otherwise exactly one error added
      with platform and id left as they were. */
  lemma {:induction false} IdentifyClassifies(s: ContextState)
    ensures var r := Identify(s);
      && r.raised.None?
      && (IsTwitterUrl(s.url) ==> r.after == s.(videoId := Some(LastSegmentId(s.url)), platform := Some("twitter")))
      && (!IsTwitterUrl(s.url) && IsTiktokUrl(s.url) ==>
            r.after == s.(videoId := Some(TiktokId(s.url)), platform := Some("tiktok")))
      && (!IsTwitterUrl(s.url) && !IsTiktokUrl(s.url) ==>
            r.after.errors == s.errors + [UnsupportedMessage(s.url)]
            && r.after == s.(errors := r.after.errors))
  {
  }

  /** Because Twitter is checked first and by substring, a Netflix URL is
      taken for a Twitter one. */
  lemma {:induction false} NetflixIsTwitter()
    ensures Identify(Initial("netflix.com/title/1")).after.platform == Some("twitter")
  {
    ContainsMiddle("netfli", "x.com", "/title/1");
    assert "netfli" + "x.com" + "/title/1" == "netflix.com/title/1";
  }

  /** `IdentifyPlatformStep.process` on a context. */
  method Process(context: VideoContext)
    modifies context
    ensures context.State() == Identify(old(context.State())).after
  {
    var url := context.url;
    if Contains(url, "twitter.com") || Contains(url, "x.com") {
      var videoId := Split(Last(Split(url, "/")), "?")[0];
      context.videoId := Some(videoId);
      context.platform := Some("twitter");
    } else if Contains(url, "tiktok.com") {
      var videoId: string;
      if Contains(url, "/video/") {
        videoId := Split(Last(Split(url, "/video/")), "?")[0];
      } else {
        videoId := Split(Last(Split(url, "/")), "?")[0];
      }
      context.videoId := Some(videoId);
      context.platform := Some("tiktok");
    } else {
      context.AddError("Unsupported platform for URL: " + url);
    }
  }
}

/** The state passed between the video pipeline's steps
    (app/services/video_pipeline/context.py). */
module PipelineContext {
  import opened Wrappers

  /** The fields of a `VideoContext` as a value. `metadata` holds the string
      entries the pipeline stores (the language code). */
  datatype ContextState = ContextState(
    url: string,
    videoId: Option<string>,
    platform: Option<string>,
    videoPath: Option<string>,
    audioPath: Option<string>,
    transcriptText: Option<string>,
    transcriptSrt: Option<string>,
    srtPath: Option<string>,
    collagePath: Option<string>,
    metadata: map<string, string>,
    errors: seq<string>)

  /** A context as the dataclass constructor makes it from a URL alone. */
  function Initial(url: string): (s: ContextState)
    ensures s.url == url && s.errors == [] && s.metadata == map[]
  {
    ContextState(url, None, None, None, None, None, None, None, None, map[], [])
  }

  /** `has_errors`. */
  predicate Failing(s: ContextState) {
    |s.errors| > 0
  }

  /** `add_error` on a value: the message appended, nothing else touched. */
  function WithError(s: ContextState, msg: string): ContextState {
    s.(errors := s.errors + [msg])
  }

  /** `get_language_code`. */
  function LanguageCode(s: ContextState): string {
    if "language_code" in s.metadata then s.metadata["language_code"] else "es"
  }

  /** After an error is added the context has errors, exactly one more than
      before, the earlier ones first. */
  lemma {:induction false} WithErrorFails(s: ContextState, msg: string)
    ensures Failing(WithError(s, msg))
    ensures |WithError(s, msg).errors| == |s.errors| + 1
    ensures WithError(s, msg).errors[..|s.errors|] == s.errors
    ensures WithError(s, msg).errors[|s.errors|] == msg
  {
    assert (s.errors + [msg])[..|s.errors|] == s.errors;
  }

  /** The language code is the stored one when there is one and Spanish
      otherwise; a fresh context speaks Spanish. */
  lemma {:induction false} LanguageCodeDefault(s: ContextState, url: string)
    ensures "language_code" in s.metadata ==> LanguageCode(s) == s.metadata["language_code"]
    ensures "language_code" !in s.metadata ==> LanguageCode(s) == "es"
    ensures LanguageCode(Initial(url)) == "es" && !Failing(Initial(url))
  {
  }

  /** `VideoContext`: the fields are updated in place by the steps. */
  class VideoContext {
    var url: string
    var videoId: Option<string>
    var platform: Option<string>
    var videoPath: Option<string>
    var audioPath: Option<string>
    var transcriptText: Option<string>
    var transcriptSrt: Option<string>
    var srtPath: Option<string>
    var collagePath: Option<string>
    var metadata: map<string, string>
    var errors: seq<string>

    function State(): ContextState
      reads this
    {
      ContextState(url, videoId, platform, videoPath, audioPath, transcriptText, transcriptSrt,
                   srtPath, collagePath, metadata, errors)
    }

    constructor(url: string)
      ensures State() == Initial(url)
    {
      this.url := url;
      videoId, platform, videoPath, audioPath := None, None, None, None;
      transcriptText, transcriptSrt, srtPath, collagePath := None, None, None, None;
      metadata := map[];
      errors := [];
    }

    predicate HasErrors()
      reads this
    {
      Failing(State())
    }

    method AddError(msg: string)
      modifies this
      ensures State() == WithError(old(State()), msg)
    {
      errors := errors + [msg];
    }

    method GetLanguageCode() returns (code: string)
      ensures code == LanguageCode(State())
    {
      if "language_code" in metadata {
        return metadata["language_code"];
      }
      return "es";
    }

    /** Whatever a step's processing leaves the context as. */
    method Assign(s: ContextState)
      modifies this
      ensures State() == s
    {
      url, videoId, platform, videoPath, audioPath := s.url, s.videoId, s.platform, s.videoPath, s.audioPath;
      transcriptText, transcriptSrt, srtPath, collagePath := s.transcriptText, s.transcriptSrt, s.srtPath, s.collagePath;
      metadata, errors := s.metadata, s.errors;
    }
  }
}

/** The pipeline driver (app/services/video_pipeline/processor.py): the
    ordered list of steps, looking steps up by name, switching them on and
    off, inserting new ones, and the run that stops at a failed critical
    step. */
module PipelineProcessor {
  import opened Wrappers
  import opened PipelineContext
  import opened PipelineSteps
  import IdentifyPlatform

  const DefaultNames := ["identify_platform", "download_video", "extract_audio", "transcribe_audio", "create_collage"]

  /** The steps after whose failure the run stops. */
  const CriticalSteps := ["identify_platform", "download_video", "extract_audio"]

  function Names(steps: seq<PipelineStep>): (r: seq<string>)
    ensures |r| == |steps| && forall i :: 0 <= i < |steps| ==> r[i] == steps[i].name
  {
    if steps == [] then [] else [steps[0].name] + Names(steps[1..])
  }

  /** The index of the first step called `name`, if any. */
  function FirstNamed(names: seq<string>, name: string): Option<nat>
  {
    if names == [] then None
    else if names[0] == name then Some(0)
    else match FirstNamed(names[1..], name)
      case None => None
      case Some(k) => Some(k + 1)
  }

  /** The first-match search finds the earliest index holding the name, and
      finds nothing exactly when no step has that name. */
  lemma {:induction false} FirstNamedSpec(names: seq<string>, name: string)
    ensures FirstNamed(names, name).None? <==> name !in names
    ensures FirstNamed(names, name).Some? ==>
              var k := FirstNamed(names, name).value;
              k < |names| && names[k] == name && forall j :: 0 <= j < k ==> names[j] != name
    decreases |names|
  {
    if names != [] && names[0] != name {
      FirstNamedSpec(names[1..], name);
      assert names == [names[0]] + names[1..];
    }
  }

  /** An index holding the name with no earlier one holding it is the
      first match. */
  lemma {:induction false} FirstNamedAt(names: seq<string>, name: string, k: nat)
    requires k < |names| && names[k] == name
    requires forall j :: 0 <= j < k ==> names[j] != name
    ensures FirstNamed(names, name) == Some(k)
  {
    FirstNamedSpec(names, name);
    var m := FirstNamed(names, name).value;
    assert !(m < k) && !(k < m);
  }

  /** The position `add_step` puts a step at: `position` when it is a valid
      index, the end otherwise (negative positions included). */
  function InsertIndex(length: nat, position: int): (k: nat)
    ensures k <= length
  {
    if position < 0 || position >= length then length else position
  }

  /** The list after `add_step`. */
  function Inserted<T>(s: seq<T>, x: T, position: int): seq<T>
  {
    if position < 0 || position >= |s| then s + [x] else s[..position] + [x] + s[position..]
  }

  /** Inserting puts the step at its index, the others keep their order,
      and nothing else is added or lost. */
  lemma {:induction false} InsertedPlacement<T>(s: seq<T>, x: T, position: int)
    ensures var r := Inserted(s, x, position);
      var k := InsertIndex(|s|, position);
      && |r| == |s| + 1 && r[k] == x && r[..k] + r[k + 1..] == s
      && multiset(r) == multiset(s) + multiset{x}
  {
    var r := Inserted(s, x, position);
    var k := InsertIndex(|s|, position);
    if position < 0 || position >= |s| {
      assert r[..k] == s;
    } else {
      assert r[..k] == s[..k];
      assert r[k + 1..] == s[k..];
      assert s == s[..k] + s[k..];
      calc {
        multiset(r);
        multiset(s[..k] + [x] + s[k..]);
        multiset(s[..k]) + multiset{x} + multiset(s[k..]);
        multiset(s[..k] + s[k..]) + multiset{x};
      }
    }
  }

  /** The context `download_video` starts from. */
  function Start(url: string, languageCode: string): (s: ContextState)
    ensures !Failing(s) && LanguageCode(s) == languageCode
  {
    Initial(url).(metadata := map["language_code" := languageCode])
  }

  /** One step's effect on the run's context. */
  function StepResult(step: PipelineStep, s: ContextState): ContextState
    reads step
  {
    CallOutcome(step.name, step.enabled, step.nonCritical, s, step.process(s))
  }

  /** The run of `download_video`: the steps in order, stopping right after
      a critical step that left the context with errors. */
  function Run(steps: seq<PipelineStep>, s: ContextState): ContextState
    reads steps
    decreases |steps|
  {
    if steps == [] then s
    else
      var t := StepResult(steps[0], s);
      if Failing(t) && steps[0].name in CriticalSteps then t else Run(steps[1..], t)
  }

  /** Once a context has errors, plain (`BaseStep`) steps leave it alone:
      the run's continuing past a failed transcription to the collage step
      does nothing, since that step skips a context with errors. */
  lemma {:induction false} FailedRunFrozen(steps: seq<PipelineStep>, s: ContextState)
    requires Failing(s)
    requires forall i :: 0 <= i < |steps| ==> !steps[i].nonCritical
    ensures Run(steps, s) == s
    decreases |steps|
  {
    if steps != [] {
      ErrorsGateOnlyPlainSteps(steps[0].name, s, steps[0].process(s));
      FailedRunFrozen(steps[1..], s);
    }
  }

  /** When no step's processing removes an error, neither does the run. */
  lemma {:induction false} RunErrorsOnlyGrow(steps: seq<PipelineStep>, s: ContextState)
    requires forall i: int, t: ContextState :: 0 <= i < |steps| ==> Extends(t.errors, steps[i].process(t).after.errors)
    ensures Extends(s.errors, Run(steps, s).errors)
    decreases |steps|
  {
    if steps != [] {
      var t := StepResult(steps[0], s);
      ErrorsOnlyGrow(steps[0].name, steps[0].enabled, steps[0].nonCritical, s, steps[0].process(s));
      if !(Failing(t) && steps[0].name in CriticalSteps) {
        assert forall i: int, u: ContextState :: 0 <= i < |steps[1..]| ==> Extends(u.errors, steps[1..][i].process(u).after.errors) by {
          forall i: int, u: ContextState | 0 <= i < |steps[1..]|
            ensures Extends(u.errors, steps[1..][i].process(u).after.errors)
          {
            assert steps[1..][i] == steps[i + 1];
          }
        }
        RunErrorsOnlyGrow(steps[1..], t);
        var e := Run(steps[1..], t).errors;
        assert e[..|s.errors|] == e[..|t.errors|][..|s.errors|];
      }
    }
  }

  /** A URL of no supported platform, met by an enabled identification step
      at the head of the run, ends the run right there with that one
      error. */
  lemma {:induction false} UnsupportedUrlStops(steps: seq<PipelineStep>, s: ContextState)
    requires |steps| > 0 && steps[0].name == IdentifyPlatform.StepName
    requires steps[0].enabled && steps[0].process == IdentifyPlatform.Identify
    requires !Failing(s) && !IdentifyPlatform.IsTwitterUrl(s.url) && !IdentifyPlatform.IsTiktokUrl(s.url)
    ensures Run(steps, s) == WithError(s, IdentifyPlatform.UnsupportedMessage(s.url))
  {
    var t := StepResult(steps[0], s);
    assert t == WithError(s, IdentifyPlatform.UnsupportedMessage(s.url));
    WithErrorFails(s, IdentifyPlatform.UnsupportedMessage(s.url));
    assert steps[0].name == CriticalSteps[0];
  }

  /** `get_srt_content`: nothing for a missing or empty path, otherwise what
      reading the file gives (`read` is None for a file that does not exist
      or cannot be read). */
  function SrtContent(srtPath: Option<string>, read: string -> Option<string>): (r: Option<string>)
    ensures srtPath.None? || srtPath == Some("") ==> r.None?
    ensures srtPath.Some? && srtPath.value != "" ==> r == read(srtPath.value)
  {
    if srtPath.None? || srtPath.value == "" then None else read(srtPath.value)
  }

  /** The four paths `download_video` returns. */
  datatype Paths = Paths(videoPath: Option<string>, audioPath: Option<string>, srtPath: Option<string>, collagePath: Option<string>)

  /** The dictionary `download_video_extended` returns. */
  datatype Extended = Extended(paths: Paths, transcriptText: Option<string>, srtContent: Option<string>, metadata: map<string, string>)

  function PathsOf(s: ContextState): Paths {
    Paths(s.videoPath, s.audioPath, s.srtPath, s.collagePath)
  }

  /** `VideoProcessor`. The processing of the four external steps (the
      download, the audio extraction, the transcription and the collage) is
      given to the constructor. */
  class VideoProcessor {
    const outputDir: string
    var steps: seq<PipelineStep>

    constructor(outputDir: string, download: ContextState -> StepOutcome, extract: ContextState -> StepOutcome,
                transcribe: ContextState -> StepOutcome, collage: ContextState -> StepOutcome)
      ensures this.outputDir == outputDir
      ensures Names(steps) == DefaultNames
      ensures forall i :: 0 <= i < |steps| ==> fresh(steps[i]) && steps[i].enabled && !steps[i].nonCritical
      ensures steps[0].process == IdentifyPlatform.Identify && steps[1].process == download
      ensures steps[2].process == extract && steps[3].process == transcribe && steps[4].process == collage
    {
      this.outputDir := outputDir;
      var identifyStep := new PipelineStep(IdentifyPlatform.StepName, true, false, IdentifyPlatform.Identify);
      var downloadStep := new PipelineStep("download_video", true, false, download);
      var extractStep := new PipelineStep("extract_audio", true, false, extract);
      var transcribeStep := new PipelineStep("transcribe_audio", true, false, transcribe);
      var collageStep := new PipelineStep("create_collage", true, false, collage);
      steps := [identifyStep, downloadStep, extractStep, transcribeStep, collageStep];
    }

    /** `get_step`: the first step with the name, None when there is none. */
    method GetStep(name: string) returns (step: Option<PipelineStep>)
      ensures match FirstNamed(Names(steps), name)
        case None => step.None?
        case Some(k) => k < |steps| && step == Some(steps[k])
    {
      for i := 0 to |steps|
        invariant forall j :: 0 <= j < i ==> steps[j].name != name
      {
        if steps[i].name == name {
          FirstNamedAt(Names(steps), name, i);
          return Some(steps[i]);
        }
      }
      FirstNamedSpec(Names(steps), name);
      return None;
    }

    /** The enabled flags, step by step. */
    function Flags(): seq<bool>
      reads this, steps
    {
      seq(|steps|, i reads this, steps requires 0 <= i < |steps| => steps[i].enabled)
    }

    /** `enable_step`: the first step with the name gets the flag (and so
        does every other place in the list holding that same step); an
        unknown name changes nothing. */
    method EnableStep(name: string, enabled: bool)
      modifies steps
      ensures FirstNamed(Names(steps), name).None? ==> Flags() == old(Flags())
      ensures FirstNamed(Names(steps), name).Some? ==>
                var k := FirstNamed(Names(steps), name).value;
                k < |steps| && forall j :: 0 <= j < |steps| ==>
                  steps[j].enabled == if steps[j] == steps[k] then enabled else old(steps[j].enabled)
    {
      var step := GetStep(name);
      if step.Some? {
        step.value.enabled := enabled;
      }
    }

    /** `add_step`. */
    method AddStep(step: PipelineStep, position: int)
      modifies this
      ensures steps == Inserted(old(steps), step, position)
    {
      if position < 0 || position >= |steps| {
        steps := steps + [step];
      } else {
        steps := steps[..position] + [step] + steps[position..];
      }
    }

    /** The loop shared by `download_video` and `download_video_extended`. */
    method RunSteps(context: VideoContext)
      modifies context
      ensures context.State() == Run(steps, old(context.State()))
    {
      ghost var start := context.State();
      var i := 0;
      while i < |steps|
        invariant 0 <= i <= |steps|
        invariant Run(steps, start) == Run(steps[i..], context.State())
      {
        var step := steps[i];
        ghost var before := context.State();
        assert steps[i..][0] == step && steps[i..][1..] == steps[i + 1..];
        step.Call(context);
        if context.HasErrors() && step.name in CriticalSteps {
          return;
        }
        i := i + 1;
      }
    }

    /** `download_video`. */
    method DownloadVideo(url: string, languageCode: string) returns (paths: Paths)
      ensures paths == PathsOf(Run(steps, Start(url, languageCode)))
    {
      var context := new VideoContext(url);
      context.metadata := context.metadata["language_code" := languageCode];
      RunSteps(context);
      return Paths(context.videoPath, context.audioPath, context.srtPath, context.collagePath);
    }

    /** `download_video_extended`: the same run, with the transcript text,
        the metadata and the content of the subtitle file. */
    method DownloadVideoExtended(url: string, languageCode: string, read: string -> Option<string>) returns (result: Extended)
      ensures var s := Run(steps, Start(url, languageCode));
        result == Extended(PathsOf(s), s.transcriptText, SrtContent(s.srtPath, read), s.metadata)
    {
      var context := new VideoContext(url);
      context.metadata := context.metadata["language_code" := languageCode];
      RunSteps(context);
      var content := None;
      if context.srtPath.Some? && context.srtPath.value != "" {
        content := read(context.srtPath.value);
      }
      result := Extended(Paths(context.videoPath, context.audioPath, context.srtPath, context.collagePath),
                         context.transcriptText, content, context.metadata);
    }
  }
}

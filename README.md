# merclip-api in Dafny

A model of the logic of merclip-api, a FastAPI service that renders short
videos with ffmpeg and downloads and post-processes social-media videos.
The modelled parts are:

- **The encoder command compiler** (`FFmpegService.generate_command` and
  `rgba_to_hex`). A scene is an output setting plus an ordered element list.
  It becomes the ffmpeg argument list: a `lavfi` background input, one `-i`
  per video element, a `;`-joined filter graph, time-gated overlay and
  drawtext filters, and the encoding, audio-map and audio-codec flags.
  - The graph is built as a sequence of typed filter steps
    (`FfmpegFilters.FilterStep`). `RenderStep` prints each step to its
    string.
  - The labels, threading and time windows are then stated about the steps.
- **Render-job bookkeeping.**
  - The `status.json` record lifecycle of `FFmpegService` is modelled as a
    store of maps from job id (`RenderJobs.JobStore`).
  - The clip endpoints (`Clips`): job creation before compilation, the
    outcome classification of a background render, and the status and
    download guards.
- **The template merge** (`transform_to_video_request`): user elements
  merged by per-type template defaults into the dictionaries of a video
  request, and the total duration written back into the template. This is
  backed by the element validation of `app/models/template_clip.py`
  (`TemplateModels`).
- **The in-memory frame-job tracker** (`JobStatusManager`): records with
  counters, driven by a completed/total count.
- **The download-pipeline controller.**
  - `VideoContext` and its error list.
  - The step wrappers `BaseStep` and `NonCriticalStep`.
  - `VideoProcessor`: its step list, lookup, enabling, insertion, and the
    run that stops after a failed critical step.
  - The platform identification step and the collage step.
- **Small helpers**: tile grid and frame selection of the collage, image
  sequence numbering, 9:16 canvas arithmetic, hex/RGB conversion, the
  Fly.io HTTPS rewrite, and the Netscape cookie-file check.

One Dafny module models each source file:

| module | source file |
|---|---|
| `Rgba`, `FfmpegFilters`, `FfmpegCommand`, `RenderJobs` | app/services/ffmpeg.py |
| `Clips` | app/routers/clips.py |
| `TemplateMerge`, `JsonValue` | app/routers/template_clip.py |
| `TemplateModels` | app/models/template_clip.py |
| `FrameJobs` | app/services/job_status.py |
| `PipelineContext` | app/services/video_pipeline/context.py |
| `PipelineSteps` | app/services/video_pipeline/steps/base_step.py |
| `PipelineProcessor` | app/services/video_pipeline/processor.py |
| `IdentifyPlatform` | app/services/video_pipeline/steps/identify_platform.py |
| `Collage` | app/services/video_pipeline/steps/create_collage.py |
| `ImageGenerator` | app/services/image_generator.py |
| `ColorUtils` | scripts_examples/utils.py |
| `BaseUrl` | app/utils/url.py |
| `Cookies` | fix_cookies.py |

Three support modules have no source file of their own:
- `Wrappers` holds `Option` and `Result`.
- `Strings` holds the Python string operations the code uses: `str(n)`,
  `int()`, `int(_, 16)`, `:02x`, `split`, `strip`, `replace(p, "")`,
  `join`, `sorted` and `os.path`.
- `VideoRequest` holds the scene types `generate_command` reads.

The imperative code stays imperative:
- `generate_command`, the template loop, the cookie loops, the sequence
  numbering and the frame deletion are methods with loops. Each is proved
  equal to a specification function, or characterised by ensures that pin
  its result; the sequence numbering is the one characterised this way.
- `VideoContext`, `PipelineStep`, `VideoProcessor`, `JobStore`,
  `JobStatusManager`/`FrameJob`, `TemplateDoc` and `FrameDirectory` are
  classes whose methods update their fields.

Outside inputs are parameters of the model:
- Python's printing of float numbers inside filter strings: `show`.
- The current time: `now`.
- The directory listings: `listing`.
- File existence: `present`, `files`.
- The exceptions raised by foreign code: `RenderRun`, `failure`.
- The processing of the download, audio-extraction, transcription and
  collage steps: the functions given to `VideoProcessor`.

Where this model and the test files of the repository disagree, the model
follows the code. `generate_command` gives no input and no overlay to IMAGE
elements, and it does not mix AUDIO elements.

## Model

| member | source | states |
|---|---|---|
| Rgba.RgbaToHex | app/services/ffmpeg.py:10-16 | the result, when there is one, is '#' followed by at least six characters; none where the four-way unpacking raises, or where a component is not an ASCII decimal literal (see Left out) |
| Rgba.RgbaToHexOfComponents | app/services/ffmpeg.py:10-16 | "rgba(r,g,b,a)" gives '#' and r, g, b as two lower-case hex digits each; the alpha is dropped |
| Rgba.FractionalAlphaDropped | app/services/ffmpeg.py:13-16 | a fractional alpha such as 0.3 gives the same colour as an integer one: the alpha is parsed and discarded |
| Rgba.RgbaToHexRoundTrip | app/services/ffmpeg.py:10-16 | for byte-sized components the result has exactly 7 characters, and each hex pair reads back as its component |
| Rgba.DecimalAlpha | app/services/ffmpeg.py:14 | a decimal alpha "whole.frac" is accepted, and `int(float(x))` of it is the whole part; this is exact for literals up to 15 significant digits (see Left out) |
| FfmpegCommand.GenerateCommand | app/services/ffmpeg.py:19-157 | the imperative command builder returns exactly `Command(scene, path)`: the argument list, or the error the rgba conversion raises |
| FfmpegCommand.CollectVideoInputs | app/services/ffmpeg.py:33-44 | the input loop adds `-i <source>` per video element, in element order, and numbers them 1, 2, … |
| FfmpegCommand.VideoFilterParts | app/services/ffmpeg.py:53-76 | the video filter loop emits the rendered trim/scale and overlay steps of every video, and leaves the label of the last overlay (or `0:v`) |
| FfmpegCommand.TextFilterParts | app/services/ffmpeg.py:79-105 | the text loop fails exactly when the text pass does, with its message, and otherwise emits the rendered drawtext steps and the last label |
| FfmpegCommand.GraphArguments | app/services/ffmpeg.py:108-116 | the graph arguments appear only when some filter exists: the joined filters with the trailing ';' stripped, `-map` of the last label and `-map 1:a?` when a video has audio |
| FfmpegCommand.CommandFails | app/services/ffmpeg.py:86-94 | the command fails exactly as the text pass fails, with the same message |
| FfmpegCommand.CommandSucceeds | app/services/ffmpeg.py:19-157 | when the text pass succeeds, the command is the assembled list with the graph of the video and text steps |
| FfmpegCommand.CommandShape | app/services/ffmpeg.py:22-31 | every command starts with `ffmpeg -y -f lavfi -i color=…` and ends with `-t <duration> -c:v libx264 -preset medium -pix_fmt yuv420p`, then `-c:a aac -b:a 128k` exactly when a video element has audio, then the output path |
| FfmpegCommand.CommandInputs | app/services/ffmpeg.py:34-44 | after the background input, one `-i <source>` per video element in element order |
| FfmpegCommand.InputArgsLayout | app/services/ffmpeg.py:37-44 | the input arguments are pairs `-i`, source, one per video element, twice as many strings as videos |
| FfmpegCommand.CommandWithGraph | app/services/ffmpeg.py:108-116 | with a video or text element, `-filter_complex`, the joined graph, `-map [last label]` and `-map 1:a?` (on audio) follow the inputs |
| FfmpegCommand.CommandWithoutGraph | app/services/ffmpeg.py:117-140 | with neither video nor text element, the command is only the background input, the encoding flags and the output: no `-filter_complex`, `-map` or `-vf` |
| FfmpegCommand.CommandFilterIff | app/services/ffmpeg.py:108-140 | `-filter_complex` stands after the inputs exactly when some video or text element exists |
| FfmpegCommand.AssembleLayout | app/services/ffmpeg.py:22-155 | the list is laid out as background, inputs, graph, encoding flags, audio codec, output path |
| FfmpegFilters.VideoFilters | app/services/ffmpeg.py:57-72 | per video k: trim `in:in+duration` with the in-point defaulting to 0, the scale falling back to 1.0 when falsy, integer-only overlay x/y (otherwise 0), and the overlay gated by start..start+duration |
| FfmpegFilters.TextFilters | app/services/ffmpeg.py:79-105 | every text element has its drawtext after the video steps: "center" x becomes `(w-text_w)/2`, other x/y pass through, the text is unescaped, the box is none, hex of an rgba colour or the colour itself, and the step is gated by its window |
| FfmpegFilters.BoxColorCases | app/services/ffmpeg.py:87-94 | no box exactly for a missing or empty background; an rgba background is converted; any other is used as written |
| FfmpegFilters.GraphThreading | app/services/ffmpeg.py:50-105 | the first filter reads `0:v` and each later filter reads the label produced just before it; the final label is the last produced |
| FfmpegFilters.GraphLabelsDistinct | app/services/ffmpeg.py:61-103 | the output labels `v<idx>`, `ov<k>` and `txt<i>` of the graph are pairwise distinct |
| FfmpegFilters.LabelNameInjective | app/services/ffmpeg.py:61-103 | different labels print as different names |
| FfmpegFilters.GraphSize | app/services/ffmpeg.py:53-105 | the graph has two steps per video element and one per text element |
| FfmpegFilters.GraphNonEmptyIff | app/services/ffmpeg.py:108-117 | the filter list is non-empty exactly when a video or text element exists |
| FfmpegFilters.FilterComplexText | app/services/ffmpeg.py:109 | the stripped graph is the joined filters without their last ';', and ends with the last filter's label |
| FfmpegFilters.TextPassFailureSticks | app/services/ffmpeg.py:87-94 | an rgba background that does not convert makes the whole compilation fail with that error |
| FfmpegFilters.VideosAreTheVideoElements | app/services/ffmpeg.py:37-44 | the collected videos are exactly the VIDEO elements |
| FfmpegFilters.TextDrawnAsElement | app/services/ffmpeg.py:79-105 | the drawtext of text element i is labelled `txt<i>` and uses its text, font size, colour, x rule ("center" becomes `(w-text_w)/2`), y, box colour (none, converted rgba, or as written) and time window |
| FfmpegFilters.NoVideosWithoutVideoElements | app/services/ffmpeg.py:117-140 | with neither video nor text element there are no video inputs and no video audio to map |
| FfmpegFilters.RenderPartsAppend | app/services/ffmpeg.py:50-105 | rendering a concatenation of steps is the concatenation of the renderings (filters are appended in order) |
| RenderJobs.WithStatus | app/services/ffmpeg.py:197-215 | the status is always replaced, whatever it was; COMPLETED also stamps completed_at and sets output_url `/jobs/<id>/output.mp4`; FAILED stamps completed_at and stores the error; the id and creation time stay |
| RenderJobs.NewRecordValid | app/services/ffmpeg.py:183-190 | the new record (processing, no completion, error or URL) satisfies the record invariant |
| RenderJobs.WithStatusValid | app/services/ffmpeg.py:197-215 | a status update keeps the record invariant: own id, its own output URL, finished records time-stamped, completed ones with a URL |
| RenderJobs.WithStatusIdempotent | app/services/ffmpeg.py:197-215 | repeating the same update changes nothing |
| RenderJobs.JobStore.SaveJob | app/services/ffmpeg.py:170-194 | stores the request and a fresh processing record under the id, replacing any earlier one, and returns the input path |
| RenderJobs.JobStore.UpdateJobStatus | app/services/ffmpeg.py:197-215 | a missing record is left missing and nothing changes; an existing one is replaced by its updated form |
| RenderJobs.JobStore.GetJobStatus | app/services/ffmpeg.py:218-225 | None exactly for an unknown id, otherwise the stored record |
| Clips.CompletedIff | app/routers/clips.py:51-72 | a render completes exactly when nothing raised, the exit code is 0 and the output exists with size > 0; every failure carries a message |
| Clips.FailureMessages | app/routers/clips.py:51-66 | a non-zero exit code stores the full stderr text; exit 0 with a missing or empty output stores the fixed "output file is empty or missing" message |
| Clips.RenderSteps | app/routers/clips.py:17-72 | command.log is written before the spawn, stdout.log and stderr.log are both written before the only status update, which comes last; an exception stops the sequence and the status records its text |
| Clips.RenderVideo | app/routers/clips.py:17-72 | the job store is updated once with the classified outcome; the request inputs are untouched |
| Clips.CreateClip | app/routers/clips.py:75-90 | the processing record and the request are stored before the command is compiled; the reply is that record, or the compiler's error with the record left behind |
| Clips.GetClipStatus | app/routers/clips.py:93-98 | 404 for an unknown job, otherwise its record |
| Clips.DownloadVideo | app/routers/clips.py:101-126 | 404 for an unknown job, 400 "Video not ready" unless the job is COMPLETED, 404 when the output file is missing, otherwise the file as video/mp4 with its basename as the attachment name |
| TemplateModels.ParseElementTypeIff | app/models/template_clip.py:5-9 | a type string is accepted exactly when it is one of video, image, text and audio |
| TemplateModels.ParseTypeValue | app/models/template_clip.py:5-9 | each element type reads back from its value |
| TemplateModels.TimelineErrors | app/models/template_clip.py:11-13 | no timeline error exactly when start ≥ 0 and duration > 0; each error names its field |
| TemplateModels.ValidateSourceTextIff | app/models/template_clip.py:21-28 | a falsy value is rejected exactly when the type validated; text elements get the "text is required" message, the others the "source is required" one; otherwise the value is returned unchanged |
| TemplateModels.ValidateElementIff | app/models/template_clip.py:15-28 | an element validates exactly when its type is known, its timeline is within bounds and no supplied source or text is falsy; the valid element holds the inputs |
| TemplateModels.UntypedSkipsSourceText | app/models/template_clip.py:21-23 | with an unknown type only the type error and the timeline errors are reported; the source/text check is not made |
| TemplateModels.ValidElementHasContent | app/models/template_clip.py:12-28 | a valid element has a non-empty source or text wherever one was supplied, and a timeline within bounds |
| TemplateMerge.MaxEnd | app/routers/template_clip.py:42-48 | the total duration is the largest start + duration of the elements and is reached by one of them |
| TemplateMerge.TransformToVideoRequest | app/routers/template_clip.py:24-157 | the total duration is written into the template's own output before any element is merged; no elements give the output's duration or 10 and an empty list; otherwise the merged elements in order, or the first failure |
| TemplateMerge.TransformElement | app/routers/template_clip.py:52-151 | the imperative merge of one element equals `MergedElement` |
| TemplateMerge.MergeTransform | app/routers/template_clip.py:75-110 | the imperative transform merge equals the transform rule `TransformOf` |
| TemplateMerge.MergeAudioProps | app/routers/template_clip.py:113-123 | the imperative audio-property loop equals `WithProps` |
| TemplateMerge.MergeStyle | app/routers/template_clip.py:131-149 | the imperative style merge equals `StyleOf` |
| TemplateMerge.MergedElementsDistinctIds | app/routers/template_clip.py:51-151 | the output list has the input's length and order, each entry is the merge of its element at its position, and ids are pairwise distinct |
| TemplateMerge.ElementIdsDistinct | app/routers/template_clip.py:62 | equal ids `<type>-<position>` come from equal positions |
| TemplateMerge.MergedElementFields | app/routers/template_clip.py:60-70 | every merged element has its type, id and timeline; `source` for video/image/audio, `text` for text, and not the other |
| TemplateMerge.MergedElementExtras | app/routers/template_clip.py:75-149 | a transform exactly for non-audio elements, an audio flag exactly for video and a style exactly for text |
| TemplateMerge.TransformWithPosition | app/routers/template_clip.py:84-103 | with a user position: the template position overridden by the non-None user keys, then the other template keys overridden by the non-None user keys |
| TemplateMerge.TransformWithoutPosition | app/routers/template_clip.py:104-107 | without a user position: `{**template, **user}`, None values kept |
| TemplateMerge.TransformWithoutUser | app/routers/template_clip.py:108-110 | with no user transform, the template's transform (or `{}`) |
| TemplateMerge.AudioPropsRule | app/routers/template_clip.py:113-123 | volume, fade_in and fade_out take the user value if not None, else the template value if not None, else they are absent |
| TemplateMerge.VideoAudioFlag | app/routers/template_clip.py:126-128 | the video audio flag is the template's "audio" default or True; any user value is ignored |
| TemplateMerge.StyleOfRule | app/routers/template_clip.py:131-149 | the text style has the built-in keys, each from the template style or the default Arial/48/white/center/rgba(0,0,0,0.3), overridden by every set, non-None user style field |
| TemplateMerge.DefaultStyleFields | app/routers/template_clip.py:133-140 | the default style has exactly the built-in keys, each taken from the template style when given |
| TemplateMerge.TextStyleRule | app/routers/template_clip.py:131-149 | a merged text element carries that style |
| TemplateMerge.MapResultsShape | app/routers/template_clip.py:52-151 | the element loop succeeds exactly when every element merges, with one result per element in order |
| TemplateMerge.MapResultsFailure | app/routers/template_clip.py:52-151 | one failing element makes the whole merge fail |
| JsonValue.OverridesMeaning | app/routers/template_clip.py:93-103 | overriding a dict by the non-None keys of another keeps every base key and adds exactly those keys, with the user's value winning |
| JsonValue.ApplyOverrides | app/routers/template_clip.py:93-97 | the key-by-key override loop equals `Overrides` |
| FrameJobs.ParseStatusIff | app/services/job_status.py:9-13 | a status string is accepted exactly when it is one of pending, processing, completed and failed |
| FrameJobs.ParseStatusValue | app/services/job_status.py:9-13 | each status reads back from its value |
| FrameJobs.Fresh | app/services/job_status.py:36-49 | a new job is pending with no results and 0 completed frames, so the count invariant holds |
| FrameJobs.RecordFrameCounts | app/services/job_status.py:61-62 | a frame update appends exactly one result, adds exactly 1 to completed_frames and keeps completed_frames == len(results) |
| FrameJobs.RecordFrameStatus | app/services/job_status.py:65-73 | after a frame update: COMPLETED exactly when all frames are in and all succeeded, FAILED with "Some frames failed to generate" exactly when all are in and one failed, PROCESSING otherwise |
| FrameJobs.FrameAfterCompletion | app/services/job_status.py:61-73 | with no terminal guard, a frame after completion resets the status to PROCESSING and pushes the count past the total |
| FrameJobs.WithErrorOverrides | app/services/job_status.py:83-84 | `set_job_error` overrides any status with FAILED and the message, and keeps the counts |
| FrameJobs.WithStatusCounts | app/services/job_status.py:95-98 | a status update stores the status; COMPLETED sets completed_frames to the total |
| FrameJobs.CompletedBreaksCount | app/services/job_status.py:97-98 | an example on a fresh 3-frame job: `update_job_status('completed')` can break completed_frames == len(results) |
| FrameJobs.JobStatusManager.CreateJob | app/services/job_status.py:36-49 | stores a fresh job under the id, replacing any entry |
| FrameJobs.JobStatusManager.GetJob | app/services/job_status.py:51-53 | None exactly for an unknown id, otherwise the stored job |
| FrameJobs.JobStatusManager.UpdateJob | app/services/job_status.py:55-75 | None and no change for an unknown id; otherwise the job's state becomes its frame update |
| FrameJobs.JobStatusManager.SetJobError | app/services/job_status.py:77-87 | None and no change for an unknown id; otherwise the job is failed with the message |
| FrameJobs.JobStatusManager.UpdateJobStatus | app/services/job_status.py:89-100 | None for an unknown id; an unknown status string raises, leaving the job unchanged; otherwise the status update |
| PipelineContext.Initial | app/services/video_pipeline/context.py:11-21 | a fresh context has the URL, no errors and empty metadata |
| PipelineContext.WithErrorFails | app/services/video_pipeline/context.py:27-29 | adding an error appends exactly that message at the end; the context then has errors |
| PipelineContext.LanguageCodeDefault | app/services/video_pipeline/context.py:31-33 | the language code is the stored one if present, else "es" |
| PipelineContext.VideoContext.AddError | app/services/video_pipeline/context.py:27-29 | appends the message and changes no other field |
| PipelineContext.VideoContext.GetLanguageCode | app/services/video_pipeline/context.py:31-33 | returns the language code of the context |
| PipelineContext.VideoContext.constructor | app/services/video_pipeline/context.py:11-21 | the new context is the fresh state of its URL |
| PipelineSteps.DisabledStepSkips | app/services/video_pipeline/steps/base_step.py:36-38 | a disabled step returns the context untouched, whatever its processing would do |
| PipelineSteps.ErrorsGateOnlyPlainSteps | app/services/video_pipeline/steps/base_step.py:40-42 | a BaseStep leaves a context with errors untouched; a NonCriticalStep runs regardless |
| PipelineSteps.RaisedAddsOneError | app/services/video_pipeline/steps/base_step.py:45-51 | a step that raises appends exactly one "Error in step <name>: …" message; one that returns leaves what its processing left |
| PipelineSteps.ErrorsOnlyGrow | app/services/video_pipeline/steps/base_step.py:24-100 | the wrappers never remove errors: the list before is a prefix of the list after |
| PipelineSteps.PipelineStep.Call | app/services/video_pipeline/steps/base_step.py:24-100 | running the step leaves the context as the wrapper rule says for its flags and its processing |
| PipelineProcessor.VideoProcessor.constructor | app/services/video_pipeline/processor.py:57-63 | the default steps in the order identify_platform, download_video, extract_audio, transcribe_audio, create_collage, all enabled plain steps |
| PipelineProcessor.VideoProcessor.GetStep | app/services/video_pipeline/processor.py:74-77 | the first step with the name, or None when no step has it |
| PipelineProcessor.FirstNamedSpec | app/services/video_pipeline/processor.py:74-77 | none exactly when no step has the name; otherwise the index of the first one with it |
| PipelineProcessor.VideoProcessor.EnableStep | app/services/video_pipeline/processor.py:86-91 | an unknown name changes no flag; otherwise only the found step gets the flag and every other step keeps its own |
| PipelineProcessor.VideoProcessor.AddStep | app/services/video_pipeline/processor.py:100-105 | the list becomes the old list with the step inserted at the position, or appended for a negative or too large position |
| PipelineProcessor.InsertedPlacement | app/services/video_pipeline/processor.py:100-105 | the list grows by one, holds the step at the insertion index, and the other steps keep their relative order |
| PipelineProcessor.VideoProcessor.RunSteps | app/services/video_pipeline/processor.py:122-137 | the loop leaves the context as `Run`: steps in order, stopping right after identify_platform, download_video or extract_audio when the context then has errors |
| PipelineProcessor.FailedRunFrozen | app/services/video_pipeline/processor.py:134-137 | once the context has errors, plain steps change nothing, so continuing after a failed transcription leaves the context as it is |
| PipelineProcessor.RunErrorsOnlyGrow | app/services/video_pipeline/processor.py:122-137 | a run never loses an error |
| PipelineProcessor.UnsupportedUrlStops | app/services/video_pipeline/processor.py:127-132 | an unsupported URL ends the run after the first step with exactly its one error |
| PipelineProcessor.Start | app/services/video_pipeline/processor.py:118-119 | the run begins with no errors and the requested language code |
| PipelineProcessor.VideoProcessor.DownloadVideo | app/services/video_pipeline/processor.py:107-141 | the four paths of the context as the run leaves it |
| PipelineProcessor.VideoProcessor.DownloadVideoExtended | app/services/video_pipeline/processor.py:143-197 | the paths, transcript, metadata and the SRT content of the run's context |
| IdentifyPlatform.IdentifyClassifies | app/services/video_pipeline/steps/identify_platform.py:10-41 | twitter exactly for a URL naming twitter.com or x.com, checked first; tiktok for one naming tiktok.com and neither; otherwise exactly one error, platform and id untouched |
| IdentifyPlatform.IdsAreClean | app/services/video_pipeline/steps/identify_platform.py:21-32 | an extracted id never contains '?'; a last-segment id (every twitter id) never contains '/' |
| IdentifyPlatform.BeforeQueryIsPrefix | app/services/video_pipeline/steps/identify_platform.py:22 | the cut at '?' is a prefix of what was cut and holds no '?' |
| IdentifyPlatform.TrailingSlashEmptyId | app/services/video_pipeline/steps/identify_platform.py:30-32 | a URL ending in '/' without "/video/" yields an empty id |
| IdentifyPlatform.NetflixIsTwitter | app/services/video_pipeline/steps/identify_platform.py:21-25 | an example on one URL: a netflix.com URL is classified as twitter, since it contains "x.com" |
| IdentifyPlatform.Process | app/services/video_pipeline/steps/identify_platform.py:10-41 | the imperative step leaves the context as `Identify` says |
| Strings.Sort | app/services/video_pipeline/steps/create_collage.py:69 | `sorted` of the listing: ordered, and a permutation of it |
| Collage.CreateCollage | app/services/video_pipeline/steps/create_collage.py:69-79 | selects the first min(n, max_frames) names in sorted order, deletes exactly the other files, and returns the tile grid of the selection |
| Collage.SelectionSplits | app/services/video_pipeline/steps/create_collage.py:69-74 | the kept and the deleted names together are the sorted listing, as many kept as the cap allows, each kept name sorting no later than a deleted one |
| Collage.GridCovers | app/services/video_pipeline/steps/create_collage.py:78-79 | for n ≥ 1 selected frames, cols·rows ≥ n > cols·(rows−1); no frames give no rows |
| Collage.CappedGrid | app/services/video_pipeline/steps/create_collage.py:78-121 | with at most six frames the grid is at most 3 by 2 |
| Collage.FallbackThreshold | app/services/video_pipeline/steps/create_collage.py:133-142 | the scene frames are kept exactly when their extraction succeeded with at least 4; 3 falls back, 4 does not |
| Collage.CollagePath | app/services/video_pipeline/steps/create_collage.py:112-114 | the collage file name ends in "_collage.jpg" |
| Collage.CollageOutcome | app/services/video_pipeline/steps/create_collage.py:103-166 | the step never raises; with the video present and the collage made only collage_path is set; otherwise exactly one error is added |
| ImageGenerator.NextSequenceNumber | app/services/image_generator.py:48-60 | the result is at least 1, greater than every parsed number of an image_*.png name, and is 1 or one more than a parsed number |
| ImageGenerator.ImageNames | app/services/image_generator.py:50 | only names starting with "image_" and ending with ".png" count |
| ImageGenerator.SequenceOfImageFileName | app/services/image_generator.py:133-134 | `image_<seq:03d>.png` is an image name whose number parses back to seq |
| ImageGenerator.NextImagePath | app/services/image_generator.py:133-135 | the new file is `image_<seq:03d>.png` in the directory, and no existing file has that name |
| ImageGenerator.ResizeTo916 | app/services/image_generator.py:62-89 | width 1080; the resized height is floor(1080·h/w); the canvas height is max(that, 1920) |
| ColorUtils.HexToRgb | scripts_examples/utils.py:11-13 | each field is read as `int(_, 16)` reads an ASCII field: white space stripped, a sign allowed, ASCII hex digits; so each component is in -15..255; none for any other field (see Left out for Unicode digits) |
| ColorUtils.FieldSpacesAndSigns | scripts_examples/utils.py:13 | a one-digit field with white space before or after reads as the digit; with '+' as the digit, with '-' as its negation |
| ColorUtils.FieldWithoutDigits | scripts_examples/utils.py:13 | a field of only white space or only a sign makes `int` raise |
| ColorUtils.HexFieldOfDigits | scripts_examples/utils.py:13 | a field of one or two hex digits reads as their base-16 value |
| ColorUtils.RgbToHex | scripts_examples/utils.py:15-16 | '#' and three `02x` fields, a negative component printed as '-' and its hex digits |
| ColorUtils.RgbToHexLength | scripts_examples/utils.py:15-16 | components in -15..255, the range `hex_to_rgb` gives, print as exactly seven characters |
| ColorUtils.HexToRgbOfRgbToHex | scripts_examples/utils.py:11-16 | reading back a printed colour gives the colour, for every component in -15..255 ("#-1-1-1" reads as (-1, -1, -1)) |
| ColorUtils.RgbToHexOfHexToRgb | scripts_examples/utils.py:11-16 | printing a read colour gives '#' and the first six hex digits after the leading '#'s, in lower case |
| BaseUrl.GetBaseUrl | app/utils/url.py:18-28 | unchanged off Fly.io or without an "http:" prefix; on Fly.io with one, "https:" and the rest of the URL |
| BaseUrl.OnFlyNeverHttp | app/utils/url.py:21-24 | on Fly.io the result never starts with "http:" |
| BaseUrl.GetBaseUrlIdempotent | app/utils/url.py:21-24 | applying the rewrite twice equals applying it once |
| Cookies.WithHeader | fix_cookies.py:38-47 | the Netscape header is prepended exactly when the content neither starts with the marker line nor mentions "HTTP Cookie File"; the content is always the tail of the result |
| Cookies.HeaderOnlyWhenMissing | fix_cookies.py:38-47 | content with the marker is unchanged, and adding the header twice adds it once |
| Cookies.CollectDomains | fix_cookies.py:50-55 | the domain set is the first tab field of every non-blank, non-comment line with at least two fields |
| Cookies.CollectCriticalCookies | fix_cookies.py:66-75 | the found cookies are the sixth fields, on such lines with at least seven fields, that are critical; found ⊆ critical |
| Cookies.FixYoutubeCookies | fix_cookies.py:8-92 | False without writing when the input is absent; otherwise writes the content, with the header when needed, to the output file (the input file by default), and reports the domains and cookies of the original lines, with missing = expected − found |

## Left out

- Python's printing of numbers in filter strings (`str(float)`) is the
  parameter `show`. Integers are printed by a decimal function.
- The `-vf` branch of `generate_command` is not modelled as a separate
  path. It can only be reached with neither video nor text elements, and
  then it collects nothing.
- Rgba.RgbaToHex: components with a sign, an exponent, underscores or an
  `inf`/`nan` spelling count as failures, as does white space inside "rgba(".
  Python accepts some of these; a negative component even prints as "-1".
  `int(float(x))` is taken as the exact whole part of the literal. Python
  agrees for literals of up to 15 significant digits. A longer literal can
  round up (`127.99999999999999999` reads as 128 there), lose digits above
  2^53, or, beyond about 1.8e308, raise `OverflowError`; the model accepts
  all of these with their exact whole part.
  Only ASCII digits and the white space up to U+00A0 are read. Python's
  `float()` first maps every Unicode decimal digit to its ASCII digit and
  strips all Unicode white space, so `rgba(٣,0,0,1)` gives "#030000" there
  and `float("1\u2003")` succeeds; the model fails on both.
- The JSON files, `os.getcwd`, `makedirs`, log files and the logger are
  not modelled. The render store is two maps from job id. Log writes are
  effects in a list, and their failures are inputs.
- The subprocess, `asyncio` and `BackgroundTasks` scheduling are not
  modelled. The render's exit code, output streams, output file and raised
  exceptions are the input `RenderRun`.
- Exceptions from foreign code are abstract strings in place of their
  exact `str(e)` wording.
- HTTP responses are the datatype `Reply`. FastAPI's serialisation is not
  modelled.
- The template merge's input is the user element as
  `process_special_properties()`, `getattr` and `style.dict(exclude_unset=True)`
  return it. `process_special_properties` is not defined on `Element` in
  app/models/template_clip.py, so what it returns is an input here.
- The result of the template merge is the element dictionaries. Building a
  `VideoRequest` from them is not modelled: template_clip.py imports it
  from app/models/video.py, which does not define it.
- The template merge's `user_transform.pop("position")` mutation of the
  caller's dictionary is not modelled.
- The ids of the template merge are written with the type's value. How an
  `Enum` member renders in an f-string is not modelled.
- Template values that are not dicts where the code expects one make the
  merge fail. No other `AttributeError` detail is modelled. There is one
  exception where Python does not raise: the template "position" is a list
  and the user position is empty or all None. `list.copy()` then succeeds,
  the loop assigns nothing, and the list is stored as the position. The
  model (`TemplateMerge.TransformOf`, `TemplateMerge.MergeTransform`) fails
  with `NotADict` instead.
- `create_template_clip` and template loading are not part of this model.
- Pydantic's error envelope (the error list, its `type` codes and the
  context values) is not modelled. Each error is a field location and the
  fixed message pydantic v1 gives (`EnumMessage`, `GeZeroMessage`,
  `GtZeroMessage`, and the validator's own two messages). Values that are
  omitted (defaults) are not validated, as pydantic does not validate them.
- ImageGenerator.NextSequenceNumber: only ASCII decimal digit strings
  parse. Python's `int()` also accepts signs, underscores, white space and
  Unicode decimal digits, so `image_-5.png` would give -4 there.
- ImageGenerator.ResizeTo916: integer floor division stands for
  `int(float division)`. They agree for sizes below 2^53. The member
  requires a positive width: at width 0, Python raises `ZeroDivisionError`,
  and that case is not modelled (PNG forbids a width of 0). The PIL resize
  and paste are not modelled.
- The Gemini call and the rest of `generate_image` are not part of this
  model.
- Cookies.FixYoutubeCookies: exceptions while reading or writing are not
  modelled, and the file size and printed reports are left out.
  `str.strip()` treats white space up to U+00A0; wider Unicode white space
  is not modelled.
- The command-line wrapper of fix_cookies.py is not modelled.
- `VideoContext.metadata` holds only string values, the language code
  being the only entry the pipeline code stores.
- The processing of the download, audio-extraction and transcription
  steps (yt-dlp, ffmpeg, AssemblyAI) is a parameter of `VideoProcessor`.
  Those files are not part of this model.
- For the collage step, the ffmpeg frame extraction and tile call, the
  glob listing and the cleanup of the frames directory are not modelled.
  The listing and the outcome of the collage making are parameters.
- `CreateCollageStep.process` inherits the plain-step gate from its base.
  It is modelled as `Collage.CollageProcess`, which can be given to the
  processor as the collage step.
- ColorUtils.HexToRgb: only ASCII hex digits and the white space up to
  U+00A0 that `str.strip()` uses are read. Python's `int(_, 16)` first maps
  every Unicode decimal digit to its ASCII digit and all Unicode white space
  to ' ', so `hex_to_rgb("#٣٣٣٣٣٣")` is (51, 51, 51) there and None in the
  model.
- The current time is the parameter `now`. The SRT file read is the
  parameter `read`.
- `interpolate_color`, `parse_color` and the SVG helpers of
  scripts_examples/utils.py are not modelled. They use floating point or
  foreign libraries.

/** `FFmpegService.generate_command`: a video request becomes the argument
    list of one encoder invocation. Numbers the Python code prints with
    `str()` or an f-string are printed by the parameter `show`. */
module FfmpegCommand {
  import opened Wrappers
  import opened Strings
  import opened VideoRequest
  import opened FfmpegFilters

  function BackgroundSource(o: Output, show: real -> string): string {
    "color=c=" + o.backgroundColor + ":s=" + NatToString(o.resolution.width) + "x"
    + NatToString(o.resolution.height) + ":r=" + show(o.frameRate) + ":d=" + show(o.duration)
  }

  function BaseArgs(o: Output, show: real -> string): seq<string> {
    ["ffmpeg", "-y", "-f", "lavfi", "-i", BackgroundSource(o, show)]
  }

  function InputArgs(vs: seq<Element>): seq<string>
    requires forall k :: 0 <= k < |vs| ==> vs[k].VideoElement?
  {
    if vs == [] then [] else InputArgs(vs[..|vs| - 1]) + ["-i", vs[|vs| - 1].source]
  }

  lemma {:induction false} InputArgsLayout(vs: seq<Element>)
    requires forall k :: 0 <= k < |vs| ==> vs[k].VideoElement?
    ensures |InputArgs(vs)| == 2 * |vs|
    ensures forall k :: 0 <= k < |vs| ==> InputArgs(vs)[2 * k] == "-i" && InputArgs(vs)[2 * k + 1] == vs[k].source
  {
    if vs != [] {
      var init := vs[..|vs| - 1];
      InputArgsLayout(init);
      assert forall k :: 0 <= k < |init| ==> init[k] == vs[k];
    }
  }

  const AudioMap: seq<string> := ["-map", "1:a?"]
  const AudioCodec: seq<string> := ["-c:a", "aac", "-b:a", "128k"]

  /** `-filter_complex` with the joined filters stripped of trailing ';', and
      `-map` of the last label (and of the first input's audio), when there are
      filters at all. */
  function GraphArgs(filterParts: seq<string>, last: Label, hasAudio: bool): seq<string> {
    if filterParts == [] then []
    else
      ["-filter_complex", RStrip(Concat(filterParts), {';'}), "-map", Bracketed(last)]
      + (if hasAudio then AudioMap else [])
  }

  /** The position of `-filter_complex`: after the encoder, the overwrite
      flag, the background input and one `-i <source>` per video element. */
  function GraphStart(es: seq<Element>): nat {
    6 + 2 * |Videos(es)|
  }

  /** The `-filter_complex` argument of a graph: its rendered filters joined,
      with the trailing ';' stripped. */
  function GraphText(steps: seq<FilterStep>, show: real -> string): string {
    RStrip(Concat(RenderParts(steps, show)), {';'})
  }

  function EncodeArgs(o: Output, show: real -> string): seq<string> {
    ["-t", show(o.duration), "-c:v", "libx264", "-preset", "medium", "-pix_fmt", "yuv420p"]
  }

  function AudioArgs(hasAudio: bool): seq<string> {
    if hasAudio then AudioCodec else []
  }

  /** The argument list in the order `generate_command` extends it: background
      input, video inputs, filter graph, encoding flags, audio codec, output path. */
  function Assemble(o: Output, vs: seq<Element>, graph: seq<string>, hasAudio: bool, outputPath: string,
                    show: real -> string): seq<string>
    requires forall k :: 0 <= k < |vs| ==> vs[k].VideoElement?
  {
    BaseArgs(o, show) + InputArgs(vs) + graph + EncodeArgs(o, show) + AudioArgs(hasAudio) + [outputPath]
  }

  /** The argument list `generate_command` returns, or the failure it raises. */
  function Command(scene: Scene, outputPath: string, show: real -> string): Result<seq<string>> {
    var es := scene.elements;
    match FilterGraph(es)
    case Failure(e) => Failure(e)
    case Success((steps, last)) =>
      Success(Assemble(scene.output, Videos(es), GraphArgs(RenderParts(steps, show), last, HasVideoAudio(es)),
                       HasVideoAudio(es), outputPath, show))
  }

  /** The command fails exactly when the text pass does, with its message. */
  lemma {:induction false} CommandFails(scene: Scene, outputPath: string, show: real -> string)
    requires TextPass(scene.elements, ChainBefore(|Videos(scene.elements)|)).Failure?
    ensures Command(scene, outputPath, show)
            == Failure(TextPass(scene.elements, ChainBefore(|Videos(scene.elements)|)).error)
  {
  }

  /** Otherwise it is the assembly of the video steps followed by the text steps. */
  lemma {:induction false} CommandSucceeds(scene: Scene, outputPath: string, show: real -> string,
                                           ts: seq<FilterStep>, last: Label, graph: seq<string>)
    requires TextPass(scene.elements, ChainBefore(|Videos(scene.elements)|)) == Success((ts, last))
    requires graph == GraphArgs(RenderParts(VideoSteps(Videos(scene.elements)) + ts, show), last,
                                HasVideoAudio(scene.elements))
    ensures Command(scene, outputPath, show)
            == Success(Assemble(scene.output, Videos(scene.elements), graph, HasVideoAudio(scene.elements),
                                outputPath, show))
  {
    var es := scene.elements;
    assert FilterGraph(es) == Success((VideoSteps(Videos(es)) + ts, last));
  }

  // ------------------------------------------------------- generate_command

  datatype VideoItem = VideoItem(index: nat, element: Element)

  /** The first loop of `generate_command`: one `-i <source>` per video
      element, and the video items numbered from input 1. */
  method CollectVideoInputs(es: seq<Element>) returns (inputs: seq<string>, videoItems: seq<VideoItem>)
    ensures inputs == InputArgs(Videos(es))
    ensures |videoItems| == |Videos(es)|
    ensures forall k :: 0 <= k < |videoItems| ==> videoItems[k] == VideoItem(k + 1, Videos(es)[k])
  {
    inputs := [];
    videoItems := [];
    var inputIndex := 1;
    for j := 0 to |es|
      invariant inputIndex == |videoItems| + 1
      invariant |videoItems| == |Videos(es[..j])|
      invariant forall k :: 0 <= k < |videoItems| ==> videoItems[k] == VideoItem(k + 1, Videos(es[..j])[k])
      invariant inputs == InputArgs(Videos(es[..j]))
    {
      assert es[..j + 1][..j] == es[..j];
      assert Videos(es[..j + 1]) == Videos(es[..j]) + (if es[j].VideoElement? then [es[j]] else []);
      if es[j].VideoElement? {
        ghost var vj := Videos(es[..j]) + [es[j]];
        assert vj[..|vj| - 1] == Videos(es[..j]);
        assert InputArgs(vj) == InputArgs(Videos(es[..j])) + ["-i", es[j].source];
        inputs := inputs + ["-i", es[j].source];
        videoItems := videoItems + [VideoItem(inputIndex, es[j])];
        inputIndex := inputIndex + 1;
      } else {
        assert Videos(es[..j + 1]) == Videos(es[..j]);
      }
    }
    assert es[..|es|] == es;
  }

  /** The body of the second loop: the trim-and-scale filter of one video
      item and its overlay onto the composite so far. */
  method VideoItemSteps(item: VideoItem, lastVideo: Label, overlayCount: nat)
    returns (trim: FilterStep, overlay: FilterStep)
    requires item.element.VideoElement?
    ensures item.index == overlayCount + 1 ==> trim == VideoTrim(overlayCount, item.element)
    ensures item.index == overlayCount + 1 && lastVideo == ChainBefore(overlayCount)
            ==> overlay == VideoOverlay(overlayCount, item.element)
  {
    var idx := item.index;
    var element := item.element;
    var startTime := element.timeline.start;
    var duration := element.timeline.duration;
    var inPoint := element.timeline.inPoint;
    var scale := EffectiveScale(element.transform);
    var xPos := OverlayCoord(element.transform.position.x);
    var yPos := OverlayCoord(element.transform.position.y);
    trim := TrimScale(idx, inPoint, inPoint.GetOr(0.0) + duration, scale, Scaled(idx));
    overlay := Overlay(lastVideo, Scaled(idx), xPos, yPos, startTime, startTime + duration, Overlaid(overlayCount));
  }

  /** The second loop: trim, scale and overlay each video in turn. */
  method VideoFilterParts(videoItems: seq<VideoItem>, ghost vs: seq<Element>, show: real -> string)
    returns (filterParts: seq<string>, lastVideo: Label)
    requires forall k :: 0 <= k < |vs| ==> vs[k].VideoElement?
    requires |videoItems| == |vs| && forall k :: 0 <= k < |vs| ==> videoItems[k] == VideoItem(k + 1, vs[k])
    ensures filterParts == RenderParts(VideoSteps(vs), show)
    ensures lastVideo == ChainBefore(|vs|)
  {
    filterParts := [];
    lastVideo := Background;
    var overlayCount := 0;
    for k := 0 to |videoItems|
      invariant overlayCount == k && lastVideo == ChainBefore(k)
      invariant filterParts == RenderParts(VideoSteps(vs[..k]), show)
    {
      var trim, overlay := VideoItemSteps(videoItems[k], lastVideo, overlayCount);
      VideoPartsSnoc(vs, k, show);
      filterParts := filterParts + [RenderStep(trim, show), RenderStep(overlay, show)];
      lastVideo := Overlaid(overlayCount);
      overlayCount := overlayCount + 1;
    }
    assert vs[..|vs|] == vs;
  }

  /** The third loop: one drawtext per text element, or the failure of a
      background colour that does not convert. */
  method TextFilterParts(es: seq<Element>, base: Label, show: real -> string)
    returns (result: Result<(seq<string>, Label)>)
    ensures TextPass(es, base).Failure? <==> result.Failure?
    ensures result.Failure? ==> result.error == TextPass(es, base).error
    ensures result.Success? ==>
              result.value == (RenderParts(TextPass(es, base).value.0, show), TextPass(es, base).value.1)
  {
    var filterParts: seq<string> := [];
    var lastVideo := base;
    ghost var textSteps: seq<FilterStep> := [];
    for i := 0 to |es|
      invariant TextPass(es[..i], base) == Success((textSteps, lastVideo))
      invariant filterParts == RenderParts(textSteps, show)
    {
      var element := es[i];
      assert TextPass(es[..i + 1], base) == TextStep(Success((textSteps, lastVideo)), element, i) by {
        TextPassPrefix(es, base, i);
      }
      if element.TextElement? {
        var boxColor := BoxColor(element.style.backgroundColor);
        if boxColor.Failure? {
          assert TextPass(es, base) == Failure(boxColor.error) by {
            assert es[..i + 1][..i] == es[..i];
            TextPassFailureSticks(es, base, i + 1);
          }
          return Failure(boxColor.error);
        }
        var draw := TextDraw(element, i, lastVideo, boxColor.value);
        assert RenderParts(textSteps + [draw], show) == filterParts + [RenderStep(draw, show)] by {
          RenderPartsAppend(textSteps, [draw], show);
          RenderPartsSingle(draw, show);
        }
        filterParts := filterParts + [RenderStep(draw, show)];
        textSteps := textSteps + [draw];
        lastVideo := Drawn(i);
      }
    }
    assert es[..|es|] == es;
    result := Success((filterParts, lastVideo));
  }

  /** The branch after the loops: `-filter_complex` and `-map` when there are
      filters. The plain `-vf` path of the other branch only collects text
      elements, and there are none when no filter was built (`NoFiltersNoText`),
      so that branch adds nothing. */
  method GraphArguments(filterParts: seq<string>, lastVideo: Label, hasAudio: bool) returns (graph: seq<string>)
    ensures graph == GraphArgs(filterParts, lastVideo, hasAudio)
  {
    graph := [];
    if |filterParts| > 0 {
      var filterComplex := RStrip(Concat(filterParts), {';'});
      graph := graph + ["-filter_complex", filterComplex];
      graph := graph + ["-map", Bracketed(lastVideo)];
      if hasAudio {
        graph := graph + ["-map", "1:a?"];
      }
    }
  }

  /** `generate_command`, loop by loop as the Python code runs. */
  method GenerateCommand(scene: Scene, outputPath: string, show: real -> string)
    returns (result: Result<seq<string>>)
    ensures result == Command(scene, outputPath, show)
  {
    var es := scene.elements;
    ghost var vs := Videos(es);
    var cmd := ["ffmpeg", "-y"];
    cmd := cmd + ["-f", "lavfi", "-i", BackgroundSource(scene.output, show)];
    assert cmd == BaseArgs(scene.output, show);
    var inputs, videoItems := CollectVideoInputs(es);
    cmd := cmd + inputs;
    var videoParts, lastVideo := VideoFilterParts(videoItems, vs, show);
    var texts := TextFilterParts(es, lastVideo, show);
    if texts.Failure? {
      CommandFails(scene, outputPath, show);
      return Failure(texts.error);
    }
    ghost var ts := TextPass(es, ChainBefore(|vs|)).value.0;
    ghost var steps := VideoSteps(vs) + ts;
    var filterParts := videoParts + texts.value.0;
    assert filterParts == RenderParts(steps, show) by {
      RenderPartsAppend(VideoSteps(vs), ts, show);
    }
    lastVideo := texts.value.1;
    var hasAudio := HasVideoAudio(es);
    var graph := GraphArguments(filterParts, lastVideo, hasAudio);
    cmd := cmd + graph;
    cmd := cmd + ["-t", show(scene.output.duration), "-c:v", "libx264", "-preset", "medium", "-pix_fmt", "yuv420p"];
    assert cmd == BaseArgs(scene.output, show) + InputArgs(vs) + graph + EncodeArgs(scene.output, show);
    if hasAudio {
      cmd := cmd + ["-c:a", "aac", "-b:a", "128k"];
    }
    assert cmd == BaseArgs(scene.output, show) + InputArgs(vs) + graph + EncodeArgs(scene.output, show)
                  + AudioArgs(hasAudio);
    cmd := cmd + [outputPath];
    CommandSucceeds(scene, outputPath, show, ts, lastVideo, graph);
    return Success(cmd);
  }

  /** Where each of six concatenated lists sits in the whole. */
  lemma {:induction false} SixParts<T>(a: seq<T>, b: seq<T>, c: seq<T>, d: seq<T>, e: seq<T>, f: seq<T>)
    ensures var r := a + b + c + d + e + f;
      var i1 := |a|;
      var i2 := i1 + |b|;
      var i3 := i2 + |c|;
      var i4 := i3 + |d|;
      var i5 := i4 + |e|;
      && |r| == i5 + |f|
      && r[..i1] == a && r[i1..i2] == b && r[i2..i3] == c
      && r[i3..i4] == d && r[i4..i5] == e && r[i5..] == f
  {
    var r := a + b + c + d + e + f;
    var x := a + b + c + d + e;
    var y := a + b + c + d;
    var z := a + b + c;
    var w := a + b;
    assert r[..|x|] == x && r[|x|..] == f;
    assert x[..|y|] == y && x[|y|..] == e;
    assert y[..|z|] == z && y[|z|..] == d;
    assert z[..|w|] == w && z[|w|..] == c;
    assert w[..|a|] == a && w[|a|..] == b;
  }

  /** Where each part of the argument list sits. */
  lemma {:induction false} AssembleLayout(o: Output, vs: seq<Element>, graph: seq<string>, hasAudio: bool,
                                          outputPath: string, show: real -> string)
    requires forall k :: 0 <= k < |vs| ==> vs[k].VideoElement?
    ensures var r := Assemble(o, vs, graph, hasAudio, outputPath, show);
      var n := 6 + 2 * |vs|;
      var m := n + |graph|;
      var a := |AudioArgs(hasAudio)|;
      && |r| == m + 9 + a
      && r[..6] == BaseArgs(o, show)
      && r[6..n] == InputArgs(vs)
      && r[n..m] == graph
      && r[m..m + 8] == EncodeArgs(o, show)
      && r[m + 8..m + 8 + a] == AudioArgs(hasAudio)
      && r[m + 8 + a..] == [outputPath]
  {
    InputArgsLayout(vs);
    SixParts(BaseArgs(o, show), InputArgs(vs), graph, EncodeArgs(o, show), AudioArgs(hasAudio), [outputPath]);
  }

  /** The fixed frame of an argument list: the encoder, the overwrite flag and
      the background input first, the output path last, and before it the
      encoding flags followed by the audio codec when `hasAudio` and by
      nothing otherwise. */
  predicate Framed(cmd: seq<string>, o: Output, hasAudio: bool, outputPath: string, show: real -> string) {
    var a := |AudioArgs(hasAudio)|;
    && |cmd| >= 15 + a
    && cmd[..6] == BaseArgs(o, show)
    && cmd[|cmd| - 1] == outputPath
    && cmd[|cmd| - 9 - a..|cmd| - 1 - a] == EncodeArgs(o, show)
    && cmd[|cmd| - 1 - a..|cmd| - 1] == AudioArgs(hasAudio)
  }

  lemma {:induction false} AssembleShape(o: Output, vs: seq<Element>, graph: seq<string>, hasAudio: bool,
                                         outputPath: string, show: real -> string, cmd: seq<string>)
    requires forall k :: 0 <= k < |vs| ==> vs[k].VideoElement?
    requires cmd == Assemble(o, vs, graph, hasAudio, outputPath, show)
    ensures Framed(cmd, o, hasAudio, outputPath, show)
  {
    var m := 6 + 2 * |vs| + |graph|;
    var a := |AudioArgs(hasAudio)|;
    assert |cmd| == m + 9 + a && cmd[m..m + 8] == EncodeArgs(o, show) && cmd[m + 8..m + 8 + a] == AudioArgs(hasAudio)
           && cmd[..6] == BaseArgs(o, show) && cmd[m + 8 + a..] == [outputPath] by {
      AssembleLayout(o, vs, graph, hasAudio, outputPath, show);
    }
    assert |cmd| - 9 - a == m && |cmd| - 1 - a == m + 8 && |cmd| - 1 == m + 8 + a;
    assert cmd[|cmd| - 1] == cmd[m + 8 + a..][0];
  }

  /** A successful command is the assembly of the filter graph's steps and label. */
  lemma {:induction false} CommandAssembled(scene: Scene, outputPath: string, show: real -> string, cmd: seq<string>)
    requires Command(scene, outputPath, show) == Success(cmd)
    ensures FilterGraph(scene.elements).Success?
    ensures var es := scene.elements;
      var g := FilterGraph(es).value;
      cmd == Assemble(scene.output, Videos(es), GraphArgs(RenderParts(g.0, show), g.1, HasVideoAudio(es)),
                      HasVideoAudio(es), outputPath, show)
  {
  }

  /** A successful command is an assembly of some graph arguments. */
  lemma {:induction false} CommandSomeGraph(scene: Scene, outputPath: string, show: real -> string, cmd: seq<string>)
    requires Command(scene, outputPath, show) == Success(cmd)
    ensures exists graph :: cmd == Assemble(scene.output, Videos(scene.elements), graph, HasVideoAudio(scene.elements),
                                           outputPath, show)
  {
    CommandAssembled(scene, outputPath, show, cmd);
  }

  /** Every command has the fixed frame: it starts with the encoder, the
      overwrite flag and the background input, ends with the output path, and
      carries the encoding flags just before the audio codec, which is there
      exactly when a video element carries audio. */
  lemma {:induction false} CommandShape(scene: Scene, outputPath: string, show: real -> string, cmd: seq<string>)
    requires Command(scene, outputPath, show) == Success(cmd)
    ensures Framed(cmd, scene.output, HasVideoAudio(scene.elements), outputPath, show)
  {
    var es := scene.elements;
    CommandSomeGraph(scene, outputPath, show, cmd);
    var graph :| cmd == Assemble(scene.output, Videos(es), graph, HasVideoAudio(es), outputPath, show);
    AssembleShape(scene.output, Videos(es), graph, HasVideoAudio(es), outputPath, show, cmd);
  }

  /** After the background input, one `-i <source>` per video of `vs`, in order. */
  predicate InputsListed(cmd: seq<string>, vs: seq<Element>)
    requires forall k :: 0 <= k < |vs| ==> vs[k].VideoElement?
  {
    && |cmd| >= 6 + 2 * |vs|
    && (forall k :: 0 <= k < |vs| ==> cmd[6 + 2 * k] == "-i" && cmd[7 + 2 * k] == vs[k].source)
  }

  lemma {:induction false} AssembleInputs(o: Output, vs: seq<Element>, graph: seq<string>, hasAudio: bool,
                                          outputPath: string, show: real -> string)
    requires forall k :: 0 <= k < |vs| ==> vs[k].VideoElement?
    ensures InputsListed(Assemble(o, vs, graph, hasAudio, outputPath, show), vs)
  {
    var cmd := Assemble(o, vs, graph, hasAudio, outputPath, show);
    var ins := InputArgs(vs);
    assert |cmd| >= 6 + 2 * |vs| && cmd[6..6 + 2 * |vs|] == ins by {
      AssembleLayout(o, vs, graph, hasAudio, outputPath, show);
    }
    InputArgsLayout(vs);
    forall k | 0 <= k < |vs| ensures cmd[6 + 2 * k] == "-i" && cmd[7 + 2 * k] == vs[k].source {
      assert cmd[6 + 2 * k] == ins[2 * k];
      assert cmd[7 + 2 * k] == ins[2 * k + 1];
    }
  }

  /** The inputs: after the background (input 0), exactly one `-i <source>` per
      video element in element order, so video number k is input k+1. */
  lemma {:induction false} CommandInputs(scene: Scene, outputPath: string, show: real -> string, cmd: seq<string>)
    requires Command(scene, outputPath, show) == Success(cmd)
    ensures InputsListed(cmd, Videos(scene.elements))
  {
    var es := scene.elements;
    CommandSomeGraph(scene, outputPath, show, cmd);
    var graph :| cmd == Assemble(scene.output, Videos(es), graph, HasVideoAudio(es), outputPath, show);
    AssembleInputs(scene.output, Videos(es), graph, HasVideoAudio(es), outputPath, show);
  }

  /** The graph arguments of a non-empty filter list. */
  lemma {:induction false} GraphArgsPresent(filterParts: seq<string>, last: Label, hasAudio: bool)
    requires filterParts != []
    ensures var graph := GraphArgs(filterParts, last, hasAudio);
      && |graph| == (if hasAudio then 6 else 4)
      && graph[..4] == ["-filter_complex", RStrip(Concat(filterParts), {';'}), "-map", Bracketed(last)]
      && (hasAudio ==> graph[4..] == AudioMap)
  {
  }

  lemma {:induction false} AssembleGraphPresent(o: Output, vs: seq<Element>, graph: seq<string>, hasAudio: bool,
                                                outputPath: string, show: real -> string, cmd: seq<string>, n: nat)
    requires forall k :: 0 <= k < |vs| ==> vs[k].VideoElement?
    requires |graph| == (if hasAudio then 6 else 4) && (hasAudio ==> graph[4..] == AudioMap)
    requires cmd == Assemble(o, vs, graph, hasAudio, outputPath, show)
    requires n == 6 + 2 * |vs|
    ensures |cmd| > n + 5
    ensures cmd[n..n + 4] == graph[..4]
    ensures cmd[n + 4] == (if hasAudio then "-map" else "-t")
    ensures hasAudio ==> cmd[n + 5] == "1:a?"
  {
    var m := n + |graph|;
    assert |cmd| > m + 8 && cmd[n..m] == graph && cmd[m..m + 8] == EncodeArgs(o, show) by {
      AssembleLayout(o, vs, graph, hasAudio, outputPath, show);
    }
    assert cmd[n..n + 4] == cmd[n..m][..4];
    if hasAudio {
      assert cmd[n + 4] == graph[4] == graph[4..][0];
      assert cmd[n + 5] == graph[5] == graph[4..][1];
    } else {
      assert cmd[n + 4] == cmd[m..m + 8][0];
    }
  }

  /** From position `n` on: `-filter_complex` and the filter text, `-map` of
      the last label, then `-map 1:a?` when `hasAudio` and otherwise straight
      the encoding flags, which begin with `-t`. */
  predicate GraphPlaced(cmd: seq<string>, n: nat, filterComplex: string, last: Label, hasAudio: bool) {
    && |cmd| > n + 5
    && cmd[n] == "-filter_complex"
    && cmd[n + 1] == filterComplex
    && cmd[n + 2] == "-map" && cmd[n + 3] == Bracketed(last)
    && cmd[n + 4] == (if hasAudio then "-map" else "-t")
    && (hasAudio ==> cmd[n + 5] == "1:a?")
  }

  lemma {:induction false} AssembleWithSteps(o: Output, vs: seq<Element>, steps: seq<FilterStep>, last: Label,
                                             hasAudio: bool, outputPath: string, show: real -> string,
                                             cmd: seq<string>, n: nat)
    requires forall k :: 0 <= k < |vs| ==> vs[k].VideoElement?
    requires steps != []
    requires cmd == Assemble(o, vs, GraphArgs(RenderParts(steps, show), last, hasAudio), hasAudio, outputPath, show)
    requires n == 6 + 2 * |vs|
    ensures GraphPlaced(cmd, n, GraphText(steps, show), last, hasAudio)
  {
    var filterParts := RenderParts(steps, show);
    var graph := GraphArgs(filterParts, last, hasAudio);
    var head := ["-filter_complex", GraphText(steps, show), "-map", Bracketed(last)];
    assert |graph| == (if hasAudio then 6 else 4) && (hasAudio ==> graph[4..] == AudioMap) && graph[..4] == head by {
      GraphArgsPresent(filterParts, last, hasAudio);
    }
    AssembleGraphPresent(o, vs, graph, hasAudio, outputPath, show, cmd, n);
    assert cmd[n..n + 4] == head;
    assert cmd[n..n + 4][0] == cmd[n] && cmd[n..n + 4][1] == cmd[n + 1];
    assert cmd[n..n + 4][2] == cmd[n + 2] && cmd[n..n + 4][3] == cmd[n + 3];
  }

  lemma {:induction false} AssembleGraphAbsent(o: Output, vs: seq<Element>, last: Label, hasAudio: bool,
                                               outputPath: string, show: real -> string)
    requires forall k :: 0 <= k < |vs| ==> vs[k].VideoElement?
    ensures var cmd := Assemble(o, vs, GraphArgs([], last, hasAudio), hasAudio, outputPath, show);
      && |cmd| > 6 + 2 * |vs|
      && cmd[6 + 2 * |vs|] == "-t"
      && (vs == [] && !hasAudio ==> cmd == BaseArgs(o, show) + EncodeArgs(o, show) + [outputPath])
  {
    var cmd := Assemble(o, vs, [], hasAudio, outputPath, show);
    var n := 6 + 2 * |vs|;
    assert |cmd| > n + 8 && cmd[n..n + 8] == EncodeArgs(o, show) by {
      AssembleLayout(o, vs, [], hasAudio, outputPath, show);
    }
    assert cmd[n] == cmd[n..n + 8][0];
    if vs == [] && !hasAudio {
      assert InputArgs(vs) == [] && AudioArgs(hasAudio) == [];
      assert cmd == BaseArgs(o, show) + [] + [] + EncodeArgs(o, show) + [] + [outputPath];
    }
  }

  /** With a video or a text element, `-filter_complex` and the joined
      filters follow the inputs, then `-map` of the last label, then
      `-map 1:a?` exactly when a video element carries audio. */
  lemma {:induction false} CommandWithGraph(scene: Scene, outputPath: string, show: real -> string, cmd: seq<string>)
    requires Command(scene, outputPath, show) == Success(cmd)
    requires HasVideoOrText(scene.elements)
    ensures FilterGraph(scene.elements).Success?
    ensures var g := FilterGraph(scene.elements).value;
      GraphPlaced(cmd, GraphStart(scene.elements), GraphText(g.0, show), g.1, HasVideoAudio(scene.elements))
  {
    var es := scene.elements;
    CommandAssembled(scene, outputPath, show, cmd);
    var g := FilterGraph(es).value;
    assert g.0 != [] by {
      GraphNonEmptyIff(es);
    }
    AssembleWithSteps(scene.output, Videos(es), g.0, g.1, HasVideoAudio(es), outputPath, show, cmd, GraphStart(es));
  }

  /** With neither video nor text the command is the background, the encoding
      flags and the output path alone: no -filter_complex, -map, -vf or audio codec. */
  lemma {:induction false} CommandWithoutGraph(scene: Scene, outputPath: string, show: real -> string, cmd: seq<string>)
    requires Command(scene, outputPath, show) == Success(cmd)
    requires !HasVideoOrText(scene.elements)
    ensures cmd == BaseArgs(scene.output, show) + EncodeArgs(scene.output, show) + [outputPath]
  {
    var es := scene.elements;
    CommandAssembled(scene, outputPath, show, cmd);
    var g := FilterGraph(es).value;
    assert RenderParts(g.0, show) == [] by {
      GraphNonEmptyIff(es);
    }
    NoVideosWithoutVideoElements(es);
    AssembleGraphAbsent(scene.output, Videos(es), g.1, HasVideoAudio(es), outputPath, show);
  }

  /** `-filter_complex` follows the inputs exactly when a video or text element exists. */
  lemma {:induction false} CommandFilterIff(scene: Scene, outputPath: string, show: real -> string, cmd: seq<string>)
    requires Command(scene, outputPath, show) == Success(cmd)
    ensures |cmd| > GraphStart(scene.elements)
    ensures cmd[GraphStart(scene.elements)] == "-filter_complex" <==> HasVideoOrText(scene.elements)
  {
    var es := scene.elements;
    if HasVideoOrText(es) {
      CommandWithGraph(scene, outputPath, show, cmd);
    } else {
      CommandWithoutGraph(scene, outputPath, show, cmd);
      NoVideosWithoutVideoElements(es);
      assert cmd[6] == "-t";
    }
  }
}

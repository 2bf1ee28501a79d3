/** The filter graph `generate_command` builds: trim, scale and overlay
    per video element, then one drawtext per text element, threaded through
    the labels of the running composite. The graph is a sequence of typed
    filter steps that `RenderStep` prints, so that its labels and time windows
    can be stated about the steps. Numbers that the Python code prints with an
    f-string (times, scale, font size) are printed by the parameter `show`,
    which stands for Python's number rendering. */
module FfmpegFilters {
  import opened Wrappers
  import opened Strings
  import opened VideoRequest
  import opened Rgba

  /** The labels of the filter graph: `0:v`, `v<idx>`, `ov<k>` and `txt<i>`. */
  datatype Label = Background | Scaled(input: nat) | Overlaid(k: nat) | Drawn(i: nat)

  function LabelName(l: Label): string {
    match l
    case Background => "0:v"
    case Scaled(n) => "v" + NatToString(n)
    case Overlaid(k) => "ov" + NatToString(k)
    case Drawn(i) => "txt" + NatToString(i)
  }

  /** A label as a filter graph writes it, in square brackets. */
  function Bracketed(l: Label): string {
    "[" + LabelName(l) + "]"
  }

  /** One filter of the graph. Every step produces the label `out`. */
  datatype FilterStep =
    | TrimScale(input: nat, inPoint: Option<real>, outPoint: real, scale: real, out: Label)
    | Overlay(base: Label, top: Label, x: int, y: int, from: real, until: real, out: Label)
    | DrawText(base: Label, text: string, fontSize: real, color: string, box: Option<string>,
               textX: string, textY: string, from: real, until: real, out: Label)

  function Window(from: real, until: real, show: real -> string): string {
    ":enable='between(t," + show(from) + "," + show(until) + ")'"
  }

  function BoxParam(box: Option<string>): string {
    match box
    case None => ""
    case Some(c) => ":box=1:boxcolor=" + c
  }

  /** The pieces of the f-string of a filter, with its input labels and
      without its output label. */
  function FilterPieces(st: FilterStep, show: real -> string): seq<string> {
    match st
    case TrimScale(input, inPoint, outPoint, scale, _) =>
      ["[", NatToString(input), ":v]trim=", if inPoint.Some? then show(inPoint.value) else "0",
       ":", show(outPoint), ",setpts=PTS-STARTPTS,scale=iw*", show(scale), ":ih*", show(scale)]
    case Overlay(base, top, x, y, from, until, _) =>
      [Bracketed(base), Bracketed(top), "overlay=x=", IntToString(x), ":y=", IntToString(y),
       Window(from, until, show)]
    case DrawText(base, text, fontSize, color, box, textX, textY, from, until, _) =>
      [Bracketed(base), "drawtext=text='", text, "':fontsize=", show(fontSize), ":fontcolor=", color,
       BoxParam(box), ":x=", textX, ":y=", textY, Window(from, until, show)]
  }

  /** A filter with its input labels, without its output label. */
  function FilterText(st: FilterStep, show: real -> string): string {
    Concat(FilterPieces(st, show))
  }

  /** The text of one filter: its output label and the ';' the Python code appends. */
  function RenderStep(st: FilterStep, show: real -> string): string {
    FilterText(st, show) + Bracketed(st.out) + ";"
  }

  /** The `filter_parts` list: one rendered filter per step, appended in order. */
  function RenderParts(steps: seq<FilterStep>, show: real -> string): (parts: seq<string>)
    ensures |parts| == |steps|
  {
    if steps == [] then [] else RenderParts(steps[..|steps| - 1], show) + [RenderStep(steps[|steps| - 1], show)]
  }

  /** Rendering distributes over the concatenation of step lists. */
  lemma {:induction false} RenderPartsAppend(a: seq<FilterStep>, b: seq<FilterStep>, show: real -> string)
    ensures RenderParts(a + b, show) == RenderParts(a, show) + RenderParts(b, show)
    decreases |b|
  {
    if b == [] {
      assert a + b == a;
    } else {
      var b' := b[..|b| - 1];
      assert (a + b)[..|a + b| - 1] == a + b';
      assert (a + b)[|a + b| - 1] == b[|b| - 1];
      RenderPartsAppend(a, b', show);
    }
  }

  lemma {:induction false} RenderPartsPair(x: FilterStep, y: FilterStep, show: real -> string)
    ensures RenderParts([x, y], show) == [RenderStep(x, show), RenderStep(y, show)]
  {
  }

  lemma {:induction false} RenderPartsSingle(x: FilterStep, show: real -> string)
    ensures RenderParts([x], show) == [RenderStep(x, show)]
  {
  }

  /** Python's `"".join(parts)`. */
  function Concat(parts: seq<string>): string {
    if parts == [] then "" else Concat(parts[..|parts| - 1]) + parts[|parts| - 1]
  }

  // ------------------------------------------------- per-element parameters

  /** `scale if scale else 1.0`: None and 0.0 are falsy. */
  function EffectiveScale(t: Transform): real {
    if t.scale == None || t.scale == Some(0.0) then 1.0 else t.scale.value
  }

  /** Overlay coordinates honour only `int` values; anything else becomes 0. */
  function OverlayCoord(c: Coord): int {
    match c
    case Px(n) => n
    case Named(_) => 0
  }

  /** How an f-string prints a coordinate. */
  function CoordText(c: Coord): string {
    match c
    case Px(n) => IntToString(n)
    case Named(s) => s
  }

  /** A text x coordinate: "center" becomes the centring expression. */
  function TextX(c: Coord): string {
    if c == Named("center") then "(w-text_w)/2" else CoordText(c)
  }

  /** The drawtext box colour: none for a falsy background, `rgba_to_hex` for
      one starting with "rgba" (which may raise), the value itself otherwise. */
  function BoxColor(bg: Option<string>): Result<Option<string>> {
    if bg == None || bg == Some("") then Success(None)
    else if StartsWith(bg.value, "rgba") then
      match RgbaToHex(bg.value)
      case None => Failure("ValueError: malformed rgba colour " + bg.value)
      case Some(h) => Success(Some(h))
    else Success(Some(bg.value))
  }

  /** The label the running composite has before video number `k` is overlaid. */
  function ChainBefore(k: nat): Label {
    if k == 0 then Background else Overlaid(k - 1)
  }

  /** Trim and scale of the `k`-th video element (0-based), read from input k+1.
      A missing in-point is the integer 0, printed as "0". */
  function VideoTrim(k: nat, v: Element): FilterStep
    requires v.VideoElement?
  {
    var inPoint := v.timeline.inPoint;
    TrimScale(k + 1, inPoint, inPoint.GetOr(0.0) + v.timeline.duration, EffectiveScale(v.transform), Scaled(k + 1))
  }

  /** The time-gated overlay of the `k`-th video element onto the composite. */
  function VideoOverlay(k: nat, v: Element): FilterStep
    requires v.VideoElement?
  {
    Overlay(ChainBefore(k), Scaled(k + 1),
            OverlayCoord(v.transform.position.x), OverlayCoord(v.transform.position.y),
            v.timeline.start, v.timeline.start + v.timeline.duration, Overlaid(k))
  }

  /** The time-gated drawtext of the text element at position `i` of the element list. */
  function TextDraw(e: Element, i: nat, base: Label, box: Option<string>): FilterStep
    requires e.TextElement?
  {
    DrawText(base, e.text, e.style.fontSize, e.style.color, box,
             TextX(e.transform.position.x), CoordText(e.transform.position.y),
             e.timeline.start, e.timeline.start + e.timeline.duration, Drawn(i))
  }

  // ------------------------------------------------------ the whole command

  /** The video elements, in element order. */
  function Videos(es: seq<Element>): (vs: seq<Element>)
    ensures |vs| <= |es|
    ensures forall k :: 0 <= k < |vs| ==> vs[k].VideoElement?
  {
    if es == [] then []
    else Videos(es[..|es| - 1]) + (if es[|es| - 1].VideoElement? then [es[|es| - 1]] else [])
  }

  function CountTexts(es: seq<Element>): nat {
    if es == [] then 0 else CountTexts(es[..|es| - 1]) + (if es[|es| - 1].TextElement? then 1 else 0)
  }

  function VideoSteps(vs: seq<Element>): (steps: seq<FilterStep>)
    requires forall k :: 0 <= k < |vs| ==> vs[k].VideoElement?
  {
    if vs == [] then []
    else VideoSteps(vs[..|vs| - 1]) + [VideoTrim(|vs| - 1, vs[|vs| - 1]), VideoOverlay(|vs| - 1, vs[|vs| - 1])]
  }

  /** The video steps of one more video element. */
  lemma {:induction false} VideoStepsSnoc(vs: seq<Element>, k: nat)
    requires forall j :: 0 <= j < |vs| ==> vs[j].VideoElement?
    requires k < |vs|
    ensures VideoSteps(vs[..k + 1]) == VideoSteps(vs[..k]) + [VideoTrim(k, vs[k]), VideoOverlay(k, vs[k])]
  {
    assert vs[..k + 1][..k] == vs[..k];
    assert vs[..k + 1][k] == vs[k];
  }

  /** The rendered video filters of one more video element: its trim and its overlay. */
  lemma {:induction false} VideoPartsSnoc(vs: seq<Element>, k: nat, show: real -> string)
    requires forall j :: 0 <= j < |vs| ==> vs[j].VideoElement?
    requires k < |vs|
    ensures RenderParts(VideoSteps(vs[..k + 1]), show)
            == RenderParts(VideoSteps(vs[..k]), show)
               + [RenderStep(VideoTrim(k, vs[k]), show), RenderStep(VideoOverlay(k, vs[k]), show)]
  {
    var steps := VideoSteps(vs[..k]);
    var pair := [VideoTrim(k, vs[k]), VideoOverlay(k, vs[k])];
    assert VideoSteps(vs[..k + 1]) == steps + pair by {
      VideoStepsSnoc(vs, k);
    }
    RenderPartsAppend(steps, pair, show);
    RenderPartsPair(pair[0], pair[1], show);
  }

  /** One iteration of the text loop: element `e` at position `i` adds its
      drawtext after the steps so far, or fails if its box colour does. */
  function TextStep(prev: Result<(seq<FilterStep>, Label)>, e: Element, i: nat): Result<(seq<FilterStep>, Label)> {
    if prev.Failure? || !e.TextElement? then prev
    else
      match BoxColor(e.style.backgroundColor)
      case Failure(msg) => Failure(msg)
      case Success(box) => Success((prev.value.0 + [TextDraw(e, i, prev.value.1, box)], Drawn(i)))
  }

  /** The drawtext steps of the text elements of `es`, threaded from `base`,
      with the label the composite has afterwards. */
  function TextPass(es: seq<Element>, base: Label): Result<(seq<FilterStep>, Label)> {
    if es == [] then Success(([], base))
    else TextStep(TextPass(es[..|es| - 1], base), es[|es| - 1], |es| - 1)
  }

  /** The text pass over a prefix one element longer. */
  lemma {:induction false} TextPassPrefix(es: seq<Element>, base: Label, i: nat)
    requires i < |es|
    ensures TextPass(es[..i + 1], base) == TextStep(TextPass(es[..i], base), es[i], i)
  {
    assert es[..i + 1][..i] == es[..i];
    assert es[..i + 1][i] == es[i];
  }

  /** The whole filter graph and the label mapped as the video output. */
  function FilterGraph(es: seq<Element>): Result<(seq<FilterStep>, Label)> {
    var vs := Videos(es);
    var t :- TextPass(es, ChainBefore(|vs|));
    Success((VideoSteps(vs) + t.0, t.1))
  }

  /** `any(e.type == VIDEO and e.audio for e in elements)`. */
  predicate HasVideoAudio(es: seq<Element>) {
    exists i | 0 <= i < |es| :: es[i].VideoElement? && es[i].audio
  }

  predicate HasVideoOrText(es: seq<Element>) {
    exists i | 0 <= i < |es| :: es[i].VideoElement? || es[i].TextElement?
  }

  // ---------------------------------------------------------------- lemmas

  /** Once a text element's colour fails to convert, the whole pass fails. */
  lemma {:induction false} TextPassFailureSticks(es: seq<Element>, base: Label, i: nat)
    requires 0 < i <= |es| && es[i - 1].TextElement?
    requires TextPass(es[..i - 1], base).Success?
    requires BoxColor(es[i - 1].style.backgroundColor).Failure?
    ensures TextPass(es, base) == Failure(BoxColor(es[i - 1].style.backgroundColor).error)
    decreases |es|
  {
    if i == |es| {
      assert es[..|es| - 1] == es[..i - 1];
    } else {
      assert es[..|es| - 1][..i - 1] == es[..i - 1];
      TextPassFailureSticks(es[..|es| - 1], base, i);
    }
  }

  /** When the graph is empty there is no text element, so the `-vf` list is empty. */
  lemma {:induction false} NoFiltersNoText(es: seq<Element>)
    requires FilterGraph(es).Success? && FilterGraph(es).value.0 == []
    ensures forall i :: 0 <= i < |es| ==> !es[i].TextElement?
  {
    GraphSize(es);
    CountTextsZero(es);
  }

  lemma {:induction false} CountTextsZero(es: seq<Element>)
    requires CountTexts(es) == 0
    ensures forall i :: 0 <= i < |es| ==> !es[i].TextElement?
  {
    if es != [] {
      CountTextsZero(es[..|es| - 1]);
      assert forall i :: 0 <= i < |es| - 1 ==> es[i] == es[..|es| - 1][i];
    }
  }

  /** Exactly the video elements, in order, each with the number of the input it reads. */
  lemma {:induction false} VideosAreTheVideoElements(es: seq<Element>)
    ensures forall e :: e in Videos(es) <==> e in es && e.VideoElement?
  {
    if es != [] {
      VideosAreTheVideoElements(es[..|es| - 1]);
      assert es == es[..|es| - 1] + [es[|es| - 1]];
    }
  }

  lemma {:induction false} VideoStepsLayout(vs: seq<Element>)
    requires forall k :: 0 <= k < |vs| ==> vs[k].VideoElement?
    ensures |VideoSteps(vs)| == 2 * |vs|
    ensures forall k :: 0 <= k < |vs| ==>
              VideoSteps(vs)[2 * k] == VideoTrim(k, vs[k]) && VideoSteps(vs)[2 * k + 1] == VideoOverlay(k, vs[k])
  {
    if vs != [] {
      var init := vs[..|vs| - 1];
      VideoStepsLayout(init);
      assert forall k :: 0 <= k < |init| ==> init[k] == vs[k];
    }
  }

  /** Every step draws a text element of `es`, named `txt<i>` by its position. */
  predicate DrawsTexts(es: seq<Element>, ts: seq<FilterStep>) {
    forall j :: 0 <= j < |ts| ==>
      ts[j].DrawText? && ts[j].out.Drawn? && ts[j].out.i < |es| && es[ts[j].out.i].TextElement?
  }

  /** The steps follow the element order. */
  predicate InElementOrder(ts: seq<FilterStep>)
    requires forall j :: 0 <= j < |ts| ==> ts[j].out.Drawn?
  {
    forall j, j' :: 0 <= j < j' < |ts| ==> ts[j].out.i < ts[j'].out.i
  }

  /** Every text element of `es` has its step. */
  predicate DrawsEveryText(es: seq<Element>, ts: seq<FilterStep>) {
    forall i :: 0 <= i < |es| && es[i].TextElement? ==> exists j :: 0 <= j < |ts| && ts[j].out == Drawn(i)
  }

  /** Each step reads the label of the step before it, the first one `base`. */
  predicate ThreadedFrom(base: Label, ts: seq<FilterStep>)
    requires forall j :: 0 <= j < |ts| ==> ts[j].DrawText?
  {
    && (ts != [] ==> ts[0].base == base)
    && (forall j :: 0 < j < |ts| ==> ts[j].base == ts[j - 1].out)
  }

  /** Each step is the drawtext of its element, with the element's converted box colour. */
  predicate DrawsAsElements(es: seq<Element>, ts: seq<FilterStep>)
    requires DrawsTexts(es, ts)
  {
    forall j :: 0 <= j < |ts| ==>
      && BoxColor(es[ts[j].out.i].style.backgroundColor) == Success(ts[j].box)
      && ts[j] == TextDraw(es[ts[j].out.i], ts[j].out.i, ts[j].base, ts[j].box)
  }

  /** All that the text pass promises about its steps and its final label. */
  predicate TextPassOutcome(es: seq<Element>, base: Label, ts: seq<FilterStep>, last: Label) {
    && |ts| == CountTexts(es)
    && DrawsTexts(es, ts)
    && InElementOrder(ts)
    && DrawsEveryText(es, ts)
    && ThreadedFrom(base, ts)
    && DrawsAsElements(es, ts)
    && last == (if ts == [] then base else ts[|ts| - 1].out)
  }

  lemma {:induction false} CountTextsAppend(es: seq<Element>, e: Element)
    ensures CountTexts(es + [e]) == CountTexts(es) + (if e.TextElement? then 1 else 0)
  {
    assert (es + [e])[..|es|] == es;
  }

  lemma {:induction false} DrawsEveryTextSkip(es: seq<Element>, ts: seq<FilterStep>, e: Element)
    requires DrawsEveryText(es, ts) && !e.TextElement?
    ensures DrawsEveryText(es + [e], ts)
  {
    var es' := es + [e];
    forall i | 0 <= i < |es'| && es'[i].TextElement?
      ensures exists j :: 0 <= j < |ts| && ts[j].out == Drawn(i)
    {
      assert i < |es| && es[i] == es'[i];
    }
  }

  lemma {:induction false} DrawsTextsSkip(es: seq<Element>, ts: seq<FilterStep>, e: Element)
    requires DrawsTexts(es, ts) && DrawsAsElements(es, ts)
    ensures DrawsTexts(es + [e], ts) && DrawsAsElements(es + [e], ts)
  {
    var es' := es + [e];
    assert forall j :: 0 <= j < |ts| ==> es'[ts[j].out.i] == es[ts[j].out.i];
  }

  lemma {:induction false} TextPassOutcomeSkip(es: seq<Element>, base: Label, ts: seq<FilterStep>, last: Label, e: Element)
    requires TextPassOutcome(es, base, ts, last) && !e.TextElement?
    ensures TextPassOutcome(es + [e], base, ts, last)
  {
    CountTextsAppend(es, e);
    DrawsEveryTextSkip(es, ts, e);
    DrawsTextsSkip(es, ts, e);
  }

  lemma {:induction false} DrawsAsElementsExtend(es: seq<Element>, ts: seq<FilterStep>, e: Element, st: FilterStep)
    requires DrawsTexts(es, ts) && DrawsAsElements(es, ts) && e.TextElement?
    requires st.DrawText? && st.out == Drawn(|es|)
    requires BoxColor(e.style.backgroundColor) == Success(st.box)
    requires st == TextDraw(e, |es|, st.base, st.box)
    ensures DrawsTexts(es + [e], ts + [st]) && DrawsAsElements(es + [e], ts + [st])
  {
    var es', ts' := es + [e], ts + [st];
    assert forall j :: 0 <= j < |ts| ==> ts'[j] == ts[j] && es'[ts[j].out.i] == es[ts[j].out.i];
    assert es'[|es|] == e;
  }

  lemma {:induction false} InElementOrderExtend(es: seq<Element>, ts: seq<FilterStep>, st: FilterStep)
    requires forall j :: 0 <= j < |ts| ==> ts[j].out.Drawn? && ts[j].out.i < |es|
    requires InElementOrder(ts) && st.out == Drawn(|es|)
    ensures forall j :: 0 <= j < |ts + [st]| ==> (ts + [st])[j].out.Drawn?
    ensures InElementOrder(ts + [st])
  {
    var ts' := ts + [st];
    assert forall j :: 0 <= j < |ts| ==> ts'[j] == ts[j];
  }

  lemma {:induction false} DrawsEveryTextExtend(es: seq<Element>, ts: seq<FilterStep>, e: Element, st: FilterStep)
    requires DrawsEveryText(es, ts) && st.out == Drawn(|es|)
    ensures DrawsEveryText(es + [e], ts + [st])
  {
    var es', ts' := es + [e], ts + [st];
    forall i | 0 <= i < |es'| && es'[i].TextElement?
      ensures exists j :: 0 <= j < |ts'| && ts'[j].out == Drawn(i)
    {
      if i < |es| {
        assert es[i] == es'[i];
        var j :| 0 <= j < |ts| && ts[j].out == Drawn(i);
        assert ts'[j] == ts[j];
      } else {
        assert ts'[|ts|] == st;
      }
    }
  }

  lemma {:induction false} ThreadedFromExtend(base: Label, ts: seq<FilterStep>, last: Label, st: FilterStep)
    requires forall j :: 0 <= j < |ts| ==> ts[j].DrawText?
    requires ThreadedFrom(base, ts) && last == (if ts == [] then base else ts[|ts| - 1].out)
    requires st.DrawText? && st.base == last
    ensures forall j :: 0 <= j < |ts + [st]| ==> (ts + [st])[j].DrawText?
    ensures ThreadedFrom(base, ts + [st])
  {
    var ts' := ts + [st];
    assert forall j :: 0 <= j < |ts| ==> ts'[j] == ts[j];
    assert ts'[|ts|] == st;
    forall j | 0 < j < |ts'|
      ensures ts'[j].base == ts'[j - 1].out
    {
      assert ts'[j - 1] == if j - 1 < |ts| then ts[j - 1] else st;
    }
    assert forall j :: 0 <= j < |ts'| ==> ts'[j].DrawText?;
  }

  lemma {:induction false} TextPassOutcomeDraw(es: seq<Element>, base: Label, ts: seq<FilterStep>, last: Label, e: Element, box: Option<string>)
    requires TextPassOutcome(es, base, ts, last) && e.TextElement?
    requires BoxColor(e.style.backgroundColor) == Success(box)
    ensures TextPassOutcome(es + [e], base, ts + [TextDraw(e, |es|, last, box)], Drawn(|es|))
  {
    var st := TextDraw(e, |es|, last, box);
    var es', ts' := es + [e], ts + [st];
    assert |ts'| == CountTexts(es') by {
      CountTextsAppend(es, e);
    }
    assert DrawsTexts(es', ts') && DrawsAsElements(es', ts') by {
      DrawsAsElementsExtend(es, ts, e, st);
    }
    assert InElementOrder(ts') by {
      InElementOrderExtend(es, ts, st);
    }
    assert DrawsEveryText(es', ts') by {
      DrawsEveryTextExtend(es, ts, e, st);
    }
    assert ThreadedFrom(base, ts') by {
      ThreadedFromExtend(base, ts, last, st);
    }
    assert ts' != [] && ts'[|ts'| - 1] == st;
  }

  /** What the text pass produces: one drawtext per text element, in element
      order, each labelled `txt<i>` by the element's position `i`, reading the
      label produced just before it and drawing the element as it is. */
  lemma {:induction false} TextPassLayout(es: seq<Element>, base: Label)
    requires TextPass(es, base).Success?
    ensures TextPassOutcome(es, base, TextPass(es, base).value.0, TextPass(es, base).value.1)
  {
    if es == [] {
      assert TextPass(es, base) == Success(([], base));
    } else {
      var init := es[..|es| - 1];
      var e := es[|es| - 1];
      assert es == init + [e];
      var prev := TextPass(init, base);
      assert prev.Success?;
      TextPassLayout(init, base);
      if e.TextElement? {
        var box := BoxColor(e.style.backgroundColor);
        assert box.Success?;
        assert TextPass(es, base).value == (prev.value.0 + [TextDraw(e, |init|, prev.value.1, box.value)], Drawn(|init|));
        TextPassOutcomeDraw(init, base, prev.value.0, prev.value.1, e, box.value);
      } else {
        assert TextPass(es, base) == prev;
        TextPassOutcomeSkip(init, base, prev.value.0, prev.value.1, e);
      }
    }
  }

  /** The graph has two steps per video and one per text element. */
  lemma {:induction false} GraphSize(es: seq<Element>)
    requires FilterGraph(es).Success?
    ensures |FilterGraph(es).value.0| == 2 * |Videos(es)| + CountTexts(es)
  {
    VideoStepsLayout(Videos(es));
    TextPassLayout(es, ChainBefore(|Videos(es)|));
  }

  lemma {:induction false} CountTextsPositive(es: seq<Element>, i: nat)
    requires i < |es| && es[i].TextElement?
    ensures CountTexts(es) > 0
  {
    if i < |es| - 1 {
      assert es[..|es| - 1][i] == es[i];
      CountTextsPositive(es[..|es| - 1], i);
    }
  }

  lemma {:induction false} VideosNonEmpty(es: seq<Element>, i: nat)
    requires i < |es| && es[i].VideoElement?
    ensures |Videos(es)| > 0
  {
    if i < |es| - 1 {
      assert es[..|es| - 1][i] == es[i];
      VideosNonEmpty(es[..|es| - 1], i);
    }
  }

  /** The graph is non-empty exactly when there is a video or a text element. */
  lemma {:induction false} GraphNonEmptyIff(es: seq<Element>)
    requires FilterGraph(es).Success?
    ensures FilterGraph(es).value.0 != [] <==> HasVideoOrText(es)
  {
    GraphSize(es);
    if HasVideoOrText(es) {
      var i :| 0 <= i < |es| && (es[i].VideoElement? || es[i].TextElement?);
      if es[i].VideoElement? { VideosNonEmpty(es, i); } else { CountTextsPositive(es, i); }
    } else {
      VideoWitness(es);
      TextWitness(es);
    }
  }

  lemma {:induction false} VideoWitness(es: seq<Element>)
    ensures Videos(es) != [] ==> exists i :: 0 <= i < |es| && es[i].VideoElement?
  {
    if Videos(es) != [] {
      VideosAreTheVideoElements(es);
      var v := Videos(es)[0];
      assert v in Videos(es);
    }
  }

  lemma {:induction false} TextWitness(es: seq<Element>)
    ensures CountTexts(es) > 0 ==> exists i :: 0 <= i < |es| && es[i].TextElement?
  {
    if es != [] {
      var init := es[..|es| - 1];
      TextWitness(init);
      if CountTexts(init) > 0 {
        var i :| 0 <= i < |init| && init[i].TextElement?;
        assert es[i] == init[i];
      }
    }
  }

  predicate IsChainStep(st: FilterStep) {
    st.Overlay? || st.DrawText?
  }

  /** The label the running composite has after `steps`. */
  function ChainEnd(steps: seq<FilterStep>): Label {
    if steps == [] then Background
    else if IsChainStep(steps[|steps| - 1]) then steps[|steps| - 1].out
    else ChainEnd(steps[..|steps| - 1])
  }

  /** Every overlay and drawtext reads the composite as it stands before it,
      and every overlay reads the scaled stream produced just before it. */
  predicate WellThreaded(steps: seq<FilterStep>) {
    && (forall j :: 0 <= j < |steps| && IsChainStep(steps[j]) ==> steps[j].base == ChainEnd(steps[..j]))
    && (forall j :: 0 <= j < |steps| && steps[j].Overlay? ==>
          j > 0 && steps[j - 1].TrimScale? && steps[j].top == steps[j - 1].out)
  }

  /** The shape of the video filters of `n` videos: a trim/scale producing
      `v<k+1>`, then an overlay of it onto the composite producing `ov<k>`. */
  predicate VideoShape(v: seq<FilterStep>, n: nat) {
    |v| == 2 * n && forall j :: 0 <= j < |v| ==> ShapeAt(v[j], j)
  }

  predicate ShapeAt(st: FilterStep, j: nat) {
    if j % 2 == 0 then st.TrimScale? && st.out == Scaled(j / 2 + 1)
    else st.Overlay? && st.base == ChainBefore(j / 2) && st.top == Scaled(j / 2 + 1) && st.out == Overlaid(j / 2)
  }

  lemma {:induction false} VideoStepsShape(vs: seq<Element>)
    requires forall k :: 0 <= k < |vs| ==> vs[k].VideoElement?
    ensures VideoShape(VideoSteps(vs), |vs|)
  {
    VideoStepsLayout(vs);
    var v := VideoSteps(vs);
    forall j | 0 <= j < |v|
      ensures ShapeAt(v[j], j)
    {
      var k := j / 2;
      if j == 2 * k {
        assert v[2 * k] == VideoTrim(k, vs[k]);
      } else {
        assert j == 2 * k + 1 && v[2 * k + 1] == VideoOverlay(k, vs[k]);
      }
    }
  }

  /** After the filters of the first `k` videos the composite is
      `ChainBefore(k)`; the trim of video `k - 1` leaves it at
      `ChainBefore(k - 1)`, since only overlays move it. */
  lemma {:induction false} VideoChainEnd(v: seq<FilterStep>, n: nat, k: nat)
    requires VideoShape(v, n) && k <= n
    ensures ChainEnd(v[..2 * k]) == ChainBefore(k)
    ensures 0 < k ==> ChainEnd(v[..2 * k - 1]) == ChainBefore(k - 1)
  {
    if k == 0 {
      assert v[..0] == [];
    } else {
      VideoChainEnd(v, n, k - 1);
      var a, b := 2 * k - 2, 2 * k - 1;
      assert a % 2 == 0 && a / 2 == k - 1 && b % 2 == 1 && b / 2 == k - 1;
      assert v[a].TrimScale? && v[b].Overlay? && v[b].out == Overlaid(k - 1) by {
        assert ShapeAt(v[a], a) && ShapeAt(v[b], b);
      }
      assert ChainEnd(v[..2 * k]) == Overlaid(k - 1) by {
        var p := v[..2 * k];
        assert p[|p| - 1] == v[b];
        ChainEndAtChainStep(p);
      }
      assert ChainEnd(v[..2 * k - 1]) == ChainEnd(v[..2 * (k - 1)]) by {
        var q := v[..2 * k - 1];
        assert q[|q| - 1] == v[a];
        assert q[..|q| - 1] == v[..2 * (k - 1)];
        ChainEndSkipsTrim(q);
      }
    }
  }

  lemma {:induction false} ChainEndAtChainStep(p: seq<FilterStep>)
    requires p != [] && IsChainStep(p[|p| - 1])
    ensures ChainEnd(p) == p[|p| - 1].out
  {
  }

  lemma {:induction false} ChainEndSkipsTrim(q: seq<FilterStep>)
    requires q != [] && q[|q| - 1].TrimScale?
    ensures ChainEnd(q) == ChainEnd(q[..|q| - 1])
  {
  }

  lemma {:induction false} ChainEndAppend(a: seq<FilterStep>, b: seq<FilterStep>, n: nat)
    requires n <= |b| && (exists j :: 0 <= j < n && IsChainStep(b[j]))
    ensures ChainEnd((a + b)[..|a| + n]) == ChainEnd(b[..n])
  {
    var ab := (a + b)[..|a| + n];
    if IsChainStep(b[n - 1]) {
      assert ab[|ab| - 1] == b[n - 1];
    } else {
      assert ab[|ab| - 1] == b[n - 1];
      assert ab[..|ab| - 1] == (a + b)[..|a| + n - 1];
      assert b[..n][..n - 1] == b[..n - 1];
      ChainEndAppend(a, b, n - 1);
    }
  }

  /** A video filter reads what the threading promises. */
  lemma {:induction false} VideoStepThreaded(v: seq<FilterStep>, n: nat, ts: seq<FilterStep>, j: nat)
    requires VideoShape(v, n) && j < |v|
    ensures IsChainStep((v + ts)[j]) ==> (v + ts)[j].base == ChainEnd((v + ts)[..j])
    ensures (v + ts)[j].Overlay? ==> j > 0 && (v + ts)[j - 1].TrimScale? && (v + ts)[j].top == (v + ts)[j - 1].out
  {
    var steps := v + ts;
    var k := j / 2;
    assert steps[j] == v[j];
    if j == 2 * k + 1 {
      VideoChainEnd(v, n, k + 1);
      assert steps[..j] == v[..2 * (k + 1) - 1];
      assert steps[j - 1] == v[2 * k];
    } else {
      assert j == 2 * k;
    }
  }

  /** A drawtext reads the label produced just before it, the first one the
      last overlay's. */
  lemma {:induction false} TextStepThreaded(v: seq<FilterStep>, n: nat, ts: seq<FilterStep>, t: nat)
    requires VideoShape(v, n) && t < |ts|
    requires forall j :: 0 <= j < |ts| ==> ts[j].DrawText?
    requires ThreadedFrom(ChainBefore(n), ts)
    ensures (v + ts)[|v| + t].base == ChainEnd((v + ts)[..|v| + t])
  {
    var steps := v + ts;
    assert steps[|v| + t] == ts[t];
    if t == 0 {
      assert ts[0].base == ChainBefore(n);
      VideoChainEnd(v, n, n);
      assert steps[..|v|] == v[..2 * n];
    } else {
      assert IsChainStep(ts[t - 1]);
      ChainEndAppend(v, ts, t);
      assert ts[..t][t - 1] == ts[t - 1];
    }
  }

  lemma {:induction false} ThreadingOfParts(v: seq<FilterStep>, n: nat, ts: seq<FilterStep>, last: Label)
    requires VideoShape(v, n)
    requires forall j :: 0 <= j < |ts| ==> ts[j].DrawText?
    requires ThreadedFrom(ChainBefore(n), ts)
    requires last == (if ts == [] then ChainBefore(n) else ts[|ts| - 1].out)
    ensures WellThreaded(v + ts) && ChainEnd(v + ts) == last
  {
    var steps := v + ts;
    forall j | 0 <= j < |steps|
      ensures IsChainStep(steps[j]) ==> steps[j].base == ChainEnd(steps[..j])
      ensures steps[j].Overlay? ==> j > 0 && steps[j - 1].TrimScale? && steps[j].top == steps[j - 1].out
    {
      if j < |v| {
        VideoStepThreaded(v, n, ts, j);
      } else {
        TextStepThreaded(v, n, ts, j - |v|);
        assert steps[j] == ts[j - |v|];
      }
    }
    if ts == [] {
      assert steps == v[..2 * n];
      VideoChainEnd(v, n, n);
    } else {
      assert steps[|steps| - 1] == ts[|ts| - 1];
    }
  }

  /** Threading of the whole graph: the first chain step reads `0:v`, each
      later one reads the label produced just before it, and the `-map`ped
      label is the one produced last. */
  lemma {:induction false} GraphThreading(es: seq<Element>)
    requires FilterGraph(es).Success?
    ensures WellThreaded(FilterGraph(es).value.0)
    ensures ChainEnd(FilterGraph(es).value.0) == FilterGraph(es).value.1
  {
    var vs := Videos(es);
    var base := ChainBefore(|vs|);
    VideoStepsShape(vs);
    TextPassLayout(es, base);
    ThreadingOfParts(VideoSteps(vs), |vs|, TextPass(es, base).value.0, TextPass(es, base).value.1);
  }

  /** No two steps of a graph produce the same label, and none produces `0:v`. */
  predicate DistinctLabels(steps: seq<FilterStep>) {
    && (forall j :: 0 <= j < |steps| ==> steps[j].out != Background)
    && (forall j, j' :: 0 <= j < j' < |steps| ==> steps[j].out != steps[j'].out)
  }

  /** The label a video filter produces, by its position. */
  lemma {:induction false} VideoLabel(v: seq<FilterStep>, n: nat, j: nat)
    requires VideoShape(v, n) && j < |v|
    ensures v[j].out == if j % 2 == 0 then Scaled(j / 2 + 1) else Overlaid(j / 2)
  {
    assert ShapeAt(v[j], j);
  }

  lemma {:induction false} LabelsOfParts(v: seq<FilterStep>, n: nat, ts: seq<FilterStep>)
    requires VideoShape(v, n)
    requires forall j :: 0 <= j < |ts| ==> ts[j].out.Drawn?
    requires InElementOrder(ts)
    ensures DistinctLabels(v + ts)
  {
    var steps := v + ts;
    forall j, j' | 0 <= j < j' < |steps|
      ensures steps[j].out != steps[j'].out
    {
      if j' < |v| {
        VideoLabel(v, n, j);
        VideoLabel(v, n, j');
        assert steps[j] == v[j] && steps[j'] == v[j'];
      } else if j < |v| {
        VideoLabel(v, n, j);
        assert steps[j] == v[j] && steps[j'] == ts[j' - |v|];
      } else {
        assert steps[j] == ts[j - |v|] && steps[j'] == ts[j' - |v|];
      }
    }
    forall j | 0 <= j < |steps|
      ensures steps[j].out != Background
    {
      if j < |v| {
        VideoLabel(v, n, j);
        assert steps[j] == v[j];
      } else {
        assert steps[j] == ts[j - |v|];
      }
    }
  }

  lemma {:induction false} GraphLabelsDistinct(es: seq<Element>)
    requires FilterGraph(es).Success?
    ensures DistinctLabels(FilterGraph(es).value.0)
  {
    var vs := Videos(es);
    var base := ChainBefore(|vs|);
    VideoStepsShape(vs);
    TextPassLayout(es, base);
    LabelsOfParts(VideoSteps(vs), |vs|, TextPass(es, base).value.0);
  }

  lemma {:induction false} NatToStringPrefixed(p: string, a: nat, b: nat)
    ensures p + NatToString(a) == p + NatToString(b) ==> a == b
  {
    if p + NatToString(a) == p + NatToString(b) {
      assert NatToString(a) == (p + NatToString(a))[|p|..];
      assert NatToString(b) == (p + NatToString(b))[|p|..];
      NatToStringInjective(a, b);
    }
  }

  /** Distinct labels print as distinct names, so the graph's label strings
      `v<idx>`, `ov<k>` and `txt<i>` are pairwise distinct too. */
  lemma {:induction false} LabelNameInjective(a: Label, b: Label)
    ensures LabelName(a) == LabelName(b) ==> a == b
  {
    if LabelName(a) == LabelName(b) {
      assert LabelName(a)[0] == LabelName(b)[0];
      match a
      case Background =>
      case Scaled(n) => if b.Scaled? { NatToStringPrefixed("v", n, b.input); }
      case Overlaid(k) => if b.Overlaid? { NatToStringPrefixed("ov", k, b.k); }
      case Drawn(i) => if b.Drawn? { NatToStringPrefixed("txt", i, b.i); }
    }
  }

  /** `rstrip(";")` on the joined filters removes exactly the final ';': the
      `-filter_complex` value is the joined filters without their last
      character, and it ends with the last filter's output label. */
  lemma {:induction false} FilterComplexText(steps: seq<FilterStep>, show: real -> string)
    requires steps != []
    ensures var joined := Concat(RenderParts(steps, show));
      var mapped := Bracketed(steps[|steps| - 1].out);
      && |joined| > |mapped|
      && RStrip(joined, {';'}) == joined[..|joined| - 1]
      && EndsWith(joined[..|joined| - 1], mapped)
  {
    var parts := RenderParts(steps, show);
    var st := steps[|steps| - 1];
    var n, pre, mapped := |steps| - 1, FilterText(st, show), Bracketed(st.out);
    assert |parts| == n + 1 && parts[n] == pre + mapped + ";" by {
      RenderPartsLast(steps, show);
    }
    assert mapped != [] && mapped[|mapped| - 1] != ';' by {
      BracketedEnd(st.out);
    }
    RStripLastPart(parts, n, pre, mapped);
  }

  lemma {:induction false} RenderPartsLast(steps: seq<FilterStep>, show: real -> string)
    requires steps != []
    ensures var st := steps[|steps| - 1];
      RenderParts(steps, show)[|steps| - 1] == FilterText(st, show) + Bracketed(st.out) + ";"
  {
    var n := |steps| - 1;
    assert RenderParts(steps, show)[n] == RenderStep(steps[n], show);
  }

  lemma {:induction false} BracketedEnd(l: Label)
    ensures |Bracketed(l)| > 0 && Bracketed(l)[|Bracketed(l)| - 1] == ']'
  {
  }

  /** Joined parts whose last part ends in `mapped` and ';', `mapped` not ending in ';'. */
  lemma {:induction false} RStripLastPart(parts: seq<string>, n: nat, pre: string, mapped: string)
    requires |parts| == n + 1 && parts[n] == pre + mapped + ";"
    requires mapped != [] && mapped[|mapped| - 1] != ';'
    ensures var joined := Concat(parts);
      && |joined| > |mapped|
      && RStrip(joined, {';'}) == joined[..|joined| - 1]
      && EndsWith(joined[..|joined| - 1], mapped)
  {
    var body := Concat(parts[..n]) + pre + mapped;
    assert Concat(parts) == body + ";";
    assert body[|body| - 1] == mapped[|mapped| - 1];
    RStripFinalSemicolon(body);
    assert (body + ";")[..|body|] == body;
    assert body[|body| - |mapped|..] == mapped;
  }

  lemma {:induction false} RStripFinalSemicolon(y: string)
    requires |y| > 0 && y[|y| - 1] != ';'
    ensures RStrip(y + ";", {';'}) == y
  {
    assert (y + ";")[..|y|] == y;
  }

  lemma {:induction false} NoVideosWithoutVideoElements(es: seq<Element>)
    requires !HasVideoOrText(es)
    ensures Videos(es) == [] && !HasVideoAudio(es)
  {
    VideoWitness(es);
  }

  /** The per-video filters: trim `in:in+duration` with the in-point defaulting
      to 0, scale falling back to 1.0 when falsy, integer-only overlay
      coordinates, and the overlay gated by the element's own window. */
  lemma {:induction false} VideoFilters(es: seq<Element>, k: nat)
    requires FilterGraph(es).Success? && k < |Videos(es)|
    ensures var steps := FilterGraph(es).value.0;
      var v := Videos(es)[k];
      var inPoint := if v.timeline.inPoint.Some? then v.timeline.inPoint.value else 0.0;
      && |steps| > 2 * k + 1
      && steps[2 * k] == TrimScale(k + 1, v.timeline.inPoint, inPoint + v.timeline.duration,
                                   if v.transform.scale.Some? && v.transform.scale.value != 0.0 then v.transform.scale.value else 1.0,
                                   Scaled(k + 1))
      && steps[2 * k + 1].Overlay?
      && steps[2 * k + 1].from == v.timeline.start
      && steps[2 * k + 1].until == v.timeline.start + v.timeline.duration
      && steps[2 * k + 1].x == (if v.transform.position.x.Px? then v.transform.position.x.n else 0)
      && steps[2 * k + 1].y == (if v.transform.position.y.Px? then v.transform.position.y.n else 0)
  {
    VideoStepsLayout(Videos(es));
  }

  /** A text element drawn as the source promises: "center" becomes
      `(w-text_w)/2`, other coordinates pass through, the text goes in
      unescaped, an rgba background becomes hex, another non-empty background
      is kept, none gives no box, and the drawtext is gated by the element's
      own window. */
  predicate DrawnAsElement(st: FilterStep, e: Element, i: nat)
    requires e.TextElement?
  {
    && st.DrawText? && st.out == Drawn(i)
    && st.text == e.text && st.fontSize == e.style.fontSize && st.color == e.style.color
    && st.from == e.timeline.start && st.until == e.timeline.start + e.timeline.duration
    && st.textX == (if e.transform.position.x == Named("center") then "(w-text_w)/2" else CoordText(e.transform.position.x))
    && st.textY == CoordText(e.transform.position.y)
    && (st.box == None <==> e.style.backgroundColor in {None, Some("")})
    && (st.box.Some? && StartsWith(e.style.backgroundColor.value, "rgba") ==>
          RgbaToHex(e.style.backgroundColor.value) == Some(st.box.value))
    && (st.box.Some? && !StartsWith(e.style.backgroundColor.value, "rgba") ==>
          st.box.value == e.style.backgroundColor.value)
  }

  /** What `BoxColor` yields, case by case. */
  lemma {:induction false} BoxColorCases(bg: Option<string>, box: Option<string>)
    requires BoxColor(bg) == Success(box)
    ensures box == None <==> bg in {None, Some("")}
    ensures box.Some? && StartsWith(bg.value, "rgba") ==> RgbaToHex(bg.value) == Some(box.value)
    ensures box.Some? && !StartsWith(bg.value, "rgba") ==> box.value == bg.value
  {
    if bg.Some? && bg.value != "" && StartsWith(bg.value, "rgba") {
      assert RgbaToHex(bg.value).Some?;
    }
  }

  lemma {:induction false} TextDrawnAsElement(e: Element, i: nat, base: Label, box: Option<string>)
    requires e.TextElement? && BoxColor(e.style.backgroundColor) == Success(box)
    ensures DrawnAsElement(TextDraw(e, i, base, box), e, i)
  {
    BoxColorCases(e.style.backgroundColor, box);
  }

  /** Each text element has its drawtext after the video filters. */
  lemma {:induction false} TextFilters(es: seq<Element>, i: nat)
    requires FilterGraph(es).Success? && i < |es| && es[i].TextElement?
    ensures exists j :: 2 * |Videos(es)| <= j < |FilterGraph(es).value.0|
                        && DrawnAsElement(FilterGraph(es).value.0[j], es[i], i)
  {
    var vs := Videos(es);
    var base := ChainBefore(|vs|);
    VideoStepsLayout(vs);
    TextPassLayout(es, base);
    TextFilterOfParts(es, VideoSteps(vs), TextPass(es, base).value.0, i);
  }

  lemma {:induction false} TextFilterOfParts(es: seq<Element>, v: seq<FilterStep>, ts: seq<FilterStep>, i: nat)
    requires DrawsTexts(es, ts) && DrawsAsElements(es, ts) && DrawsEveryText(es, ts)
    requires i < |es| && es[i].TextElement?
    ensures exists j :: |v| <= j < |v + ts| && DrawnAsElement((v + ts)[j], es[i], i)
  {
    var j :| 0 <= j < |ts| && ts[j].out == Drawn(i);
    TextDrawnAsElement(es[i], i, ts[j].base, ts[j].box);
    assert (v + ts)[|v| + j] == ts[j];
  }
}

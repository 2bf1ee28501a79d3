/** `transform_to_video_request` (app/routers/template_clip.py): merging the
    user's elements with the per-type defaults of a loaded template into the
    dictionaries of a video request. */
module TemplateMerge {
  import opened Wrappers
  import opened Strings
  import opened JsonValue
  import opened TemplateModels

  /** A user element as the merge reads it: the validated fields, the
      dictionary `process_special_properties()` returns, the values
      `getattr(element, prop, None)` yields for the three audio properties
      (JNull when absent) and `style.dict(exclude_unset=True)` when the
      element has a truthy `style`. */
  datatype UserElement = UserElement(kind: ElementType, source: Option<string>, text: Option<string>,
                                     start: real, duration: real, processed: map<string, Json>,
                                     volume: Json, fadeIn: Json, fadeOut: Json,
                                     style: Option<map<string, Json>>)

  const NotADict := "AttributeError: expected a dict"
  const NoOutput := "KeyError: 'output'"
  const NoDefaults := "KeyError: 'defaults'"

  /** The keys of an element dictionary, and their names. */
  datatype Field = TypeField | IdField | TimelineField | SourceField | TextField | TransformField
                 | VolumeField | FadeInField | FadeOutField | AudioField | StyleField

  function FieldName(f: Field): string {
    match f
    case TypeField => "type"
    case IdField => "id"
    case TimelineField => "timeline"
    case SourceField => "source"
    case TextField => "text"
    case TransformField => "transform"
    case VolumeField => "volume"
    case FadeInField => "fade_in"
    case FadeOutField => "fade_out"
    case AudioField => "audio"
    case StyleField => "style"
  }

  /** A merged element: a dictionary over the field names. */
  type ElementDict = map<Field, Json>

  function OptionalString(v: Option<string>): Json {
    if v.Some? then JStr(v.value) else JNull
  }

  /** `element.timeline.dict()`. */
  function TimelineJson(e: UserElement): Json {
    JObj(map["start" := JNum(e.start), "duration" := JNum(e.duration)])
  }

  /** `f"{element_type}-{len(transformed_elements)}"`, the type written as its value. */
  function ElementId(kind: ElementType, k: nat): string {
    TypeValue(kind) + "-" + NatToString(k)
  }

  // ------------------------------------------------------------ total duration

  /** The latest end time of the elements. */
  function MaxEnd(elements: seq<UserElement>): (m: real)
    requires elements != []
    ensures exists i :: 0 <= i < |elements| && m == elements[i].start + elements[i].duration
    ensures forall i :: 0 <= i < |elements| ==> elements[i].start + elements[i].duration <= m
  {
    var last := elements[|elements| - 1];
    if |elements| == 1 then last.start + last.duration
    else
      var m := MaxEnd(elements[..|elements| - 1]);
      assert forall i :: 0 <= i < |elements| - 1 ==> elements[..|elements| - 1][i] == elements[i];
      if last.start + last.duration > m then last.start + last.duration else m
  }

  /** `max(start + duration for each element, default=output.get("duration", 10))`. */
  function TotalDuration(output: map<string, Json>, elements: seq<UserElement>): Json {
    if elements == [] then Get(output, "duration", JNum(10.0)) else JNum(MaxEnd(elements))
  }

  // ------------------------------------------------------------- one element

  /** `template["defaults"].get(element_type.value, {})`, which must be a dict. */
  function TypeDefaults(defaults: map<string, Json>, kind: ElementType): Result<map<string, Json>> {
    match Get(defaults, TypeValue(kind), JObj(map[]))
    case JObj(td) => Success(td)
    case _ => Failure(NotADict)
  }

  /** The required fields, and the source or the text. */
  function BaseElement(e: UserElement, k: nat): ElementDict {
    var m := map[TypeField := JStr(TypeValue(e.kind)), IdField := JStr(ElementId(e.kind, k)), TimelineField := TimelineJson(e)];
    if e.kind in {Video, Image, Audio} then m[SourceField := OptionalString(e.source)]
    else m[TextField := OptionalString(e.text)]
  }

  /** The transform of a non-audio element: the template's when the user gave
      none; with a user position, the template position overridden by its
      non-None keys, then the template transform overridden by the other
      non-None user keys; otherwise `{**template, **user}`. */
  function TransformOf(td: map<string, Json>, processed: map<string, Json>): Result<Json> {
    var tt := Get(td, "transform", JObj(map[]));
    if "transform" !in processed then Success(tt)
    else
      match processed["transform"]
      case JObj(ut) =>
        if "position" in ut then
          match (ut["position"], tt)
          case (JObj(up), JObj(ttm)) =>
            (match Get(ttm, "position", JObj(map[]))
             case JObj(tp) => Success(JObj(Overrides(ttm["position" := JObj(Overrides(tp, up))], ut - {"position"})))
             case _ => Failure(NotADict))
          case _ => Failure(NotADict)
        else
          (match tt
           case JObj(ttm) => Success(JObj(ttm + ut))
           case _ => Failure(NotADict))
      case _ => Failure(NotADict)
  }

  /** One audio property: the user's value if not None, else the template
      default if not None, else left absent. */
  function WithProp(m: ElementDict, td: map<string, Json>, name: Field, user: Json): ElementDict {
    if user != JNull then m[name := user]
    else if Get(td, FieldName(name), JNull) != JNull then m[name := Get(td, FieldName(name), JNull)]
    else m
  }

  function AudioProps(e: UserElement): seq<(Field, Json)> {
    [(VolumeField, e.volume), (FadeInField, e.fadeIn), (FadeOutField, e.fadeOut)]
  }

  /** The audio-property loop over a prefix of the properties. */
  function WithProps(m: ElementDict, td: map<string, Json>, props: seq<(Field, Json)>): ElementDict
    decreases |props|
  {
    if props == [] then m
    else
      var last := props[|props| - 1];
      WithProp(WithProps(m, td, props[..|props| - 1]), td, last.0, last.1)
  }

  /** The template style with its fallbacks. */
  function DefaultStyle(sd: map<string, Json>): map<string, Json> {
    map["font_family" := Get(sd, "font_family", JStr("Arial")),
        "font_size" := Get(sd, "font_size", JNum(48.0)),
        "color" := Get(sd, "color", JStr("white")),
        "alignment" := Get(sd, "alignment", JStr("center")),
        "background_color" := Get(sd, "background_color", JStr("rgba(0,0,0,0.3)"))]
  }

  /** The style of a text element: the defaults, overridden by the user's
      non-None style fields. */
  function StyleOf(td: map<string, Json>, style: Option<map<string, Json>>): Result<map<string, Json>> {
    match Get(td, "style", JObj(map[]))
    case JObj(sd) => Success(if style.Some? then Overrides(DefaultStyle(sd), style.value) else DefaultStyle(sd))
    case _ => Failure(NotADict)
  }

  /** The dictionary for the element at position k: the base fields, then
      a transform unless it is audio, the audio properties for audio, the
      audio flag for video and the style for text. */
  function MergedElement(defaults: map<string, Json>, e: UserElement, k: nat): Result<ElementDict> {
    match TypeDefaults(defaults, e.kind)
    case Failure(err) => Failure(err)
    case Success(td) =>
      var base := BaseElement(e, k);
      if e.kind == Audio then Success(WithProps(base, td, AudioProps(e)))
      else
        match TransformOf(td, e.processed)
        case Failure(err) => Failure(err)
        case Success(t) =>
          if e.kind == Video then Success(base[TransformField := t][AudioField := Get(td, "audio", JBool(true))])
          else if e.kind == Image then Success(base[TransformField := t])
          else
            match StyleOf(td, e.style)
            case Failure(err) => Failure(err)
            case Success(st) => Success(base[TransformField := t][StyleField := JObj(st)])
  }

  /** The transform branch of the loop body, for a non-audio element. */
  method MergeTransform(td: map<string, Json>, processed: map<string, Json>) returns (r: Result<Json>)
    ensures r == TransformOf(td, processed)
  {
    var templateTransform := Get(td, "transform", JObj(map[]));
    if "transform" !in processed {
      return Success(templateTransform);
    }
    var userTransform := processed["transform"];
    if !userTransform.JObj? {
      return Failure(NotADict);
    }
    var ut := userTransform.fields;
    if "position" in ut {
      var userPosition := ut["position"];
      ut := ut - {"position"};
      if !userPosition.JObj? || !templateTransform.JObj? {
        return Failure(NotADict);
      }
      var templatePosition := Get(templateTransform.fields, "position", JObj(map[]));
      if !templatePosition.JObj? {
        return Failure(NotADict);
      }
      var mergedPosition := ApplyOverrides(templatePosition.fields, userPosition.fields);
      var transformCopy := templateTransform.fields["position" := JObj(mergedPosition)];
      transformCopy := ApplyOverrides(transformCopy, ut);
      return Success(JObj(transformCopy));
    }
    if !templateTransform.JObj? {
      return Failure(NotADict);
    }
    return Success(JObj(templateTransform.fields + ut));
  }

  /** The audio-property loop of the loop body. */
  method MergeAudioProps(element: ElementDict, td: map<string, Json>, props: seq<(Field, Json)>)
    returns (r: ElementDict)
    ensures r == WithProps(element, td, props)
  {
    r := element;
    for i := 0 to |props|
      invariant r == WithProps(element, td, props[..i])
    {
      assert props[..i + 1][..i] == props[..i];
      var (prop, userValue) := props[i];
      var defaultValue := Get(td, FieldName(prop), JNull);
      if userValue != JNull {
        r := r[prop := userValue];
      } else if defaultValue != JNull {
        r := r[prop := defaultValue];
      }
    }
    assert props[..|props|] == props;
  }

  /** The style branch of the loop body, for a text element. */
  method MergeStyle(td: map<string, Json>, style: Option<map<string, Json>>) returns (r: Result<map<string, Json>>)
    ensures r == StyleOf(td, style)
  {
    var styleDefaults := Get(td, "style", JObj(map[]));
    if !styleDefaults.JObj? {
      return Failure(NotADict);
    }
    var transformedStyle := DefaultStyle(styleDefaults.fields);
    if style.Some? {
      transformedStyle := ApplyOverrides(transformedStyle, style.value);
    }
    return Success(transformedStyle);
  }

  /** The loop body: the element's dictionary built key by key. */
  method TransformElement(defaults: map<string, Json>, e: UserElement, k: nat) returns (r: Result<ElementDict>)
    ensures r == MergedElement(defaults, e, k)
  {
    var defaultsOfType := Get(defaults, TypeValue(e.kind), JObj(map[]));
    if !defaultsOfType.JObj? {
      return Failure(NotADict);
    }
    var td := defaultsOfType.fields;
    var element := map[TypeField := JStr(TypeValue(e.kind)), IdField := JStr(ElementId(e.kind, k)), TimelineField := TimelineJson(e)];
    if e.kind in {Video, Image, Audio} {
      element := element[SourceField := OptionalString(e.source)];
    } else if e.kind == Text {
      element := element[TextField := OptionalString(e.text)];
    }
    if e.kind != Audio {
      var transform := MergeTransform(td, e.processed);
      if transform.Failure? {
        return Failure(transform.error);
      }
      element := element[TransformField := transform.value];
    }
    if e.kind == Audio {
      element := MergeAudioProps(element, td, AudioProps(e));
    }
    if e.kind == Video {
      element := element[AudioField := Get(td, "audio", JBool(true))];
    }
    if e.kind == Text {
      var style := MergeStyle(td, e.style);
      if style.Failure? {
        return Failure(style.error);
      }
      element := element[StyleField := JObj(style.value)];
    }
    return Success(element);
  }

  // ------------------------------------------------------------ all elements

  /** The results of `f` on each element with its position, in order, or
      the first failure. */
  function MapResults<T, U>(f: (T, nat) -> Result<U>, xs: seq<T>): Result<seq<U>>
    decreases |xs|
  {
    if xs == [] then Success([])
    else
      var init :- MapResults(f, xs[..|xs| - 1]);
      var last :- f(xs[|xs| - 1], |xs| - 1);
      Success(init + [last])
  }

  /** The element dictionaries in order, or the first failure. */
  function MergedElements(defaults: map<string, Json>, elements: seq<UserElement>): Result<seq<ElementDict>> {
    MapResults(MergeStep(defaults), elements)
  }

  function MergeStep(defaults: map<string, Json>): (UserElement, nat) -> Result<ElementDict> {
    (e: UserElement, k: nat) => MergedElement(defaults, e, k)
  }

  /** The merged request: the output settings and the element dictionaries. */
  datatype MergedRequest = MergedRequest(output: map<string, Json>, elements: seq<ElementDict>)

  /** The output settings with the total duration written in. */
  function OutputWithDuration(output: map<string, Json>, elements: seq<UserElement>): map<string, Json> {
    output["duration" := TotalDuration(output, elements)]
  }

  /** A template loaded from its JSON file. The merge writes the duration into
      the template's own output settings. */
  class TemplateDoc {
    var entries: map<string, Json>

    constructor(entries: map<string, Json>)
      ensures this.entries == entries
    {
      this.entries := entries;
    }
  }

  /** `transform_to_video_request`: the template's output must be a dict, its
      defaults one too as soon as there is an element; the template's output
      gets the total duration before any element is looked at, so a later
      failure leaves it written. */
  method TransformToVideoRequest(template: TemplateDoc, elements: seq<UserElement>) returns (r: Result<MergedRequest>)
    modifies template
    ensures !("output" in old(template.entries) && old(template.entries)["output"].JObj?) ==>
              r.Failure? && template.entries == old(template.entries)
    ensures "output" in old(template.entries) && old(template.entries)["output"].JObj? ==>
              var output := OutputWithDuration(old(template.entries)["output"].fields, elements);
              && template.entries == old(template.entries)["output" := JObj(output)]
              && (elements != [] && !("defaults" in old(template.entries) && old(template.entries)["defaults"].JObj?) ==>
                    r.Failure?)
              && (elements == [] ==> r == Success(MergedRequest(output, [])))
              && ("defaults" in old(template.entries) && old(template.entries)["defaults"].JObj? ==>
                    var merged := MergedElements(old(template.entries)["defaults"].fields, elements);
                    && (r.Success? <==> merged.Success?)
                    && (r.Success? ==> r.value == MergedRequest(output, merged.value)))
  {
    if "output" !in template.entries || !template.entries["output"].JObj? {
      return Failure(NoOutput);
    }
    var output := template.entries["output"].fields;
    var totalDuration := if elements == [] then Get(output, "duration", JNum(10.0))
                         else JNum(MaxEnd(elements));
    output := output["duration" := totalDuration];
    template.entries := template.entries["output" := JObj(output)];
    var transformed: seq<ElementDict> := [];
    for i := 0 to |elements|
      invariant template.entries == old(template.entries)["output" := JObj(output)]
      invariant i > 0 ==> "defaults" in template.entries && template.entries["defaults"].JObj?
      invariant i > 0 ==> MapResults(MergeStep(template.entries["defaults"].fields), elements[..i]) == Success(transformed)
      invariant |transformed| == i
    {
      if "defaults" !in template.entries || !template.entries["defaults"].JObj? {
        return Failure(NoDefaults);
      }
      var defaults := template.entries["defaults"].fields;
      assert elements[..i + 1][..i] == elements[..i];
      var element := TransformElement(defaults, elements[i], |transformed|);
      if element.Failure? {
        MapResultsFailure(MergeStep(defaults), elements, i + 1);
        return Failure(element.error);
      }
      transformed := transformed + [element.value];
      assert MapResults(MergeStep(defaults), elements[..i + 1]) == Success(transformed);
    }
    assert elements[..|elements|] == elements;
    return Success(MergedRequest(output, transformed));
  }

  /** Once an element fails, the whole list fails. */
  lemma {:induction false} MapResultsFailure<T, U>(f: (T, nat) -> Result<U>, xs: seq<T>, n: nat)
    requires 0 < n <= |xs|
    requires MapResults(f, xs[..n - 1]).Success?
    requires f(xs[n - 1], n - 1).Failure?
    ensures MapResults(f, xs).Failure?
    decreases |xs| - n
  {
    assert xs[..n][..n - 1] == xs[..n - 1];
    if n < |xs| {
      assert xs[..|xs| - 1][..n - 1] == xs[..n - 1];
      assert xs[..|xs| - 1][n - 1] == xs[n - 1];
      MapResultsFailure(f, xs[..|xs| - 1], n);
    } else {
      assert xs[..n] == xs;
    }
  }

  // ------------------------------------------------------------- properties

  /** The list succeeds exactly when every element does, keeps the length and
      the order, and holds at position j the result of element j. */
  lemma {:induction false} MapResultsShape<T, U>(f: (T, nat) -> Result<U>, xs: seq<T>)
    ensures MapResults(f, xs).Success? <==> forall j :: 0 <= j < |xs| ==> f(xs[j], j).Success?
    ensures MapResults(f, xs).Success? ==>
              |MapResults(f, xs).value| == |xs|
              && forall j :: 0 <= j < |xs| ==> MapResults(f, xs).value[j] == f(xs[j], j).value
    decreases |xs|
  {
    if xs != [] {
      var init := xs[..|xs| - 1];
      MapResultsShape(f, init);
      assert forall j :: 0 <= j < |init| ==> init[j] == xs[j];
    }
  }

  /** Two ids are equal only for the same position: the position is the
      digit string after the last '-'. */
  lemma {:induction false} ElementIdsDistinct(a: ElementType, i: nat, b: ElementType, j: nat)
    requires ElementId(a, i) == ElementId(b, j)
    ensures i == j
  {
    DigitsAfterDash(TypeValue(a), NatToString(i), TypeValue(b), NatToString(j));
    NatToStringInjective(i, j);
  }

  /** `p + "-" + d` determines the digit string d. */
  lemma {:induction false} DigitsAfterDash(p: string, d: string, q: string, e: string)
    requires AllDigits(d) && AllDigits(e) && p + "-" + d == q + "-" + e
    ensures d == e
  {
    var s := p + "-" + d;
    if |d| < |e| {
      DashInDigits(p, d, q, e);
    } else if |e| < |d| {
      DashInDigits(q, e, p, d);
    } else {
      assert d == s[|s| - |d|..];
      assert e == s[|s| - |e|..] by {
        assert s == q + "-" + e;
      }
    }
  }

  /** A dash where the longer digit string has a digit. */
  lemma {:induction false} DashInDigits(p: string, d: string, q: string, e: string)
    requires AllDigits(e) && p + "-" + d == q + "-" + e
    ensures |d| >= |e|
  {
    var s := p + "-" + d;
    assert s[|s| - |d| - 1] == '-';
    if |d| < |e| {
      assert false;
    }
  }

  /** The audio loop leaves every other key as it was. */
  lemma {:induction false} WithPropsOther(m: ElementDict, td: map<string, Json>, props: seq<(Field, Json)>, key: Field)
    requires forall p :: p in props ==> p.0 != key
    ensures key in WithProps(m, td, props) <==> key in m
    ensures key in m ==> WithProps(m, td, props)[key] == m[key]
    decreases |props|
  {
    if props != [] {
      WithPropsOther(m, td, props[..|props| - 1], key);
    }
  }

  /** The audio loop sets a property named once in the list by its rule. */
  lemma {:induction false} WithPropsRule(m: ElementDict, td: map<string, Json>, props: seq<(Field, Json)>, i: nat)
    requires i < |props|
    requires forall j :: 0 <= j < |props| && j != i ==> props[j].0 != props[i].0
    ensures var r, name, user := WithProps(m, td, props), props[i].0, props[i].1;
      && (name in r <==> name in m || user != JNull || Get(td, FieldName(name), JNull) != JNull)
      && (user != JNull ==> r[name] == user)
      && (user == JNull && Get(td, FieldName(name), JNull) != JNull ==> r[name] == Get(td, FieldName(name), JNull))
    decreases |props|
  {
    var init := props[..|props| - 1];
    if i == |props| - 1 {
      assert forall p :: p in init ==> p.0 != props[i].0;
      WithPropsOther(m, td, init, props[i].0);
    } else {
      assert forall j :: 0 <= j < |init| ==> init[j] == props[j];
      WithPropsRule(m, td, init, i);
    }
  }

  /** The base fields: type, position-based id, timeline, and the source
      (video, image, audio) or the text (text). */
  lemma {:induction false} BaseElementFields(e: UserElement, k: nat)
    ensures var m := BaseElement(e, k);
      && m[TypeField] == JStr(TypeValue(e.kind))
      && m[IdField] == JStr(ElementId(e.kind, k))
      && m[TimelineField] == TimelineJson(e)
      && (e.kind != Text ==> m.Keys == {TypeField, IdField, TimelineField, SourceField} && m[SourceField] == OptionalString(e.source))
      && (e.kind == Text ==> m.Keys == {TypeField, IdField, TimelineField, TextField} && m[TextField] == OptionalString(e.text))
  {
  }

  /** A merged audio element is its base fields run through the
      audio-property loop. */
  lemma {:induction false} AudioMerged(defaults: map<string, Json>, e: UserElement, k: nat)
    requires e.kind == Audio && MergedElement(defaults, e, k).Success?
    ensures TypeDefaults(defaults, e.kind).Success?
    ensures MergedElement(defaults, e, k).value
            == WithProps(BaseElement(e, k), TypeDefaults(defaults, e.kind).value, AudioProps(e))
  {
  }

  /** The audio-property loop touches only the three audio fields. */
  lemma {:induction false} AudioPropsOther(m: ElementDict, td: map<string, Json>, e: UserElement, key: Field)
    requires key != VolumeField && key != FadeInField && key != FadeOutField
    ensures key in WithProps(m, td, AudioProps(e)) <==> key in m
    ensures key in m ==> WithProps(m, td, AudioProps(e))[key] == m[key]
  {
    WithPropsOther(m, td, AudioProps(e), key);
  }

  /** An audio element has no transform, audio flag or style. */
  lemma {:induction false} AudioElementExtras(td: map<string, Json>, e: UserElement, k: nat)
    requires e.kind == Audio
    ensures var m := WithProps(BaseElement(e, k), td, AudioProps(e));
      TransformField !in m && AudioField !in m && StyleField !in m
  {
    var m0 := BaseElement(e, k);
    BaseElementFields(e, k);
    AudioPropsOther(m0, td, e, TransformField);
    AudioPropsOther(m0, td, e, AudioField);
    AudioPropsOther(m0, td, e, StyleField);
  }

  /** An audio element keeps its base fields and gains no text. */
  lemma {:induction false} AudioElementKeepsBase(td: map<string, Json>, e: UserElement, k: nat)
    requires e.kind == Audio
    ensures var m, m0 := WithProps(BaseElement(e, k), td, AudioProps(e)), BaseElement(e, k);
      && (forall key :: key in m0 ==> key in m && m[key] == m0[key])
      && TextField !in m
  {
    var m0 := BaseElement(e, k);
    BaseElementFields(e, k);
    forall key | key in m0
      ensures key in WithProps(m0, td, AudioProps(e)) && WithProps(m0, td, AudioProps(e))[key] == m0[key]
    {
      AudioPropsOther(m0, td, e, key);
    }
    AudioPropsOther(m0, td, e, TextField);
  }

  /** A transform exactly for non-audio elements, an audio flag exactly
      for video elements, a style exactly for text elements. */
  lemma {:induction false} MergedElementExtras(defaults: map<string, Json>, e: UserElement, k: nat)
    requires MergedElement(defaults, e, k).Success?
    ensures var m := MergedElement(defaults, e, k).value;
      && (TransformField in m <==> e.kind != Audio)
      && (AudioField in m <==> e.kind == Video)
      && (StyleField in m <==> e.kind == Text)
  {
    if e.kind == Audio {
      AudioMerged(defaults, e, k);
      AudioElementExtras(TypeDefaults(defaults, e.kind).value, e, k);
    } else {
      BaseElementFields(e, k);
    }
  }

  /** The fields every merged element carries: its type, its position-based
      id, its timeline, and the source (video, image, audio) or the text
      (text), and no text on a media element nor source on a text element. */
  lemma {:induction false} MergedElementFields(defaults: map<string, Json>, e: UserElement, k: nat)
    requires MergedElement(defaults, e, k).Success?
    ensures var m := MergedElement(defaults, e, k).value;
      && TypeField in m && m[TypeField] == JStr(TypeValue(e.kind))
      && IdField in m && m[IdField] == JStr(ElementId(e.kind, k))
      && TimelineField in m && m[TimelineField] == TimelineJson(e)
      && (e.kind != Text ==> SourceField in m && m[SourceField] == OptionalString(e.source) && TextField !in m)
      && (e.kind == Text ==> TextField in m && m[TextField] == OptionalString(e.text) && SourceField !in m)
  {
    BaseElementFields(e, k);
    if e.kind == Audio {
      AudioMerged(defaults, e, k);
      AudioElementKeepsBase(TypeDefaults(defaults, e.kind).value, e, k);
    }
  }

  /** The merged list has one dictionary per element, in order, with ids
      that are pairwise distinct. */
  lemma {:induction false} MergedElementsDistinctIds(defaults: map<string, Json>, elements: seq<UserElement>)
    requires MergedElements(defaults, elements).Success?
    ensures var ms := MergedElements(defaults, elements).value;
      && |ms| == |elements|
      && (forall j :: 0 <= j < |ms| ==> MergedElement(defaults, elements[j], j) == Success(ms[j]))
      && (forall i, j :: 0 <= i < j < |ms| ==> IdField in ms[i] && IdField in ms[j] && ms[i][IdField] != ms[j][IdField])
  {
    var f := MergeStep(defaults);
    MapResultsShape(f, elements);
    var ms := MergedElements(defaults, elements).value;
    forall i, j | 0 <= i < j < |ms|
      ensures IdField in ms[i] && IdField in ms[j] && ms[i][IdField] != ms[j][IdField]
    {
      assert f(elements[i], i).Success? && f(elements[j], j).Success?;
      MergedElementFields(defaults, elements[i], i);
      MergedElementFields(defaults, elements[j], j);
      if ms[i][IdField] == ms[j][IdField] {
        ElementIdsDistinct(elements[i].kind, i, elements[j].kind, j);
      }
    }
  }

  /** With a user position: the merged position is the template position
      overridden by the non-None user position keys, and every other key is
      the template transform's, overridden by the non-None user keys. */
  lemma {:induction false} TransformWithPosition(td: map<string, Json>, processed: map<string, Json>,
                                                 ut: map<string, Json>, up: map<string, Json>,
                                                 ttm: map<string, Json>, tp: map<string, Json>)
    requires "transform" in processed && processed["transform"] == JObj(ut)
    requires "position" in ut && ut["position"] == JObj(up)
    requires Get(td, "transform", JObj(map[])) == JObj(ttm) && Get(ttm, "position", JObj(map[])) == JObj(tp)
    ensures TransformOf(td, processed).Success? && TransformOf(td, processed).value.JObj?
    ensures var t := TransformOf(td, processed).value.fields;
      && "position" in t && t["position"] == JObj(Overrides(tp, up))
      && (forall key :: key != "position" ==> (key in t <==> key in ttm || (key in ut && ut[key] != JNull)))
      && (forall key :: key != "position" && key in t ==>
            t[key] == if key in ut && ut[key] != JNull then ut[key] else ttm[key])
  {
    OverridesMeaning(ttm["position" := JObj(Overrides(tp, up))], ut - {"position"});
  }

  /** Without a user position: `{**template, **user}`, every user key winning,
      None values included. */
  lemma {:induction false} TransformWithoutPosition(td: map<string, Json>, processed: map<string, Json>,
                                                    ut: map<string, Json>, ttm: map<string, Json>)
    requires "transform" in processed && processed["transform"] == JObj(ut) && "position" !in ut
    requires Get(td, "transform", JObj(map[])) == JObj(ttm)
    ensures TransformOf(td, processed).Success? && TransformOf(td, processed).value.JObj?
    ensures var t := TransformOf(td, processed).value.fields;
      && (forall key :: key in t <==> key in ttm || key in ut)
      && (forall key :: key in ut ==> t[key] == ut[key])
      && (forall key :: key in ttm && key !in ut ==> t[key] == ttm[key])
  {
  }

  /** Without a user transform the template's transform is used as it is. */
  lemma {:induction false} TransformWithoutUser(td: map<string, Json>, processed: map<string, Json>)
    requires "transform" !in processed
    ensures TransformOf(td, processed) == Success(Get(td, "transform", JObj(map[])))
  {
  }

  /** The three audio properties of an audio element: the user's value if
      not None, else the template default if not None, else absent. */
  lemma {:induction false} AudioPropsRule(defaults: map<string, Json>, e: UserElement, k: nat)
    requires e.kind == Audio && MergedElement(defaults, e, k).Success?
    ensures var m, td := MergedElement(defaults, e, k).value, TypeDefaults(defaults, e.kind).value;
      forall i :: 0 <= i < 3 ==>
        var (name, user) := AudioProps(e)[i];
        && (name in m <==> user != JNull || Get(td, FieldName(name), JNull) != JNull)
        && (user != JNull ==> m[name] == user)
        && (user == JNull && Get(td, FieldName(name), JNull) != JNull ==> m[name] == Get(td, FieldName(name), JNull))
  {
    var td := TypeDefaults(defaults, e.kind).value;
    var m0 := BaseElement(e, k);
    var props := AudioProps(e);
    forall i | 0 <= i < 3
      ensures var (name, user) := props[i];
        && (name in WithProps(m0, td, props) <==> user != JNull || Get(td, FieldName(name), JNull) != JNull)
        && (user != JNull ==> WithProps(m0, td, props)[name] == user)
        && (user == JNull && Get(td, FieldName(name), JNull) != JNull ==> WithProps(m0, td, props)[name] == Get(td, FieldName(name), JNull))
    {
      WithPropsRule(m0, td, props, i);
    }
  }

  /** The audio flag of a video element is the template default, or True;
      nothing the user supplies affects it. */
  lemma {:induction false} VideoAudioFlag(defaults: map<string, Json>, e: UserElement, k: nat)
    requires e.kind == Video && MergedElement(defaults, e, k).Success?
    ensures MergedElement(defaults, e, k).value[AudioField]
            == Get(TypeDefaults(defaults, e.kind).value, "audio", JBool(true))
  {
  }

  /** The built-in style values, used where the template has none. */
  function BuiltinStyle(): map<string, Json> {
    DefaultStyle(map[])
  }

  /** The five style fields are the built-in ones, each taken from the
      template style when it has it. */
  lemma {:induction false} DefaultStyleFields(sd: map<string, Json>)
    ensures DefaultStyle(sd).Keys == BuiltinStyle().Keys
    ensures forall key :: key in BuiltinStyle() ==> DefaultStyle(sd)[key] == Get(sd, key, BuiltinStyle()[key])
  {
  }

  /** The merged style: each of the five style fields is the user's non-None
      value if set, else the template's, else the built-in one; other
      non-None user fields are added. */
  lemma {:induction false} StyleOfRule(td: map<string, Json>, style: Option<map<string, Json>>, sd: map<string, Json>)
    requires Get(td, "style", JObj(map[])) == JObj(sd)
    ensures StyleOf(td, style).Success?
    ensures var st, user := StyleOf(td, style).value, style.GetOr(map[]);
      && (forall key :: key in st <==> key in BuiltinStyle() || (key in user && user[key] != JNull))
      && (forall key :: key in BuiltinStyle() ==>
            st[key] == if key in user && user[key] != JNull then user[key] else Get(sd, key, BuiltinStyle()[key]))
  {
    var user := style.GetOr(map[]);
    DefaultStyleFields(sd);
    OverridesMeaning(DefaultStyle(sd), user);
    assert Overrides(DefaultStyle(sd), map[]) == DefaultStyle(sd) by {
      assert NonNull(map[]) == map[];
    }
  }

  /** A merged text element carries the merged style. */
  lemma {:induction false} TextStyleRule(defaults: map<string, Json>, e: UserElement, k: nat)
    requires e.kind == Text && MergedElement(defaults, e, k).Success?
    ensures var td := TypeDefaults(defaults, e.kind).value;
      && StyleOf(td, e.style).Success?
      && MergedElement(defaults, e, k).value[StyleField] == JObj(StyleOf(td, e.style).value)
  {
  }
}

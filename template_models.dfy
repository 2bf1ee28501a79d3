/** The request models of the template endpoint (app/models/template_clip.py):
    the element type enumeration, the timeline bounds and the source/text
    validator, with the field-by-field error collection of the model. */
module TemplateModels {
  import opened Wrappers

  datatype ElementType = Video | Image | Text | Audio

  /** The enumeration's string values. */
  function TypeValue(t: ElementType): string {
    match t
    case Video => "video"
    case Image => "image"
    case Text => "text"
    case Audio => "audio"
  }

  /** Reading a string as an element type; None for any other string. */
  function ParseElementType(s: string): (r: Option<ElementType>)
    ensures r.Some? ==> TypeValue(r.value) == s
  {
    if s == "video" then Some(Video)
    else if s == "image" then Some(Image)
    else if s == "text" then Some(Text)
    else if s == "audio" then Some(Audio)
    else None
  }

  /** Every type reads back from its value, so the values are distinct and
      exactly the four values are accepted. */
  lemma {:induction false} ParseTypeValue(t: ElementType)
    ensures ParseElementType(TypeValue(t)) == Some(t)
  {
    match t
    case Video =>
    case Image =>
    case Text =>
    case Audio =>
  }

  lemma {:induction false} ParseElementTypeIff(s: string)
    ensures ParseElementType(s).Some? <==> exists t :: TypeValue(t) == s
  {
    if exists t :: TypeValue(t) == s {
      var t :| TypeValue(t) == s;
      ParseTypeValue(t);
    }
  }

  datatype Timeline = Timeline(start: real, duration: real)

  /** One validation error: the field path and the message. */
  datatype FieldError = FieldError(loc: seq<string>, msg: string)

  const EnumMessage := "value is not a valid enumeration member; permitted: 'video', 'image', 'text', 'audio'"
  const GeZeroMessage := "ensure this value is greater than or equal to 0"
  const GtZeroMessage := "ensure this value is greater than 0"
  const TextRequired := "text is required for text elements"
  const SourceRequired := "source is required for video, audio, and image elements"

  /** The field bounds of `Timeline`: start >= 0 and duration > 0, each
      violated bound reported at its own field. */
  function TimelineErrors(start: real, duration: real): (errs: seq<FieldError>)
    ensures errs == [] <==> start >= 0.0 && duration > 0.0
    ensures forall e :: e in errs ==> |e.loc| == 2 && e.loc[0] == "timeline"
    ensures forall e :: e in errs ==> (e.loc[1] == "start" <==> start < 0.0 && e.msg == GeZeroMessage)
  {
    (if start >= 0.0 then [] else [FieldError(["timeline", "start"], GeZeroMessage)])
    + (if duration > 0.0 then [] else [FieldError(["timeline", "duration"], GtZeroMessage)])
  }

  /** Python truthiness of an optional string: None and "" are false. */
  predicate Falsy(v: Option<string>) {
    v.None? || v.value == ""
  }

  /** `validate_source_text` on a supplied value, given the element type when
      it validated: a text element rejects a falsy value with the text
      message, every other type with the source message; without a type
      nothing is checked. */
  function ValidateSourceText(kind: Option<ElementType>, v: Option<string>): (r: Result<Option<string>>)
  {
    if kind.Some? && kind.value == Text && Falsy(v) then Failure(TextRequired)
    else if kind.Some? && kind.value in {Video, Audio, Image} && Falsy(v) then Failure(SourceRequired)
    else Success(v)
  }

  /** The validator rejects exactly the falsy values of typed elements, with
      the message of the element's type, and returns any other value as it is. */
  lemma {:induction false} ValidateSourceTextIff(kind: Option<ElementType>, v: Option<string>)
    ensures ValidateSourceText(kind, v).Failure? <==> kind.Some? && Falsy(v)
    ensures ValidateSourceText(kind, v).Failure? ==>
              ValidateSourceText(kind, v).error == (if kind.value == Text then TextRequired else SourceRequired)
    ensures ValidateSourceText(kind, v).Success? ==> ValidateSourceText(kind, v).value == v
  {
    if kind.Some? {
      match kind.value
      case Video =>
      case Image =>
      case Text =>
      case Audio =>
    }
  }

  /** A validated element. */
  datatype Element = Element(kind: ElementType, source: Option<string>, text: Option<string>, timeline: Timeline)

  datatype Validated = Valid(element: Element) | Invalid(errors: seq<FieldError>)

  /** The check of one supplied field: no error when omitted (the default is
      not validated), otherwise the validator's error at that field. */
  function SuppliedErrors(field: string, kind: Option<ElementType>, supplied: Option<Option<string>>): seq<FieldError> {
    if supplied.None? then []
    else
      var r := ValidateSourceText(kind, supplied.value);
      if r.Failure? then [FieldError([field], r.error)] else []
  }

  /** Building an `Element`: the fields are checked in declaration order (type,
      source, text, timeline) and every error is collected; `source` and
      `text` are `Some(v)` when supplied (v itself may be None) and default
      to None. */
  function ValidateElement(typeText: string, source: Option<Option<string>>, text: Option<Option<string>>,
                           start: real, duration: real): (r: Validated)
  {
    var kind := ParseElementType(typeText);
    var errs := (if kind.None? then [FieldError(["type"], EnumMessage)] else [])
                + SuppliedErrors("source", kind, source)
                + SuppliedErrors("text", kind, text)
                + TimelineErrors(start, duration);
    if errs == [] then
      Valid(Element(kind.value, source.GetOr(None), text.GetOr(None), Timeline(start, duration)))
    else Invalid(errs)
  }

  /** An element validates exactly when its type is one of the four, its
      timeline is in bounds and no supplied source or text is falsy; the
      valid element carries the supplied values unchanged. */
  lemma {:induction false} ValidateElementIff(typeText: string, source: Option<Option<string>>,
                                              text: Option<Option<string>>, start: real, duration: real)
    ensures ValidateElement(typeText, source, text, start, duration).Valid? <==>
              && ParseElementType(typeText).Some?
              && start >= 0.0 && duration > 0.0
              && !(source.Some? && Falsy(source.value))
              && !(text.Some? && Falsy(text.value))
    ensures var r := ValidateElement(typeText, source, text, start, duration);
      r.Valid? ==>
        && TypeValue(r.element.kind) == typeText
        && r.element.source == (if source.Some? then source.value else None)
        && r.element.text == (if text.Some? then text.value else None)
        && r.element.timeline == Timeline(start, duration)
  {
    var kind := ParseElementType(typeText);
    if kind.Some? {
      if source.Some? {
        ValidateSourceTextIff(kind, source.value);
      }
      if text.Some? {
        ValidateSourceTextIff(kind, text.value);
      }
    }
  }

  /** A type that fails validation reports only the type and timeline errors:
      the source/text validator checks nothing without a type. */
  lemma {:induction false} UntypedSkipsSourceText(typeText: string, source: Option<Option<string>>,
                                                  text: Option<Option<string>>, start: real, duration: real)
    requires ParseElementType(typeText).None?
    ensures ValidateElement(typeText, source, text, start, duration)
            == Invalid([FieldError(["type"], EnumMessage)] + TimelineErrors(start, duration))
  {
    var kind := ParseElementType(typeText);
    assert SuppliedErrors("source", kind, source) == [];
    assert SuppliedErrors("text", kind, text) == [];
  }

  /** A text element whose text was supplied has non-empty text, and a
      media element whose source was supplied has a non-empty source. */
  lemma {:induction false} ValidElementHasContent(typeText: string, source: Option<Option<string>>,
                                                  text: Option<Option<string>>, start: real, duration: real)
    requires ValidateElement(typeText, source, text, start, duration).Valid?
    ensures var e := ValidateElement(typeText, source, text, start, duration).element;
      && (text.Some? ==> e.text.Some? && e.text.value != "")
      && (source.Some? ==> e.source.Some? && e.source.value != "")
      && e.timeline.start >= 0.0 && e.timeline.duration > 0.0
  {
    ValidateElementIff(typeText, source, text, start, duration);
  }
}

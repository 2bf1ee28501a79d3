/** The video request of the rendering service: output settings and an
    ordered list of layered elements. */
module VideoRequest {
  import opened Wrappers

  /** A position coordinate: an `int`, or a string such as "center". */
  datatype Coord = Px(n: int) | Named(s: string)

  datatype Position = Position(x: Coord, y: Coord)

  datatype Transform = Transform(scale: Option<real>, position: Position, opacity: Option<real>)

  /** `inPoint` is the optional `in_` field. */
  datatype Timeline = Timeline(start: real, duration: real, inPoint: Option<real>)

  datatype Style = Style(fontFamily: string, fontSize: real, color: string, alignment: string,
                         backgroundColor: Option<string>)

  /** One layer of the scene; the constructor is the element's `type`. */
  datatype Element =
    | VideoElement(id: string, source: string, timeline: Timeline, transform: Transform, audio: bool)
    | ImageElement(id: string, source: string, timeline: Timeline, transform: Transform)
    | TextElement(id: string, text: string, timeline: Timeline, transform: Transform, style: Style)
    | AudioElement(id: string, source: string, timeline: Timeline,
                   volume: Option<real>, fadeIn: Option<real>, fadeOut: Option<real>)

  datatype Resolution = Resolution(width: nat, height: nat)

  datatype Output = Output(resolution: Resolution, frameRate: real, format: string, duration: real,
                           backgroundColor: string)

  datatype Scene = Scene(output: Output, elements: seq<Element>)
}

/**
 * What goes in and out of the serializer: input buffers, the JSON values of
 * the sidecar file, the logical savant-rs messages (their byte encoding is a
 * black box) and the envelopes pushed downstream.
 */
module Wire {
  import opened Wrappers

  type byte = b: int | 0 <= b < 256

  /** Gst.CLOCK_TIME_NONE: the unsigned 64-bit "no time" marker. */
  const ClockTimeNone: int := 0xFFFF_FFFF_FFFF_FFFF

  type ClockTime = t: int | 0 <= t <= ClockTimeNone

  /** DEFAULT_TIME_BASE of savant.api.constants: nanoseconds. */
  const DefaultTimeBase: (int, int) := (1, 1_000_000_000)

  /** DEFAULT_NAMESPACE of savant.api.constants. */
  const DefaultNamespace: string := "default"

  /** A decoded JSON value. */
  datatype Json =
    | JNull
    | JBool(b: bool)
    | JNumber(n: real)
    | JString(s: string)
    | JArray(items: seq<Json>)
    | JObject(fields: map<string, Json>)

  /** Python truthiness of the value `json.loads` returns. */
  predicate Truthy(j: Json)
  {
    match j
    case JNull => false
    case JBool(b) => b
    case JNumber(n) => n != 0.0
    case JString(s) => s != ""
    case JArray(items) => items != []
    case JObject(fields) => fields != map[]
  }

  /** An incoming encoded video buffer. */
  datatype Buffer = Buffer(
    pts: ClockTime,
    dts: ClockTime,
    duration: ClockTime,
    deltaUnit: bool,
    data: seq<byte>)

  /** VideoFrameTransformation: only the initial-size record is built here. */
  datatype Transformation = InitialSize(width: int, height: int)

  datatype Attribute = Attribute(namespace: string, name: string, values: seq<string>)

  /** VideoFrameContent: the bytes inline, or a reference tagged by the transport kind. */
  datatype Content =
    | Internal(data: seq<byte>)
    | External(kind: string, location: Option<string>)

  datatype VideoFrame = VideoFrame(
    sourceId: string,
    framerate: string,
    width: int,
    height: int,
    codec: string,
    content: Content,
    keyframe: bool,
    pts: int,
    dts: Option<int>,
    duration: Option<int>,
    timeBase: (int, int),
    transformations: seq<Transformation>,
    objects: Option<Json>,
    attributes: seq<Attribute>)

  datatype Message =
    | FrameMessage(frame: VideoFrame)
    | EndOfStream(sourceId: string)
    | Shutdown(auth: string)

  /** The pts/dts/duration stamped on an output buffer (copied as they are, NONE included). */
  datatype Timing = Timing(pts: ClockTime, dts: ClockTime, duration: ClockTime)

  /**
   * One output buffer: the topic, the serialized message, the raw input
   * memory when the frame content is external, and the timing when it carries a frame.
   */
  datatype Envelope = Envelope(
    topic: string,
    message: Message,
    raw: Option<seq<byte>>,
    timing: Option<Timing>)

  /** The Python exceptions the core can raise while handling a buffer or an event. */
  datatype Failure =
    | NoParentAttribute     // `.parent` of a location that is None or a plain str
    | MissingMetadataKey    // a kept sidecar record without a 'metadata' key
    | FrameIndexOutOfRange  // `json_metadata[frame_num]` past the end
    | ObjectsLookupFailed   // `frame_metadata['objects']` on a value without that key

  /** One configured output stream: its source id and its topic. */
  datatype LogicalSource = LogicalSource(sourceId: string, topic: string)
}

/**
 * The SavantRsSerializer element: a GStreamer transform that turns each
 * encoded input buffer into one frame message per configured source,
 * closes a stream with EndOfStream messages when the input file, the
 * frame parameters or the loop changes, and forwards an upstream EOS as
 * EndOfStream messages plus an optional Shutdown.
 *
 * Every buffer the element pushes on its source pad is appended to
 * `pushed`; the buffer handed back to the base class at the end of
 * `PrepareOutputBuffer` is not pushed by the element, but it goes
 * downstream right after, so the ghost `downstream` holds both, in order.
 */
module Serializer {
  import opened Wrappers
  import opened Wire
  import opened Paths
  import opened Sidecar
  import opened SourceIds
  import opened Negotiation

  /**
   * The value of `self.location`: a pathlib path when a TAG event set it,
   * the plain text when the `location` property set it.
   */
  datatype Location = PathLocation(path: Path) | TextLocation(text: string)

  predicate WellFormedLocation(location: Option<Location>)
  {
    location.Some? && location.value.PathLocation? ==> Normalised(location.value.path)
  }

  /** `str(self.location)`. */
  function LocationText(location: Location): string
  {
    match location
    case PathLocation(path) => PathText(path)
    case TextLocation(text) => text
  }

  /** `if self.location:`: a path is always true, a text only when non-empty. */
  predicate LocationTruthy(location: Option<Location>)
  {
    location.Some? && (location.value.PathLocation? || location.value.text != "")
  }

  /**
   * Reloading the sidecar of the current location. The sidecar path
   * `self.location.parent / f'{self.location.stem}.json'` is computed before
   * `read_json_metadata_file` looks at `read_metadata`, and only a path has
   * a parent: None and a plain text raise AttributeError.
   */
  function Reload(location: Option<Location>, readMetadata: bool, files: Files): (r: Result<Option<seq<Json>>, Failure>)
    requires WellFormedLocation(location)
    ensures location.None? || location.value.TextLocation? ==> r == Err(NoParentAttribute)
    ensures location.Some? && location.value.PathLocation? ==>
      r == ReadJsonMetadataFile(readMetadata, files, SidecarPath(location.value.path))
  {
    match location
    case Some(PathLocation(path)) => ReadJsonMetadataFile(readMetadata, files, SidecarPath(path))
    case _ => Err(NoParentAttribute)
  }

  /** A dts or duration as build_video_frame receives it: None for CLOCK_TIME_NONE. */
  function OptionalTime(t: ClockTime): (r: Option<int>)
    ensures r.None? <==> t == ClockTimeNone
    ensures r.Some? ==> r.value == t
  {
    if t != ClockTimeNone then Some(t) else None
  }

  /**
   * The frame content for the configured frame type: the mapped buffer
   * bytes when embedded, an external reference without a location for
   * ZeroMQ, and nothing (an ERROR flow) for any other external type.
   */
  function ContentFor(frameType: Option<ExternalFrameType>, buf: Buffer): (r: Option<Content>)
    ensures r.None? <==> frameType.Some? && frameType.value != ZeroMQ
    ensures r.Some? && r.value.Internal? <==> frameType.None?
    ensures frameType.None? ==> r == Some(Internal(buf.data))
    ensures r.Some? && r.value.External? ==> r.value == External("zeromq", None)
  {
    if frameType.None? then Some(Internal(buf.data))
    else if frameType.value == ZeroMQ then Some(External(frameType.value.value, None))
    else None
  }

  /**
   * The sidecar step of build_video_frame: the objects to attach (or the
   * exception raised) and the frame counter afterwards. An entry is
   * consumed only when reading is on and the metadata list is non-empty;
   * the index is not checked before the lookup, and the counter moves
   * before the 'objects' key is read.
   */
  function MetadataStep(readMetadata: bool, jsonMetadata: Option<seq<Json>>, frameNum: nat)
    : (r: (Result<Option<Json>, Failure>, nat))
    ensures var consumes := readMetadata && jsonMetadata.Some? && |jsonMetadata.value| > 0;
      && (r.1 == frameNum + 1 <==> consumes && frameNum < |jsonMetadata.value|)
      && (r.1 != frameNum + 1 ==> r.1 == frameNum)
      && (!consumes ==> r.0 == Ok(None))
      && (r.0 == Err(FrameIndexOutOfRange) <==> consumes && frameNum >= |jsonMetadata.value|)
      && (consumes && frameNum < |jsonMetadata.value| ==> r.0 == ObjectsOf(jsonMetadata.value[frameNum]))
  {
    if readMetadata && jsonMetadata.Some? && |jsonMetadata.value| > 0 then
      if frameNum >= |jsonMetadata.value| then (Err(FrameIndexOutOfRange), frameNum)
      else (ObjectsOf(jsonMetadata.value[frameNum]), frameNum + 1)
    else (Ok(None), frameNum)
  }

  /** The frame build_video_frame returns once the sidecar step succeeded. */
  function FrameFor(
    sourceId: string, pts: ClockTime, dts: Option<int>, duration: Option<int>,
    content: Content, keyframe: bool, params: FrameParams, initialSize: Transformation,
    location: Option<Location>, objects: Option<Json>): VideoFrame
  {
    var frame := VideoFrame(
      sourceId, params.framerate, params.width, params.height, params.codecName,
      content, keyframe, if pts == ClockTimeNone then 0 else pts, dts, duration,
      DefaultTimeBase, [], None, []);
    var frame := frame.(transformations := frame.transformations + [initialSize]);
    var frame := if objects.Some? then frame.(objects := objects) else frame;
    if LocationTruthy(location) then
      frame.(attributes := frame.attributes + [Attribute(DefaultNamespace, "location", [LocationText(location.value)])])
    else frame
  }

  /**
   * What a built frame carries: a pts that is never CLOCK_TIME_NONE (a
   * missing one becomes 0), the negotiated parameters, exactly one
   * transformation (the initial size), the objects found, and a single
   * `location` attribute exactly when the location is truthy.
   */
  lemma FrameForShape(
    sourceId: string, pts: ClockTime, dts: Option<int>, duration: Option<int>,
    content: Content, keyframe: bool, params: FrameParams, initialSize: Transformation,
    location: Option<Location>, objects: Option<Json>)
    ensures var f := FrameFor(sourceId, pts, dts, duration, content, keyframe, params, initialSize, location, objects);
      && f.pts != ClockTimeNone
      && (pts != ClockTimeNone ==> f.pts == pts)
      && (pts == ClockTimeNone ==> f.pts == 0)
      && f.dts == dts && f.duration == duration && f.timeBase == DefaultTimeBase
      && f.codec == params.codecName && f.width == params.width && f.height == params.height
      && f.framerate == params.framerate
      && f.sourceId == sourceId && f.content == content && f.keyframe == keyframe
      && f.transformations == [initialSize]
      && f.objects == objects
      && |f.attributes| <= 1
      && (|f.attributes| == 1 <==> LocationTruthy(location))
      && (|f.attributes| == 1 ==>
            f.attributes[0] == Attribute(DefaultNamespace, "location", [LocationText(location.value)]))
  {
  }

  /** The envelope of one source for one input buffer. */
  function FrameEnvelope(source: LogicalSource, frame: VideoFrame, buf: Buffer, attachRaw: bool): Envelope
  {
    Envelope(source.topic, FrameMessage(frame.(sourceId := source.sourceId)),
             if attachRaw then Some(buf.data) else None,
             Some(Timing(buf.pts, buf.dts, buf.duration)))
  }

  /**
   * The envelopes of one input buffer: for each source, in configured
   * order, the same frame re-addressed to that source id and sent on that
   * source's topic, with the raw input memory exactly when the frame type
   * is external and the input timing copied as it is.
   */
  function FrameEnvelopes(sources: seq<LogicalSource>, frame: VideoFrame, buf: Buffer, attachRaw: bool)
    : (r: seq<Envelope>)
    ensures |r| == |sources|
  {
    seq(|sources|, k requires 0 <= k < |sources| => FrameEnvelope(sources[k], frame, buf, attachRaw))
  }

  /** The envelope of send_eos_message for one source: an EndOfStream without timing. */
  function EosEnvelope(source: LogicalSource): Envelope
  {
    Envelope(source.topic, EndOfStream(source.sourceId), None, None)
  }

  /** The envelopes of send_eos_message, one per source in configured order. */
  function EosEnvelopes(sources: seq<LogicalSource>): (r: seq<Envelope>)
    ensures |r| == |sources|
  {
    seq(|sources|, k requires 0 <= k < |sources| => EosEnvelope(sources[k]))
  }

  /**
   * The frame envelopes of one buffer: one per source, in configured
   * order, on that source's topic, carrying the same frame apart from the
   * source id, the raw memory exactly when asked, and the input timing.
   */
  lemma FrameEnvelopesShape(sources: seq<LogicalSource>, frame: VideoFrame, buf: Buffer, attachRaw: bool)
    ensures var r := FrameEnvelopes(sources, frame, buf, attachRaw);
      forall k :: 0 <= k < |r| ==>
        && r[k].topic == sources[k].topic
        && r[k].message == FrameMessage(frame.(sourceId := sources[k].sourceId))
        && r[k].message.frame.sourceId == sources[k].sourceId
        && (r[k].raw.Some? <==> attachRaw)
        && (attachRaw ==> r[k].raw == Some(buf.data))
        && r[k].timing == Some(Timing(buf.pts, buf.dts, buf.duration))
    ensures var r := FrameEnvelopes(sources, frame, buf, attachRaw);
      forall j, k :: 0 <= j < |r| && 0 <= k < |r| ==>
        r[j].message.frame.(sourceId := frame.sourceId) == r[k].message.frame.(sourceId := frame.sourceId)
  {
  }

  /** The EndOfStream messages: one per source, in configured order, on its topic, without timing. */
  lemma EosEnvelopesShape(sources: seq<LogicalSource>)
    ensures var r := EosEnvelopes(sources);
      forall k :: 0 <= k < |r| ==>
        && r[k].topic == sources[k].topic
        && r[k].message == EndOfStream(sources[k].sourceId)
        && r[k].raw.None? && r[k].timing.None?
  {
  }

  /** One more source adds that source's frame envelope at the end. */
  lemma FrameEnvelopesSnoc(sources: seq<LogicalSource>, i: nat, frame: VideoFrame, buf: Buffer, attachRaw: bool)
    requires i < |sources|
    ensures FrameEnvelopes(sources[..i + 1], frame, buf, attachRaw)
      == FrameEnvelopes(sources[..i], frame, buf, attachRaw) + [FrameEnvelope(sources[i], frame, buf, attachRaw)]
  {
    assert sources[..i + 1][..i] == sources[..i];
  }

  /** One more source adds that source's EndOfStream at the end. */
  lemma EosEnvelopesSnoc(sources: seq<LogicalSource>, i: nat)
    requires i < |sources|
    ensures EosEnvelopes(sources[..i + 1]) == EosEnvelopes(sources[..i]) + [EosEnvelope(sources[i])]
  {
    assert sources[..i + 1][..i] == sources[..i];
  }

  /** The envelope of send_shutdown_message: on the first source's topic, only when an auth is set. */
  function ShutdownEnvelopes(sources: seq<LogicalSource>, auth: Option<string>): (r: seq<Envelope>)
    requires |sources| >= 1
    ensures |r| <= 1
    ensures |r| == 1 <==> auth.Some?
    ensures |r| == 1 ==> r[0].topic == sources[0].topic && r[0].message == Shutdown(auth.value)
  {
    if auth.Some? then [Envelope(sources[0].topic, Shutdown(auth.value), None, None)] else []
  }

  /**
   * A stream is open on the output when the last envelope that went
   * downstream carries a frame: an EndOfStream closes it, and a Shutdown
   * only ever follows EndOfStream messages.
   */
  predicate OpenSegment(trace: seq<Envelope>)
  {
    trace != [] && trace[|trace| - 1].message.FrameMessage?
  }

  /** After send_eos_message, and after a Shutdown that follows it, no stream is open. */
  lemma EosClosesSegment(trace: seq<Envelope>, sources: seq<LogicalSource>, shutdown: seq<Envelope>)
    requires |sources| >= 1
    requires forall k :: 0 <= k < |shutdown| ==> shutdown[k].message.Shutdown?
    ensures !OpenSegment(trace + EosEnvelopes(sources) + shutdown)
  {
    var t := trace + EosEnvelopes(sources) + shutdown;
    if shutdown == [] {
      assert t[|t| - 1] == EosEnvelope(sources[|sources| - 1]);
    } else {
      assert t[|t| - 1] == shutdown[|shutdown| - 1];
    }
  }

  /** After the envelopes of a frame, a stream is open. */
  lemma FramesOpenSegment(trace: seq<Envelope>, frames: seq<Envelope>)
    requires |frames| >= 1 && frames[|frames| - 1].message.FrameMessage?
    ensures OpenSegment(trace + frames)
  {
    var t := trace + frames;
    assert t[|t| - 1] == frames[|frames| - 1];
  }

  /** A property value, as do_set_property receives it and do_get_property returns it. */
  datatype Property =
    | SourceIdValue(sourceId: Option<string>)
    | LocationValue(location: Option<string>)
    | FramerateValue(framerate: Option<string>)
    | EosOnFileEndValue(eosOnFileEnd: bool)
    | EosOnLoopEndValue(eosOnLoopEnd: bool)
    | EosOnFrameParamsChangeValue(eosOnFrameParamsChange: bool)
    | ReadMetadataValue(readMetadata: bool)
    | FrameTypeValue(frameType: Option<string>)
    | EnableMultistreamValue(enableMultistream: bool)
    | SourceIdPatternValue(sourceIdPattern: Option<string>)
    | NumberOfStreamsValue(numberOfStreams: StreamCount)
    | ShutdownAuthValue(shutdownAuth: Option<string>)

  /** The properties do_get_property is modelled for (all but `location`). */
  datatype PropertyName =
    | SourceIdName | FramerateName | EosOnFileEndName | EosOnLoopEndName
    | EosOnFrameParamsChangeName | ReadMetadataName | FrameTypeName
    | EnableMultistreamName | SourceIdPatternName | NumberOfStreamsName | ShutdownAuthName

  /** The name a value is read back under; the location is not read back. */
  function NameOf(p: Property): (n: Option<PropertyName>)
    ensures n.None? <==> p.LocationValue?
  {
    match p
    case SourceIdValue(_) => Some(SourceIdName)
    case LocationValue(_) => None
    case FramerateValue(_) => Some(FramerateName)
    case EosOnFileEndValue(_) => Some(EosOnFileEndName)
    case EosOnLoopEndValue(_) => Some(EosOnLoopEndName)
    case EosOnFrameParamsChangeValue(_) => Some(EosOnFrameParamsChangeName)
    case ReadMetadataValue(_) => Some(ReadMetadataName)
    case FrameTypeValue(_) => Some(FrameTypeName)
    case EnableMultistreamValue(_) => Some(EnableMultistreamName)
    case SourceIdPatternValue(_) => Some(SourceIdPatternName)
    case NumberOfStreamsValue(_) => Some(NumberOfStreamsName)
    case ShutdownAuthValue(_) => Some(ShutdownAuthName)
  }

  /** Whether do_set_property stores a value rather than raising. */
  predicate Accepted(p: Property, fractionAccepts: string -> bool)
  {
    match p
    case FramerateValue(framerate) => framerate.Some? && fractionAccepts(framerate.value)
    case FrameTypeValue(frameType) => FrameTypeOfProperty(frameType).Ok?
    case _ => true
  }

  datatype EventKind = EosEvent | TagEvent(location: Option<string>) | OtherEvent

  /** What do_sink_event does before handing the event to the base class. */
  datatype EventResult = Handled | EventRaised(failure: Failure)

  /** What do_prepare_output_buffer returns, or the exception it raises. */
  datatype FlowResult = FlowOk(out: Envelope) | FlowError | FlowRaised(failure: Failure)

  class SavantRsSerializer {
    // properties
    var sourceId: Option<string>
    var eosOnFileEnd: bool
    var eosOnLoopEnd: bool
    var eosOnFrameParamsChange: bool
    var enableMultistream: bool
    var sourceIdPattern: Option<string>
    var numberOfStreams: StreamCount
    var shutdownAuth: Option<string>
    // set after caps negotiation
    var frameParams: Option<FrameParams>
    var initialSizeTransformation: Option<Transformation>
    var lastFrameParams: Option<FrameParams>
    var location: Option<Location>
    var lastLocation: Option<Location>
    var newLoop: bool
    var defaultFramerate: string
    var frameType: Option<ExternalFrameType>
    // source_ids_and_topics
    var sources: seq<LogicalSource>
    var streamInProgress: bool
    var readMetadata: bool
    var jsonMetadata: Option<seq<Json>>
    var frameNum: nat
    /** Buffers pushed on the source pad by the element, in order. */
    var pushed: seq<Envelope>
    /** Everything that went downstream: the pushed buffers and the returned ones. */
    ghost var downstream: seq<Envelope>

    /**
     * `stream_in_progress` says exactly whether the output has an open
     * stream, the initial-size transformation follows the negotiated size,
     * and a path location is in pathlib's normal form.
     */
    ghost predicate Valid()
      reads this
    {
      && streamInProgress == OpenSegment(downstream)
      && (frameParams.Some? ==>
            initialSizeTransformation == Some(InitialSize(frameParams.value.width, frameParams.value.height)))
      && WellFormedLocation(location)
    }

    /** The segment-boundary condition checked before each buffer. */
    predicate AtBoundary()
      reads this
    {
      && streamInProgress
      && (|| (eosOnFileEnd && location != lastLocation)
          || (eosOnFrameParamsChange && frameParams != lastFrameParams)
          || (eosOnLoopEnd && newLoop))
    }

    constructor ()
      ensures Valid()
      ensures sourceId == None && eosOnFileEnd && !eosOnLoopEnd && eosOnFrameParamsChange
      ensures !enableMultistream && sourceIdPattern == Some(DefaultSourceIdPattern) && numberOfStreams == 1
      ensures shutdownAuth == None
      ensures frameParams == None && initialSizeTransformation == None && lastFrameParams == None
      ensures location == None && lastLocation == None && !newLoop
      ensures defaultFramerate == DefaultFramerate && frameType == Some(ZeroMQ)
      ensures sources == [] && !streamInProgress && !readMetadata && jsonMetadata == None && frameNum == 0
      ensures pushed == [] && downstream == []
    {
      sourceId := None;
      eosOnFileEnd := true;
      eosOnLoopEnd := false;
      eosOnFrameParamsChange := true;
      enableMultistream := false;
      sourceIdPattern := Some(DefaultSourceIdPattern);
      numberOfStreams := 1;
      shutdownAuth := None;
      frameParams := None;
      initialSizeTransformation := None;
      lastFrameParams := None;
      location := None;
      lastLocation := None;
      newLoop := false;
      defaultFramerate := DefaultFramerate;
      frameType := Some(ZeroMQ);
      sources := [];
      streamInProgress := false;
      readMetadata := false;
      jsonMetadata := None;
      frameNum := 0;
      pushed := [];
      downstream := [];
    }

    /**
     * do_set_property: stores the value in its field; a framerate the
     * fraction parser rejects and an unknown frame type raise and store nothing.
     */
    method SetProperty(p: Property, fractionAccepts: string -> bool) returns (error: Option<PropertyError>)
      requires Valid()
      modifies this`sourceId, this`location, this`defaultFramerate, this`eosOnFileEnd, this`eosOnLoopEnd,
               this`eosOnFrameParamsChange, this`readMetadata, this`frameType, this`enableMultistream,
               this`sourceIdPattern, this`numberOfStreams, this`shutdownAuth
      ensures Valid()
      ensures error.None? <==> Accepted(p, fractionAccepts)
      ensures p.FramerateValue? && error.Some? ==>
        error == Some(if p.framerate.None? then FramerateNotText else InvalidFramerate)
      ensures p.FrameTypeValue? && error.Some? ==> error == Some(UnknownFrameType)
      ensures sourceId == (if p.SourceIdValue? then p.sourceId else old(sourceId))
      ensures location == (if p.LocationValue? then
                             (if p.location.Some? then Some(TextLocation(p.location.value)) else None)
                           else old(location))
      ensures defaultFramerate ==
        (if p.FramerateValue? && Accepted(p, fractionAccepts) then p.framerate.value else old(defaultFramerate))
      ensures eosOnFileEnd == (if p.EosOnFileEndValue? then p.eosOnFileEnd else old(eosOnFileEnd))
      ensures eosOnLoopEnd == (if p.EosOnLoopEndValue? then p.eosOnLoopEnd else old(eosOnLoopEnd))
      ensures eosOnFrameParamsChange ==
        (if p.EosOnFrameParamsChangeValue? then p.eosOnFrameParamsChange else old(eosOnFrameParamsChange))
      ensures readMetadata == (if p.ReadMetadataValue? then p.readMetadata else old(readMetadata))
      ensures frameType ==
        (if p.FrameTypeValue? && FrameTypeOfProperty(p.frameType).Ok? then FrameTypeOfProperty(p.frameType).value
         else old(frameType))
      ensures enableMultistream == (if p.EnableMultistreamValue? then p.enableMultistream else old(enableMultistream))
      ensures sourceIdPattern == (if p.SourceIdPatternValue? then p.sourceIdPattern else old(sourceIdPattern))
      ensures numberOfStreams == (if p.NumberOfStreamsValue? then p.numberOfStreams else old(numberOfStreams))
      ensures shutdownAuth == (if p.ShutdownAuthValue? then p.shutdownAuth else old(shutdownAuth))
    {
      error := None;
      match p {
        case SourceIdValue(value) => sourceId := value;
        case LocationValue(value) =>
          location := if value.Some? then Some(TextLocation(value.value)) else None;
        case FramerateValue(value) => error := SetFramerate(value, fractionAccepts);
        case EosOnFileEndValue(value) => eosOnFileEnd := value;
        case EosOnLoopEndValue(value) => eosOnLoopEnd := value;
        case EosOnFrameParamsChangeValue(value) => eosOnFrameParamsChange := value;
        case ReadMetadataValue(value) => readMetadata := value;
        case FrameTypeValue(value) => error := SetFrameType(value);
        case EnableMultistreamValue(value) => enableMultistream := value;
        case SourceIdPatternValue(value) => sourceIdPattern := value;
        case NumberOfStreamsValue(value) => numberOfStreams := value;
        case ShutdownAuthValue(value) => shutdownAuth := value;
      }
    }

    /**
     * The `framerate` branch of do_set_property: only a parsable fraction is
     * stored; None makes Fraction() raise a TypeError, which escapes.
     */
    method SetFramerate(value: Option<string>, fractionAccepts: string -> bool) returns (error: Option<PropertyError>)
      modifies this`defaultFramerate
      ensures error.None? <==> value.Some? && fractionAccepts(value.value)
      ensures value.None? ==> error == Some(FramerateNotText)
      ensures value.Some? && error.Some? ==> error == Some(InvalidFramerate)
      ensures defaultFramerate == (if error.None? then value.value else old(defaultFramerate))
    {
      if value.None? {
        return Some(FramerateNotText);
      }
      if fractionAccepts(value.value) {
        defaultFramerate := value.value;
        return None;
      }
      return Some(InvalidFramerate);
    }

    /** The `frame-type` branch of do_set_property: "embedded" or a known external type. */
    method SetFrameType(value: Option<string>) returns (error: Option<PropertyError>)
      modifies this`frameType
      ensures error.None? <==> FrameTypeOfProperty(value).Ok?
      ensures error.Some? ==> error == Some(UnknownFrameType)
      ensures frameType == (if FrameTypeOfProperty(value).Ok? then FrameTypeOfProperty(value).value else old(frameType))
    {
      if value == Some(EmbeddedFrameType) {
        frameType := None;
      } else if value.Some? && value.value in ExternalFrameTypeValues {
        frameType := Some(ExternalFrameType(value.value));
      } else {
        return Some(UnknownFrameType);
      }
      return None;
    }

    /** do_get_property for every property but `location`. */
    method GetProperty(name: PropertyName) returns (v: Property)
      ensures NameOf(v) == Some(name)
      ensures name == SourceIdName ==> v == SourceIdValue(sourceId)
      ensures name == FramerateName ==> v == FramerateValue(Some(defaultFramerate))
      ensures name == EosOnFileEndName ==> v == EosOnFileEndValue(eosOnFileEnd)
      ensures name == EosOnLoopEndName ==> v == EosOnLoopEndValue(eosOnLoopEnd)
      ensures name == EosOnFrameParamsChangeName ==> v == EosOnFrameParamsChangeValue(eosOnFrameParamsChange)
      ensures name == ReadMetadataName ==> v == ReadMetadataValue(readMetadata)
      ensures name == FrameTypeName ==> v == FrameTypeValue(Some(FrameTypeProperty(frameType)))
      ensures name == FrameTypeName && frameType.None? ==> v == FrameTypeValue(Some(EmbeddedFrameType))
      ensures name == EnableMultistreamName ==> v == EnableMultistreamValue(enableMultistream)
      ensures name == SourceIdPatternName ==> v == SourceIdPatternValue(sourceIdPattern)
      ensures name == NumberOfStreamsName ==> v == NumberOfStreamsValue(numberOfStreams)
      ensures name == ShutdownAuthName ==> v == ShutdownAuthValue(shutdownAuth)
    {
      match name {
        case SourceIdName => v := SourceIdValue(sourceId);
        case FramerateName => v := FramerateValue(Some(defaultFramerate));
        case EosOnFileEndName => v := EosOnFileEndValue(eosOnFileEnd);
        case EosOnLoopEndName => v := EosOnLoopEndValue(eosOnLoopEnd);
        case EosOnFrameParamsChangeName => v := EosOnFrameParamsChangeValue(eosOnFrameParamsChange);
        case ReadMetadataName => v := ReadMetadataValue(readMetadata);
        case FrameTypeName =>
          if frameType.None? {
            v := FrameTypeValue(Some(EmbeddedFrameType));
          } else {
            v := FrameTypeValue(Some(frameType.value.value));
          }
        case EnableMultistreamName => v := EnableMultistreamValue(enableMultistream);
        case SourceIdPatternName => v := SourceIdPatternValue(sourceIdPattern);
        case NumberOfStreamsName => v := NumberOfStreamsValue(numberOfStreams);
        case ShutdownAuthName => v := ShutdownAuthValue(shutdownAuth);
      }
    }

    /**
     * do_set_caps: refuses caps without a known codec and leaves the frame
     * parameters as they were; otherwise records them and the matching
     * initial-size transformation.
     */
    method SetCaps(caps: Caps, codecs: CodecTable) returns (accepted: bool)
      requires Valid()
      modifies this`frameParams, this`initialSizeTransformation
      ensures Valid()
      ensures accepted <==> caps.name in codecs
      ensures accepted ==> frameParams == NegotiatedParams(caps, codecs, defaultFramerate)
      ensures accepted ==> initialSizeTransformation == Some(InitialSize(caps.width, caps.height))
      ensures !accepted ==> frameParams == old(frameParams) && initialSizeTransformation == old(initialSizeTransformation)
    {
      if caps.name !in codecs {
        return false;
      }
      var codecName := codecs[caps.name];
      var framerate: string;
      if caps.framerate.Some? {
        framerate := FramerateText(caps.framerate.value.0, caps.framerate.value.1);
      } else {
        framerate := defaultFramerate;
      }
      frameParams := Some(FrameParams(codecName, caps.width, caps.height, framerate));
      initialSizeTransformation := Some(InitialSize(caps.width, caps.height));
      return true;
    }

    /** do_start: on success the sources are replaced by the configured ones. */
    method Start() returns (r: StartResult)
      requires Valid()
      modifies this`sources
      ensures Valid()
      ensures r == StartSources(enableMultistream, sourceIdPattern, numberOfStreams, sourceId)
      ensures sources == (if r.Started? then r.sources else old(sources))
      ensures r.Started? ==> |sources| >= 1
    {
      r := StartSources(enableMultistream, sourceIdPattern, numberOfStreams, sourceId);
      if r.Started? {
        sources := r.sources;
      }
    }

    /** send_eos_message: one EndOfStream per source, then no stream is open. */
    method SendEosMessage()
      requires Valid() && |sources| >= 1
      modifies this`pushed, this`downstream, this`streamInProgress
      ensures Valid()
      ensures pushed == old(pushed) + EosEnvelopes(sources)
      ensures downstream == old(downstream) + EosEnvelopes(sources)
      ensures !streamInProgress
    {
      var i := 0;
      while i < |sources|
        invariant 0 <= i <= |sources|
        invariant pushed == old(pushed) + EosEnvelopes(sources[..i])
        invariant downstream == old(downstream) + EosEnvelopes(sources[..i])
      {
        var source := sources[i];
        var envelope := Envelope(source.topic, EndOfStream(source.sourceId), None, None);
        pushed := pushed + [envelope];
        downstream := downstream + [envelope];
        EosEnvelopesSnoc(sources, i);
        i := i + 1;
      }
      assert sources[..i] == sources;
      streamInProgress := false;
      EosClosesSegment(old(downstream), sources, []);
      assert old(downstream) + EosEnvelopes(sources) + [] == downstream;
    }

    /** send_shutdown_message: a Shutdown on the first topic when an auth is set. */
    method SendShutdownMessage()
      requires |sources| >= 1
      modifies this`pushed, this`downstream
      ensures pushed == old(pushed) + ShutdownEnvelopes(sources, shutdownAuth)
      ensures downstream == old(downstream) + ShutdownEnvelopes(sources, shutdownAuth)
    {
      if shutdownAuth.Some? {
        var envelope := Envelope(sources[0].topic, Shutdown(shutdownAuth.value), None, None);
        pushed := pushed + [envelope];
        downstream := downstream + [envelope];
      }
    }

    /**
     * do_sink_event: an EOS closes every stream and may add a Shutdown; a
     * TAG with a location switches to that file, marks a new loop, reloads
     * the sidecar and rewinds the frame counter; anything else is only
     * passed on.
     */
    method SinkEvent(event: EventKind, files: Files) returns (r: EventResult)
      requires Valid() && |sources| >= 1
      modifies this`pushed, this`downstream, this`streamInProgress, this`location, this`newLoop,
               this`jsonMetadata, this`frameNum
      ensures Valid()
      ensures event.EosEvent? ==>
        && r == Handled
        && pushed == old(pushed) + EosEnvelopes(sources) + ShutdownEnvelopes(sources, shutdownAuth)
        && downstream == old(downstream) + EosEnvelopes(sources) + ShutdownEnvelopes(sources, shutdownAuth)
        && !streamInProgress
        && location == old(location) && newLoop == old(newLoop)
        && jsonMetadata == old(jsonMetadata) && frameNum == old(frameNum)
      ensures event.TagEvent? && event.location.Some? ==>
        && location == Some(PathLocation(ParsePath(event.location.value)))
        && newLoop
        && pushed == old(pushed) && downstream == old(downstream) && streamInProgress == old(streamInProgress)
        && (Reload(location, readMetadata, files).Ok? ==>
              r == Handled && jsonMetadata == Reload(location, readMetadata, files).value && frameNum == 0)
        && (Reload(location, readMetadata, files).Err? ==>
              && r == EventRaised(Reload(location, readMetadata, files).error)
              && jsonMetadata == old(jsonMetadata) && frameNum == old(frameNum))
      ensures event.OtherEvent? || event == TagEvent(None) ==>
        && r == Handled
        && pushed == old(pushed) && downstream == old(downstream) && streamInProgress == old(streamInProgress)
        && location == old(location) && newLoop == old(newLoop)
        && jsonMetadata == old(jsonMetadata) && frameNum == old(frameNum)
    {
      r := Handled;
      match event {
        case EosEvent =>
          FinishOutput();
        case TagEvent(tagged) =>
          if tagged.Some? {
            r := SwitchLocation(tagged.value, files);
          }
        case OtherEvent =>
      }
    }

    /** The EOS branch of do_sink_event: every stream closed, then the optional Shutdown. */
    method FinishOutput()
      requires Valid() && |sources| >= 1
      modifies this`pushed, this`downstream, this`streamInProgress
      ensures Valid()
      ensures pushed == old(pushed) + EosEnvelopes(sources) + ShutdownEnvelopes(sources, shutdownAuth)
      ensures downstream == old(downstream) + EosEnvelopes(sources) + ShutdownEnvelopes(sources, shutdownAuth)
      ensures !streamInProgress
    {
      SendEosMessage();
      SendShutdownMessage();
      EosClosesSegment(old(downstream), sources, ShutdownEnvelopes(sources, shutdownAuth));
    }

    /**
     * The TAG branch of do_sink_event for a tag that carries a location:
     * the location becomes that path and a new loop is marked before the
     * sidecar is reloaded; a reload that raises leaves the metadata and
     * the counter as they were.
     */
    method SwitchLocation(text: string, files: Files) returns (r: EventResult)
      requires Valid()
      modifies this`location, this`newLoop, this`jsonMetadata, this`frameNum
      ensures Valid()
      ensures location == Some(PathLocation(ParsePath(text))) && newLoop
      ensures Reload(location, readMetadata, files).Ok? ==>
        r == Handled && jsonMetadata == Reload(location, readMetadata, files).value && frameNum == 0
      ensures Reload(location, readMetadata, files).Err? ==>
        && r == EventRaised(Reload(location, readMetadata, files).error)
        && jsonMetadata == old(jsonMetadata) && frameNum == old(frameNum)
    {
      location := Some(PathLocation(ParsePath(text)));
      newLoop := true;
      var loaded := Reload(location, readMetadata, files);
      if loaded.Err? {
        return EventRaised(loaded.error);
      }
      jsonMetadata := loaded.value;
      frameNum := 0;
      return Handled;
    }

    /**
     * Lines 347-351 of do_prepare_output_buffer: reload the sidecar of the
     * current location, rewind the frame counter and close every stream.
     * A reload that raises changes nothing.
     */
    method CloseSegment(files: Files) returns (failure: Option<Failure>)
      requires Valid() && |sources| >= 1
      modifies this`jsonMetadata, this`frameNum, this`streamInProgress, this`pushed, this`downstream
      ensures Valid()
      ensures old(Reload(location, readMetadata, files)).Err? ==>
        && failure == Some(old(Reload(location, readMetadata, files)).error)
        && jsonMetadata == old(jsonMetadata) && frameNum == old(frameNum)
        && streamInProgress == old(streamInProgress) && pushed == old(pushed) && downstream == old(downstream)
      ensures old(Reload(location, readMetadata, files)).Ok? ==>
        && failure.None?
        && jsonMetadata == old(Reload(location, readMetadata, files)).value && frameNum == 0
        && pushed == old(pushed) + EosEnvelopes(sources) && downstream == old(downstream) + EosEnvelopes(sources)
        && !streamInProgress
    {
      var loaded := Reload(location, readMetadata, files);
      if loaded.Err? {
        return Some(loaded.error);
      }
      Rewind(loaded.value);
      SendEosMessage();
      return None;
    }

    /** Lines 347-350: the reloaded sidecar replaces the metadata and the counter starts again at 0. */
    method Rewind(metadata: Option<seq<Json>>)
      requires Valid()
      modifies this`jsonMetadata, this`frameNum
      ensures Valid()
      ensures jsonMetadata == metadata && frameNum == 0
    {
      jsonMetadata := metadata;
      frameNum := 0;
    }

    /**
     * Lines 338-354 of do_prepare_output_buffer: at a boundary, close the
     * segment; then, unless that raised, remember the location and frame
     * parameters and clear the new-loop mark.
     */
    method CheckBoundary(files: Files) returns (failure: Option<Failure>)
      requires Valid() && |sources| >= 1
      modifies this`lastLocation, this`lastFrameParams, this`newLoop, this`jsonMetadata, this`frameNum,
               this`streamInProgress, this`pushed, this`downstream
      ensures Valid()
      // a reload that raises leaves everything as it was
      ensures old(AtBoundary()) && old(Reload(location, readMetadata, files)).Err? ==>
        && failure == Some(old(Reload(location, readMetadata, files)).error)
        && lastLocation == old(lastLocation) && lastFrameParams == old(lastFrameParams) && newLoop == old(newLoop)
        && jsonMetadata == old(jsonMetadata) && frameNum == old(frameNum)
        && streamInProgress == old(streamInProgress) && pushed == old(pushed) && downstream == old(downstream)
      // at a boundary: reloaded sidecar, rewound counter, every stream closed
      ensures old(AtBoundary()) && old(Reload(location, readMetadata, files)).Ok? ==>
        && failure.None?
        && lastLocation == location && lastFrameParams == frameParams && !newLoop
        && jsonMetadata == old(Reload(location, readMetadata, files)).value && frameNum == 0
        && !streamInProgress
      ensures old(AtBoundary()) && old(Reload(location, readMetadata, files)).Ok? ==>
        pushed == old(pushed) + EosEnvelopes(sources) && downstream == old(downstream) + EosEnvelopes(sources)
      // elsewhere only the bookkeeping moves
      ensures !old(AtBoundary()) ==>
        && failure.None?
        && lastLocation == location && lastFrameParams == frameParams && !newLoop
        && jsonMetadata == old(jsonMetadata) && frameNum == old(frameNum)
        && pushed == old(pushed) && downstream == old(downstream) && streamInProgress == old(streamInProgress)
    {
      if AtBoundary() {
        failure := CloseSegment(files);
        if failure.Some? {
          return;
        }
      }
      Remember();
      failure := None;
    }

    /** Lines 352-354: the location and frame parameters seen, and no new loop pending. */
    method Remember()
      requires Valid()
      modifies this`lastLocation, this`lastFrameParams, this`newLoop
      ensures Valid()
      ensures lastLocation == location && lastFrameParams == frameParams && !newLoop
      ensures !AtBoundary()
    {
      lastLocation := location;
      lastFrameParams := frameParams;
      newLoop := false;
    }

    /**
     * build_video_frame: the frame counter moves as MetadataStep says, and
     * the frame is the one FrameFor describes for the objects it found.
     */
    method BuildVideoFrame(
      frameSourceId: string, pts: ClockTime, dts: Option<int>, duration: Option<int>,
      content: Content, keyframe: bool) returns (r: Result<VideoFrame, Failure>)
      requires frameParams.Some? && initialSizeTransformation.Some?
      modifies this`frameNum
      ensures frameNum == MetadataStep(readMetadata, jsonMetadata, old(frameNum)).1
      ensures MetadataStep(readMetadata, jsonMetadata, old(frameNum)).0.Err? ==>
        r == Err(MetadataStep(readMetadata, jsonMetadata, old(frameNum)).0.error)
      ensures MetadataStep(readMetadata, jsonMetadata, old(frameNum)).0.Ok? ==>
        r == Ok(FrameFor(frameSourceId, pts, dts, duration, content, keyframe, frameParams.value,
                         initialSizeTransformation.value, location,
                         MetadataStep(readMetadata, jsonMetadata, old(frameNum)).0.value))
    {
      var framePts := pts;
      if pts == ClockTimeNone {
        framePts := 0;
      }
      var objects: Option<Json> := None;
      if readMetadata && jsonMetadata.Some? && |jsonMetadata.value| > 0 {
        if frameNum >= |jsonMetadata.value| {
          return Err(FrameIndexOutOfRange);
        }
        var frameMetadata := jsonMetadata.value[frameNum];
        frameNum := frameNum + 1;
        var lookup := ObjectsOf(frameMetadata);
        if lookup.Err? {
          return Err(lookup.error);
        }
        objects := lookup.value;
      }
      var params := frameParams.value;
      var frame := VideoFrame(
        frameSourceId, params.framerate, params.width, params.height, params.codecName,
        content, keyframe, framePts, dts, duration, DefaultTimeBase, [], None, []);
      frame := frame.(transformations := frame.transformations + [initialSizeTransformation.value]);
      if objects.Some? {
        frame := frame.(objects := objects);
      }
      if LocationTruthy(location) {
        frame := frame.(attributes := frame.attributes +
          [Attribute(DefaultNamespace, "location", [LocationText(location.value)])]);
      }
      return Ok(frame);
    }

    /**
     * The loop at lines 378-395: every source but the last gets its
     * envelope pushed; the last one is returned.
     */
    method FanOut(frame: VideoFrame, buf: Buffer) returns (last: Envelope)
      requires |sources| >= 1
      modifies this`pushed, this`downstream
      ensures var frames := old(FrameEnvelopes(sources, frame, buf, frameType.Some?));
        && last == frames[|frames| - 1]
        && pushed == old(pushed) + frames[..|frames| - 1]
        && downstream == old(downstream) + frames[..|frames| - 1]
    {
      var attachRaw := frameType.Some?;
      var n := |sources|;
      var i := 0;
      while i < n - 1
        invariant 0 <= i <= n - 1
        invariant pushed == old(pushed) + FrameEnvelopes(sources[..i], frame, buf, attachRaw)
        invariant downstream == old(downstream) + FrameEnvelopes(sources[..i], frame, buf, attachRaw)
      {
        var source := sources[i];
        var envelope := Envelope(source.topic, FrameMessage(frame.(sourceId := source.sourceId)),
                                 if attachRaw then Some(buf.data) else None,
                                 Some(Timing(buf.pts, buf.dts, buf.duration)));
        pushed := pushed + [envelope];
        downstream := downstream + [envelope];
        FrameEnvelopesSnoc(sources, i, frame, buf, attachRaw);
        i := i + 1;
      }
      var source := sources[n - 1];
      last := Envelope(source.topic, FrameMessage(frame.(sourceId := source.sourceId)),
                       if attachRaw then Some(buf.data) else None,
                       Some(Timing(buf.pts, buf.dts, buf.duration)));
      FrameEnvelopesSnoc(sources, n - 1, frame, buf, attachRaw);
      assert sources[..n] == sources;
    }

    /**
     * Lines 357-395 of do_prepare_output_buffer: the content for the frame
     * type, the frame, its fan-out, and the stream marked open. An
     * unsupported frame type changes nothing; a failed sidecar lookup
     * changes only the frame counter.
     */
    method EmitFrame(buf: Buffer) returns (r: FlowResult)
      requires Valid() && |sources| >= 1 && frameParams.Some?
      modifies this`frameNum, this`streamInProgress, this`pushed, this`downstream
      ensures Valid()
      ensures old(ContentFor(frameType, buf)).None? ==>
        && r == FlowError && frameNum == old(frameNum)
        && pushed == old(pushed) && downstream == old(downstream) && streamInProgress == old(streamInProgress)
      ensures old(ContentFor(frameType, buf)).Some? ==> frameNum == old(MetadataStep(readMetadata, jsonMetadata, frameNum)).1
      ensures old(ContentFor(frameType, buf)).Some? && old(MetadataStep(readMetadata, jsonMetadata, frameNum)).0.Err? ==>
        && r == FlowRaised(old(MetadataStep(readMetadata, jsonMetadata, frameNum)).0.error)
        && pushed == old(pushed) && downstream == old(downstream) && streamInProgress == old(streamInProgress)
      ensures old(ContentFor(frameType, buf)).Some? && old(MetadataStep(readMetadata, jsonMetadata, frameNum)).0.Ok? ==>
        var frames := old(FrameEnvelopes(sources,
          FrameFor(sources[0].sourceId, buf.pts, OptionalTime(buf.dts), OptionalTime(buf.duration),
                   ContentFor(frameType, buf).value, !buf.deltaUnit, frameParams.value,
                   initialSizeTransformation.value, location,
                   MetadataStep(readMetadata, jsonMetadata, frameNum).0.value),
          buf, frameType.Some?));
        && r == FlowOk(frames[|frames| - 1])
        && pushed == old(pushed) + frames[..|frames| - 1]
        && downstream == old(downstream) + frames
        && streamInProgress
    {
      var content := ContentFor(frameType, buf);
      if content.None? {
        return FlowError;
      }
      var built := BuildVideoFrame(sources[0].sourceId, buf.pts, OptionalTime(buf.dts), OptionalTime(buf.duration),
                                   content.value, !buf.deltaUnit);
      if built.Err? {
        return FlowRaised(built.error);
      }
      var last := Publish(built.value, buf);
      return FlowOk(last);
    }

    /**
     * The fan-out of a built frame followed by the hand-back of the last
     * envelope: every source's envelope goes downstream in order and the
     * stream is open.
     */
    method Publish(frame: VideoFrame, buf: Buffer) returns (last: Envelope)
      requires Valid() && |sources| >= 1
      modifies this`streamInProgress, this`pushed, this`downstream
      ensures Valid()
      ensures var frames := old(FrameEnvelopes(sources, frame, buf, frameType.Some?));
        && last == frames[|frames| - 1]
        && pushed == old(pushed) + frames[..|frames| - 1]
        && downstream == old(downstream) + frames
        && streamInProgress
    {
      ghost var frames := FrameEnvelopes(sources, frame, buf, frameType.Some?);
      last := FanOut(frame, buf);
      assert frames[..|frames| - 1] + [frames[|frames| - 1]] == frames;
      streamInProgress := true;
      downstream := downstream + [last];
      FramesOpenSegment(old(downstream), frames);
    }

    /**
     * do_prepare_output_buffer: the boundary step, the content for the
     * frame type, the frame, and its fan-out. A reload failure raises
     * before anything changes; an unsupported frame type or a failed
     * sidecar lookup leaves only the boundary step's effects; otherwise the
     * EndOfStream messages of the boundary come first, then one envelope
     * per source, the last one returned, and a stream is open.
     */
    method PrepareOutputBuffer(buf: Buffer, files: Files) returns (r: FlowResult)
      requires Valid() && |sources| >= 1 && frameParams.Some?
      modifies this`lastLocation, this`lastFrameParams, this`newLoop, this`jsonMetadata, this`frameNum,
               this`streamInProgress, this`pushed, this`downstream
      ensures Valid()
      // a reload that raises leaves everything as it was
      ensures old(AtBoundary()) && old(Reload(location, readMetadata, files)).Err? ==>
        && r == FlowRaised(old(Reload(location, readMetadata, files)).error)
        && lastLocation == old(lastLocation) && lastFrameParams == old(lastFrameParams) && newLoop == old(newLoop)
        && jsonMetadata == old(jsonMetadata) && frameNum == old(frameNum)
        && streamInProgress == old(streamInProgress) && pushed == old(pushed) && downstream == old(downstream)
      // otherwise the boundary step always completes its bookkeeping
      ensures !(old(AtBoundary()) && old(Reload(location, readMetadata, files)).Err?) ==>
        && lastLocation == location && lastFrameParams == frameParams && !newLoop
        && jsonMetadata == (if old(AtBoundary()) then old(Reload(location, readMetadata, files)).value else old(jsonMetadata))
      // an unsupported frame type: only the boundary step's effects
      ensures !(old(AtBoundary()) && old(Reload(location, readMetadata, files)).Err?) && ContentFor(frameType, buf).None? ==>
        && r == FlowError
        && frameNum == (if old(AtBoundary()) then 0 else old(frameNum))
        && pushed == (if old(AtBoundary()) then old(pushed) + EosEnvelopes(sources) else old(pushed))
        && downstream == (if old(AtBoundary()) then old(downstream) + EosEnvelopes(sources) else old(downstream))
        && streamInProgress == (old(streamInProgress) && !old(AtBoundary()))
      // the frame consumes a sidecar entry as MetadataStep says
      ensures !(old(AtBoundary()) && old(Reload(location, readMetadata, files)).Err?) && ContentFor(frameType, buf).Some? ==>
        frameNum == MetadataStep(readMetadata, jsonMetadata, if old(AtBoundary()) then 0 else old(frameNum)).1
      // a failed sidecar lookup raises after the boundary step
      ensures !(old(AtBoundary()) && old(Reload(location, readMetadata, files)).Err?) && ContentFor(frameType, buf).Some? &&
              MetadataStep(readMetadata, jsonMetadata, if old(AtBoundary()) then 0 else old(frameNum)).0.Err? ==>
        && r == FlowRaised(MetadataStep(readMetadata, jsonMetadata, if old(AtBoundary()) then 0 else old(frameNum)).0.error)
        && pushed == (if old(AtBoundary()) then old(pushed) + EosEnvelopes(sources) else old(pushed))
        && downstream == (if old(AtBoundary()) then old(downstream) + EosEnvelopes(sources) else old(downstream))
        && streamInProgress == (old(streamInProgress) && !old(AtBoundary()))
      // otherwise the boundary's EndOfStream messages, then one frame envelope per source, the last returned
      ensures !(old(AtBoundary()) && old(Reload(location, readMetadata, files)).Err?) && ContentFor(frameType, buf).Some? &&
              MetadataStep(readMetadata, jsonMetadata, if old(AtBoundary()) then 0 else old(frameNum)).0.Ok? ==>
        var frame := FrameFor(sources[0].sourceId, buf.pts, OptionalTime(buf.dts), OptionalTime(buf.duration),
                              ContentFor(frameType, buf).value, !buf.deltaUnit, frameParams.value,
                              initialSizeTransformation.value, location,
                              MetadataStep(readMetadata, jsonMetadata, if old(AtBoundary()) then 0 else old(frameNum)).0.value);
        var frames := FrameEnvelopes(sources, frame, buf, frameType.Some?);
        && r == FlowOk(frames[|frames| - 1])
        && pushed == (if old(AtBoundary()) then old(pushed) + EosEnvelopes(sources) else old(pushed)) + frames[..|frames| - 1]
        && downstream == (if old(AtBoundary()) then old(downstream) + EosEnvelopes(sources) else old(downstream)) + frames
        && streamInProgress
    {
      var failure := CheckBoundary(files);
      if failure.Some? {
        return FlowRaised(failure.value);
      }
      r := EmitFrame(buf);
    }
  }
}

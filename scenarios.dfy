/**
 * Whole sessions of the element, driven the way the pipeline drives it:
 * properties, caps, start, buffers and events, in order.
 */
module Scenarios {
  import opened Wrappers
  import opened Wire
  import opened Negotiation
  import opened Paths
  import opened Serializer

  /**
   * A property written on a fresh element reads back as written when it
   * is accepted; a rejected framerate or frame type leaves the default.
   */
  method PropertyRoundTrip(p: Property, fractionAccepts: string -> bool)
    returns (stored: bool, readBack: Option<Property>)
    ensures stored <==> Accepted(p, fractionAccepts)
    ensures readBack.None? <==> p.LocationValue?
    ensures stored && readBack.Some? ==> readBack == Some(p)
    ensures !stored && p.FramerateValue? ==> readBack == Some(FramerateValue(Some(DefaultFramerate)))
    ensures !stored && p.FrameTypeValue? ==> readBack == Some(FrameTypeValue(Some(ZeroMQ.value)))
  {
    var element := new SavantRsSerializer();
    var error := element.SetProperty(p, fractionAccepts);
    stored := error.None?;
    readBack := None;
    var name := NameOf(p);
    if name.Some? {
      var v := element.GetProperty(name.value);
      readBack := Some(v);
      if p.FrameTypeValue? && stored {
        FrameTypeSetGet(p.frameType);
      }
    }
  }

  /** The frame parameters the session's caps negotiate. */
  const SessionParams := FrameParams("h264", 1280, 720, DefaultFramerate)

  /**
   * A started element for one camera "cam" with embedded frames, no
   * sidecar and H.264 caps of 1280x720 without a framerate.
   */
  method StartedCamera() returns (element: SavantRsSerializer)
    ensures fresh(element) && element.Valid()
    ensures element.sources == [LogicalSource("cam", "cam/")]
    ensures element.frameParams == Some(SessionParams)
    ensures element.initialSizeTransformation == Some(InitialSize(1280, 720))
    ensures element.frameType.None? && !element.readMetadata && element.shutdownAuth.None?
    ensures element.location.None? && element.lastLocation.None? && !element.newLoop
    ensures element.pushed == [] && element.downstream == [] && !element.streamInProgress
    ensures element.eosOnFileEnd && !element.eosOnLoopEnd && element.eosOnFrameParamsChange
    ensures CameraSession(element)
  {
    element := ConfiguredCamera();
    var accepted := element.SetCaps(Caps("video/x-h264", 1280, 720, None), map["video/x-h264" := "h264"]);
    var started := element.Start();
    assert "cam" + "/" == "cam/";
  }

  /** A fresh element with the source id "cam" and embedded frames; everything else at its default. */
  method ConfiguredCamera() returns (element: SavantRsSerializer)
    ensures fresh(element) && element.Valid()
    ensures element.sourceId == Some("cam") && !element.enableMultistream
    ensures element.frameType.None? && !element.readMetadata && element.shutdownAuth.None?
    ensures element.defaultFramerate == DefaultFramerate && element.frameParams.None?
    ensures element.location.None? && element.lastLocation.None? && !element.newLoop
    ensures element.pushed == [] && element.downstream == [] && !element.streamInProgress
    ensures element.eosOnFileEnd && !element.eosOnLoopEnd && element.eosOnFrameParamsChange
  {
    var accepts := (s: string) => true;
    element := new SavantRsSerializer();
    var error := element.SetProperty(SourceIdValue(Some("cam")), accepts);
    error := element.SetProperty(FrameTypeValue(Some(EmbeddedFrameType)), accepts);
  }

  /** The camera's only logical source. */
  const Camera := LogicalSource("cam", "cam/")

  /** The frame the session builds for a buffer while reading `location`. */
  function CameraFrame(buf: Buffer, location: Option<Location>): VideoFrame
  {
    FrameFor("cam", buf.pts, OptionalTime(buf.dts), OptionalTime(buf.duration), Internal(buf.data),
             !buf.deltaUnit, SessionParams, InitialSize(1280, 720), location, None)
  }

  /** What the camera's envelope for a buffer carries. */
  lemma CameraEnvelope(buf: Buffer, location: Option<Location>)
    ensures var e := FrameEnvelope(Camera, CameraFrame(buf, location), buf, false);
      && e.topic == "cam/" && e.raw.None? && e.message.FrameMessage?
      && e.message.frame.sourceId == "cam" && e.message.frame.codec == "h264"
      && e.message.frame.framerate == DefaultFramerate
      && e.message.frame.transformations == [InitialSize(1280, 720)]
      && e.message.frame.content == Internal(buf.data)
      && (|e.message.frame.attributes| == 1 <==> LocationTruthy(location))
      && |e.message.frame.attributes| <= 1
      && (|e.message.frame.attributes| == 1 ==> e.message.frame.attributes[0].name == "location")
  {
    FrameForShape("cam", buf.pts, OptionalTime(buf.dts), OptionalTime(buf.duration), Internal(buf.data),
                  !buf.deltaUnit, SessionParams, InitialSize(1280, 720), location, None);
  }

  /** The configuration every buffer of the camera sessions sees. */
  ghost predicate CameraSession(element: SavantRsSerializer)
    reads element
  {
    && element.Valid() && element.sources == [Camera]
    && element.frameParams == Some(SessionParams) && element.initialSizeTransformation == Some(InitialSize(1280, 720))
    && element.frameType.None? && !element.readMetadata
    && element.eosOnFileEnd && !element.eosOnLoopEnd && element.eosOnFrameParamsChange
    && element.shutdownAuth.None?
  }

  /** One buffer through the started camera inside a stream: the frame is handed back. */
  method Feed(element: SavantRsSerializer, buf: Buffer) returns (out: Envelope)
    requires CameraSession(element) && !element.AtBoundary()
    modifies element
    ensures CameraSession(element) && element.location == old(element.location)
    ensures element.lastLocation == element.location && element.lastFrameParams == element.frameParams
    ensures !element.newLoop && element.streamInProgress && element.pushed == old(element.pushed)
    ensures out == FrameEnvelope(Camera, CameraFrame(buf, element.location), buf, false)
  {
    var r := element.PrepareOutputBuffer(buf, map[]);
    out := r.out;
  }

  /**
   * One buffer through the started camera at a boundary: the EndOfStream
   * goes first, then the frame is handed back.
   */
  method FeedAtBoundary(element: SavantRsSerializer, buf: Buffer) returns (out: Envelope)
    requires CameraSession(element) && element.AtBoundary()
    requires element.location.Some? && element.location.value.PathLocation?
    modifies element
    ensures CameraSession(element) && element.location == old(element.location)
    ensures element.lastLocation == element.location && element.lastFrameParams == element.frameParams
    ensures !element.newLoop && element.streamInProgress
    ensures element.pushed == old(element.pushed) + [EosEnvelope(Camera)]
    ensures out == FrameEnvelope(Camera, CameraFrame(buf, element.location), buf, false)
  {
    var r := element.PrepareOutputBuffer(buf, map[]);
    out := r.out;
    assert EosEnvelopes([Camera]) == [EosEnvelope(Camera)];
  }

  /** The TAG branch of do_sink_event for the file now being read; no sidecar is read. */
  method Tag(element: SavantRsSerializer, text: string)
    requires CameraSession(element)
    modifies element
    ensures CameraSession(element)
    ensures element.location == Some(PathLocation(ParsePath(text))) && element.newLoop
    ensures element.lastLocation == old(element.lastLocation) && element.lastFrameParams == old(element.lastFrameParams)
    ensures element.streamInProgress == old(element.streamInProgress) && element.pushed == old(element.pushed)
  {
    var handled := element.SwitchLocation(text, map[]);
  }

  /**
   * One camera, embedded frames, no sidecar: two buffers of the same file
   * give two frame messages on the camera's topic, and the upstream EOS
   * closes the stream with one EndOfStream. Nothing is sent at the
   * second buffer because neither the file nor the caps changed.
   */
  method SingleStreamSession(first: Buffer, second: Buffer) returns (trace: seq<Envelope>)
    ensures |trace| == 3
    ensures forall k :: 0 <= k < 2 ==>
      && trace[k].topic == "cam/"
      && trace[k].message.FrameMessage?
      && trace[k].message.frame.sourceId == "cam"
      && trace[k].message.frame.codec == "h264"
      && trace[k].message.frame.framerate == DefaultFramerate
      && trace[k].message.frame.transformations == [InitialSize(1280, 720)]
      && trace[k].message.frame.attributes == []
      && trace[k].raw.None?
    ensures trace[0].message.frame.content == Internal(first.data)
    ensures trace[1].message.frame.content == Internal(second.data)
    ensures trace[2] == Envelope("cam/", EndOfStream("cam"), None, None)
  {
    var element := StartedCamera();
    var out1 := Feed(element, first);
    var out2 := Feed(element, second);
    var pushedBefore := element.pushed;
    var handled := element.SinkEvent(EosEvent, map[]);
    assert element.pushed[|pushedBefore|..] == [EosEnvelope(Camera)];
    trace := [out1, out2] + element.pushed[|pushedBefore|..];
    CameraEnvelope(first, None);
    CameraEnvelope(second, None);
  }

  /**
   * A file change in the middle of a session: two buffers of file `a`,
   * then a TAG for a different file `b` and one buffer of it. The new
   * file closes the open stream, so an EndOfStream comes between the
   * frames of the two files, and every frame names its file in a
   * `location` attribute.
   */
  method FileSwitchSession(a: string, b: string, first: Buffer, second: Buffer, third: Buffer)
    returns (trace: seq<Envelope>)
    requires ParsePath(a) != ParsePath(b)
    ensures |trace| == 4
    ensures trace[2] == Envelope("cam/", EndOfStream("cam"), None, None)
    ensures forall k :: 0 <= k < 4 && k != 2 ==>
      && trace[k].topic == "cam/"
      && trace[k].message.FrameMessage?
      && |trace[k].message.frame.attributes| == 1
      && trace[k].message.frame.attributes[0].name == "location"
    ensures trace[0].message.frame.content == Internal(first.data)
    ensures trace[1].message.frame.content == Internal(second.data)
    ensures trace[3].message.frame.content == Internal(third.data)
  {
    var element := StartedCamera();
    var out1, out2 := FirstFile(element, a, first, second);
    Tag(element, b);
    var out3 := FeedAtBoundary(element, third);
    trace := [out1, out2] + element.pushed + [out3];
    CameraEnvelope(first, Some(PathLocation(ParsePath(a))));
    CameraEnvelope(second, Some(PathLocation(ParsePath(a))));
    CameraEnvelope(third, Some(PathLocation(ParsePath(b))));
  }

  /** The first half of FileSwitchSession: a TAG for file `a` and two of its buffers. */
  method FirstFile(element: SavantRsSerializer, a: string, first: Buffer, second: Buffer)
    returns (out1: Envelope, out2: Envelope)
    requires CameraSession(element) && !element.streamInProgress && element.pushed == []
    modifies element
    ensures CameraSession(element) && element.location == Some(PathLocation(ParsePath(a)))
    ensures element.lastLocation == element.location && element.lastFrameParams == element.frameParams
    ensures element.streamInProgress && element.pushed == []
    ensures out1 == FrameEnvelope(Camera, CameraFrame(first, element.location), first, false)
    ensures out2 == FrameEnvelope(Camera, CameraFrame(second, element.location), second, false)
  {
    Tag(element, a);
    out1 := Feed(element, first);
    out2 := Feed(element, second);
  }
}

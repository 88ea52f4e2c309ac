# SavantRsSerializer in Dafny

A model of the `savant_rs_serializer` GStreamer element of Savant. The element
takes encoded video buffers and turns each one into savant-rs video-frame
messages, one per configured logical source. Every message goes to that
source's topic (`source_id + "/"`). The element also does the following:

- It closes the stream with `EndOfStream` messages at a segment boundary: a
  change of input file, a change of negotiated frame parameters, or a new loop
  over the same file, each behind its own switch.
- It reloads a JSON sidecar file next to the input file. Each frame takes its
  objects from the next entry of that file.
- On an upstream EOS it sends `EndOfStream` messages and then, when an
  authentication key is set, a `Shutdown` message.

The model has these modules:

- `Wire`: the values that flow in and out. These are input buffers, decoded
  JSON, frames, logical messages and the envelopes (topic, message, raw
  memory, timing) that go downstream.
- `Sidecar`: the record filter and the loading of the sidecar records.
- `Paths`: the pathlib operations the sidecar path needs.
- `SourceIds`: `do_start`'s construction of the logical sources. It includes
  Python's `%` formatting of the id pattern, restricted as listed below.
- `Numerals`: the integer-to-text conversions that formatting needs.
- `Negotiation`: caps negotiation and the `frame-type` property codec.
- `Serializer`: the element. `SavantRsSerializer` is a class whose fields are
  the element's fields. Its methods update them in place and append every
  pushed envelope to `pushed`. The ghost `downstream` also receives the
  envelope that `do_prepare_output_buffer` hands back to the base class, so
  it is the whole output in order.
  - The class invariant `Valid()` ties `stream_in_progress` to that output: a
    stream is open exactly when the last envelope sent carries a frame.
  - Python exceptions are explicit outcomes (`FlowRaised`, `EventRaised`,
    `Err`). Each one leaves the state as it is at the point of the raise.
- `Scenarios`: whole sessions driven through the class.
  - A property set and read back.
  - One camera whose stream is closed by an upstream EOS.
  - A file change that puts an `EndOfStream` between the frames of two files.

The model follows the code in these places:

- A boundary is only considered while a stream is in progress.
- On a boundary, the sidecar path is computed from `location.parent` before
  `read_metadata` is looked at. A location that is `None`, or that the
  `location` property set as a plain string, therefore raises, even with
  `read_metadata` off.
- The sidecar is reloaded and the frame counter rewound before the
  `EndOfStream` messages go out.
- `json_metadata[frame_num]` is not bounds-checked, and the counter moves
  before the `'objects'` key is read.
- Only the TAG event stores a pathlib path. The `location` property stores
  the text as it is.

## Model

| member | source | states |
|---|---|---|
| Sidecar.IsVideoFrameMetadata | adapters/gst/gst_plugins/python/savant_rs_serializer.py:39-43 | a record is dropped exactly when it has a `schema` other than "VideoFrame"; a record without `schema` is always kept |
| Sidecar.FrameRecords | adapters/gst/gst_plugins/python/savant_rs_serializer.py:426-429 | the `filter(is_videoframe_metadata, ...)` step keeps at most the records of the file; `FrameRecordsSingle` and `FrameRecordsAppend` pin it as keeping each passing record once, in file order |
| Sidecar.FrameRecordsFilter | adapters/gst/gst_plugins/python/savant_rs_serializer.py:426-429 | every kept record passes the filter and comes from the file, and every record of the file that passes it is kept |
| Sidecar.FrameRecordsSingle | adapters/gst/gst_plugins/python/savant_rs_serializer.py:426-429 | one record is kept, exactly once, when it passes the filter, and dropped otherwise |
| Sidecar.FrameRecordsAppend | adapters/gst/gst_plugins/python/savant_rs_serializer.py:426-429 | filtering a file in two stretches gives the two filtered stretches one after the other, so repeated records are all kept and the file order is preserved |
| Sidecar.MetadataOf | adapters/gst/gst_plugins/python/savant_rs_serializer.py:423-431 | the only way the comprehension fails is the KeyError for a missing 'metadata', and it yields at most one value per record; `MetadataOfKeptRecords` pins when it fails and what it holds |
| Sidecar.MetadataOfKeptRecords | adapters/gst/gst_plugins/python/savant_rs_serializer.py:423-431 | loading fails (KeyError) exactly when a kept record lacks 'metadata'; otherwise the result has one entry per kept record, its 'metadata', in file order |
| Sidecar.ReadJsonMetadataFile | adapters/gst/gst_plugins/python/savant_rs_serializer.py:418-434 | nothing when reading is off or the file is missing; otherwise a list or the KeyError |
| Sidecar.ReadJsonMetadataFileKept | adapters/gst/gst_plugins/python/savant_rs_serializer.py:418-434 | a present sidecar read with reading on fails exactly when a kept record lacks 'metadata', and otherwise holds the 'metadata' of every kept record in order |
| Sidecar.ObjectsOf | adapters/gst/gst_plugins/python/savant_rs_serializer.py:469-486 | a value without an 'objects' key raises; falsy objects attach nothing; truthy objects are attached as they are |
| Paths.ParsePath | adapters/gst/gst_plugins/python/savant_rs_serializer.py:408 | `Path(text)` is in normal form and is absolute exactly when the text starts with '/' |
| Paths.ParsePathText | adapters/gst/gst_plugins/python/savant_rs_serializer.py:488-494 | `str(location)`, the text of the `location` attribute, parses back to the same path: `Path(str(p)) == p` for every path in normal form |
| Paths.PathText | adapters/gst/gst_plugins/python/savant_rs_serializer.py:492 | `str(location)`; carries no contract of its own, its partner `ParsePathText` proves that parsing the text gives the same path back |
| Paths.Parent | adapters/gst/gst_plugins/python/savant_rs_serializer.py:348 | `parent` drops the last segment and keeps the anchor; the root and the empty path are their own parents |
| Paths.Joined | adapters/gst/gst_plugins/python/savant_rs_serializer.py:348 | `p / name` has parent `p` and name `name` |
| Paths.StemSuffixSplit | adapters/gst/gst_plugins/python/savant_rs_serializer.py:348 | stem and suffix split the name; the suffix is non-empty exactly when the last dot is neither the first nor the last character, and it then starts at that dot, one dot followed by dot-free text; a non-empty name has a non-empty stem |
| Paths.StemExamples | adapters/gst/gst_plugins/python/savant_rs_serializer.py:348 | "video.mp4" has stem "video" and suffix ".mp4"; ".hidden" and "a." are their own stems with no suffix |
| Paths.SidecarPath | adapters/gst/gst_plugins/python/savant_rs_serializer.py:348 | `location.parent / f'{location.stem}.json'`; carries no contract of its own, its partner `SidecarPathShape` proves the result is in normal form, in the location's directory and named `<stem>.json` |
| Paths.SidecarPathShape | adapters/gst/gst_plugins/python/savant_rs_serializer.py:347-349 | the sidecar sits in the location's directory and is named `<stem>.json` |
| Numerals.DigitsRoundTrip | adapters/gst/gst_plugins/python/savant_rs_serializer.py:307 | reading back the digits `%d`, `%x`, `%X` or `%o` write gives the number |
| Numerals.DigitsInjective | adapters/gst/gst_plugins/python/savant_rs_serializer.py:307 | two different stream indexes never write the same digits |
| Numerals.DigitsNoLeadingZero | adapters/gst/gst_plugins/python/savant_rs_serializer.py:307 | only the digits of zero start with '0', which keeps zero-padded ids apart |
| Numerals.IntText | adapters/gst/gst_plugins/python/savant_rs_serializer.py:209 | `str(i)` is non-empty and starts with '-' exactly for negative numbers |
| Numerals.IntTextInjective | adapters/gst/gst_plugins/python/savant_rs_serializer.py:209 | different integers have different `str` texts |
| SourceIds.FormatAfterUse | adapters/gst/gst_plugins/python/savant_rs_serializer.py:307 | once the argument is consumed, the rest of the pattern formats the same for any index |
| SourceIds.Format | adapters/gst/gst_plugins/python/savant_rs_serializer.py:307 | `pattern % i` for one int argument; carries no contract of its own, its partners `FormatWithoutConversion`, `FormatLiteralPrefix`, `FormatOutcomeUniform` and `FormatInjective` state what it does |
| SourceIds.FormatWithoutConversion | adapters/gst/gst_plugins/python/savant_rs_serializer.py:305-311 | a pattern without any '%' raises the "not all arguments converted" TypeError, which do_start refuses; once the argument is taken, such text is copied unchanged |
| SourceIds.FormatOutcomeUniform | adapters/gst/gst_plugins/python/savant_rs_serializer.py:305-311 | whether `pattern % i` fails, and with which error, does not depend on `i` |
| SourceIds.FormatInjective | adapters/gst/gst_plugins/python/savant_rs_serializer.py:307 | two different indexes format to different ids whenever the argument's conversion does not truncate (no precision on s, r or a) |
| SourceIds.FormatLiteralPrefix | adapters/gst/gst_plugins/python/savant_rs_serializer.py:307 | text without '%' is copied to the output unchanged |
| SourceIds.ConversionTextInjective | adapters/gst/gst_plugins/python/savant_rs_serializer.py:307 | a conversion without truncation, zero-padded to a precision or not, writes different numbers as different texts |
| SourceIds.GeneratedIds | adapters/gst/gst_plugins/python/savant_rs_serializer.py:306-308 | the list exists exactly when every index formats; it then holds `pattern % i` at position i; otherwise the error is that of a failing index |
| SourceIds.ToSet | adapters/gst/gst_plugins/python/savant_rs_serializer.py:312 | `set(ids)` holds exactly the ids of the list |
| SourceIds.DistinctByCount | adapters/gst/gst_plugins/python/savant_rs_serializer.py:312 | `len(ids) == len(set(ids))` exactly when no id repeats |
| SourceIds.WithTopics | adapters/gst/gst_plugins/python/savant_rs_serializer.py:326-328 | one source per id, in order, with topic `id + "/"` |
| SourceIds.FormatErrorAtZero | adapters/gst/gst_plugins/python/savant_rs_serializer.py:305-311 | a failing id list fails with the error of index 0 |
| SourceIds.GeneratedIdsDistinct | adapters/gst/gst_plugins/python/savant_rs_serializer.py:306-316 | ids formatted from one pattern without a truncating conversion are pairwise distinct, so only a truncating pattern can meet the duplicate check |
| SourceIds.TruncatedIdsCollide | adapters/gst/gst_plugins/python/savant_rs_serializer.py:306-308 | `'%.1s' % 1` and `'%.1s' % 10` are both "1": a precision on s cuts the index text short |
| SourceIds.DuplicateIdsRefused | adapters/gst/gst_plugins/python/savant_rs_serializer.py:306-316 | with "%.1s" and eleven or more streams the ids repeat and do_start refuses them as duplicates |
| SourceIds.StarWidthRefused | adapters/gst/gst_plugins/python/savant_rs_serializer.py:305-311 | with "source-%*d" the `*` width takes the index, the conversion finds no argument left, and do_start refuses the TypeError for any number of streams |
| SourceIds.MappingKeyRefused | adapters/gst/gst_plugins/python/savant_rs_serializer.py:305-311 | with "source-%(i)d" the mapping key raises the "format requires a mapping" TypeError, and do_start refuses for any number of streams |
| SourceIds.StartSources | adapters/gst/gst_plugins/python/savant_rs_serializer.py:298-330 | single stream: refused exactly when no source id is set, else that one source. Multistream: started exactly when a pattern is set, every index formats and the ids are distinct, with id i at position i; refused as duplicates exactly when every index formats and an id repeats. Index 0 decides the pattern error: a TypeError (a second argument asked for, none converted, a mapping key) refuses with that error, and a ValueError escapes as it is. Every topic is the id plus "/" |
| SourceIds.DefaultPatternThreeStreams | adapters/gst/gst_plugins/python/savant_rs_serializer.py:27 | "source-%d" with three streams starts source-0, source-1 and source-2 |
| SourceIds.FormatDefaultPattern | adapters/gst/gst_plugins/python/savant_rs_serializer.py:27 | "source-%d" % i is "source-" followed by the digit of i, for i < 10 |
| Negotiation.FramerateTextInjective | adapters/gst/gst_plugins/python/savant_rs_serializer.py:207-209 | the framerate text `num/den` gives back both numerator and denominator, so different caps fractions never give the same frame parameters |
| Negotiation.FramerateText | adapters/gst/gst_plugins/python/savant_rs_serializer.py:209 | the text `f'{num}/{den}'` always holds the '/'; `FramerateTextInjective` proves both numbers can be read back from it |
| Negotiation.NegotiatedParams | adapters/gst/gst_plugins/python/savant_rs_serializer.py:198-217 | nothing exactly for an unknown caps name; otherwise the codec of the name, the caps size, and the caps framerate or else the default framerate |
| Negotiation.FrameTypeOfProperty | adapters/gst/gst_plugins/python/savant_rs_serializer.py:282-286 | "embedded" means no external type, a known value is that member, anything else, None included, is a ValueError |
| Negotiation.FrameTypeSetGet | adapters/gst/gst_plugins/python/savant_rs_serializer.py:282-286 | an accepted `frame-type` value reads back as the same text |
| Negotiation.FrameTypeGetSet | adapters/gst/gst_plugins/python/savant_rs_serializer.py:244-247 | writing back the text the getter shows restores the same frame type |
| Negotiation.FrameTypeProperty | adapters/gst/gst_plugins/python/savant_rs_serializer.py:244-247 | the `frame-type` getter; carries no contract of its own, its partners `FrameTypeGetSet` and `FrameTypeSetGet` prove it inverts the setter |
| Serializer.Reload | adapters/gst/gst_plugins/python/savant_rs_serializer.py:347-349 | a location that is None or plain text raises AttributeError; a path reads the sidecar `<parent>/<stem>.json` |
| Serializer.OptionalTime | adapters/gst/gst_plugins/python/savant_rs_serializer.py:370-373 | CLOCK_TIME_NONE becomes None; any other time is passed unchanged |
| Serializer.ContentFor | adapters/gst/gst_plugins/python/savant_rs_serializer.py:357-365 | embedded gives the buffer bytes, ZeroMQ an external reference without location, any other type an ERROR flow |
| Serializer.MetadataStep | adapters/gst/gst_plugins/python/savant_rs_serializer.py:465-469 | the counter moves by exactly one iff reading is on, the list is non-empty and the index is in range; an index past the end raises IndexError; without consumption no objects |
| Serializer.FrameForShape | adapters/gst/gst_plugins/python/savant_rs_serializer.py:462-496 | pts is never CLOCK_TIME_NONE (a missing one is 0); the negotiated parameters; exactly one initial-size transformation; the objects found; a `location` attribute exactly when the location is truthy |
| Serializer.FrameFor | adapters/gst/gst_plugins/python/savant_rs_serializer.py:462-496 | build_video_frame's frame; carries no contract of its own, its partner `FrameForShape` states every field it sets |
| Serializer.FrameEnvelopes | adapters/gst/gst_plugins/python/savant_rs_serializer.py:378-387 | one envelope per configured source |
| Serializer.FrameEnvelopesShape | adapters/gst/gst_plugins/python/savant_rs_serializer.py:378-387 | envelope k is on source k's topic and carries the frame re-addressed to source k. All envelopes carry the same frame apart from the source id. Raw memory is attached exactly when asked, and the timing is the input's |
| Serializer.EosEnvelopes | adapters/gst/gst_plugins/python/savant_rs_serializer.py:438-442 | one EndOfStream per configured source |
| Serializer.EosEnvelopesShape | adapters/gst/gst_plugins/python/savant_rs_serializer.py:438-442 | EndOfStream k names source k, on its topic, without raw memory or timing |
| Serializer.ShutdownEnvelopes | adapters/gst/gst_plugins/python/savant_rs_serializer.py:446-451 | one Shutdown on the first source's topic exactly when an auth key is set, none otherwise |
| Serializer.EosClosesSegment | adapters/gst/gst_plugins/python/savant_rs_serializer.py:436-451 | after the EndOfStream messages, and after a Shutdown that follows them, no stream is open |
| Serializer.FramesOpenSegment | adapters/gst/gst_plugins/python/savant_rs_serializer.py:393 | after a frame's envelopes a stream is open |
| Serializer.NameOf | adapters/gst/gst_plugins/python/savant_rs_serializer.py:230-255 | every property value except `location` has the name it is read back under |
| Serializer.SavantRsSerializer.constructor | adapters/gst/gst_plugins/python/savant_rs_serializer.py:166-191 | the initial field values, including ZeroMQ frames, file-end and params-change EOS on, loop-end EOS off, "source-%d", one stream, no output |
| Serializer.SavantRsSerializer.SetProperty | adapters/gst/gst_plugins/python/savant_rs_serializer.py:258-296 | the named field takes the value and no other field changes. A framerate Fraction rejects raises AttributeError, an unset (None) framerate raises the uncaught TypeError, and a frame type that is unknown or None raises ValueError; none of them stores anything |
| Serializer.SavantRsSerializer.SetFramerate | adapters/gst/gst_plugins/python/savant_rs_serializer.py:268-273 | only a framerate Fraction accepts is stored; a rejected one raises AttributeError and None raises TypeError, both storing nothing |
| Serializer.SavantRsSerializer.SetFrameType | adapters/gst/gst_plugins/python/savant_rs_serializer.py:282-286 | "embedded" clears the external type, a known value sets it, anything else raises and keeps the old one |
| Serializer.SavantRsSerializer.GetProperty | adapters/gst/gst_plugins/python/savant_rs_serializer.py:225-256 | each name reads its field; the frame type reads "embedded" when none is set |
| Serializer.SavantRsSerializer.SetCaps | adapters/gst/gst_plugins/python/savant_rs_serializer.py:193-223 | caps are accepted exactly when their name has a codec. Accepted caps record the negotiated parameters and the matching initial size. Refused caps change nothing |
| Serializer.SavantRsSerializer.Start | adapters/gst/gst_plugins/python/savant_rs_serializer.py:298-330 | the outcome is StartSources of the properties, and the sources are replaced only on success |
| Serializer.SavantRsSerializer.SendEosMessage | adapters/gst/gst_plugins/python/savant_rs_serializer.py:436-443 | pushes exactly the EndOfStream of every source in order; afterwards no stream is in progress |
| Serializer.SavantRsSerializer.SendShutdownMessage | adapters/gst/gst_plugins/python/savant_rs_serializer.py:445-451 | pushes the Shutdown envelope exactly when an auth key is set |
| Serializer.SavantRsSerializer.SinkEvent | adapters/gst/gst_plugins/python/savant_rs_serializer.py:397-413 | EOS: EndOfStream per source then the optional Shutdown, and the stream is closed. TAG with a location: switch to that path, mark a new loop, reload and rewind (a failed reload raises and keeps the metadata). Other events: nothing changes |
| Serializer.SavantRsSerializer.FinishOutput | adapters/gst/gst_plugins/python/savant_rs_serializer.py:398-401 | the EndOfStream messages then the optional Shutdown, and no stream is open |
| Serializer.SavantRsSerializer.SwitchLocation | adapters/gst/gst_plugins/python/savant_rs_serializer.py:403-413 | the location becomes the tag's path and a new loop is marked before the reload; on success the metadata is the reloaded sidecar and the counter is 0 |
| Serializer.SavantRsSerializer.CloseSegment | adapters/gst/gst_plugins/python/savant_rs_serializer.py:347-351 | a reload that raises changes nothing; otherwise reload, counter 0, then EndOfStream per source and the stream closed |
| Serializer.SavantRsSerializer.Rewind | adapters/gst/gst_plugins/python/savant_rs_serializer.py:347-350 | the reloaded metadata replaces the old and the counter is 0 |
| Serializer.SavantRsSerializer.CheckBoundary | adapters/gst/gst_plugins/python/savant_rs_serializer.py:338-354 | EndOfStream messages are sent exactly when a stream is in progress and an enabled trigger holds, and the counter is then 0. A raising reload changes nothing. Otherwise the last location and parameters are remembered and the new-loop mark is cleared |
| Serializer.SavantRsSerializer.AtBoundary | adapters/gst/gst_plugins/python/savant_rs_serializer.py:338-346 | the boundary condition; carries no contract of its own, its partner `CheckBoundary` proves that EndOfStream messages are sent exactly when it holds |
| Serializer.SavantRsSerializer.Remember | adapters/gst/gst_plugins/python/savant_rs_serializer.py:352-354 | afterwards the last location and parameters equal the current ones, and no boundary is pending |
| Serializer.SavantRsSerializer.BuildVideoFrame | adapters/gst/gst_plugins/python/savant_rs_serializer.py:453-496 | the counter moves as MetadataStep says; the frame is FrameFor of the objects found, or the lookup's exception |
| Serializer.SavantRsSerializer.FanOut | adapters/gst/gst_plugins/python/savant_rs_serializer.py:378-390 | pushes the envelopes of all sources but the last, in order, and returns the last |
| Serializer.SavantRsSerializer.Publish | adapters/gst/gst_plugins/python/savant_rs_serializer.py:378-395 | every source's envelope goes downstream in order, the last is returned, and a stream is open |
| Serializer.SavantRsSerializer.EmitFrame | adapters/gst/gst_plugins/python/savant_rs_serializer.py:357-395 | an unsupported frame type is an ERROR with nothing sent; a failed sidecar lookup raises with only the counter moved; otherwise N envelopes, N-1 pushed, the last returned, stream open |
| Serializer.SavantRsSerializer.PrepareOutputBuffer | adapters/gst/gst_plugins/python/savant_rs_serializer.py:332-395 | the boundary step, then the frame step, composed. The output is the boundary's EndOfStream messages, then one envelope per source, with the last one returned |
| Scenarios.PropertyRoundTrip | adapters/gst/gst_plugins/python/savant_rs_serializer.py:225-296 | an accepted property reads back as written; a rejected framerate or frame type leaves the default |
| Scenarios.CameraEnvelope | adapters/gst/gst_plugins/python/savant_rs_serializer.py:378-395 | what one camera envelope carries: topic, codec, size, default framerate, content, and a location attribute exactly when the location is truthy |
| Scenarios.SingleStreamSession | adapters/gst/gst_plugins/python/savant_rs_serializer.py:332-401 | two buffers with no location set, then EOS, give two frames on "cam/" without a location attribute and one EndOfStream, with no EndOfStream between the frames |
| Scenarios.FileSwitchSession | adapters/gst/gst_plugins/python/savant_rs_serializer.py:338-413 | a TAG for a different file between buffers puts exactly one EndOfStream between the frames of the two files |

## Left out

- GStreamer scaffolding is not modelled. This covers plugin registration, pad templates, the `__gproperties__` table (and so the GObject type checks on property values) and the base-class event forwarding at the end of `do_sink_event`.
- The savant-rs objects are plain datatypes. Serialisation (`save_message_to_bytes`) is left out: envelopes carry logical messages, not bytes.
- Buffer memory handling is not modelled (`map`/`unmap`, `get_memory_range`, `gst_buffer_from_list`). A push appends to `pushed`. The raw memory attached to an external frame is the input's bytes.
- Topics are strings; their UTF-8 encoding is not modelled.
- Sidecar file access and parsing are not modelled (`is_file`, `open`, `splitfile`, `json.loads`). The files that exist are a map from path to the decoded records.
- Every line of the sidecar file is taken to be a JSON object (`Sidecar` records are maps). A line holding another JSON value (a number, null, an array or a string) makes `is_videoframe_metadata` or the `metadata` lookup raise TypeError in Python, and that error path is not modelled.
- Caps parsing is not modelled. Caps arrive as a name, a size and an optional fraction, and the caps-name table is a parameter.
- Serializer.SavantRsSerializer.SetProperty: `Fraction(value)` is left abstract. The `fractionAccepts` predicate stands for it, because the fraction parser is library code.
- Logging, including the warning for a missing sidecar, is not modelled.
- Serializer.SavantRsSerializer.GetProperty: the `location` property is not read back. Python returns the stored Path or str object through GObject, and that conversion is not part of this model.
- SourceIds.StartSources: `pattern % i` supports `%%`, a mapping key (the TypeError "format requires a mapping"), a `*` width or precision (which takes the index, so the conversion that follows raises the "not enough arguments" TypeError), a precision (`.N`, which cuts s, r and a and zero-pads the integer conversions), the ignored length modifiers h, l and L, and the conversions d, i, u, s, r, a, x, X and o of a non-negative int. Flags (`-`, `+`, space, `#`, `0`), a width in digits and the c, e, E, f, F, g and G conversions, which Python accepts, are treated as an unsupported format character instead. The ValueError for a width or precision too large for a C int is not modelled.
- Paths.ParsePath: a leading "//", which POSIX pathlib keeps as a distinct anchor, is parsed as "/".
- The values of DEFAULT_FRAMERATE ("30/1"), DEFAULT_TIME_BASE (1/1000000000) and DEFAULT_NAMESPACE ("default") come from savant/api/constants.py. That file is not part of this model.
- The set of ExternalFrameType values comes from savant/api/enums.py, which is not part of this model. The model uses {"zeromq"} and keeps the frame type open, so the unsupported-type ERROR branch stays reachable.
- Serializer.SavantRsSerializer.PrepareOutputBuffer: requires at least one source and negotiated frame parameters. The framework only streams buffers after a successful `do_start` and caps negotiation. Without them the source indexes `source_ids_and_topics[0]` and reads `frame_params` on None.
- Serializer.SavantRsSerializer.SinkEvent: requires at least one source, for the same reason. An EOS before a successful start is not modelled.

/**
 * Caps negotiation and the two properties whose values are translated:
 * the frame parameters derived from the sink caps, and the `frame-type`
 * property, where "embedded" stands for "no external frame type".
 */
module Negotiation {
  import opened Wrappers
  import Numerals

  /** Codec, geometry and framerate of the negotiated input; compared as a whole. */
  datatype FrameParams = FrameParams(codecName: string, width: int, height: int, framerate: string)

  /** DEFAULT_FRAMERATE of savant.api.constants. */
  const DefaultFramerate: string := "30/1"

  /** The first structure of the negotiated sink caps, already read out. */
  datatype Caps = Caps(name: string, width: int, height: int, framerate: Option<(int, int)>)

  /** CODEC_BY_CAPS_NAME: caps structure name to codec name. */
  type CodecTable = map<string, string>

  /** `f'{num}/{den}'`. */
  function FramerateText(num: int, den: int): (s: string)
    ensures '/' in s
  {
    var s := Numerals.IntText(num) + "/" + Numerals.IntText(den);
    assert s[|Numerals.IntText(num)|] == '/';
    s
  }

  /** The framerate text names its fraction: numerator and denominator can be read back. */
  lemma FramerateTextInjective(num: int, den: int, num': int, den': int)
    requires FramerateText(num, den) == FramerateText(num', den')
    ensures num == num' && den == den'
  {
    var a, b := Numerals.IntText(num), Numerals.IntText(den);
    var a', b' := Numerals.IntText(num'), Numerals.IntText(den');
    var s := a + "/" + b;
    assert s == a' + "/" + b';
    if |a| < |a'| {
      assert false;
    } else if |a'| < |a| {
      assert false;
    }
    assert a == s[..|a|] == a';
    assert b == s[|a| + 1..] == b';
    Numerals.IntTextInjective(num, num');
    Numerals.IntTextInjective(den, den');
  }

  /**
   * The frame parameters `do_set_caps` records: nothing for a caps name
   * without a codec, otherwise the codec, the size and the caps framerate,
   * or the default framerate when the caps carry none.
   */
  function NegotiatedParams(caps: Caps, codecs: CodecTable, defaultFramerate: string): (r: Option<FrameParams>)
    ensures r.None? <==> caps.name !in codecs
    ensures r.Some? ==>
      && r.value.codecName == codecs[caps.name]
      && r.value.width == caps.width
      && r.value.height == caps.height
      && (caps.framerate.None? ==> r.value.framerate == defaultFramerate)
      && (caps.framerate.Some? ==> r.value.framerate == FramerateText(caps.framerate.value.0, caps.framerate.value.1))
  {
    if caps.name !in codecs then None
    else
      var framerate :=
        if caps.framerate.Some? then FramerateText(caps.framerate.value.0, caps.framerate.value.1)
        else defaultFramerate;
      Some(FrameParams(codecs[caps.name], caps.width, caps.height, framerate))
  }

  /** EMBEDDED_FRAME_TYPE. */
  const EmbeddedFrameType: string := "embedded"

  /** A member of savant.api.enums.ExternalFrameType, identified by its value. */
  datatype ExternalFrameType = ExternalFrameType(value: string)

  /** The values the ExternalFrameType enumeration defines. */
  const ExternalFrameTypeValues: set<string> := {"zeromq"}

  const ZeroMQ: ExternalFrameType := ExternalFrameType("zeromq")

  datatype PropertyError =
    | InvalidFramerate   // Fraction() rejected the text: AttributeError
    | FramerateNotText   // Fraction(None): a TypeError the setter does not catch
    | UnknownFrameType   // ExternalFrameType(value) found no member: ValueError

  /**
   * The setter's reading of a `frame-type` value: None for "embedded", else
   * the enum member; an unset value (None) is no member either.
   */
  function FrameTypeOfProperty(value: Option<string>): (r: Result<Option<ExternalFrameType>, PropertyError>)
    ensures r == Ok(None) <==> value == Some(EmbeddedFrameType)
    ensures r.Ok? && r.value.Some? ==> value == Some(r.value.value.value) && r.value.value.value in ExternalFrameTypeValues
    ensures r.Err? <==> value.None? || (value.value != EmbeddedFrameType && value.value !in ExternalFrameTypeValues)
    ensures r.Err? ==> r.error == UnknownFrameType
  {
    if value == Some(EmbeddedFrameType) then Ok(None)
    else if value.Some? && value.value in ExternalFrameTypeValues then Ok(Some(ExternalFrameType(value.value)))
    else Err(UnknownFrameType)
  }

  /** The getter's text for a frame type. */
  function FrameTypeProperty(frameType: Option<ExternalFrameType>): string
  {
    if frameType.None? then EmbeddedFrameType else frameType.value.value
  }

  /** Reading back an accepted `frame-type` value gives the text that was set. */
  lemma FrameTypeSetGet(value: Option<string>)
    requires FrameTypeOfProperty(value).Ok?
    ensures Some(FrameTypeProperty(FrameTypeOfProperty(value).value)) == value
  {
  }

  /** Setting the text the getter shows restores the same frame type. */
  lemma FrameTypeGetSet(frameType: Option<ExternalFrameType>)
    requires frameType.Some? ==> frameType.value.value in ExternalFrameTypeValues
    ensures FrameTypeOfProperty(Some(FrameTypeProperty(frameType))) == Ok(frameType)
  {
  }
}

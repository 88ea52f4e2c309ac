/**
 * Building the configured logical sources when the element starts: the
 * multistream ids `pattern % i` for every stream index, the duplicate check,
 * the single-stream id, and the topic `source_id + "/"` of each.
 */
module SourceIds {
  import opened Wrappers
  import opened Wire
  import Numerals

  /** Largest number-of-streams the element accepts. */
  const MaxStreams := 1024

  type StreamCount = n: int | 1 <= n <= MaxStreams witness 1

  /** DEFAULT_SOURCE_ID_PATTERN. */
  const DefaultSourceIdPattern: string := "source-%d"

  /** The errors `str.__mod__` raises for one integer argument. */
  datatype PatternError =
    | NotEnoughArguments           // TypeError: the argument is asked for a second time
    | NotAllArgumentsConverted     // TypeError: no conversion at all
    | MappingRequired              // TypeError: a mapping key "%(name)" without a mapping
    | IncompleteFormat             // ValueError: a '%' ends the pattern
    | UnsupportedFormatCharacter(c: char)  // ValueError

  /** do_start catches TypeError; a ValueError escapes it. */
  predicate IsTypeError(e: PatternError)
  {
    e.NotEnoughArguments? || e.NotAllArgumentsConverted? || e.MappingRequired?
  }

  /** The conversion characters the model formats; each writes out a non-negative int. */
  predicate IsConversion(c: char)
  {
    c in "diusraxXo"
  }

  /**
   * One conversion as it follows '%': whether a '*' width or precision has
   * already taken the argument, an optional precision and the conversion
   * character. A precision taken by '*' is left as None: the conversion that
   * follows always fails before it would apply.
   */
  datatype Spec = Spec(starred: bool, precision: Option<nat>, conversion: char)

  /** A precision on s, r or a keeps only the front of the text, so different numbers can meet. */
  predicate Truncates(spec: Spec)
  {
    spec.conversion in "sra" && spec.precision.Some?
  }

  /** The length of the run of decimal digits at the front of `s`. */
  function DigitRun(s: string): (n: nat)
    ensures n <= |s|
    ensures forall k :: 0 <= k < n ==> '0' <= s[k] <= '9'
    ensures n < |s| ==> !('0' <= s[n] <= '9')
    decreases |s|
  {
    if s != [] && '0' <= s[0] <= '9' then 1 + DigitRun(s[1..]) else 0
  }

  /**
   * Reads what follows a '%' that does not start "%%", in CPython's order: a
   * mapping key '(' (a TypeError, as the argument is no mapping), a '*' width,
   * an optional precision ('.' then '*' or decimal digits, no digits meaning
   * 0), an ignored length modifier h, l or L, then the conversion character.
   * Each '*' takes the next argument, so with `used` set, or for a second
   * '*', it is the "not enough arguments" TypeError. The result is the
   * conversion and the number of characters it takes; running out of pattern
   * first is the "incomplete format" ValueError.
   */
  function ParseSpec(t: string, used: bool): (r: Result<(Spec, nat), PatternError>)
    ensures r == Err(MappingRequired) <==> t != [] && t[0] == '('
    ensures r.Err? ==> r.error in {IncompleteFormat, MappingRequired, NotEnoughArguments}
    ensures r == Err(NotEnoughArguments) ==> '*' in t
    ensures r.Ok? ==> 1 <= r.value.1 <= |t| && r.value.0.conversion == t[r.value.1 - 1]
    ensures r.Ok? ==> (r.value.0.starred <==> '*' in t[..r.value.1 - 1])
    ensures r.Ok? && r.value.0.starred ==> !used
  {
    if t != [] && t[0] == '(' then Err(MappingRequired)
    else
      var widthStar := t != [] && t[0] == '*';
      if widthStar && used then Err(NotEnoughArguments)
      else
        var k := if widthStar then 1 else 0;
        if k < |t| && t[k] == '.' then
          if k + 1 < |t| && t[k + 1] == '*' then
            if used || widthStar then Err(NotEnoughArguments)
            else ConversionAt(t, k + 2, true, None)
          else
            var run := DigitRun(t[k + 1..]);
            ConversionAt(t, k + 1 + run, widthStar, Some(Numerals.ValueOf(t[k + 1..k + 1 + run], 10)))
        else ConversionAt(t, k, widthStar, None)
  }

  /** The conversion character at `k`, after an ignored length modifier h, l or L. */
  function ConversionAt(t: string, k: nat, starred: bool, precision: Option<nat>): (r: Result<(Spec, nat), PatternError>)
    ensures r.Err? <==> k >= |t| || (t[k] in "hlL" && k + 1 >= |t|)
    ensures r.Err? ==> r.error == IncompleteFormat
    ensures r.Ok? ==> k + 1 <= r.value.1 <= |t| && r.value.0 == Spec(starred, precision, t[r.value.1 - 1])
    ensures r.Ok? ==> r.value.1 == k + 1 || (r.value.1 == k + 2 && t[k] in "hlL")
  {
    if k >= |t| then Err(IncompleteFormat)
    else if t[k] in "hlL" then
      if k + 1 >= |t| then Err(IncompleteFormat) else Ok((Spec(starred, precision, t[k + 1]), k + 2))
    else Ok((Spec(starred, precision, t[k]), k + 1))
  }

  /** The digits a conversion writes for a non-negative int before any precision applies. */
  function ConversionDigits(c: char, arg: nat): (s: string)
    requires IsConversion(c)
    ensures |s| >= 1
  {
    if c == 'x' then Numerals.Digits(arg, 16, false)
    else if c == 'X' then Numerals.Digits(arg, 16, true)
    else if c == 'o' then Numerals.Digits(arg, 8, false)
    else Numerals.Digits(arg, 10, false)
  }

  /** `s` with zeros in front up to `width` characters. */
  function ZeroPad(s: string, width: nat): (r: string)
    ensures |r| == if |s| >= width then |s| else width
    ensures r[|r| - |s|..] == s
    ensures forall k :: 0 <= k < |r| - |s| ==> r[k] == '0'
  {
    if |s| >= width then s else seq(width - |s|, _ => '0') + s
  }

  /**
   * How one conversion writes a non-negative int: a precision cuts the text
   * of s, r and a to that many characters, and pads the digits of the integer
   * conversions with zeros to that many.
   */
  function ConversionText(spec: Spec, arg: nat): (s: string)
    requires IsConversion(spec.conversion)
  {
    var digits := ConversionDigits(spec.conversion, arg);
    if spec.precision.None? then digits
    else if spec.conversion in "sra" then
      if spec.precision.value < |digits| then digits[..spec.precision.value] else digits
    else ZeroPad(digits, spec.precision.value)
  }

  /** The digits of a conversion have no leading zero unless they are "0". */
  lemma ConversionDigitsShape(c: char, arg: nat)
    requires IsConversion(c)
    ensures |ConversionDigits(c, arg)| >= 2 ==> ConversionDigits(c, arg)[0] != '0'
  {
    if c == 'x' {
      Numerals.DigitsNoLeadingZero(arg, 16, false);
    } else if c == 'X' {
      Numerals.DigitsNoLeadingZero(arg, 16, true);
    } else if c == 'o' {
      Numerals.DigitsNoLeadingZero(arg, 8, false);
    } else {
      Numerals.DigitsNoLeadingZero(arg, 10, false);
    }
  }

  /** Padding with zeros keeps digit strings apart when none of them has a leading zero. */
  lemma ZeroPadInjective(x: string, y: string, width: nat)
    requires x != y && |x| >= 1 && |y| >= 1
    requires |x| >= 2 ==> x[0] != '0'
    requires |y| >= 2 ==> y[0] != '0'
    ensures ZeroPad(x, width) != ZeroPad(y, width)
  {
  }

  /** A conversion that does not truncate writes different numbers differently. */
  lemma ConversionTextInjective(spec: Spec, a: nat, b: nat)
    requires IsConversion(spec.conversion) && !Truncates(spec) && a != b
    ensures ConversionText(spec, a) != ConversionText(spec, b)
  {
    var c := spec.conversion;
    if c == 'x' {
      Numerals.DigitsInjective(a, b, 16, false);
    } else if c == 'X' {
      Numerals.DigitsInjective(a, b, 16, true);
    } else if c == 'o' {
      Numerals.DigitsInjective(a, b, 8, false);
    } else {
      Numerals.DigitsInjective(a, b, 10, false);
    }
    if spec.precision.Some? {
      ConversionDigitsShape(c, a);
      ConversionDigitsShape(c, b);
      ZeroPadInjective(ConversionDigits(c, a), ConversionDigits(c, b), spec.precision.value);
    }
  }

  /**
   * `pattern % arg`, scanning left to right as CPython does; `used` says
   * whether the single argument has already been consumed.
   */
  function Format(pattern: string, arg: nat, used: bool): Result<string, PatternError>
    decreases |pattern|
  {
    if pattern == [] then
      if used then Ok([]) else Err(NotAllArgumentsConverted)
    else if pattern[0] != '%' then
      Prepend([pattern[0]], Format(pattern[1..], arg, used))
    else if |pattern| >= 2 && pattern[1] == '%' then
      Prepend("%", Format(pattern[2..], arg, used))
    else
      match ParseSpec(pattern[1..], used)
      case Err(e) => Err(e)
      case Ok((spec, n)) =>
        if used || spec.starred then Err(NotEnoughArguments)
        else if IsConversion(spec.conversion) then
          Prepend(ConversionText(spec, arg), Format(pattern[1 + n..], arg, true))
        else Err(UnsupportedFormatCharacter(spec.conversion))
  }

  function Prepend(text: string, r: Result<string, PatternError>): Result<string, PatternError>
  {
    match r
    case Ok(s) => Ok(text + s)
    case Err(e) => Err(e)
  }

  /** The conversion that takes the argument of `pattern % i`, when the scan gets to one. */
  function ArgumentSpec(pattern: string): Option<Spec>
    decreases |pattern|
  {
    if pattern == [] then None
    else if pattern[0] != '%' then ArgumentSpec(pattern[1..])
    else if |pattern| >= 2 && pattern[1] == '%' then ArgumentSpec(pattern[2..])
    else
      match ParseSpec(pattern[1..], false)
      case Err(_) => None
      case Ok((spec, _)) => Some(spec)
  }

  /** Whether the argument's conversion cuts its text short. */
  predicate TruncatingPattern(pattern: string)
  {
    ArgumentSpec(pattern).Some? && Truncates(ArgumentSpec(pattern).value)
  }

  /** Once the argument is consumed, the rest of the pattern no longer depends on it. */
  lemma {:induction false} FormatAfterUse(pattern: string, a: nat, b: nat)
    ensures Format(pattern, a, true) == Format(pattern, b, true)
    decreases |pattern|
  {
    if pattern != [] && pattern[0] != '%' {
      FormatAfterUse(pattern[1..], a, b);
    } else if |pattern| > 1 && pattern[1] == '%' {
      FormatAfterUse(pattern[2..], a, b);
    }
  }

  /** Whether formatting fails, and how, depends on the pattern alone. */
  lemma {:induction false} FormatOutcomeUniform(pattern: string, a: nat, b: nat, used: bool)
    ensures Format(pattern, a, used).Ok? == Format(pattern, b, used).Ok?
    ensures Format(pattern, a, used).Err? ==> Format(pattern, a, used) == Format(pattern, b, used)
    decreases |pattern|
  {
    if pattern == [] {
    } else if pattern[0] != '%' {
      FormatOutcomeUniform(pattern[1..], a, b, used);
    } else if |pattern| >= 2 && pattern[1] == '%' {
      FormatOutcomeUniform(pattern[2..], a, b, used);
    } else if !used && ParseSpec(pattern[1..], false).Ok? {
      FormatAfterUse(pattern[1 + ParseSpec(pattern[1..], false).value.1..], a, b);
    }
  }

  /** Two different stream indexes never format to the same id, unless the conversion truncates. */
  lemma {:induction false} FormatInjective(pattern: string, a: nat, b: nat, used: bool)
    requires a != b
    requires !used
    requires !TruncatingPattern(pattern)
    requires Format(pattern, a, used).Ok? && Format(pattern, b, used).Ok?
    ensures Format(pattern, a, used).value != Format(pattern, b, used).value
    decreases |pattern|
  {
    if pattern[0] != '%' {
      FormatInjective(pattern[1..], a, b, used);
      PrependInjective([pattern[0]], Format(pattern[1..], a, used).value, Format(pattern[1..], b, used).value);
    } else if |pattern| >= 2 && pattern[1] == '%' {
      FormatInjective(pattern[2..], a, b, used);
      PrependInjective("%", Format(pattern[2..], a, used).value, Format(pattern[2..], b, used).value);
    } else {
      var (spec, n) := ParseSpec(pattern[1..], false).value;
      assert ArgumentSpec(pattern) == Some(spec);
      FormatAfterUse(pattern[1 + n..], a, b);
      var rest := Format(pattern[1 + n..], a, true).value;
      ConversionTextInjective(spec, a, b);
      AppendInjective(ConversionText(spec, a), ConversionText(spec, b), rest);
    }
  }

  lemma PrependInjective(text: string, x: string, y: string)
    requires x != y
    ensures text + x != text + y
  {
    if |x| != |y| {
      assert |text + x| != |text + y|;
    } else {
      var k :| 0 <= k < |x| && x[k] != y[k];
      assert (text + x)[|text| + k] != (text + y)[|text| + k];
    }
  }

  lemma AppendInjective(x: string, y: string, rest: string)
    requires x != y
    ensures x + rest != y + rest
  {
    if |x| != |y| {
      assert |x + rest| != |y + rest|;
    } else {
      var k :| 0 <= k < |x| && x[k] != y[k];
      assert (x + rest)[k] != (y + rest)[k];
    }
  }

  /** `[pattern % i for i in range(n)]`; the smallest failing index raises. */
  function GeneratedIds(pattern: string, n: nat): (r: Result<seq<string>, PatternError>)
    ensures r.Ok? <==> forall i :: 0 <= i < n ==> Format(pattern, i, false).Ok?
    ensures r.Ok? ==> |r.value| == n && forall i :: 0 <= i < n ==> Format(pattern, i, false) == Ok(r.value[i])
    ensures r.Err? ==> exists i :: 0 <= i < n && Format(pattern, i, false) == Err(r.error)
    decreases n
  {
    if n == 0 then Ok([])
    else
      match GeneratedIds(pattern, n - 1)
      case Err(e) =>
        var i :| 0 <= i < n - 1 && Format(pattern, i, false) == Err(e);
        IndexFails(pattern, n, i);
        Err(e)
      case Ok(ids) =>
        match Format(pattern, n - 1, false)
        case Err(e) =>
          IndexFails(pattern, n, n - 1);
          Err(e)
        case Ok(id) => Ok(ids + [id])
  }

  /** One failing index is enough for the id list to fail. */
  lemma IndexFails(pattern: string, n: nat, i: nat)
    requires i < n && Format(pattern, i, false).Err?
    ensures !(forall j :: 0 <= j < n ==> Format(pattern, j, false).Ok?)
  {
  }

  /** `set(ids)`. */
  function ToSet(ids: seq<string>): (s: set<string>)
    ensures forall x :: x in s <==> x in ids
  {
    set x | x in ids
  }

  predicate PairwiseDistinct(ids: seq<string>)
  {
    forall i, j :: 0 <= i < j < |ids| ==> ids[i] != ids[j]
  }

  /** `len(ids) == len(set(ids))` holds exactly when no id repeats. */
  lemma {:induction false} DistinctByCount(ids: seq<string>)
    ensures |ToSet(ids)| <= |ids|
    ensures |ToSet(ids)| == |ids| <==> PairwiseDistinct(ids)
    decreases |ids|
  {
    if ids != [] {
      var rest := ids[1..];
      DistinctByCount(rest);
      assert ToSet(ids) == {ids[0]} + ToSet(rest) by {
        forall x ensures x in ToSet(ids) <==> x in {ids[0]} + ToSet(rest) {
          assert x in ids <==> x == ids[0] || x in rest;
        }
      }
      if ids[0] in rest {
        assert ToSet(ids) == ToSet(rest);
        var j :| 0 <= j < |rest| && rest[j] == ids[0];
        assert ids[0] == ids[j + 1];
      } else {
        assert |ToSet(ids)| == |ToSet(rest)| + 1;
        if PairwiseDistinct(rest) {
          forall i, j | 0 <= i < j < |ids| ensures ids[i] != ids[j] {
            if i == 0 {
              assert ids[j] == rest[j - 1];
            } else {
              assert ids[i] == rest[i - 1] && ids[j] == rest[j - 1];
            }
          }
        } else {
          var i, j :| 0 <= i < j < |rest| && rest[i] == rest[j];
          assert ids[i + 1] == ids[j + 1];
        }
      }
    }
  }

  /** What do_start decides. */
  datatype StartResult =
    | Started(sources: seq<LogicalSource>)
    | Refused(reason: StartRefusal)
    | Raised(error: PatternError)  // a ValueError from the pattern escapes do_start

  datatype StartRefusal =
    | MissingPattern
    | InvalidPattern(error: PatternError)
    | DuplicateSourceIds
    | MissingSourceId

  function WithTopics(ids: seq<string>): (sources: seq<LogicalSource>)
    ensures |sources| == |ids|
    ensures forall k :: 0 <= k < |ids| ==> sources[k] == LogicalSource(ids[k], ids[k] + "/")
  {
    seq(|ids|, k requires 0 <= k < |ids| => LogicalSource(ids[k], ids[k] + "/"))
  }

  /** do_start: the configured sources, or why the element refuses to start. */
  function StartSources(
    enableMultistream: bool,
    pattern: Option<string>,
    numberOfStreams: StreamCount,
    sourceId: Option<string>): (r: StartResult)
    // single stream: refused exactly when no source id is set
    ensures !enableMultistream ==>
      (r.Refused? <==> sourceId.None?) &&
      (r.Refused? ==> r.reason == MissingSourceId) &&
      (r.Started? ==> r.sources == [LogicalSource(sourceId.value, sourceId.value + "/")])
    // multistream: started exactly when the pattern is set, formats every index and yields distinct ids
    ensures enableMultistream ==>
      (r.Started? <==>
        pattern.Some? &&
        (forall i :: 0 <= i < numberOfStreams ==> Format(pattern.value, i, false).Ok?) &&
        PairwiseDistinct(GeneratedIds(pattern.value, numberOfStreams).value))
    ensures enableMultistream && r.Started? ==>
      |r.sources| == numberOfStreams &&
      forall i :: 0 <= i < numberOfStreams ==> Format(pattern.value, i, false) == Ok(r.sources[i].sourceId)
    ensures enableMultistream && pattern.None? ==> r == Refused(MissingPattern)
    // the duplicate check refuses exactly the id lists that repeat an id
    ensures r == Refused(DuplicateSourceIds) <==>
      enableMultistream && pattern.Some? && GeneratedIds(pattern.value, numberOfStreams).Ok? &&
      !PairwiseDistinct(GeneratedIds(pattern.value, numberOfStreams).value)
    // only a ValueError escapes; a TypeError refuses the start
    ensures r.Raised? <==> enableMultistream && pattern.Some? && Format(pattern.value, 0, false).Err? &&
                           !IsTypeError(Format(pattern.value, 0, false).error)
    ensures r.Raised? ==> r.error == Format(pattern.value, 0, false).error
    ensures (r.Refused? && r.reason.InvalidPattern?) <==>
      enableMultistream && pattern.Some? && Format(pattern.value, 0, false).Err? &&
      IsTypeError(Format(pattern.value, 0, false).error)
    ensures r.Refused? && r.reason.InvalidPattern? ==> r.reason.error == Format(pattern.value, 0, false).error
    // every topic is the source id followed by "/"
    ensures r.Started? ==> |r.sources| >= 1 && forall k :: 0 <= k < |r.sources| ==> r.sources[k].topic == r.sources[k].sourceId + "/"
  {
    if enableMultistream then
      if pattern.None? then Refused(MissingPattern)
      else
        match GeneratedIds(pattern.value, numberOfStreams)
        case Err(e) =>
          FormatErrorAtZero(pattern.value, numberOfStreams, e);
          if IsTypeError(e) then Refused(InvalidPattern(e)) else Raised(e)
        case Ok(ids) =>
          DistinctByCount(ids);
          if |ids| != |ToSet(ids)| then Refused(DuplicateSourceIds)
          else Started(WithTopics(ids))
    else
      if sourceId.None? then Refused(MissingSourceId)
      else Started(WithTopics([sourceId.value]))
  }

  /** The error of a failing id list is the error of index 0. */
  lemma FormatErrorAtZero(pattern: string, n: nat, e: PatternError)
    requires n >= 1
    requires GeneratedIds(pattern, n) == Err(e)
    ensures Format(pattern, 0, false) == Err(e)
  {
    var i :| 0 <= i < n && Format(pattern, i, false) == Err(e);
    FormatOutcomeUniform(pattern, i, 0, false);
  }

  /** Unless the argument's conversion truncates, the ids formatted from one pattern are distinct. */
  lemma GeneratedIdsDistinct(pattern: string, n: nat)
    requires !TruncatingPattern(pattern)
    requires GeneratedIds(pattern, n).Ok?
    ensures PairwiseDistinct(GeneratedIds(pattern, n).value)
  {
    var ids := GeneratedIds(pattern, n).value;
    forall i, j | 0 <= i < j < |ids| ensures ids[i] != ids[j] {
      FormatInjective(pattern, i, j, false);
    }
  }

  /** "source-%d" with three streams gives source-0, source-1 and source-2. */
  lemma DefaultPatternThreeStreams()
    ensures StartSources(true, Some(DefaultSourceIdPattern), 3, None) == Started([
      LogicalSource("source-0", "source-0/"),
      LogicalSource("source-1", "source-1/"),
      LogicalSource("source-2", "source-2/")])
  {
    var p := DefaultSourceIdPattern;
    var s0, s1, s2 := "source-0", "source-1", "source-2";
    FormatDefaultPattern(0);
    FormatDefaultPattern(1);
    FormatDefaultPattern(2);
    assert Numerals.DigitChar(0, false) == '0' && Numerals.DigitChar(1, false) == '1' && Numerals.DigitChar(2, false) == '2';
    assert "source-" + ['0'] == s0 && "source-" + ['1'] == s1 && "source-" + ['2'] == s2;
    assert s0[7] != s1[7] && s0[7] != s2[7] && s1[7] != s2[7];
    assert Format(p, 0, false) == Ok(s0);
    assert Format(p, 1, false) == Ok(s1);
    assert Format(p, 2, false) == Ok(s2);
    ThreeIds(p, s0, s1, s2);
    assert s0 + "/" == "source-0/" && s1 + "/" == "source-1/" && s2 + "/" == "source-2/";
  }

  lemma ThreeIds(p: string, s0: string, s1: string, s2: string)
    requires Format(p, 0, false) == Ok(s0)
    requires Format(p, 1, false) == Ok(s1)
    requires Format(p, 2, false) == Ok(s2)
    requires s0 != s1 && s0 != s2 && s1 != s2
    ensures StartSources(true, Some(p), 3, None) == Started([
      LogicalSource(s0, s0 + "/"),
      LogicalSource(s1, s1 + "/"),
      LogicalSource(s2, s2 + "/")])
  {
    assert GeneratedIds(p, 0) == Ok([]);
    GeneratedIdsStep(p, 0);
    assert GeneratedIds(p, 1).value == [s0];
    GeneratedIdsStep(p, 1);
    assert GeneratedIds(p, 2).value == [s0, s1];
    GeneratedIdsStep(p, 2);
    var ids := [s0, s1, s2];
    assert GeneratedIds(p, 3).value == ids;
    DistinctByCount(ids);
    assert WithTopics(ids) == [
      LogicalSource(s0, s0 + "/"),
      LogicalSource(s1, s1 + "/"),
      LogicalSource(s2, s2 + "/")];
  }

  lemma GeneratedIdsStep(pattern: string, n: nat)
    requires GeneratedIds(pattern, n).Ok? && Format(pattern, n, false).Ok?
    ensures GeneratedIds(pattern, n + 1) == Ok(GeneratedIds(pattern, n).value + [Format(pattern, n, false).value])
  {
  }

  /** Literal text without '%' is copied to the output as it is. */
  lemma {:induction false} FormatLiteralPrefix(prefix: string, rest: string, arg: nat, used: bool)
    requires forall k :: 0 <= k < |prefix| ==> prefix[k] != '%'
    ensures Format(prefix + rest, arg, used) == Prepend(prefix, Format(rest, arg, used))
    decreases |prefix|
  {
    if prefix == [] {
      assert prefix + rest == rest;
      if Format(rest, arg, used).Ok? {
        assert prefix + Format(rest, arg, used).value == Format(rest, arg, used).value;
      }
    } else {
      var p := prefix + rest;
      assert p[0] == prefix[0] && p[1..] == prefix[1..] + rest;
      FormatLiteralPrefix(prefix[1..], rest, arg, used);
      FormatLiteralHead(p, arg, used);
      PrependTwice([prefix[0]], prefix[1..], Format(rest, arg, used));
      assert [prefix[0]] + prefix[1..] == prefix;
    }
  }

  /**
   * A pattern without any '%' is copied once the argument is taken, and
   * otherwise leaves the argument unconverted, the TypeError do_start refuses.
   */
  lemma {:induction false} FormatWithoutConversion(pattern: string, arg: nat, used: bool)
    requires '%' !in pattern
    ensures Format(pattern, arg, used) == if used then Ok(pattern) else Err(NotAllArgumentsConverted)
    decreases |pattern|
  {
    if pattern != [] {
      FormatWithoutConversion(pattern[1..], arg, used);
      assert [pattern[0]] + pattern[1..] == pattern;
    }
  }

  /** A leading character other than '%' is copied. */
  lemma FormatLiteralHead(p: string, arg: nat, used: bool)
    requires p != [] && p[0] != '%'
    ensures Format(p, arg, used) == Prepend([p[0]], Format(p[1..], arg, used))
  {
  }

  lemma PrependTwice(a: string, b: string, r: Result<string, PatternError>)
    ensures Prepend(a, Prepend(b, r)) == Prepend(a + b, r)
  {
    if r.Ok? {
      assert a + (b + r.value) == (a + b) + r.value;
    }
  }

  lemma FormatDefaultPattern(i: nat)
    requires i < 10
    ensures Format(DefaultSourceIdPattern, i, false) == Ok("source-" + [Numerals.DigitChar(i, false)])
  {
    var d := [Numerals.DigitChar(i, false)];
    assert ParseSpec("d", false) == Ok((Spec(false, None, 'd'), 1));
    assert ConversionText(Spec(false, None, 'd'), i) == d;
    assert "%d"[2..] == [] && "%d"[0] == '%' && "%d"[1] == 'd' && "%d"[1..] == "d";
    assert d + [] == d;
    assert Format("%d", i, false) == Ok(d);
    assert DefaultSourceIdPattern == "source-" + "%d";
    FormatLiteralPrefix("source-", "%d", i, false);
  }

  /** "%.1s" keeps only the first digit, so stream 1 and stream 10 both get the id "1". */
  lemma TruncatedIdsCollide()
    ensures TruncatingPattern(TruncatingIdPattern)
    ensures Format(TruncatingIdPattern, 1, false) == Ok("1")
    ensures Format(TruncatingIdPattern, 10, false) == Ok("1")
  {
    var p := TruncatingIdPattern;
    var spec := Spec(false, Some(1), 's');
    assert p[1..] == ".1s" && p[0] == '%' && p[1] != '%';
    assert DigitRun("1s") == 1 by {
      assert "1s"[1..] == "s";
    }
    TruncatingSpec();
    assert ArgumentSpec(p) == Some(spec);
    assert p[1 + 3..] == [];
    assert Numerals.Digits(1, 10, false) == "1";
    assert Numerals.Digits(10, 10, false) == "10" by {
      assert Numerals.Digits(1, 10, false) + [Numerals.DigitChar(0, false)] == "10";
    }
    assert ConversionText(spec, 1) == "1";
    assert "10"[..1] == "1";
    assert ConversionText(spec, 10) == "1";
    assert "1" + [] == "1";
  }

  /** The conversion of "%.1s" is 's' with precision 1, three characters long. */
  lemma TruncatingSpec()
    ensures ParseSpec(".1s", false) == Ok((Spec(false, Some(1), 's'), 3))
  {
    var t := ".1s";
    assert DigitRun(t[1..]) == 1 by {
      assert t[1..] == "1s" && "1s"[1..] == "s";
    }
    assert t[1..2] == "1";
    assert Numerals.ValueOf("1", 10) == 1 by {
      assert "1"[..0] == [];
    }
    assert ConversionAt(t, 2, false, Some(1)) == Ok((Spec(false, Some(1), 's'), 3));
  }

  /** A '*' width takes the index, so the conversion after it finds no argument left. */
  const StarWidthPattern: string := "source-%*d"

  /** A mapping key needs a mapping, and the index is an int. */
  const MappingKeyPattern: string := "source-%(i)d"

  /** do_start refuses a pattern with a '*' width: the TypeError it raises is caught. */
  lemma StarWidthRefused(n: StreamCount)
    ensures StartSources(true, Some(StarWidthPattern), n, None) == Refused(InvalidPattern(NotEnoughArguments))
  {
    var t := "*d";
    assert ParseSpec(t, false) == Ok((Spec(true, None, 'd'), 2)) by {
      assert t[0] == '*' && t[1] == 'd' && |t| == 2;
    }
    assert Format("%" + t, 0, false) == Err(NotEnoughArguments) by {
      assert ("%" + t)[1..] == t;
    }
    assert StarWidthPattern == "source-" + ("%" + t);
    FormatLiteralPrefix("source-", "%" + t, 0, false);
  }

  /** do_start refuses a pattern with a mapping key: the TypeError it raises is caught. */
  lemma MappingKeyRefused(n: StreamCount)
    ensures StartSources(true, Some(MappingKeyPattern), n, None) == Refused(InvalidPattern(MappingRequired))
  {
    var t := "(i)d";
    assert Format("%" + t, 0, false) == Err(MappingRequired) by {
      assert ("%" + t)[1..] == t && t[0] == '(';
    }
    assert MappingKeyPattern == "source-" + ("%" + t);
    FormatLiteralPrefix("source-", "%" + t, 0, false);
  }

  /** A pattern whose conversion keeps one character of the index. */
  const TruncatingIdPattern: string := "%.1s"

  /** With such a pattern and at least eleven streams, do_start refuses the repeated ids. */
  lemma DuplicateIdsRefused(n: StreamCount)
    requires n >= 11
    ensures StartSources(true, Some(TruncatingIdPattern), n, None) == Refused(DuplicateSourceIds)
  {
    var p := TruncatingIdPattern;
    TruncatedIdsCollide();
    forall i | 0 <= i < n ensures Format(p, i, false).Ok? {
      FormatOutcomeUniform(p, 1, i, false);
    }
    var ids := GeneratedIds(p, n).value;
    assert ids[1] == ids[10];
  }
}

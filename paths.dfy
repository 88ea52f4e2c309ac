/**
 * The part of POSIX pathlib that the serializer relies on: turning the
 * location tag text into a path, `parent`, `name`, `stem`, joining one more
 * segment with `/`, and `str(path)`.
 */
module Paths {

  /** A path as pathlib keeps it: anchored at the root or not, and its segments. */
  datatype Path = Path(absolute: bool, segments: seq<string>)

  /** A segment pathlib can keep: non-empty, not ".", and free of separators. */
  predicate SegmentOk(s: string)
  {
    s != "" && s != "." && '/' !in s
  }

  predicate Normalised(p: Path)
  {
    forall k :: 0 <= k < |p.segments| ==> SegmentOk(p.segments[k])
  }

  /** A finished piece between separators; "" and "." are dropped. */
  function Keep(piece: string): (r: seq<string>)
    requires '/' !in piece
    ensures forall k :: 0 <= k < |r| ==> SegmentOk(r[k])
  {
    if piece == "" || piece == "." then [] else [piece]
  }

  /** Splits `s` at '/', `piece` being the text read since the last separator. */
  function SegmentsOf(s: string, piece: string): (r: seq<string>)
    requires '/' !in piece
    ensures forall k :: 0 <= k < |r| ==> SegmentOk(r[k])
    decreases |s|
  {
    if s == [] then Keep(piece)
    else if s[0] == '/' then Keep(piece) + SegmentsOf(s[1..], "")
    else SegmentsOf(s[1..], piece + [s[0]])
  }

  /** `Path(s)`: repeated separators and "." segments disappear. */
  function ParsePath(s: string): (p: Path)
    ensures Normalised(p)
    ensures p.absolute <==> |s| > 0 && s[0] == '/'
  {
    Path(|s| > 0 && s[0] == '/', SegmentsOf(s, ""))
  }

  /** `path.parent`: the root and the empty path are their own parents. */
  function Parent(p: Path): (r: Path)
    ensures r.absolute == p.absolute
    ensures p.segments == [] ==> r == p
    ensures p.segments != [] ==> r.segments + [p.segments[|p.segments| - 1]] == p.segments
  {
    if p.segments == [] then p else Path(p.absolute, p.segments[..|p.segments| - 1])
  }

  /** `path.name`: the last segment, or "" when there is none. */
  function Name(p: Path): string
  {
    if p.segments == [] then "" else p.segments[|p.segments| - 1]
  }

  /** `path / name` for a single well-formed segment. */
  function Joined(p: Path, name: string): (r: Path)
    requires SegmentOk(name)
    ensures Parent(r) == p && Name(r) == name
  {
    Path(p.absolute, p.segments + [name])
  }

  /** `name.rfind('.')`. */
  function LastDot(name: string): (i: int)
    ensures -1 <= i < |name|
    ensures i >= 0 ==> name[i] == '.' && '.' !in name[i + 1..]
    ensures i == -1 ==> '.' !in name
    decreases |name|
  {
    if name == [] then -1
    else if name[|name| - 1] == '.' then |name| - 1
    else
      var i := LastDot(name[..|name| - 1]);
      assert name[..|name| - 1] + [name[|name| - 1]] == name;
      i
  }

  /** `path.suffix`: a last dot that is neither first nor last starts it. */
  function Suffix(name: string): string
  {
    var i := LastDot(name);
    if 0 < i < |name| - 1 then name[i..] else ""
  }

  /** `path.stem`: the name without its suffix. */
  function Stem(name: string): string
  {
    var i := LastDot(name);
    if 0 < i < |name| - 1 then name[..i] else name
  }

  /** The stem and the suffix split the name, and a suffix holds a single dot, at its front. */
  lemma StemSuffixSplit(name: string)
    ensures Stem(name) + Suffix(name) == name
    ensures Suffix(name) == "" || (Suffix(name)[0] == '.' && '.' !in Suffix(name)[1..] && |Suffix(name)| >= 2)
    ensures Stem(name) != ""  <== name != ""
    // the suffix starts at the last dot exactly when that dot is neither first nor last
    ensures Suffix(name) != "" <==> 0 < LastDot(name) < |name| - 1
    ensures Suffix(name) != "" ==> Stem(name) == name[..LastDot(name)]
  {
    var i := LastDot(name);
    if 0 < i < |name| - 1 {
      assert name[i..][1..] == name[i + 1..];
    }
  }

  /** "video.mp4" has the stem "video"; a leading or trailing dot starts no suffix. */
  lemma StemExamples()
    ensures Stem("video.mp4") == "video" && Suffix("video.mp4") == ".mp4"
    ensures Stem(".hidden") == ".hidden" && Suffix(".hidden") == ""
    ensures Stem("a.") == "a." && Suffix("a.") == ""
  {
    assert LastDot("video.mp4") == 5 by {
      var n := "video.mp4";
      assert n[5] == '.' && n[6..] == "mp4";
      assert '.' !in n[6..];
    }
    assert LastDot(".hidden") == 0 by {
      var n := ".hidden";
      assert n[0] == '.' && n[1..] == "hidden";
      assert '.' !in n[1..];
    }
    assert LastDot("a.") == 1;
    assert "video.mp4"[..5] == "video" && "video.mp4"[5..] == ".mp4";
  }

  /** `location.parent / f'{location.stem}.json'`: the companion file next to the location. */
  function SidecarPath(location: Path): Path
    requires Normalised(location)
  {
    var name := Stem(Name(location)) + ".json";
    assert name[|name| - 5..] == ".json";
    assert '/' !in Name(location) ==> '/' !in Stem(Name(location)) by {
      StemSuffixSplit(Name(location));
    }
    Joined(Parent(location), name)
  }

  /** The companion file sits in the same directory and is named after the location's stem. */
  lemma SidecarPathShape(location: Path)
    requires Normalised(location)
    ensures Normalised(SidecarPath(location))
    ensures Parent(SidecarPath(location)) == Parent(location)
    ensures Name(SidecarPath(location)) == Stem(Name(location)) + ".json"
  {
  }

  function JoinSlash(segments: seq<string>): string
  {
    if segments == [] then ""
    else if |segments| == 1 then segments[0]
    else segments[0] + "/" + JoinSlash(segments[1..])
  }

  /** `str(path)`. */
  function PathText(p: Path): string
  {
    if p.absolute then "/" + JoinSlash(p.segments)
    else if p.segments == [] then "."
    else JoinSlash(p.segments)
  }

  /** Text without a separator only grows the piece being read. */
  lemma {:induction false} SegmentsOfPiece(a: string, b: string, piece: string)
    requires '/' !in piece && '/' !in a
    ensures SegmentsOf(a + b, piece) == SegmentsOf(b, piece + a)
    decreases |a|
  {
    if a == [] {
      assert a + b == b && piece + a == piece;
    } else {
      assert (a + b)[0] == a[0] && (a + b)[1..] == a[1..] + b;
      assert piece + [a[0]] + a[1..] == piece + a;
      SegmentsOfPiece(a[1..], b, piece + [a[0]]);
    }
  }

  /** Splitting the '/'-joined segments gives them back. */
  lemma {:induction false} SegmentsOfJoinSlash(segments: seq<string>)
    requires forall k :: 0 <= k < |segments| ==> SegmentOk(segments[k])
    ensures SegmentsOf(JoinSlash(segments), "") == segments
    decreases |segments|
  {
    if |segments| == 1 {
      var s := segments[0];
      SegmentsOfPiece(s, "", "");
      assert s + "" == s && "" + s == s;
    } else if |segments| >= 2 {
      var s, rest := segments[0], segments[1..];
      SegmentsOfJoinSlash(rest);
      var j := JoinSlash(rest);
      assert JoinSlash(segments) == s + ("/" + j);
      SegmentsOfPiece(s, "/" + j, "");
      assert "" + s == s;
      assert ("/" + j)[1..] == j;
    }
  }

  /** `Path(str(p))` is `p` again for every path in normal form. */
  lemma ParsePathText(p: Path)
    requires Normalised(p)
    ensures ParsePath(PathText(p)) == p
  {
    SegmentsOfJoinSlash(p.segments);
    var j := JoinSlash(p.segments);
    if p.absolute {
      assert ("/" + j)[1..] == j;
    } else if p.segments == [] {
      assert "."[1..] == [];
    } else {
      assert SegmentOk(p.segments[0]);
      assert j[0] == p.segments[0][0] by {
        if |p.segments| >= 2 {
          assert j == p.segments[0] + ("/" + JoinSlash(p.segments[1..]));
        }
      }
    }
  }
}

/**
 * The raw query string of a v1 request (the text after `?`): segments
 * joined by `&`, each with an optional trailing `,`; a `select=` segment
 * names the columns and every other segment is a filter clause.
 */
module QueryParams {
  import opened Wrappers
  import opened Text

  /** JavaScript truthiness of an optional string: present and not empty. */
  predicate Present(o: Option<string>)
  {
    o.Some? && o.value != ""
  }

  /** Drops one trailing `,`. */
  function StripComma(s: string): (r: string)
    ensures s == r || s == r + ","
  {
    if |s| > 0 && s[|s| - 1] == ',' then s[..|s| - 1] else s
  }

  /** The `&`-separated segments, each stripped of one trailing `,`; none when the query string is absent or empty. */
  function Segments(queryParams: Option<string>): (segs: seq<string>)
    ensures !Present(queryParams) ==> segs == []
    ensures Present(queryParams) ==> |segs| == |Split(queryParams.value, '&')|
  {
    if !Present(queryParams) then []
    else
      var parts := Split(queryParams.value, '&');
      seq(|parts|, i requires 0 <= i < |parts| => StripComma(parts[i]))
  }

  /** Segments that the query string parser hands back unchanged. */
  predicate PlainSegment(seg: string)
  {
    seg != "" && '&' !in seg && seg[|seg| - 1] != ','
  }

  /** Joining plain segments with `&` and splitting the result again gives the segments back. */
  lemma SegmentsOfJoin(segs: seq<string>)
    requires |segs| >= 1 && forall i :: 0 <= i < |segs| ==> PlainSegment(segs[i])
    ensures Segments(Some(Join(segs, "&"))) == segs
  {
    SplitJoin(segs, '&');
  }

  /** A segment as written in the query string: the plain segment, or the plain segment and one trailing `,`. */
  predicate RawSegment(part: string, seg: string)
  {
    PlainSegment(seg) && (part == seg || part == seg + ",")
  }

  /** Joining raw segments with `&` and splitting again gives the segments with their trailing `,` stripped. */
  lemma SegmentsOfParts(parts: seq<string>, segs: seq<string>)
    requires |parts| >= 1 && |parts| == |segs|
    requires forall i :: 0 <= i < |parts| ==> RawSegment(parts[i], segs[i])
    ensures Segments(Some(Join(parts, "&"))) == segs
  {
    forall i | 0 <= i < |parts|
      ensures '&' !in parts[i] && StripComma(parts[i]) == segs[i]
    {
      RawSegmentStrip(parts[i], segs[i]);
    }
    SplitJoin(parts, '&');
  }

  /** A raw segment holds no `&` and loses exactly its trailing `,`. */
  lemma RawSegmentStrip(part: string, seg: string)
    requires RawSegment(part, seg)
    ensures '&' !in part && StripComma(part) == seg
  {
    if part != seg {
      assert part[..|seg|] == seg;
    }
  }

  predicate IsSelect(seg: string)
  {
    |seg| >= 7 && seg[..7] == "select="
  }

  /** The column lists of the `select=` segments, in order. */
  function ColumnLists(segs: seq<string>): (r: seq<string>)
    ensures |r| <= |segs|
  {
    if |segs| == 0 then []
    else (if IsSelect(segs[0]) then [segs[0][7..]] else []) + ColumnLists(segs[1..])
  }

  /** The segments that are not `select=` segments, in order. */
  function FilterSegments(segs: seq<string>): (r: seq<string>)
    ensures |r| <= |segs|
  {
    if |segs| == 0 then []
    else (if IsSelect(segs[0]) then [] else [segs[0]]) + FilterSegments(segs[1..])
  }

  /** Without `select=` segments there are no column lists and every segment is a filter. */
  lemma {:induction false} NoSelect(segs: seq<string>)
    requires forall i :: 0 <= i < |segs| ==> !IsSelect(segs[i])
    ensures ColumnLists(segs) == [] && FilterSegments(segs) == segs
  {
    if |segs| > 0 {
      NoSelect(segs[1..]);
      assert segs == [segs[0]] + segs[1..];
    }
  }
}

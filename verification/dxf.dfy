/**
  The DXF side of the converter: the `LINE` record written for each segment,
  the fixed document framing, and the output stream as a writer object. A DXF
  file is a sequence of group-code/value pairs; here each line of the file is
  one tagged item, and coordinates stay numbers instead of `%0.3f` text.
*/
module Dxf {
  import opened Wrappers
  import opened Geometry

  /** One line of DXF text: a group code, a name, or a coordinate value. */
  datatype Item = Code(group: int) | Name(text: string) | Coord(value: real)

  /** Written before the first entity: `0 SECTION 0 ENTITIES 0`. */
  const Header: seq<Item> := [Code(0), Name("SECTION"), Code(0), Name("ENTITIES"), Code(0)]

  /** Written after the last entity. */
  const Footer: seq<Item> := [Name("ENDSEC")]

  /** Items in one `LINE` record. */
  const RecordSize := 10

  /**
    The `LINE` record of a segment: start X/Y under group codes 10/20, end X/Y
    under 11/21, then the group code 0 that introduces whatever follows.
  */
  function LineRecord(seg: Segment): (r: seq<Item>)
    ensures |r| == RecordSize
  {
    [Name("LINE"),
     Code(10), Coord(seg.start.x), Code(20), Coord(seg.start.y),
     Code(11), Coord(seg.end.x), Code(21), Coord(seg.end.y),
     Code(0)]
  }

  /** The records of a sequence of segments, in order. */
  function Records(segs: seq<Segment>): (r: seq<Item>)
    ensures |r| == RecordSize * |segs|
  {
    if segs == [] then [] else Records(segs[..|segs| - 1]) + LineRecord(segs[|segs| - 1])
  }

  /** The whole output file for the given segments: the header, one record per segment, the footer. */
  function Document(segs: seq<Segment>): (doc: seq<Item>)
    ensures |doc| == |Header| + RecordSize * |segs| + |Footer|
    ensures doc[..|Header|] == Header && doc[|doc| - |Footer|..] == Footer
  {
    Header + Records(segs) + Footer
  }

  /** Reads a segment back from one `LINE` record. */
  function DecodeLine(r: seq<Item>): Option<Segment>
    requires |r| == RecordSize
  {
    if r[0] == Name("LINE") && r[1] == Code(10) && r[2].Coord? && r[3] == Code(20) && r[4].Coord?
       && r[5] == Code(11) && r[6].Coord? && r[7] == Code(21) && r[8].Coord? && r[9] == Code(0)
    then Some(Segment(Point(r[2].value, r[4].value), Point(r[6].value, r[8].value)))
    else None
  }

  /** Reads segments back from a run of `LINE` records. */
  function DecodeRecords(items: seq<Item>): Option<seq<Segment>>
    decreases |items|
  {
    if items == [] then Some([])
    else if |items| < RecordSize then None
    else
      var k := |items| - RecordSize;
      match (DecodeRecords(items[..k]), DecodeLine(items[k..]))
      case (Some(segs), Some(seg)) => Some(segs + [seg])
      case _ => None
  }

  /** Reads the segments back from a whole output file. */
  function DecodeDocument(doc: seq<Item>): Option<seq<Segment>> {
    if |doc| >= |Header| + |Footer| && doc[..|Header|] == Header && doc[|doc| - |Footer|..] == Footer
    then DecodeRecords(doc[|Header|..|doc| - |Footer|])
    else None
  }

  /** Appending a segment appends its record. */
  lemma RecordsSnoc(segs: seq<Segment>, seg: Segment)
    ensures Records(segs + [seg]) == Records(segs) + LineRecord(seg)
  {
    assert (segs + [seg])[..|segs|] == segs;
  }

  /** A `LINE` record reads back as its segment. */
  lemma LineRoundTrip(seg: Segment)
    ensures DecodeLine(LineRecord(seg)) == Some(seg)
  {
  }

  /** The records determine the segments: decoding them gives the segments back. */
  lemma {:induction false} RecordsRoundTrip(segs: seq<Segment>)
    ensures DecodeRecords(Records(segs)) == Some(segs)
    decreases |segs|
  {
    if segs != [] {
      var init, last := segs[..|segs| - 1], segs[|segs| - 1];
      assert segs == init + [last];
      var items := Records(segs);
      assert items == Records(init) + LineRecord(last);
      var k := |items| - RecordSize;
      assert items[..k] == Records(init);
      assert items[k..] == LineRecord(last);
      LineRoundTrip(last);
      RecordsRoundTrip(init);
    }
  }

  /** The output file determines the segments, framing included. */
  lemma DocumentRoundTrip(segs: seq<Segment>)
    ensures DecodeDocument(Document(segs)) == Some(segs)
  {
    var doc := Document(segs);
    assert doc[..|Header|] == Header;
    assert doc[|doc| - |Footer|..] == Footer;
    assert doc[|Header|..|doc| - |Footer|] == Records(segs);
    RecordsRoundTrip(segs);
  }

  /** The output stream: every item written so far, in order. */
  class DxfWriter {
    var items: seq<Item>

    constructor ()
      ensures items == []
    {
      items := [];
    }

    /** `fprintf(f, "%s", text)` of fixed framing text. */
    method Write(text: seq<Item>)
      modifies this
      ensures items == old(items) + text
    {
      items := items + text;
    }

    /** The `fprintf` of one `LINE` record. */
    method WriteLine(seg: Segment)
      modifies this
      ensures items == old(items) + Records([seg])
    {
      assert Records([seg]) == Records([]) + LineRecord(seg);
      items := items + LineRecord(seg);
    }
  }
}

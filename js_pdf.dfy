/**
 * The jsPDF document as the report sees it: the drawing calls made on it,
 * in order. Rendering, fonts and saving to disk are not modelled.
 */
module JsPdf {

  datatype DrawOp =
    | FontSize(size: int)
    | Text(text: string, x: int, y: int)
    | Image(src: string, format: string, x: int, y: int, width: int, height: int)
    | NewPage

  /** Where an image is placed: its source and its top-left corner. */
  datatype Placement = Placement(src: string, x: int, y: int)

  /** The images a sequence of calls places, in order. */
  function Placements(ops: seq<DrawOp>): (r: seq<Placement>)
    ensures |r| <= |ops|
  {
    if ops == [] then []
    else
      Placements(ops[..|ops| - 1]) +
      match ops[|ops| - 1]
      case Image(src, _, x, y, _, _) => [Placement(src, x, y)]
      case _ => []
  }

  /** Placements of a concatenation are the placements of each part, in order. */
  lemma {:induction false} PlacementsAppend(a: seq<DrawOp>, b: seq<DrawOp>)
    ensures Placements(a + b) == Placements(a) + Placements(b)
    decreases |b|
  {
    if b != [] {
      var b' := b[..|b| - 1];
      assert (a + b)[..|a + b| - 1] == a + b';
      PlacementsAppend(a, b');
    } else {
      assert a + b == a;
    }
  }

  /** Calls that draw no image place none. */
  lemma {:induction false} PlacementsNone(ops: seq<DrawOp>)
    requires forall i :: 0 <= i < |ops| ==> !ops[i].Image?
    ensures Placements(ops) == []
  {
    if ops != [] {
      PlacementsNone(ops[..|ops| - 1]);
    }
  }

  /** A block that starts with its only image places just that image. */
  lemma PlacementsLeadImage(ops: seq<DrawOp>)
    requires |ops| >= 1 && ops[0].Image?
    requires forall i :: 1 <= i < |ops| ==> !ops[i].Image?
    ensures Placements(ops) == [Placement(ops[0].src, ops[0].x, ops[0].y)]
  {
    PlacementsNone(ops[1..]);
    PlacementsAppend([ops[0]], ops[1..]);
    assert ops == [ops[0]] + ops[1..];
  }

  /** The number of `addPage` calls. */
  function PageBreaks(ops: seq<DrawOp>): (n: nat)
    ensures n <= |ops|
    ensures n == 0 <==> NewPage !in ops
  {
    if ops == [] then 0
    else PageBreaks(ops[..|ops| - 1]) + (if ops[|ops| - 1] == NewPage then 1 else 0)
  }

  /** Page breaks of a concatenation add up. */
  lemma {:induction false} PageBreaksAppend(a: seq<DrawOp>, b: seq<DrawOp>)
    ensures PageBreaks(a + b) == PageBreaks(a) + PageBreaks(b)
    decreases |b|
  {
    if b != [] {
      var b' := b[..|b| - 1];
      assert (a + b)[..|a + b| - 1] == a + b';
      PageBreaksAppend(a, b');
    } else {
      assert a + b == a;
    }
  }

  /** A jsPDF document: it starts with one page and records every call made on it. */
  class PdfDocument {
    var ops: seq<DrawOp>

    constructor()
      ensures ops == []
    {
      ops := [];
    }

    /** The document has one page more than it has page breaks: one page until `addPage` is called. */
    function PageCount(): (n: nat)
      reads this
      ensures n >= 1
      ensures n == 1 <==> NewPage !in ops
    {
      1 + PageBreaks(ops)
    }

    method SetFontSize(size: int)
      modifies this
      ensures ops == old(ops) + [FontSize(size)]
    {
      ops := ops + [FontSize(size)];
    }

    method AddText(text: string, x: int, y: int)
      modifies this
      ensures ops == old(ops) + [Text(text, x, y)]
    {
      ops := ops + [Text(text, x, y)];
    }

    method AddImage(src: string, format: string, x: int, y: int, width: int, height: int)
      modifies this
      ensures ops == old(ops) + [Image(src, format, x, y, width, height)]
    {
      ops := ops + [Image(src, format, x, y, width, height)];
    }

    method AddPage()
      modifies this
      ensures ops == old(ops) + [NewPage]
      ensures PageCount() == old(PageCount()) + 1
    {
      PageBreaksAppend(ops, [NewPage]);
      ops := ops + [NewPage];
    }
  }
}

/**
  A single-page note: its geometry, the font-size search that fills its body,
  and the one page drawn on its canvas. Lengths are millimetres.
 */
module Notes {

  import opened Options
  import opened FontFit

  /** The margins used when none are given: 8 mm on every side (top, bottom, left, right). */
  const DefaultMargins: seq<real> := [8.0, 8.0, 8.0, 8.0]

  /**
    The margins a note keeps: the given list, or the default one when the list is
    absent or empty (both are false in a truth test).
   */
  function ResolveMargins(given: seq<real>): (m: seq<real>)
    ensures given == [] ==> |m| == 4 && forall i :: 0 <= i < 4 ==> m[i] == 8.0
    ensures given != [] ==> m == given
  {
    if given == [] then DefaultMargins else given
  }

  /** Page size and margins, listed top, bottom, left, right. */
  datatype Page = Page(width: real, height: real, marginsTBLR: seq<real>) {

    /** Every margin accessor indexes the first four entries. */
    predicate Valid()
    {
      |marginsTBLR| >= 4
    }

    function MarginTop(): real
      requires Valid()
    {
      marginsTBLR[0]
    }

    function MarginBottom(): real
      requires Valid()
    {
      marginsTBLR[1]
    }

    function MarginLeft(): real
      requires Valid()
    {
      marginsTBLR[2]
    }

    function MarginRight(): real
      requires Valid()
    {
      marginsTBLR[3]
    }

    function MarginTB(): real
      requires Valid()
    {
      MarginTop() + MarginBottom()
    }

    function MarginLR(): real
      requires Valid()
    {
      MarginLeft() + MarginRight()
    }

    /** The width left for text once the left and right margins are taken off. */
    function BodyWidth(): real
      requires Valid()
    {
      width - MarginLR()
    }

    /** The height left for text once the top and bottom margins are taken off. */
    function BodyHeight(): real
      requires Valid()
    {
      height - MarginTB()
    }
  }

  /**
    A page built without margins gets 8 mm on all four sides, so its body is
    16 mm narrower and 16 mm lower than the page.
   */
  lemma DefaultMarginsBody(width: real, height: real)
    ensures var p := Page(width, height, ResolveMargins([]));
            p.Valid()
            && p.MarginTop() == p.MarginBottom() == p.MarginLeft() == p.MarginRight() == 8.0
            && p.BodyWidth() == width - 16.0 && p.BodyHeight() == height - 16.0
  {
  }

  /**
    The body and the four margins tile the page exactly, in both directions; this
    restates the definitions of `BodyWidth` and `BodyHeight`.
   */
  lemma BodyAndMarginsTilePage(p: Page)
    requires p.Valid()
    ensures p.MarginLeft() + p.BodyWidth() + p.MarginRight() == p.width
    ensures p.MarginBottom() + p.BodyHeight() + p.MarginTop() == p.height
  {
  }

  /**
    The vertical position of a block of height `blockHeight` drawn in a body that
    starts `marginBottom` above the page's bottom edge: the gap below the block
    inside the body equals the gap above it.
   */
  function VerticalOrigin(marginBottom: real, bodyHeight: real, blockHeight: real): (y: real)
    ensures y - marginBottom == (marginBottom + bodyHeight) - (y + blockHeight)
    ensures blockHeight <= bodyHeight ==> marginBottom <= y && y + blockHeight <= marginBottom + bodyHeight
  {
    marginBottom + (bodyHeight - blockHeight) / 2.0
  }

  /** A paragraph laid out at one font size, with the extent it was measured at. */
  datatype Paragraph = Paragraph(fontSize: int, extent: Extent)

  /** A paragraph drawn on the canvas with its origin at (x, y). */
  datatype Placement = Placement(paragraph: Paragraph, x: real, y: real)

  /**
    The drawing surface: its page size, what has been drawn on it, how many pages
    have been finished and whether the document has been saved.
   */
  datatype Canvas = Canvas(pageWidth: real, pageHeight: real, drawn: seq<Placement>, pagesShown: nat, saved: bool)

  class Note {
    const text: string
    const fontName: string
    const page: Page
    /**
      Text layout for this note: the extent of `text`, set in `fontName` at a
      given size and wrapped to the body.
     */
    const measure: int -> Extent

    /** The paragraph last laid out, if any. */
    var paragraph: Option<Paragraph>
    /** The canvas, once the page has been created. */
    var canvas: Option<Canvas>

    /** The font size the search keeps for this note. */
    function FittedSize(): int
      requires page.Valid()
    {
      FitSize(measure, page.BodyWidth(), page.BodyHeight())
    }

    /** The paragraph at the kept size, with the extent measured at that size. */
    function FittedParagraph(): Paragraph
      requires page.Valid()
    {
      Paragraph(FittedSize(), measure(FittedSize()))
    }

    /** Where the kept paragraph is drawn: on the left margin, centred vertically in the body. */
    function FittedPlacement(): Placement
      requires page.Valid()
    {
      var p := FittedParagraph();
      Placement(p, page.MarginLeft(), VerticalOrigin(page.MarginBottom(), page.BodyHeight(), p.extent.height))
    }

    /**
      Builds the note and draws its single page. Absent or empty margins mean
      8 mm on every side; a shorter non-empty list is not supported.
     */
    constructor (text: string, fontName: string, width: real, height: real, marginsTBLR: seq<real>,
                 measure: int -> Extent)
      requires marginsTBLR == [] || |marginsTBLR| >= 4
      ensures this.text == text && this.fontName == fontName && this.measure == measure
      ensures page == Page(width, height, ResolveMargins(marginsTBLR)) && page.Valid()
      ensures paragraph == Some(FittedParagraph())
      ensures canvas == Some(Canvas(width, height, [FittedPlacement()], 1, true))
    {
      this.text := text;
      this.fontName := fontName;
      this.page := Page(width, height, ResolveMargins(marginsTBLR));
      this.measure := measure;
      paragraph := None;
      canvas := None;
      new;
      CreatePage();
    }

    /** Lays the text out at `fontSize`, keeps the paragraph and reports its extent. */
    method WrapText(fontSize: int) returns (width: real, height: real)
      modifies this`paragraph
      ensures paragraph == Some(Paragraph(fontSize, measure(fontSize)))
      ensures Extent(width, height) == measure(fontSize)
    {
      var e := measure(fontSize);
      paragraph := Some(Paragraph(fontSize, e));
      width, height := e.width, e.height;
    }

    /**
      Searches sizes 10, 11, ... up to 200 for the first one whose block reaches a
      body bound, steps back one size if that block strictly overflows, and draws
      the paragraph last laid out, centred vertically in the body.
     */
    method ScaleFontSize()
      requires page.Valid() && canvas.Some?
      modifies this`paragraph, this`canvas
      ensures paragraph == Some(FittedParagraph())
      ensures canvas == Some(old(canvas.value).(drawn := old(canvas.value.drawn) + [FittedPlacement()]))
    {
      var fontSize := StartSize;
      var width: real, height: real := 0.0, 0.0;
      while fontSize < MaxSize
        invariant StartSize <= fontSize <= MaxSize
        invariant forall k :: StartSize < k <= fontSize ==> !Reaches(measure(k), page.BodyWidth(), page.BodyHeight())
        invariant fontSize > StartSize ==> Extent(width, height) == measure(fontSize)
        invariant fontSize > StartSize ==> paragraph == Some(Paragraph(fontSize, measure(fontSize)))
        invariant canvas == old(canvas)
      {
        fontSize := fontSize + 1;
        width, height := WrapText(fontSize);
        if height >= page.BodyHeight() || width >= page.BodyWidth() {
          break;
        }
      }
      StopSizeIsFirstReach(measure, page.BodyWidth(), page.BodyHeight(), fontSize);
      assert fontSize == StopSize(measure, page.BodyWidth(), page.BodyHeight());

      if height > page.BodyHeight() || width > page.BodyWidth() {
        fontSize := fontSize - 1;
        width, height := WrapText(fontSize);
      }
      assert fontSize == FittedSize();

      var drawn := paragraph.value;
      var c := canvas.value;
      canvas := Some(c.(drawn := c.drawn + [Placement(drawn, page.MarginLeft(),
                                                      VerticalOrigin(page.MarginBottom(), page.BodyHeight(), height))]));
    }

    /** Opens a canvas of the page's size, fills it, finishes the one page and saves it. */
    method CreatePage()
      requires page.Valid()
      modifies this`paragraph, this`canvas
      ensures paragraph == Some(FittedParagraph())
      ensures canvas == Some(Canvas(page.width, page.height, [FittedPlacement()], 1, true))
    {
      canvas := Some(Canvas(page.width, page.height, [], 0, false));
      ScaleFontSize();
      var c := canvas.value;
      assert [] + [FittedPlacement()] == [FittedPlacement()];
      canvas := Some(c.(pagesShown := c.pagesShown + 1, saved := true));
    }
  }
}

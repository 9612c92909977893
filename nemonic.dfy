/**
  The sticky-note printer's media: nominal and actual sizes per media name, the
  margins that make up the difference on label stock, and the rotation option
  handed to the print queue. Lengths are millimetres.
 */
module Nemonic {

  import opened Options
  import opened FontFit
  import opened Notes

  /** The page size (width, height) declared to the renderer for each media. */
  const PageSize: map<string, (int, int)> :=
    map["note" := (80, 80),
        "label1" := (76, 110),
        "label2" := (76, 110),
        "label3" := (76, 110),
        "label4" := (76, 110),
        "label0.5" := (76, 110)]

  /** The size (width, height) of the stock that actually comes out of the printer. */
  const PageSizeActual: map<string, (int, int)> :=
    map["note" := (80, 80),
        "label1" := (76, 25),
        "label2" := (76, 51),
        "label3" := (76, 76),
        "label4" := (76, 102),
        "label0.5" := (51, 13)]

  /** The print-queue option that rotates the page for each sticky edge. */
  const StickyLprOrientation: map<string, string> :=
    map["up" := "-o orientation-requested=5",
        "down" := "-o orientation-requested=4",
        "left" := "-o orientation-requested=6",
        "right" := "-o orientation-requested=3"]

  /** Label media are the ones whose name starts with "label". */
  predicate IsLabel(media: string)
  {
    "label" <= media
  }

  /**
    Margins (top, bottom, left, right) for label stock: half the surplus of the
    nominal height over the actual height, plus 4, above and below; 8 at the sides.
   */
  function LabelMargins(height: int, heightActual: int): (m: seq<real>)
    ensures |m| == 4
    ensures m[0] == m[1] && m[2] == m[3] == 8.0
    ensures 2.0 * (m[0] - 4.0) + heightActual as real == height as real
  {
    var offset := (height - heightActual) as real / 2.0;
    [offset + 4.0, offset + 4.0, 8.0, 8.0]
  }

  /**
    The margins a media asks for: label margins for label media, none (so the
    defaults) otherwise.
   */
  function MediaMargins(media: string): (m: seq<real>)
    requires media in PageSize && media in PageSizeActual
    ensures m == [] <==> !IsLabel(media)
    ensures m != [] ==> |m| == 4
  {
    if IsLabel(media) then LabelMargins(PageSize[media].1, PageSizeActual[media].1) else []
  }

  /** The page geometry of a media, or None for a name that is not in the tables. */
  function MediaPage(media: string): (r: Option<Page>)
    ensures r.Some? <==> media in PageSize
    ensures r.Some? ==> r.value.Valid()
  {
    if media in PageSize && media in PageSizeActual then
      Some(Page(PageSize[media].0 as real, PageSize[media].1 as real, ResolveMargins(MediaMargins(media))))
    else
      None
  }

  /**
    Label media get equal top and bottom margins of (nominal - actual) / 2 + 4
    and 8 at the sides, so the body is 16 narrower than the page and exactly
    8 lower than the actual stock, centred on it.
   */
  lemma LabelPage(media: string)
    requires media in PageSize && IsLabel(media)
    ensures MediaPage(media).Some?
    ensures var p := MediaPage(media).value;
            var height := PageSize[media].1;
            var heightActual := PageSizeActual[media].1;
            p.width == PageSize[media].0 as real && p.height == height as real
            && p.MarginTop() == p.MarginBottom() == (height - heightActual) as real / 2.0 + 4.0
            && p.MarginLeft() == p.MarginRight() == 8.0
            && p.BodyWidth() == p.width - 16.0
            && p.BodyHeight() == heightActual as real - 8.0
  {
  }

  /** Media that are not labels keep 8 on every side. */
  lemma NonLabelPage(media: string)
    requires media in PageSize && !IsLabel(media)
    ensures MediaPage(media).Some?
    ensures var p := MediaPage(media).value;
            p.marginsTBLR == DefaultMargins
            && p.BodyWidth() == PageSize[media].0 as real - 16.0
            && p.BodyHeight() == PageSize[media].1 as real - 16.0
  {
  }

  /** The note media: an 80 x 80 page with 8 margins, leaving a 64 x 64 body. */
  lemma NoteMediaPage()
    ensures MediaPage("note") == Some(Page(80.0, 80.0, [8.0, 8.0, 8.0, 8.0]))
    ensures MediaPage("note").value.BodyWidth() == 64.0
    ensures MediaPage("note").value.BodyHeight() == 64.0
  {
  }

  /** The label1 media: a 76 x 110 page with margins 46.5, 46.5, 8, 8, leaving a 60 x 17 body. */
  lemma Label1MediaPage()
    ensures MediaPage("label1") == Some(Page(76.0, 110.0, [46.5, 46.5, 8.0, 8.0]))
    ensures MediaPage("label1").value.BodyWidth() == 60.0
    ensures MediaPage("label1").value.BodyHeight() == 17.0
  {
    assert IsLabel("label1");
  }

  /**
    Every media in the tables has an actual height no larger than its nominal
    one and a body of positive width and height, lower than the page.
   */
  lemma EveryMediaHasABody()
    ensures forall media :: media in PageSize ==>
              media in PageSizeActual && PageSizeActual[media].1 <= PageSize[media].1
    ensures forall media :: media in PageSize ==>
              MediaPage(media).Some?
              && MediaPage(media).value.BodyWidth() > 0.0
              && 0.0 < MediaPage(media).value.BodyHeight() < PageSize[media].1 as real
  {
  }

  /**
    The rotation option for printing a note of `media` whose sticky edge is
    `stickyEdge`: label media always take the entry for "right"; other media
    look the edge up, and an unknown edge is an error (None).
   */
  function LprOrientation(media: string, stickyEdge: string): (option: Option<string>)
    ensures IsLabel(media) ==> option == Some("-o orientation-requested=3")
    ensures !IsLabel(media) ==> (option.Some? <==> stickyEdge in {"up", "down", "left", "right"})
    ensures !IsLabel(media) && stickyEdge in StickyLprOrientation ==> option == Some(StickyLprOrientation[stickyEdge])
  {
    var edge := if IsLabel(media) then "right" else stickyEdge;
    if edge in StickyLprOrientation then Some(StickyLprOrientation[edge]) else None
  }

  /** On label media the requested edge makes no difference. */
  lemma LabelIgnoresStickyEdge(media: string, edge1: string, edge2: string)
    requires IsLabel(media)
    ensures LprOrientation(media, edge1) == LprOrientation(media, edge2) == Some(StickyLprOrientation["right"])
  {
  }

  /**
    On other media the sticky edge maps through the four-entry table: up to
    orientation 5, down to 4, left to 6 and right to 3.
   */
  lemma NonLabelOrientationTable(media: string)
    requires !IsLabel(media)
    ensures LprOrientation(media, "up") == Some("-o orientation-requested=5")
    ensures LprOrientation(media, "down") == Some("-o orientation-requested=4")
    ensures LprOrientation(media, "left") == Some("-o orientation-requested=6")
    ensures LprOrientation(media, "right") == Some("-o orientation-requested=3")
  {
  }

  /** On other media, two different known edges give two different rotations. */
  lemma DistinctEdgesRotateDifferently(media: string, edge1: string, edge2: string)
    requires !IsLabel(media)
    requires edge1 in StickyLprOrientation && edge2 in StickyLprOrientation && edge1 != edge2
    ensures LprOrientation(media, edge1).Some? && LprOrientation(media, edge2).Some?
    ensures LprOrientation(media, edge1) != LprOrientation(media, edge2)
  {
  }

  /** A note on one of the printer's media: the media name and the note drawn for it. */
  class NemonicNote {
    const media: string
    const note: Note

    /** Looks up the media's page and margins and builds the note on them. */
    constructor (text: string, fontName: string, media: string, measure: int -> Extent)
      requires media in PageSize
      ensures this.media == media && fresh(note)
      ensures MediaPage(media) == Some(note.page)
      ensures note.text == text && note.fontName == fontName && note.measure == measure
      ensures note.paragraph == Some(note.FittedParagraph())
      ensures note.canvas == Some(Canvas(note.page.width, note.page.height, [note.FittedPlacement()], 1, true))
    {
      this.media := media;
      var size := PageSize[media];
      note := new Note(text, fontName, size.0 as real, size.1 as real, MediaMargins(media), measure);
    }
  }
}

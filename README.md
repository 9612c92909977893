# stickyNotePrinter: a Dafny model of printNote.py

`printNote.py` renders a short text on a sticky note or label for a Nemonic
printer. It tries growing font sizes and keeps the size just before the first
one whose block reaches the page body (a block touching a bound exactly is
kept). When the block grows strictly in both directions with the size, this is
the largest size that fits. It centres the block vertically and hands the PDF
to `lpr` with a rotation that depends on the sticky edge. This project models
the decision logic around the layout library and the OS calls, and proves what
it does:

- `fontfit.dfy` (module `FontFit`) is the font-size search as pure functions.
  Text layout is an abstract, deterministic `measure: int -> Extent` that gives
  the wrapped paragraph's minimum width and height at a font size. The search
  tries sizes 10, 11, … and stops at the first size whose block reaches a body
  bound (`>=`), or at 200. It steps back one size only when that block strictly
  crosses a bound (`>`). The lemmas pin down this `>=`/`>` asymmetry, the
  [9, 200] range and where a step-back lands.
- `notes.dfy` (module `Notes`) holds the page geometry (`Page`, with the margin
  and body accessors) and the `Note` class. The class keeps the paragraph last
  laid out and the canvas as fields. Its `ScaleFontSize` method runs the source's
  `while` loop. The method is proved to keep the size `FontFit.FitSize` chooses
  and to draw the paragraph measured at that size, at `x = marginLeft` and
  centred vertically in the body.
- `nemonic.dfy` (module `Nemonic`) holds the three constant tables, the label
  margin arithmetic and the page each media resolves to. It also holds the
  rotation option chosen for printing and the `NemonicNote` class, which builds
  a `Note` for a media.
- `checklist.dfy` (module `Checklist`) is the `--checklist` transform. It splits
  on `,`, puts a ballot box (U+2610) and a space before each item and joins the
  items with line breaks. Split and join are proved to round-trip.
- `options.dfy` (module `Options`) is the `Option` type used for lookups that can miss.

All lengths are millimetres, as `real`. The source multiplies every length by
reportlab's positive `mm` factor before comparing, so dropping that factor
changes no comparison.

Three facts about `printNote.py` that the model makes explicit:

- The kept size ranges over [9, 200]. It is 9 when size 10 already strictly
  overflows, and it can be 200.
- The `note` body (64 x 64) is lower than its page (80 x 80), just as label
  bodies are lower than theirs.
- `label0.5`'s actual width (51) is never read. Its body is 60 wide, like that
  of every other 76-wide page.

## Model

| member | source | states |
|---|---|---|
| `FontFit.Reaches` | printNote.py:92 | no contract; the `>=` stopping test, whose negation reads "strictly inside both bounds"; used by `StopFrom`, `StopSizeIsFirstReach` and `SizesBelowFitAreInside` |
| `FontFit.Exceeds` | printNote.py:95 | the step-back test; a strict overflow always also reaches a bound |
| `FontFit.StopSize` | printNote.py:88-93 | the last size the loop measures lies in [10, 200] and reaches a bound unless it is 200; characterised fully by `StopSizeIsFirstReach` |
| `FontFit.FitSize` | printNote.py:95-97 | the size `scaleFontSize` keeps lies in [9, 200], and above 9 its block crosses neither bound; see the lemmas below |
| `FontFit.StopFrom` | printNote.py:84-93 | the search from a given size stops in range; the stopping size reaches a bound unless it is 200; every size tried before it is strictly inside both bounds |
| `FontFit.StopSizeIsFirstReach` | printNote.py:84-93 | the loop's stopping size is the unique size in [10, 200] that reaches a bound (or is 200) with every smaller size from 10 strictly inside both bounds |
| `FontFit.FitSizeStepsBackOnlyOnOverflow` | printNote.py:95-96 | the kept size is in [9, 200]; the rest restates `FitSize`: one below the stopping size exactly when the stopping block strictly overflows, equal to it otherwise |
| `FontFit.ExactFitIsKept` | printNote.py:92-96 | a block that meets a bound exactly, without crossing either bound, is kept at the stopping size and touches that bound |
| `FontFit.StepBackLandsOnMeasuredFit` | printNote.py:88-97 | a step back from a stopping size above 10 lands on a size that was already measured strictly inside both bounds |
| `FontFit.FitNeverExceedsAboveStart` | printNote.py:88-97 | any kept size above 9 crosses neither bound; the size is 9 exactly when the search stopped at 10 with an overflow |
| `FontFit.SizesBelowFitAreInside` | printNote.py:88-93 | every size from 10 below the kept size was measured strictly inside both bounds |
| `FontFit.FitIsLargestUnderStrictGrowth` | printNote.py:83-97 | when the block grows strictly in both directions with the size, every size above the kept one, up to 200, strictly overflows |
| `Notes.ResolveMargins` | printNote.py:33 | absent margins become four margins of 8; a given list is kept as it is |
| `Notes.Page.MarginTop` | printNote.py:42-43 | no contract; the first margin entry, fixed by `DefaultMarginsBody`, `LabelPage` and `NoteMediaPage` |
| `Notes.Page.MarginBottom` | printNote.py:45-46 | no contract; the second margin entry, fixed by the same lemmas |
| `Notes.Page.MarginLeft` | printNote.py:48-49 | no contract; the third margin entry, fixed by the same lemmas |
| `Notes.Page.MarginRight` | printNote.py:51-52 | no contract; the fourth margin entry, fixed by the same lemmas |
| `Notes.Page.MarginTB` | printNote.py:54-55 | no contract; characterised by `BodyAndMarginsTilePage` |
| `Notes.Page.MarginLR` | printNote.py:57-58 | no contract; characterised by `BodyAndMarginsTilePage` |
| `Notes.Page.BodyWidth` | printNote.py:60-61 | no contract; characterised by `BodyAndMarginsTilePage`, `DefaultMarginsBody`, `LabelPage` and `EveryMediaHasABody` |
| `Notes.Page.BodyHeight` | printNote.py:63-64 | no contract; characterised by `BodyAndMarginsTilePage`, `DefaultMarginsBody`, `LabelPage` and `EveryMediaHasABody` |
| `Notes.DefaultMarginsBody` | printNote.py:28-64 | with no margins given, all four margins are 8 and the body is the page less 16 in each direction |
| `Notes.BodyAndMarginsTilePage` | printNote.py:42-64 | left margin + body width + right margin is the page width, and bottom margin + body height + top margin is the page height (the accessor definitions rearranged) |
| `Notes.VerticalOrigin` | printNote.py:101 | the gap below the drawn block inside the body equals the gap above it; a block no taller than the body stays inside it |
| `Notes.Note.constructor` | printNote.py:28-40 | stores text, font and page with margins defaulted to 8 on every side; the note ends with the fitted paragraph and a canvas of the page's size holding exactly that one placement, one page shown, saved |
| `Notes.Note.WrapText` | printNote.py:67-81 | the paragraph field becomes the layout at the given size; the reported width and height are that layout's measured extent |
| `Notes.Note.ScaleFontSize` | printNote.py:83-101 | the paragraph left in the field is the one at `FitSize`, measured at that size; exactly one placement is added to the canvas, at the left margin with the block centred vertically |
| `Notes.Note.CreatePage` | printNote.py:103-110 | a fresh canvas of the page size receives the fitted placement; one page is shown and the document saved |
| `Nemonic.IsLabel` | printNote.py:145 | no contract; a media is a label when its name starts with "label"; used by `MediaMargins` and `LprOrientation` |
| `Nemonic.LabelMargins` | printNote.py:146-148 | four margins, top equal to bottom, 8 at both sides, and twice (top - 4) plus the actual height is the nominal height |
| `Nemonic.MediaMargins` | printNote.py:144-148 | no margins (so the defaults) exactly for media that are not labels, four margins for labels |
| `Nemonic.MediaPage` | printNote.py:137-149 | a media name resolves to a page exactly when it is in the size table; every resolved page has four margins |
| `Nemonic.LabelPage` | printNote.py:140-149 | label media get equal top and bottom margins of (nominal - actual height) / 2 + 4 and 8 at the sides; the body is 16 narrower than the page and 8 lower than the actual stock |
| `Nemonic.NonLabelPage` | printNote.py:144-149 | media that are not labels keep the default 8 on every side |
| `Nemonic.NoteMediaPage` | printNote.py:114-122 | `note` is an 80 x 80 page with 8 margins and a 64 x 64 body |
| `Nemonic.Label1MediaPage` | printNote.py:115-148 | `label1` is a 76 x 110 page with margins 46.5, 46.5, 8, 8 and a 60 x 17 body |
| `Nemonic.EveryMediaHasABody` | printNote.py:114-128 | every media has an actual height no larger than its nominal height, and a body of positive width and height lower than the page |
| `Nemonic.LprOrientation` | printNote.py:154-157 | label media always take the `right` option (`orientation-requested=3`); other media get an option exactly for the four known edges, and it is that edge's table entry |
| `Nemonic.LabelIgnoresStickyEdge` | printNote.py:154-157 | on label media any two requested edges give the same option, the table's `right` entry |
| `Nemonic.NonLabelOrientationTable` | printNote.py:130-134 | on media that are not labels, up gives orientation 5, down 4, left 6 and right 3 |
| `Nemonic.DistinctEdgesRotateDifferently` | printNote.py:130-134 | on other media two different known edges give two different rotation options |
| `Nemonic.NemonicNote.constructor` | printNote.py:137-149 | the note is built on the page `MediaPage` resolves for the media, and ends fitted and drawn like any `Note` |
| `Checklist.Checklist` | printNote.py:174-177 | the checklist text starts with the ballot box and a space; its lines are given by `ChecklistLines`, and the boxed items before they are joined by `ChecklistKeepsItems` |
| `Checklist.Join` | printNote.py:177 | the first piece is a prefix of the joined text, and a single piece is joined to itself; `JoinSplit` and `SplitJoin` relate it to `Split` |
| `Checklist.Split` | printNote.py:175 | a split has at least one piece, and no piece contains the separator |
| `Checklist.SplitCount` | printNote.py:175 | a split has one piece more than the input has separators |
| `Checklist.JoinSplit` | printNote.py:175-177 | joining the pieces of a split with the same separator gives back the input |
| `Checklist.SplitJoin` | printNote.py:175-177 | splitting a join of separator-free pieces gives back the pieces |
| `Checklist.Boxed` | printNote.py:176 | one line per item, in order, each the ballot box and a space followed by the item |
| `Checklist.ChecklistLines` | printNote.py:174-177 | for input without line breaks, the lines of the checklist are the boxed comma-separated items, so k commas give k + 1 lines |
| `Checklist.ChecklistKeepsItems` | printNote.py:174-177 | the boxed items before they are joined: one per comma-separated item, each the ballot box and a space followed by that item verbatim |
| `Checklist.ThreeItemChecklist` | printNote.py:174-177 | three comma-free items joined by commas become three boxed lines joined by line breaks |
| `Checklist.EmptyChecklist` | printNote.py:174-177 | empty input gives the single line made of the ballot box and a space |
| `Checklist.GroceryChecklist` | printNote.py:174-177 | "milk,eggs,bread" becomes "☐ milk", "☐ eggs" and "☐ bread" on three lines |

## Left out

- Text layout and measurement by reportlab (`Paragraph`, `ParagraphStyle`, `wrapOn`, `minWidth`, the 1.1 leading, centred alignment, `splitLongWords`) is not modelled. It is replaced by the abstract `measure` of each note, so line wrapping and horizontal centring inside the block are outside the model.
- Font registration at import time is not modelled, because it is file I/O into the foreign library.
- Canvas I/O is not modelled, because it writes a PDF. The canvas is a value recording its page size, the placements drawn, the pages shown and whether it was saved. The default page size before `setPageSize` and the fixed `/tmp` file name are not kept.
- `display` and the `lpr` call in `print` are not modelled, because they spawn processes. Only the chosen rotation option is modelled (`Nemonic.LprOrientation`), not the command line with the printer name and file.
- Command-line parsing, console and log output, and the timing are not modelled, because they are plumbing. Only the checklist transform is modelled; `--media` and `--sticky_edge` are limited to the table keys, which is why `NemonicNote.constructor` requires a known media.
- The `mm` and `inch` scale factors and the three-decimal formatting are not modelled. Lengths are millimetres, and the printed sizes are output only.
- The unused local `margin = 5` in `scaleFontSize` is not modelled.
- `Notes.Note.constructor`: requires the margin list to be empty (absent) or at least four long. A shorter non-empty list makes the source fail on an index when the body size is first computed; that failure is not modelled.
- `Nemonic.LprOrientation`: an unknown sticky edge on non-label media, a KeyError in the source, is modelled as `None`.
- Determinism of repeated runs holds by construction, because every member is a function of its inputs; it has no lemma of its own.

/** The "download PDF" button: the summary's lines (already split to the page
    width by the PDF library) are placed top to bottom, 6 units apart, and a
    new page is started whenever the running position has passed 270. */
module PdfExport {
  import opened JsText

  const Title: string := "Article Summary"
  const PdfFileName: string := "article-summary.pdf"
  const TextFileName: string := "summary.txt"
  const LeftMargin: int := 20
  const LineHeight: int := 6
  /** Where the first body line goes, below the title at y = 20. */
  const FirstLineY: int := 35
  /** Once the running position exceeds this, the next line starts a new page. */
  const PageBottom: int := 270
  /** Where a new page's first line goes. */
  const PageTopY: int := 20
  /** Lines that fit on the first page (y = 35, 41, ..., 269) and on a later one (y = 20, ..., 266). */
  const FirstPageLines: nat := 40
  const LaterPageLines: nat := 42

  /** One `doc.text(line, x, y)` call, with the page it lands on (1-based). */
  datatype Placement = Placement(page: nat, x: int, y: int, line: string)

  /** The page of the `i`-th line (0-based), in closed form. */
  function PageOf(i: nat): nat
  {
    if i < FirstPageLines then 1 else 2 + (i - FirstPageLines) / LaterPageLines
  }

  /** The vertical position of the `i`-th line, in closed form. */
  function YOf(i: nat): int
  {
    if i < FirstPageLines then FirstLineY + LineHeight * i
    else PageTopY + LineHeight * ((i - FirstPageLines) % LaterPageLines)
  }

  /** The document's page count once `n` lines are placed: a page is added
      only before a line that needs it. */
  function PageCount(n: nat): nat
  {
    if n == 0 then 1 else PageOf(n - 1)
  }

  /** Every line lands inside the page, between the top margin and the bottom. */
  lemma {:induction false} PlacementInBounds(i: nat)
    ensures PageTopY <= YOf(i) <= PageBottom
    ensures PageOf(i) >= 1
  {
  }

  /** The first line goes at y = 35 on the first page. */
  lemma {:induction false} FirstPlacement()
    ensures PageOf(0) == 1 && YOf(0) == FirstLineY
  {
  }

  /** From one line to the next: a new page begins exactly when the running
      position (the previous line's y plus the line height) exceeds 270, and
      then the line goes at the top, y = 20; otherwise it goes 6 lower on the
      same page. */
  lemma {:induction false} NextPlacement(i: nat)
    ensures YOf(i) + LineHeight > PageBottom ==> PageOf(i + 1) == PageOf(i) + 1 && YOf(i + 1) == PageTopY
    ensures YOf(i) + LineHeight <= PageBottom ==> PageOf(i + 1) == PageOf(i) && YOf(i + 1) == YOf(i) + LineHeight
  {
  }

  /** The placement loop of the handler. It ends with one placement per line,
      in input order, at the closed-form position, and with the page count. */
  method PlaceLines(lines: seq<string>) returns (placements: seq<Placement>, pageCount: nat)
    ensures |placements| == |lines|
    ensures forall i :: 0 <= i < |lines| ==>
              placements[i] == Placement(PageOf(i), LeftMargin, YOf(i), lines[i])
    ensures pageCount == PageCount(|lines|)
  {
    var yPosition := FirstLineY;
    pageCount := 1;
    placements := [];
    for i := 0 to |lines|
      invariant |placements| == i
      invariant forall k :: 0 <= k < i ==> placements[k] == Placement(PageOf(k), LeftMargin, YOf(k), lines[k])
      invariant i == 0 ==> yPosition == FirstLineY && pageCount == 1
      invariant i > 0 ==> yPosition == YOf(i - 1) + LineHeight && pageCount == PageOf(i - 1)
    {
      if i > 0 {
        NextPlacement(i - 1);
      }
      if yPosition > PageBottom {
        pageCount := pageCount + 1;
        yPosition := PageTopY;
      }
      placements := placements + [Placement(pageCount, LeftMargin, yPosition, lines[i])];
      yPosition := yPosition + LineHeight;
    }
  }

  /** What the button produces. */
  datatype Export =
    | NoExport
    | PdfFile(name: string, title: Placement, body: seq<Placement>, pageCount: nat)
    | TextFile(name: string, content: string)

  /** The handler. `pdfAvailable` is whether the PDF library is loaded,
      `split` stands for `splitTextToSize` at width 170, and `pdfThrows` for
      any exception while the document is built or saved. */
  method DownloadPdf(summaryText: string, pdfAvailable: bool, split: string -> seq<string>, pdfThrows: bool)
    returns (download: Export)
    ensures IsBlank(summaryText) ==> download == NoExport
    ensures !IsBlank(summaryText) && (!pdfAvailable || pdfThrows) ==> download == TextFile(TextFileName, summaryText)
    ensures !IsBlank(summaryText) && pdfAvailable && !pdfThrows ==>
              download.PdfFile? && download.name == PdfFileName &&
              download.title == Placement(1, LeftMargin, PageTopY, Title) &&
              |download.body| == |split(summaryText)| &&
              (forall i :: 0 <= i < |download.body| ==>
                 download.body[i] == Placement(PageOf(i), LeftMargin, YOf(i), split(summaryText)[i])) &&
              download.pageCount == PageCount(|split(summaryText)|)
  {
    if IsBlank(summaryText) {
      return NoExport;
    }
    if !pdfAvailable || pdfThrows {
      return TextFile(TextFileName, summaryText);
    }
    var lines := split(summaryText);
    var body, pages := PlaceLines(lines);
    download := PdfFile(PdfFileName, Placement(1, LeftMargin, PageTopY, Title), body, pages);
  }
}

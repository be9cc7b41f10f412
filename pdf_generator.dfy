/** The invoice document renderer (src/lib/pdfGenerator.ts): header image
    placement inside the printable band, the fallback title, the vertical
    layout of the number, date, client block, item table and totals, and the
    output file name. The drawing library is replaced by the sequence of draw
    events the routine issues; loading the header image is an input (it either
    succeeds or fails), and so is the bottom of the drawn table, which the
    table library computes. Units are millimetres on an A4 page. */
module PdfGenerator {

  import opened Shared
  import opened InvoiceItems

  /** Left margin and printable width (210 mm page, 20 mm margins). */
  const LeftMargin: real := 20.0
  const PrintableWidth: real := 170.0
  const RightEdge: real := 190.0

  /** Millimetres per header-height pixel. */
  const PxToMm: real := 0.35

  const TitleText: string := "FACTURE"
  const ProformaTitleText: string := "FACTURE PROFORMA"
  const ProformaWarningText: string := "PROFORMA - Non valable pour paiement"

  /** The organization's header settings; every field may be unset. */
  datatype HeaderSettings = HeaderSettings(
    headerImageUrl: Option<string>,
    headerHeight: Option<real>,
    headerWidth: Option<real>,
    headerPosition: Option<string>)

  /** The persisted invoice the renderer reads. */
  datatype StoredInvoice = StoredInvoice(
    invoiceType: InvoiceType,
    invoiceNumber: string,
    createdAt: Option<string>,
    clientName: Option<string>,
    clientAddress: Option<string>,
    vatRate: real,
    items: seq<Item>,
    totalHt: Option<real>,
    totalVat: Option<real>,
    totalTtc: Option<real>)

  /** The drawing state a text is written with: size in points, bold, red. */
  datatype Font = Font(size: nat, bold: bool, red: bool)

  /** One table row: designation, quantity, unit price, recomputed line total. */
  datatype Row = Row(designation: string, quantity: real, unitPrice: real, total: real)

  datatype AmountKind = TotalHt | TotalVat(rate: real) | TotalTtc

  /** What the routine draws, in order. Dates and amounts keep their raw value;
      their French formatting is not modelled. */
  datatype DrawEvent =
    | Image(x: real, y: real, width: real, height: real)
    | Text(content: string, x: real, y: real, font: Font)
    | DateText(createdAt: string, x: real, y: real, font: Font)
    | Table(startY: real, rows: seq<Row>)
    | AmountText(kind: AmountKind, amount: Option<real>, x: real, y: real, font: Font)
    | Save(fileName: string)
    | OpenPrintWindow

  // ---- Header settings and placement ----

  /** The header height, 40 when unset or 0. */
  function HeaderHeightPx(h: Option<real>): real {
    if h.Some? && h.value != 0.0 then h.value else 40.0
  }

  /** The header width percentage, 100 when unset or 0. */
  function HeaderWidthPercent(w: Option<real>): real {
    if w.Some? && w.value != 0.0 then w.value else 100.0
  }

  /** The header position, "center" when unset or empty. */
  function HeaderPosition(p: Option<string>): string {
    if p.Some? && p.value != "" then p.value else "center"
  }

  /** The image width in mm: that percentage of the 170 mm text width. */
  function ImageWidth(widthPercent: real): real {
    (PrintableWidth * widthPercent) / 100.0
  }

  /** The x offset: centred in the band, flush right, or (for 'left' and any
      other value) flush left. */
  function ImageX(position: string, width: real): real {
    if position == "center" then LeftMargin + (PrintableWidth - width) / 2.0
    else if position == "right" then LeftMargin + PrintableWidth - width
    else LeftMargin
  }

  /** The header image as drawn: at y = 10, with the computed box. */
  function HeaderImage(s: HeaderSettings): DrawEvent {
    var width := ImageWidth(HeaderWidthPercent(s.headerWidth));
    Image(ImageX(HeaderPosition(s.headerPosition), width), 10.0, width, HeaderHeightPx(s.headerHeight) * PxToMm)
  }

  /** A header image is attempted only when settings exist and the URL is non-empty. */
  predicate WantsImage(settings: Option<HeaderSettings>) {
    settings.Some? && Truthy(settings.value.headerImageUrl)
  }

  /** The title drawn when there is no header image, or it failed to load. */
  function FallbackTitle(t: InvoiceType): seq<DrawEvent> {
    if t == Proforma then
      [Text(ProformaTitleText, 20.0, 20.0, Font(24, true, false)),
       Text(ProformaWarningText, 20.0, 28.0, Font(10, true, true))]
    else
      [Text(TitleText, 20.0, 20.0, Font(24, true, false))]
  }

  function HeaderEvents(t: InvoiceType, settings: Option<HeaderSettings>, imageLoads: bool): seq<DrawEvent> {
    if WantsImage(settings) && imageLoads then [HeaderImage(settings.value)] else FallbackTitle(t)
  }

  /** Where the content below the header starts. */
  function ContentStartY(settings: Option<HeaderSettings>, imageLoads: bool): real {
    if WantsImage(settings) && imageLoads then 15.0 + HeaderHeightPx(settings.value.headerHeight) * PxToMm
    else 40.0
  }

  // ---- Body ----

  /** A table row; its total column is quantity times price, recomputed. */
  function RowOf(item: Item): Row {
    Row(item.designation, item.quantity, item.unitPrice, LineTotal(item))
  }

  /** One table row per item, in order. */
  function Rows(items: seq<Item>): (r: seq<Row>)
    ensures |r| == |items|
    ensures forall k :: 0 <= k < |items| ==>
              r[k].designation == items[k].designation && r[k].quantity == items[k].quantity
              && r[k].unitPrice == items[k].unitPrice && r[k].total == items[k].quantity * items[k].unitPrice
  {
    if items == [] then [] else Rows(items[..|items| - 1]) + [RowOf(items[|items| - 1])]
  }

  /** Sum of the table's total column. */
  function ColumnTotal(rows: seq<Row>): real {
    if rows == [] then 0.0 else ColumnTotal(rows[..|rows| - 1]) + rows[|rows| - 1].total
  }

  /** The table's total column adds up to the items' pre-tax sum. */
  lemma {:induction false} ColumnTotalIsSum(items: seq<Item>)
    ensures ColumnTotal(Rows(items)) == Sum(items)
    decreases |items|
  {
    if items != [] {
      var init := items[..|items| - 1];
      ColumnTotalIsSum(init);
      assert Rows(items)[..|items| - 1] == Rows(init);
    }
  }

  /** The optional client block: label, name and (if any) address. */
  function ClientBlock(inv: StoredInvoice, clientY: real): seq<DrawEvent> {
    if !Truthy(inv.clientName) then []
    else
      [Text("Client:", 20.0, clientY, Font(11, true, false)),
       Text(inv.clientName.value, 20.0, clientY + 7.0, Font(11, false, false))]
      + (if Truthy(inv.clientAddress) then [Text(inv.clientAddress.value, 20.0, clientY + 14.0, Font(11, false, false))]
         else [])
  }

  function TableStartY(inv: StoredInvoice, startY: real): real {
    if Truthy(inv.clientName) then startY + 45.0 else startY + 20.0
  }

  /** The stored totals, right-hand column, under the table's bottom edge. */
  function TotalsBlock(inv: StoredInvoice, tableFinalY: real): seq<DrawEvent> {
    var finalY := tableFinalY + 10.0;
    [AmountText(TotalHt, inv.totalHt, 120.0, finalY, Font(11, false, false)),
     AmountText(TotalVat(inv.vatRate), inv.totalVat, 120.0, finalY + 7.0, Font(11, false, false)),
     AmountText(TotalTtc, inv.totalTtc, 120.0, finalY + 15.0, Font(12, true, false))]
  }

  function BodyEvents(inv: StoredInvoice, startY: real, tableFinalY: real): seq<DrawEvent> {
    [Text("N° " + inv.invoiceNumber, 20.0, startY, Font(12, false, false))]
    + (if Truthy(inv.createdAt) then [DateText(inv.createdAt.value, 20.0, startY + 7.0, Font(12, false, false))] else [])
    + ClientBlock(inv, startY + 20.0)
    + [Table(TableStartY(inv, startY), Rows(inv.items))]
    + TotalsBlock(inv, tableFinalY)
  }

  /** Everything drawn on the page, before the output step. */
  function PageEvents(inv: StoredInvoice, settings: Option<HeaderSettings>, imageLoads: bool, tableFinalY: real)
    : seq<DrawEvent>
  {
    HeaderEvents(inv.invoiceType, settings, imageLoads)
    + BodyEvents(inv, ContentStartY(settings, imageLoads), tableFinalY)
  }

  /** "proforma-" or "facture-", the invoice number, then ".pdf". */
  function FileName(t: InvoiceType, invoiceNumber: string): string {
    (if t == Proforma then "proforma" else "facture") + "-" + invoiceNumber + ".pdf"
  }

  // ---- The rendering routine ----

  /** The fallback title, drawn through the document's font state. */
  method DrawFallbackTitle(t: InvoiceType, font: Font) returns (drawn: seq<DrawEvent>, font': Font)
    requires !font.red
    ensures drawn == FallbackTitle(t)
    ensures font'.bold && !font'.red
  {
    font' := font.(size := 24, bold := true);
    if t == Proforma {
      drawn := [Text(ProformaTitleText, 20.0, 20.0, font')];
      font' := font'.(size := 10, red := true);
      drawn := drawn + [Text(ProformaWarningText, 20.0, 28.0, font')];
      font' := font'.(red := false);
    } else {
      drawn := [Text(TitleText, 20.0, 20.0, font')];
    }
  }

  /** The header: the image when a URL is set and the image loads, the
      fallback title otherwise. Returns the line the content starts at. */
  method DrawHeader(t: InvoiceType, settings: Option<HeaderSettings>, imageLoads: bool, font: Font)
    returns (events: seq<DrawEvent>, startY: real, font': Font)
    requires !font.red
    ensures events == HeaderEvents(t, settings, imageLoads)
    ensures startY == ContentStartY(settings, imageLoads)
    ensures !font'.red
  {
    font' := font;
    startY := 20.0;
    events := [];
    if settings.Some? && Truthy(settings.value.headerImageUrl) {
      if imageLoads {
        var height := if settings.value.headerHeight.Some? && settings.value.headerHeight.value != 0.0
                      then settings.value.headerHeight.value else 40.0;
        var widthPercent := if settings.value.headerWidth.Some? && settings.value.headerWidth.value != 0.0
                            then settings.value.headerWidth.value else 100.0;
        var position := if settings.value.headerPosition.Some? && settings.value.headerPosition.value != ""
                        then settings.value.headerPosition.value else "center";
        var maxWidth := 170.0;
        var width := (maxWidth * widthPercent) / 100.0;
        var xPos := 20.0;
        if position == "center" {
          xPos := 20.0 + (maxWidth - width) / 2.0;
        } else if position == "right" {
          xPos := 20.0 + maxWidth - width;
        }
        var heightMm := height * 0.35;
        events := events + [Image(xPos, 10.0, width, heightMm)];
        startY := 15.0 + heightMm;
      } else {
        var title;
        title, font' := DrawFallbackTitle(t, font');
        events := events + title;
        startY := 40.0;
      }
    } else {
      var title;
      title, font' := DrawFallbackTitle(t, font');
      events := events + title;
      startY := 40.0;
    }
  }

  /** Number, date, client block, table and totals, from line `startY` down. */
  method DrawBody(inv: StoredInvoice, startY: real, tableFinalY: real, font: Font) returns (events: seq<DrawEvent>)
    requires !font.red
    ensures events == BodyEvents(inv, startY, tableFinalY)
  {
    var font := font.(size := 12, bold := false);
    events := [Text("N° " + inv.invoiceNumber, 20.0, startY, font)];
    if Truthy(inv.createdAt) {
      events := events + [DateText(inv.createdAt.value, 20.0, startY + 7.0, font)];
    }

    var clientY := startY + 20.0;
    var client := [];
    if Truthy(inv.clientName) {
      font := font.(size := 11, bold := true);
      client := client + [Text("Client:", 20.0, clientY, font)];
      font := font.(bold := false);
      client := client + [Text(inv.clientName.value, 20.0, clientY + 7.0, font)];
      if Truthy(inv.clientAddress) {
        client := client + [Text(inv.clientAddress.value, 20.0, clientY + 14.0, font)];
      }
    }
    assert client == ClientBlock(inv, clientY);
    events := events + client;

    var tableStartY := if Truthy(inv.clientName) then clientY + 25.0 else clientY;
    events := events + [Table(tableStartY, Rows(inv.items))];

    var finalY := tableFinalY + 10.0;
    font := font.(size := 11);
    var totals := [AmountText(TotalHt, inv.totalHt, 120.0, finalY, font)];
    totals := totals + [AmountText(TotalVat(inv.vatRate), inv.totalVat, 120.0, finalY + 7.0, font)];
    font := font.(bold := true, size := 12);
    totals := totals + [AmountText(TotalTtc, inv.totalTtc, 120.0, finalY + 15.0, font)];
    assert totals == TotalsBlock(inv, tableFinalY);
    events := events + totals;
  }

  /** The layout shared by `generateInvoicePDF` and `printInvoice`. The font
      starts as the library's default (16 pt, regular, black). */
  method DrawPage(inv: StoredInvoice, settings: Option<HeaderSettings>, imageLoads: bool, tableFinalY: real)
    returns (events: seq<DrawEvent>)
    ensures events == PageEvents(inv, settings, imageLoads, tableFinalY)
  {
    var header, startY, font := DrawHeader(inv.invoiceType, settings, imageLoads, Font(16, false, false));
    var body := DrawBody(inv, startY, tableFinalY, font);
    events := header + body;
  }

  /** `generateInvoicePDF`: the page, then the download under its file name. */
  method GenerateInvoicePdf(inv: StoredInvoice, settings: Option<HeaderSettings>, imageLoads: bool, tableFinalY: real)
    returns (events: seq<DrawEvent>)
    ensures events == PageEvents(inv, settings, imageLoads, tableFinalY) + [Save(FileName(inv.invoiceType, inv.invoiceNumber))]
  {
    events := DrawPage(inv, settings, imageLoads, tableFinalY);
    var fileName := (if inv.invoiceType == Proforma then "proforma" else "facture") + "-" + inv.invoiceNumber + ".pdf";
    events := events + [Save(fileName)];
  }

  /** `printInvoice`: the identical page, then the print window. */
  method PrintInvoice(inv: StoredInvoice, settings: Option<HeaderSettings>, imageLoads: bool, tableFinalY: real)
    returns (events: seq<DrawEvent>)
    ensures events == PageEvents(inv, settings, imageLoads, tableFinalY) + [OpenPrintWindow]
  {
    events := DrawPage(inv, settings, imageLoads, tableFinalY);
    events := events + [OpenPrintWindow];
  }

  // ---- Properties of the layout ----

  /** Unset or zero settings fall back to 40 px, 100 % and 'center'. */
  lemma HeaderDefaults(s: HeaderSettings)
    ensures (s.headerHeight.None? || s.headerHeight.value == 0.0) ==> HeaderHeightPx(s.headerHeight) == 40.0
    ensures (s.headerWidth.None? || s.headerWidth.value == 0.0) ==> HeaderWidthPercent(s.headerWidth) == 100.0
    ensures (s.headerPosition.None? || s.headerPosition.value == "") ==> HeaderPosition(s.headerPosition) == "center"
    ensures s.headerHeight.Some? && s.headerHeight.value != 0.0 ==> HeaderHeightPx(s.headerHeight) == s.headerHeight.value
    ensures s.headerWidth.Some? && s.headerWidth.value != 0.0 ==> HeaderWidthPercent(s.headerWidth) == s.headerWidth.value
    ensures s.headerPosition.Some? && s.headerPosition.value != "" ==> HeaderPosition(s.headerPosition) == s.headerPosition.value
  {
  }

  /** Left is flush with the left margin, right is flush with the right edge,
      and centre leaves equal gaps on both sides; the width is that share of
      the 170 mm band. */
  lemma PlacementAnchors(s: HeaderSettings)
    ensures HeaderImage(s).width * 100.0 == PrintableWidth * HeaderWidthPercent(s.headerWidth)
    ensures HeaderPosition(s.headerPosition) == "right" ==> HeaderImage(s).x + HeaderImage(s).width == RightEdge
    ensures HeaderPosition(s.headerPosition) == "center" ==>
              HeaderImage(s).x - LeftMargin == RightEdge - (HeaderImage(s).x + HeaderImage(s).width)
    ensures HeaderPosition(s.headerPosition) != "center" && HeaderPosition(s.headerPosition) != "right" ==>
              HeaderImage(s).x == LeftMargin
    ensures HeaderImage(s).y == 10.0 && HeaderImage(s).height == HeaderHeightPx(s.headerHeight) * PxToMm
  {
  }

  /** For a width percentage up to 100 the image stays inside the printable band. */
  lemma PlacementInsideBand(s: HeaderSettings)
    requires s.headerWidth.Some? ==> 0.0 <= s.headerWidth.value <= 100.0
    ensures 0.0 <= HeaderImage(s).width
    ensures LeftMargin <= HeaderImage(s).x && HeaderImage(s).x + HeaderImage(s).width <= RightEdge
  {
    var pct := HeaderWidthPercent(s.headerWidth);
    assert 0.0 <= pct <= 100.0;
    var w := ImageWidth(pct);
    assert 0.0 <= w <= PrintableWidth;
  }

  /** A percentage above 100 makes the image overflow the band whatever the position. */
  lemma WideImageOverflows(s: HeaderSettings)
    requires s.headerWidth.Some? && s.headerWidth.value > 100.0
    ensures HeaderImage(s).x < LeftMargin || HeaderImage(s).x + HeaderImage(s).width > RightEdge
  {
    var w := ImageWidth(HeaderWidthPercent(s.headerWidth));
    assert w > PrintableWidth;
  }

  /** The worked placements: 100 % centred starts at the margin; 50 % right starts at 105. */
  lemma PlacementExamples()
    ensures HeaderImage(HeaderSettings(Some("u"), None, Some(100.0), Some("center"))).x == 20.0
    ensures HeaderImage(HeaderSettings(Some("u"), None, Some(50.0), Some("right"))).x == 105.0
  {
  }

  /** With a loaded image the content starts 5 mm below the image's bottom
      edge; otherwise (no settings, empty URL, failed load) it starts at 40. */
  lemma ContentStart(settings: Option<HeaderSettings>, imageLoads: bool)
    ensures WantsImage(settings) && imageLoads ==>
              var img := HeaderImage(settings.value);
              ContentStartY(settings, imageLoads) == img.y + img.height + 5.0
    ensures !(WantsImage(settings) && imageLoads) ==> ContentStartY(settings, imageLoads) == 40.0
  {
  }

  /** Without a drawn image, the header is the fallback title for the invoice
      type alone: two lines (the second red) for a proforma, one otherwise. */
  lemma FallbackDependsOnlyOnType(t: InvoiceType, s1: Option<HeaderSettings>, l1: bool,
                                  s2: Option<HeaderSettings>, l2: bool)
    requires !(WantsImage(s1) && l1) && !(WantsImage(s2) && l2)
    ensures HeaderEvents(t, s1, l1) == HeaderEvents(t, s2, l2) == FallbackTitle(t)
    ensures t == Proforma ==> |FallbackTitle(t)| == 2 && FallbackTitle(t)[0].content == ProformaTitleText
                              && FallbackTitle(t)[1].content == ProformaWarningText && FallbackTitle(t)[1].font.red
    ensures t == Definitive ==> FallbackTitle(t) == [Text(TitleText, 20.0, 20.0, Font(24, true, false))]
  {
  }

  /** Below the header: the number at the start line, the date line right
      after it exactly when a creation date exists, the client block 20 mm
      lower, the table 25 mm under the client block (or at the client block's
      line when there is no client), and the stored totals last. */
  lemma {:induction false} BodyLayout(inv: StoredInvoice, startY: real, tableFinalY: real)
    ensures var b := BodyEvents(inv, startY, tableFinalY);
            && |b| >= 5
            && b[0] == Text("N° " + inv.invoiceNumber, 20.0, startY, Font(12, false, false))
            && (b[1].DateText? <==> Truthy(inv.createdAt))
            && (Truthy(inv.createdAt) ==> b[1].y == startY + 7.0)
            && b[|b| - 4] == Table(if Truthy(inv.clientName) then startY + 45.0 else startY + 20.0, Rows(inv.items))
            && b[|b| - 3..] == TotalsBlock(inv, tableFinalY)
            && (Truthy(inv.clientName) ==>
                  b[|b| - |ClientBlock(inv, startY + 20.0)| - 4] == Text("Client:", 20.0, startY + 20.0, Font(11, true, false)))
  {
    var b := BodyEvents(inv, startY, tableFinalY);
    var date := if Truthy(inv.createdAt) then [DateText(inv.createdAt.value, 20.0, startY + 7.0, Font(12, false, false))] else [];
    var client := ClientBlock(inv, startY + 20.0);
    var table := [Table(TableStartY(inv, startY), Rows(inv.items))];
    var totals := TotalsBlock(inv, tableFinalY);
    var number := [Text("N° " + inv.invoiceNumber, 20.0, startY, Font(12, false, false))];
    assert b == number + date + client + table + totals;
    assert b[|b| - 4] == table[0];
    assert b[|b| - 3..] == totals;
    if Truthy(inv.clientName) {
      assert b[|b| - |client| - 4] == client[0];
    }
    if Truthy(inv.createdAt) {
      assert b[1] == date[0];
    } else if Truthy(inv.clientName) {
      assert b[1] == client[0];
    } else {
      assert client == [];
      assert b[1] == table[0];
    }
  }

  /** The file name tells the invoice type and number apart. */
  lemma FileNameInjective(t1: InvoiceType, n1: string, t2: InvoiceType, n2: string)
    requires FileName(t1, n1) == FileName(t2, n2)
    ensures t1 == t2 && n1 == n2
  {
    var f := FileName(t1, n1);
    var p1 := if t1 == Proforma then "proforma-" else "facture-";
    var p2 := if t2 == Proforma then "proforma-" else "facture-";
    assert FileName(t1, n1) == p1 + n1 + ".pdf";
    assert FileName(t2, n2) == p2 + n2 + ".pdf";
    assert f[0] == p1[0] && f[0] == p2[0];
    assert t1 == t2;
    assert n1 == f[|p1|..|f| - 4];
    assert n2 == f[|p2|..|f| - 4];
  }
}

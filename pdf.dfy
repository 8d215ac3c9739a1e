/** The proposal document of components/PDFGenerator.tsx: the validity gate,
    the "prepared for" block, the services table, the running vertical cursors
    of the layout, the totals and terms columns, and the file name. Drawing
    calls are not modelled; the wrapped line counts of the summary and of
    each term, and the y at which the table ends, are inputs. */
module ProposalPdf {
  import opened Wrappers
  import opened Types
  import opened Pricing
  import opened Text

  /** `isValid`: the download button is enabled for a non-empty cart with a
      company name, a contact person and an email; the phone is optional. */
  predicate IsValid(cart: seq<Line>, client: ClientInfo) {
    |cart| > 0 && client.companyName != "" && client.contactPerson != "" && client.email != ""
  }

  // ---------------------------------------------------------------------
  // Texts
  // ---------------------------------------------------------------------

  /** `config?.headerTitle || "PROJECT PROPOSAL"`. */
  function HeaderTitle(config: Option<ProposalConfig>): (t: string)
    ensures t != []
    ensures config.Some? && config.value.headerTitle != "" ==> t == config.value.headerTitle
  {
    if config.Some? && config.value.headerTitle != "" then config.value.headerTitle else "PROJECT PROPOSAL"
  }

  /** `config?.contactEmail || "marketing@forwardworkx.com"`. */
  function ContactEmail(config: Option<ProposalConfig>): (e: string)
    ensures e != []
    ensures config.Some? && config.value.contactEmail != "" ==> e == config.value.contactEmail
  {
    if config.Some? && config.value.contactEmail != "" then config.value.contactEmail
    else "marketing@forwardworkx.com"
  }

  /** `config?.termsAndConditions || []`. */
  function TermsOf(config: Option<ProposalConfig>): seq<string> {
    if config.Some? then config.value.termsAndConditions else []
  }

  function SenderAddress(config: Option<ProposalConfig>): seq<string> {
    ["1st & 2nd Floor, DRMK Towers,",
     "19th Cross Rd, 24th Main Rd, 5th Phase,",
     "J.P.Nagar, Bengaluru, Karnataka 560078",
     "Email: " + ContactEmail(config),
     "Phone: +91 8147272953"]
  }

  /** The "prepared for" lines: the non-empty fields among company, contact,
      email and phone, labelled, in that order. */
  function ClientBlock(client: ClientInfo): (lines: seq<string>)
    ensures |lines| <= 4
    ensures client.companyName != "" ==> |lines| > 0 && lines[0] == "Client: " + client.companyName
    ensures client.phone != "" ==> |lines| > 0 && lines[|lines| - 1] == "Phone: " + client.phone
    ensures client.companyName == client.contactPerson == client.email == client.phone == "" <==> lines == []
  {
    (if client.companyName != "" then ["Client: " + client.companyName] else []) +
    (if client.contactPerson != "" then ["Contact: " + client.contactPerson] else []) +
    (if client.email != "" then ["Email: " + client.email] else []) +
    (if client.phone != "" then ["Phone: " + client.phone] else [])
  }

  /** A downloadable proposal always names its client, contact and email on
      the first three lines; a fourth line appears exactly when a phone
      number was given. */
  lemma ValidClientBlock(cart: seq<Line>, client: ClientInfo)
    requires IsValid(cart, client)
    ensures |ClientBlock(client)| == (if client.phone != "" then 4 else 3)
    ensures ClientBlock(client)[..3] ==
      ["Client: " + client.companyName, "Contact: " + client.contactPerson, "Email: " + client.email]
  {
  }

  // ---------------------------------------------------------------------
  // The services table
  // ---------------------------------------------------------------------

  /** A price cell: a dash, or an amount in rupees. */
  datatype Cell = Dash | Inr(amount: real)

  /** One body row: description, quantity, one-time unit price, monthly
      price, one-time line total. */
  datatype Row = Row(description: string, quantity: int, oneTime: Cell, monthly: Cell, lineTotal: real)

  function TableRow(l: Line): (r: Row)
    ensures r.quantity == l.quantity
    ensures r.oneTime == Dash <==> l.item.price <= 0.0
    ensures r.oneTime.Inr? ==> r.oneTime.amount == l.item.price
    ensures r.monthly == Dash <==> !TruthyNumber(l.item.monthlyPrice)
    ensures r.monthly.Inr? ==> r.monthly.amount == MonthlyOrZero(l.item)
    ensures r.lineTotal == LineOneTime(l)
    ensures TruthyString(l.item.description) ==> r.description == l.item.name + "\n" + l.item.description.value
    ensures !TruthyString(l.item.description) ==> r.description == l.item.name
  {
    Row(l.item.name + (if TruthyString(l.item.description) then "\n" + l.item.description.value else ""),
        l.quantity,
        if l.item.price > 0.0 then Inr(l.item.price) else Dash,
        if TruthyNumber(l.item.monthlyPrice) then Inr(l.item.monthlyPrice.value) else Dash,
        l.item.price * l.quantity as real)
  }

  /** `cart.map(...)`: one row per line, in cart order. */
  function TableRows(cart: seq<Line>): (rows: seq<Row>)
    ensures |rows| == |cart|
    ensures forall i :: 0 <= i < |cart| ==> rows[i] == TableRow(cart[i])
  {
    seq(|cart|, i requires 0 <= i < |cart| => TableRow(cart[i]))
  }

  function SumLineTotals(rows: seq<Row>): real {
    if rows == [] then 0.0 else SumLineTotals(rows[..|rows| - 1]) + rows[|rows| - 1].lineTotal
  }

  /** The last column of the table adds up to the subtotal row. */
  lemma {:induction false} TableTotalsMatchSubtotal(cart: seq<Line>)
    ensures SumLineTotals(TableRows(cart)) == OneTimeSubtotal(cart)
    decreases |cart|
  {
    if cart != [] {
      var n := |cart|;
      TableTotalsMatchSubtotal(cart[..n - 1]);
      assert TableRows(cart)[..n - 1] == TableRows(cart[..n - 1]);
    }
  }

  // ---------------------------------------------------------------------
  // The layout
  // ---------------------------------------------------------------------

  /** A text drawn with its baseline at `y`. */
  datatype TextLine = TextLine(text: string, y: real)

  /** One `drawTotalRow` call. */
  datatype TotalRow = TotalRow(caption: string, value: real, bold: bool, accent: bool, y: real)

  /** What the generator puts on the page, with the vertical position of
      every text it places on the running cursors. */
  datatype Document = Document(
    title: TextLine,
    sender: seq<TextLine>,
    preparedForY: real,
    client: seq<TextLine>,
    dateLabelY: real,
    date: TextLine,
    summary: Option<TextLine>,
    tableStartY: real,
    rows: seq<Row>,
    totals: seq<TotalRow>,
    termsHeadingY: real,
    terms: seq<TextLine>,
    fileName: string)

  function RealMax(a: real, b: real): real { if a >= b then a else b }

  /** Where the block after the two client columns starts, for k client lines:
      the left column ends at 71 + 5k, the right at 71 (+10), then a gap of 10. */
  function BlockStartY(k: nat): real {
    RealMax(71.0 + 5.0 * k as real, 71.0 + 10.0) + 10.0
  }

  /** The y the table starts at, with n wrapped summary lines when a summary
      is present. */
  function TableStartY(k: nat, hasSummary: bool, n: nat): real {
    BlockStartY(k) + (if hasSummary then 6.0 + 5.0 * n as real + 5.0 else 0.0) + 5.0
  }

  /** The next block starts at 91 for up to two client lines and 5 lower per
      extra line; the table is at least 5 below it, and exactly 5 + 6 + 5n + 5
      below it with a summary of n lines. */
  lemma BlockStartBounds(k: nat, hasSummary: bool, n: nat)
    ensures BlockStartY(k) >= 91.0
    ensures BlockStartY(k) == if k <= 2 then 91.0 else 81.0 + 5.0 * k as real
    ensures k <= 4 ==> BlockStartY(k) <= 101.0
    ensures TableStartY(k, hasSummary, n) >= BlockStartY(k) + 5.0
    ensures hasSummary ==> TableStartY(k, hasSummary, n) == BlockStartY(k) + 16.0 + 5.0 * n as real
  {
  }

  const TotalsGap: real := 7.0

  /** The totals column below a table whose end is `tableEndY`: subtotal, GST
      and total one 7 apart from 15 below the table, then 3 more, and the
      recurring row only when there is a monthly amount. */
  function TotalRows(cart: seq<Line>, tableEndY: real): seq<TotalRow> {
    var y := tableEndY + 15.0;
    var subtotal := OneTimeSubtotal(cart);
    [TotalRow("Subtotal (One-time Setup)", subtotal, false, false, y),
     TotalRow("GST (18%)", Tax(subtotal), false, false, y + TotalsGap),
     TotalRow("Total One-time Investment", Pricing.TotalOneTime(subtotal), true, false, y + 2.0 * TotalsGap)] +
    (if MonthlySubtotal(cart) > 0.0
     then [TotalRow("Recurring Monthly Subscription", MonthlySubtotal(cart), true, true, y + 3.0 * TotalsGap + 3.0)]
     else [])
  }

  /** Three rows are always drawn and a fourth exactly when the monthly total
      is positive; the values are the subtotal, 18% of it, their sum and the
      monthly total; rows go down the page. */
  lemma TotalRowsShape(cart: seq<Line>, tableEndY: real)
    ensures var rows := TotalRows(cart, tableEndY);
      (|rows| == 4 <==> MonthlySubtotal(cart) > 0.0) && 3 <= |rows| <= 4 &&
      rows[0].value == OneTimeSubtotal(cart) &&
      rows[1].value == OneTimeSubtotal(cart) * 18.0 / 100.0 &&
      rows[2].value == rows[0].value + rows[1].value &&
      (|rows| == 4 ==> rows[3].value == MonthlySubtotal(cart) && rows[3].accent) &&
      rows[0].y == tableEndY + 15.0 && rows[1].y == tableEndY + 22.0 && rows[2].y == tableEndY + 29.0 &&
      (|rows| == 4 ==> rows[3].y == tableEndY + 39.0) &&
      forall i, j :: 0 <= i < j < |rows| ==> rows[i].y + 7.0 <= rows[j].y
  {
  }

  function SumNat(s: seq<nat>): nat {
    if s == [] then 0 else SumNat(s[..|s| - 1]) + s[|s| - 1]
  }

  /** The baseline of term i: 5 below the heading and 3.5 per wrapped line of
      the terms before it. */
  function TermY(tableEndY: real, lineCounts: seq<nat>, i: nat): real
    requires i <= |lineCounts|
  {
    tableEndY + 15.0 + 5.0 + 3.5 * SumNat(lineCounts[..i]) as real
  }

  /** Terms never overlap: each starts at least one line-height per wrapped
      line below the previous one. */
  lemma TermsGoDown(tableEndY: real, lineCounts: seq<nat>, i: nat)
    requires i < |lineCounts|
    ensures TermY(tableEndY, lineCounts, i + 1) == TermY(tableEndY, lineCounts, i) + 3.5 * lineCounts[i] as real
  {
    assert lineCounts[..i + 1][..i] == lineCounts[..i];
  }

  function IsAsciiAlnum(c: char): bool {
    ('a' <= c <= 'z') || ('A' <= c <= 'Z') || ('0' <= c <= '9')
  }

  /** `name.replace(/[^a-zA-Z0-9]/g, '_')`. */
  function Sanitize(name: string): (r: string)
    ensures |r| == |name|
    ensures forall i :: 0 <= i < |name| ==> r[i] == if IsAsciiAlnum(name[i]) then name[i] else '_'
  {
    if name == [] then []
    else [if IsAsciiAlnum(name[0]) then name[0] else '_'] + Sanitize(name[1..])
  }

  /** The sanitised name holds only ASCII letters, digits and '_', leaves a
      name already made of those unchanged, and sanitising twice is the same
      as once. */
  lemma SanitizeSafe(name: string)
    ensures forall i :: 0 <= i < |name| ==> IsAsciiAlnum(Sanitize(name)[i]) || Sanitize(name)[i] == '_'
    ensures (forall i :: 0 <= i < |name| ==> IsAsciiAlnum(name[i]) || name[i] == '_') ==> Sanitize(name) == name
    ensures Sanitize(Sanitize(name)) == Sanitize(name)
  {
  }

  function FileName(companyName: string): string {
    "ForwardWorkx_Proposal_" + Sanitize(companyName) + ".pdf"
  }

  /** Draws `texts` one under the other from `top`, 5 apart, as the sender
      and client loops do; returns the placed lines and the cursor after them. */
  method StackLines(texts: seq<string>, top: real) returns (placed: seq<TextLine>, yPos: real)
    ensures |placed| == |texts|
    ensures forall j :: 0 <= j < |texts| ==> placed[j] == TextLine(texts[j], top + 5.0 * j as real)
    ensures yPos == top + 5.0 * |texts| as real
  {
    yPos := top;
    placed := [];
    var i := 0;
    while i < |texts|
      invariant 0 <= i <= |texts| && |placed| == i
      invariant yPos == top + 5.0 * i as real
      invariant forall j :: 0 <= j < i ==> placed[j] == TextLine(texts[j], top + 5.0 * j as real)
    {
      placed := placed + [TextLine(texts[i], yPos)];
      yPos := yPos + 5.0;
      i := i + 1;
    }
  }

  /** The totals column: `drawTotalRow` three times, 7 apart, a gap of 3, and
      the recurring row when the monthly total is positive. */
  method DrawTotals(cart: seq<Line>, finalY: real) returns (totals: seq<TotalRow>)
    ensures totals == TotalRows(cart, finalY - 15.0)
  {
    var totalsY := finalY;
    var subtotal := OneTimeSubtotal(cart);
    var monthlyTotal := MonthlySubtotal(cart);
    var taxAmount := subtotal * TaxRate;
    var totalOneTime := subtotal + taxAmount;
    totals := [];
    totals := totals + [TotalRow("Subtotal (One-time Setup)", subtotal, false, false, totalsY)];
    totalsY := totalsY + 7.0;
    totals := totals + [TotalRow("GST (18%)", taxAmount, false, false, totalsY)];
    totalsY := totalsY + 7.0;
    totals := totals + [TotalRow("Total One-time Investment", totalOneTime, true, false, totalsY)];
    totalsY := totalsY + 7.0;
    totalsY := totalsY + 3.0;
    if monthlyTotal > 0.0 {
      totals := totals + [TotalRow("Recurring Monthly Subscription", monthlyTotal, true, true, totalsY)];
      totalsY := totalsY + 7.0;
    }
  }

  /** The terms column: each term at `termsY`, which then moves down 3.5 per
      wrapped line of that term. */
  method DrawTerms(terms: seq<string>, tableEndY: real, termLines: seq<nat>) returns (placed: seq<TextLine>)
    requires |termLines| == |terms|
    ensures |placed| == |terms|
    ensures forall j :: 0 <= j < |terms| ==> placed[j] == TextLine(terms[j], TermY(tableEndY, termLines, j))
  {
    var termsY := tableEndY + 15.0 + 5.0;
    placed := [];
    var i := 0;
    while i < |terms|
      invariant 0 <= i <= |terms| && |placed| == i
      invariant termsY == TermY(tableEndY, termLines, i)
      invariant forall j :: 0 <= j < i ==> placed[j] == TextLine(terms[j], TermY(tableEndY, termLines, j))
    {
      placed := placed + [TextLine(terms[i], termsY)];
      TermsGoDown(tableEndY, termLines, i);
      termsY := termsY + termLines[i] as real * 3.5;
      i := i + 1;
    }
  }

  /** generatePDF: lays the proposal out top to bottom. `summaryLines` is the
      number of lines the summary wraps to, `tableEndY` where autoTable ends
      the table, and `termLines[i]` the number of lines term i wraps to. */
  method GeneratePdf(cart: seq<Line>, client: ClientInfo, summary: string, config: Option<ProposalConfig>,
                     summaryLines: nat, tableEndY: real, termLines: seq<nat>) returns (doc: Document)
    requires |termLines| == |TermsOf(config)|
    ensures doc.title == TextLine(AsciiUpper(HeaderTitle(config)), 20.0)
    ensures |doc.sender| == 5
    ensures forall i :: 0 <= i < 5 ==> doc.sender[i] == TextLine(SenderAddress(config)[i], 30.0 + 5.0 * i as real)
    ensures doc.preparedForY == 65.0 && doc.dateLabelY == 65.0 && doc.date == TextLine(client.date, 71.0)
    ensures |doc.client| == |ClientBlock(client)|
    ensures forall i :: 0 <= i < |doc.client| ==> doc.client[i] == TextLine(ClientBlock(client)[i], 71.0 + 5.0 * i as real)
    ensures doc.summary == if summary == "" then None else Some(TextLine(summary, BlockStartY(|ClientBlock(client)|) + 6.0))
    ensures doc.tableStartY == TableStartY(|ClientBlock(client)|, summary != "", summaryLines)
    ensures doc.rows == TableRows(cart)
    ensures doc.totals == TotalRows(cart, tableEndY)
    ensures doc.termsHeadingY == tableEndY + 15.0
    ensures |doc.terms| == |TermsOf(config)|
    ensures forall i :: 0 <= i < |doc.terms| ==> doc.terms[i] == TextLine(TermsOf(config)[i], TermY(tableEndY, termLines, i))
    ensures doc.fileName == FileName(client.companyName)
  {
    // 1. Header
    var headerY := 20.0;
    var title := TextLine(AsciiUpper(HeaderTitle(config)), headerY);

    // 2. Sender address
    var sender, yPos := StackLines(SenderAddress(config), headerY + 10.0);
    assert yPos == 55.0;

    // 3. Client info: the left column ...
    yPos := yPos + 10.0;
    var sectionTopY := yPos;
    yPos := yPos + 6.0;
    var clientLines, clientEnd := StackLines(ClientBlock(client), yPos);
    yPos := clientEnd;

    // ... and the date in the right column
    var rightColY := sectionTopY;
    var dateLabelY := rightColY;
    rightColY := rightColY + 6.0;
    var date := TextLine(client.date, rightColY);

    // 4. Executive summary
    yPos := RealMax(yPos, rightColY + 10.0) + 10.0;
    ghost var blockStart := BlockStartY(|ClientBlock(client)|);
    assert yPos == blockStart;
    var summaryText: Option<TextLine> := None;
    if summary != "" {
      yPos := yPos + 6.0;
      summaryText := Some(TextLine(summary, yPos));
      yPos := yPos + (summaryLines as real * 5.0) + 5.0;
      assert summaryText == Some(TextLine(summary, blockStart + 6.0));
    }

    // 5. Services table
    yPos := yPos + 5.0;
    var rows := TableRows(cart);
    var finalY := tableEndY + 15.0;

    // 6. Totals and 7. terms, two columns from the same finalY
    var totals := DrawTotals(cart, finalY);
    var terms := DrawTerms(TermsOf(config), tableEndY, termLines);

    doc := Document(title, sender, sectionTopY, clientLines, dateLabelY, date, summaryText, yPos,
                    rows, totals, finalY, terms, FileName(client.companyName));
  }
}

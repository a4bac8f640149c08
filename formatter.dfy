/** The terminal table (app/Sources/CCostLib/Formatter.swift). A line is
    built from text and ANSI escape codes; the model keeps a line as a list of
    pieces, each either a piece of text or an escape code, so that what the
    terminal shows (the text pieces) can be stated apart from the colours.
    `String(format: "%.1f")` and `String(format: "%.2f")` are foreign
    formatting calls and reach the model as the two functions of a `Printf`. */
module Formatter {
  import opened Strings
  import opened Models

  /** The ANSI select-graphic-rendition codes the table uses. */
  datatype Sgr = Reset | Bold | Dim | Green | Yellow | Cyan | White

  /** The escape sequence of a code. */
  function Escape(c: Sgr): (r: string)
    ensures |r| >= 4 && r[0] == '\U{1B}' && r[1] == '['
  {
    var n := match c
      case Reset => "0" case Bold => "1" case Dim => "2" case Green => "32"
      case Yellow => "33" case Cyan => "36" case White => "37";
    ['\U{1B}', '['] + n + "m"
  }

  const ColDate: nat := 12
  const ColCost: nat := 12
  const ColInput: nat := 10
  const ColOutput: nat := 10
  const ColCacheW: nat := 10
  const ColCacheR: nat := 10
  const ColSessions: nat := 10
  /** The seven column widths and the six two-space gaps between them. */
  const SeparatorWidth: nat := ColDate + ColCost + ColInput + ColOutput + ColCacheW + ColCacheR + ColSessions + 12

  /** `String(format:)` with "%.1f" and with "%.2f". */
  datatype Printf = Printf(oneDecimal: real -> string, twoDecimals: real -> string)

  datatype Alignment = Left | Right

  function Max(a: int, b: int): int {
    if a >= b then a else b
  }

  /** `s` widened with spaces to `width` characters; never truncated. */
  function Pad(s: string, width: int, align: Alignment): (r: string)
    ensures |r| == Max(width, |s|)
    ensures align == Left ==> HasPrefix(r, s) && forall i :: |s| <= i < |r| ==> r[i] == ' '
    ensures align == Right ==> HasSuffix(r, s) && forall i :: 0 <= i < |r| - |s| ==> r[i] == ' '
  {
    var padding := Max(0, width - |s|);
    if align == Left then s + Repeat(' ', padding) else Repeat(' ', padding) + s
  }

  /** A piece of a line: text the terminal shows, or an escape code. */
  datatype Piece = Text(text: string) | Style(code: Sgr)

  /** The line as the program prints it. */
  function Render(ps: seq<Piece>): string
    decreases |ps|
  {
    if ps == [] then []
    else (match ps[0] case Text(t) => t case Style(c) => Escape(c)) + Render(ps[1..])
  }

  /** The text the terminal shows: the line without its escape codes. */
  function Visible(ps: seq<Piece>): string
    decreases |ps|
  {
    if ps == [] then []
    else (match ps[0] case Text(t) => t case Style(_) => []) + Visible(ps[1..])
  }

  lemma {:induction false} VisibleAppend(a: seq<Piece>, b: seq<Piece>)
    ensures Visible(a + b) == Visible(a) + Visible(b)
    decreases |a|
  {
    if a == [] {
      assert a + b == b;
    } else {
      assert (a + b)[0] == a[0] && (a + b)[1..] == a[1..] + b;
      VisibleAppend(a[1..], b);
    }
  }

  // ---------------------------------------------------------------------
  // Cells.

  /** formatTokens: billions, millions and thousands get one decimal and a
      unit letter; smaller counts are printed as they are. */
  function FormatTokens(n: int, f: Printf): (r: string)
    ensures n < 1000 ==> r == IntToString(n)
    ensures 1000 <= n < 1000000 ==> r == f.oneDecimal(n as real / 1000.0) + "K"
    ensures 1000000 <= n < 1000000000 ==> r == f.oneDecimal(n as real / 1000000.0) + "M"
    ensures 1000000000 <= n ==> r == f.oneDecimal(n as real / 1000000000.0) + "B"
    ensures 0 <= n < 1000 ==> forall i :: 0 <= i < |r| ==> '0' <= r[i] <= '9'
  {
    if n >= 1000000000 then f.oneDecimal(n as real / 1000000000.0) + "B"
    else if n >= 1000000 then f.oneDecimal(n as real / 1000000.0) + "M"
    else if n >= 1000 then f.oneDecimal(n as real / 1000.0) + "K"
    else IntToString(n)
  }

  /** formatCost: a dollar sign, then the cost with two decimals. */
  function FormatCost(c: real, f: Printf): (r: string)
    ensures |r| == |f.twoDecimals(c)| + 1 && r[0] == '$' && r[1..] == f.twoDecimals(c)
  {
    "$" + f.twoDecimals(c)
  }

  datatype Column = Column(title: string, width: nat, align: Alignment)

  /** The columns, left to right. */
  const Columns: seq<Column> := [
    Column("Date", ColDate, Left),
    Column("Input", ColInput, Right),
    Column("Output", ColOutput, Right),
    Column("Cache W", ColCacheW, Right),
    Column("Cache R", ColCacheR, Right),
    Column("Cost", ColCost, Right),
    Column("Sessions", ColSessions, Right)]

  /** The titles in column order. */
  function Titles(): (r: seq<string>)
    ensures |r| == |Columns|
  {
    seq(|Columns|, k requires 0 <= k < |Columns| => Columns[k].title)
  }

  /** Cells laid out in the columns, two spaces apart. */
  function Layout(cells: seq<string>): string
    requires |cells| == |Columns|
  {
    Pad(cells[0], ColDate, Left)
    + ("  " + Pad(cells[1], ColInput, Right)
    + ("  " + Pad(cells[2], ColOutput, Right)
    + ("  " + Pad(cells[3], ColCacheW, Right)
    + ("  " + Pad(cells[4], ColCacheR, Right)
    + ("  " + Pad(cells[5], ColCost, Right)
    + ("  " + Pad(cells[6], ColSessions, Right)))))))
  }

  /** The texts a summary shows, in column order. */
  function RowCells(s: DailySummary, f: Printf): (cells: seq<string>)
    ensures |cells| == |Columns|
  {
    [s.date, FormatTokens(s.inputTokens, f), FormatTokens(s.outputTokens, f),
     FormatTokens(s.cacheCreationInputTokens, f), FormatTokens(s.cacheReadInputTokens, f),
     FormatCost(s.cost, f), IntToString(s.sessions)]
  }

  // ---------------------------------------------------------------------
  // Lines.

  /** `"  " + text`, as the header writes each column after the first. */
  function HeaderCell(text: string): seq<Piece> {
    [Text("  "), Text(text)]
  }

  /** `"  \(style)\(text)\(reset)"`, as a row writes each column after the first. */
  function RowCell(styles: seq<Sgr>, text: string): seq<Piece> {
    [Text("  ")] + StylePieces(styles) + [Text(text), Style(Reset)]
  }

  function StylePieces(styles: seq<Sgr>): (r: seq<Piece>)
    ensures Visible(r) == []
    decreases |styles|
  {
    if styles == [] then []
    else
      var r := [Style(styles[0])] + StylePieces(styles[1..]);
      assert r[0] == Style(styles[0]) && r[1..] == StylePieces(styles[1..]);
      r
  }

  /** headerLine, with the column titles as `cells`. */
  function HeaderPiecesOf(cells: seq<string>): seq<Piece>
    requires |cells| == |Columns|
  {
    [Style(Dim), Text(Pad(cells[0], ColDate, Left))]
    + (HeaderCell(Pad(cells[1], ColInput, Right))
    + (HeaderCell(Pad(cells[2], ColOutput, Right))
    + (HeaderCell(Pad(cells[3], ColCacheW, Right))
    + (HeaderCell(Pad(cells[4], ColCacheR, Right))
    + (HeaderCell(Pad(cells[5], ColCost, Right))
    + (HeaderCell(Pad(cells[6], ColSessions, Right))
    + [Style(Reset)]))))))
  }

  function HeaderPieces(): seq<Piece> {
    HeaderPiecesOf(Titles())
  }

  function SeparatorPieces(): seq<Piece> {
    [Style(Dim), Text(Repeat('\U{2500}', SeparatorWidth)), Style(Reset)]
  }

  /** The six columns after the date, as formatRow and the totals line write them. */
  function TailPieces(cells: seq<string>): seq<Piece>
    requires |cells| == |Columns|
  {
    RowCell([Cyan], Pad(cells[1], ColInput, Right))
    + (RowCell([Cyan], Pad(cells[2], ColOutput, Right))
    + (RowCell([Yellow], Pad(cells[3], ColCacheW, Right))
    + (RowCell([Yellow], Pad(cells[4], ColCacheR, Right))
    + (RowCell([Green, Bold], Pad(cells[5], ColCost, Right))
    + RowCell([Dim], Pad(cells[6], ColSessions, Right))))))
  }

  /** A row of cells; `lead` are the codes before the first cell. */
  function RowPiecesOf(lead: seq<Sgr>, cells: seq<string>): seq<Piece>
    requires |cells| == |Columns|
  {
    StylePieces(lead) + ([Text(Pad(cells[0], ColDate, Left)), Style(Reset)] + TailPieces(cells))
  }

  /** formatRow. */
  function RowPieces(s: DailySummary, f: Printf): seq<Piece> {
    RowPiecesOf([White], RowCells(s, f))
  }

  /** The totals line: "TOTAL" in bold in place of a date. */
  function TotalPieces(t: DailySummary, f: Printf): seq<Piece> {
    RowPiecesOf([Bold, White], RowCells(t.(date := "TOTAL"), f))
  }

  function HeaderLine(): string {
    Render(HeaderPieces())
  }

  function SeparatorLine(): string {
    Render(SeparatorPieces())
  }

  function RowLine(s: DailySummary, f: Printf): string {
    Render(RowPieces(s, f))
  }

  function TotalLine(t: DailySummary, f: Printf): string {
    Render(TotalPieces(t, f))
  }

  /** "N files processed (M cached)" or "M files (all cached)". */
  function StatsMsg(processedCount: int, cachedCount: int): string
  {
    if processedCount > 0 then
      IntToString(processedCount) + " files processed (" + IntToString(cachedCount) + " cached)"
    else
      IntToString(cachedCount) + " files (all cached)"
  }

  lemma JoinWords4(a: string, b: string, c: string, d: string)
    ensures Join([a, b, c, d], ' ') == a + " " + b + " " + c + " " + d
  {
    JoinCons(c, [d], ' ');
    assert [c] + [d] == [c, d];
    JoinCons(b, [c, d], ' ');
    assert [b] + [c, d] == [b, c, d];
    JoinCons(a, [b, c, d], ' ');
    assert [a] + [b, c, d] == [a, b, c, d];
  }

  lemma JoinWords5(a: string, b: string, c: string, d: string, e: string)
    ensures Join([a, b, c, d, e], ' ') == a + " " + b + " " + c + " " + d + " " + e
  {
    JoinWords4(b, c, d, e);
    JoinCons(a, [b, c, d, e], ' ');
    assert [a] + [b, c, d, e] == [a, b, c, d, e];
  }

  /** The message is its words, one space apart. */
  lemma StatsMsgWords(processedCount: int, cachedCount: int)
    ensures processedCount > 0 ==>
      StatsMsg(processedCount, cachedCount)
      == Join([IntToString(processedCount), "files", "processed", "(" + IntToString(cachedCount), "cached)"], ' ')
    ensures processedCount <= 0 ==>
      StatsMsg(processedCount, cachedCount) == Join([IntToString(cachedCount), "files", "(all", "cached)"], ' ')
  {
    ProcessedWords(IntToString(processedCount), IntToString(cachedCount));
    CachedWords(IntToString(cachedCount));
  }

  lemma ProcessedWords(p: string, c: string)
    ensures p + " files processed (" + c + " cached)" == Join([p, "files", "processed", "(" + c, "cached)"], ' ')
  {
    JoinWords5(p, "files", "processed", "(" + c, "cached)");
    var a := p + " " + "files" + " " + "processed" + " ";
    assert " " + "files" + " " + "processed" + " " + "(" == " files processed (";
    assert a + "(" == p + " files processed (";
    assert a + ("(" + c) == a + "(" + c;
  }

  lemma CachedWords(c: string)
    ensures c + " files (all cached)" == Join([c, "files", "(all", "cached)"], ' ')
  {
    JoinWords4(c, "files", "(all", "cached)");
  }

  /** The counts read back from the message: split at the spaces, its first
      word is the number processed (or cached, when nothing was processed)
      and, after a processed count, the fourth word is "(" and the number
      cached. */
  lemma StatsMsgReadBack(processedCount: nat, cachedCount: nat)
    ensures var words := Split(StatsMsg(processedCount, cachedCount), ' ');
      if processedCount > 0 then
        && |words| == 5 && words[1..3] == ["files", "processed"] && words[4] == "cached)"
        && ParseNat(words[0]) == processedCount
        && words[3][0] == '(' && ParseNat(words[3][1..]) == cachedCount
      else
        && words == [IntToString(cachedCount), "files", "(all", "cached)"]
        && ParseNat(words[0]) == cachedCount
  {
    var p := IntToString(processedCount);
    var c := IntToString(cachedCount);
    StatsMsgWords(processedCount, cachedCount);
    ParseNatToString(processedCount);
    ParseNatToString(cachedCount);
    assert ' ' !in p && ' ' !in c;
    if processedCount > 0 {
      var words := [p, "files", "processed", "(" + c, "cached)"];
      assert WellFormedParts(words, ' ');
      SplitJoin(words, ' ');
      assert words[3][1..] == c;
    } else {
      var words := [c, "files", "(all", "cached)"];
      assert WellFormedParts(words, ' ');
      SplitJoin(words, ' ');
    }
  }

  function StatsLine(processedCount: int, cachedCount: int, elapsedMs: int): string {
    Render([Style(Dim), Text("  " + StatsMsg(processedCount, cachedCount) + " in " + IntToString(elapsedMs) + "ms"),
            Style(Reset)])
  }

  function NoData(): string {
    Render([Style(Dim), Text("No usage data found."), Style(Reset)])
  }

  // ---------------------------------------------------------------------
  // Totals.

  /** The field-wise sums of all summaries, dated "TOTAL". */
  function Totals(summaries: seq<DailySummary>): (r: DailySummary)
    ensures r.date == "TOTAL"
    ensures summaries == [] ==> r == DailySummary("TOTAL", 0.0, 0, 0, 0, 0, 0)
    ensures (forall i :: 0 <= i < |summaries| ==> summaries[i].sessions >= 0) ==> r.sessions >= 0
    ensures (forall i :: 0 <= i < |summaries| ==> summaries[i].cost >= 0.0) ==> r.cost >= 0.0
    decreases |summaries|
  {
    if summaries == [] then DailySummary("TOTAL", 0.0, 0, 0, 0, 0, 0)
    else
      var t := Totals(summaries[..|summaries| - 1]);
      var s := summaries[|summaries| - 1];
      DailySummary("TOTAL", t.cost + s.cost, t.inputTokens + s.inputTokens, t.outputTokens + s.outputTokens,
        t.cacheCreationInputTokens + s.cacheCreationInputTokens, t.cacheReadInputTokens + s.cacheReadInputTokens,
        t.sessions + s.sessions)
  }

  /** The totals of two runs of days are the sums of their totals. */
  lemma {:induction false} TotalsAppend(a: seq<DailySummary>, b: seq<DailySummary>)
    ensures var t := Totals(a + b); var ta := Totals(a); var tb := Totals(b);
      && t.date == "TOTAL"
      && t.cost == ta.cost + tb.cost
      && t.inputTokens == ta.inputTokens + tb.inputTokens
      && t.outputTokens == ta.outputTokens + tb.outputTokens
      && t.cacheCreationInputTokens == ta.cacheCreationInputTokens + tb.cacheCreationInputTokens
      && t.cacheReadInputTokens == ta.cacheReadInputTokens + tb.cacheReadInputTokens
      && t.sessions == ta.sessions + tb.sessions
    decreases |b|
  {
    if b == [] {
      assert a + b == a;
    } else {
      assert (a + b)[..|a + b| - 1] == a + b[..|b| - 1];
      TotalsAppend(a, b[..|b| - 1]);
    }
  }

  /** One day's totals are that day's figures. */
  lemma TotalsOne(s: DailySummary)
    ensures Totals([s]) == s.(date := "TOTAL")
  {
    assert [s][..0] == [];
  }

  /** The totals loop of formatTable. */
  method SumSummaries(summaries: seq<DailySummary>) returns (totals: DailySummary)
    ensures totals == Totals(summaries)
  {
    totals := DailySummary("TOTAL", 0.0, 0, 0, 0, 0, 0);
    for i := 0 to |summaries|
      invariant totals == Totals(summaries[..i])
    {
      var s := summaries[i];
      assert summaries[..i + 1][..i] == summaries[..i];
      totals := totals.(cost := totals.cost + s.cost);
      totals := totals.(inputTokens := totals.inputTokens + s.inputTokens);
      totals := totals.(outputTokens := totals.outputTokens + s.outputTokens);
      totals := totals.(cacheCreationInputTokens := totals.cacheCreationInputTokens + s.cacheCreationInputTokens);
      totals := totals.(cacheReadInputTokens := totals.cacheReadInputTokens + s.cacheReadInputTokens);
      totals := totals.(sessions := totals.sessions + s.sessions);
    }
    assert summaries[..|summaries|] == summaries;
  }

  /** `line` applied to each summary, in order. */
  function MapLines(summaries: seq<DailySummary>, line: DailySummary -> string): (r: seq<string>)
    ensures |r| == |summaries|
    ensures forall i :: 0 <= i < |summaries| ==> r[i] == line(summaries[i])
  {
    seq(|summaries|, i requires 0 <= i < |summaries| => line(summaries[i]))
  }

  /** The formatted row of each summary, in order. */
  function RowLines(summaries: seq<DailySummary>, f: Printf): (r: seq<string>)
    ensures |r| == |summaries|
    ensures forall i :: 0 <= i < |summaries| ==> r[i] == RowLine(summaries[i], f)
  {
    MapLines(summaries, s => RowLine(s, f))
  }

  /** The lines of a table around its `rows`: a blank line, the header and a
      separator; the rows; a separator, the totals, a separator, the header
      again, the statistics; and an empty last line. */
  function Framed(header: string, separator: string, rows: seq<string>, total: string, stats: string): (r: seq<string>)
    ensures |r| == |rows| + 9
    ensures r[..3] == ["", header, separator]
    ensures r[3..|rows| + 3] == rows
    ensures r[|rows| + 3..] == [separator, total, separator, header, stats, ""]
    ensures r[0] == "" && r[1] == header && r[2] == separator
    ensures forall i :: 0 <= i < |rows| ==> r[i + 3] == rows[i]
    ensures r[|rows| + 3] == separator && r[|rows| + 4] == total && r[|rows| + 5] == separator
    ensures r[|rows| + 6] == header && r[|rows| + 7] == stats && r[|rows| + 8] == ""
  {
    ["", header, separator] + rows + [separator, total, separator, header, stats, ""]
  }

  /** The lines formatTable joins for a non-empty list of summaries. */
  function TableLines(summaries: seq<DailySummary>, processedCount: int, cachedCount: int, elapsedMs: int, f: Printf)
    : (r: seq<string>)
    ensures |r| == |summaries| + 9
    ensures r[0] == "" && r[1] == HeaderLine() && r[2] == SeparatorLine()
    ensures forall i :: 0 <= i < |summaries| ==> r[i + 3] == RowLine(summaries[i], f)
    ensures r[|summaries| + 3] == SeparatorLine() && r[|summaries| + 4] == TotalLine(Totals(summaries), f)
    ensures r[|summaries| + 5] == SeparatorLine() && r[|summaries| + 6] == HeaderLine()
    ensures r[|summaries| + 7] == StatsLine(processedCount, cachedCount, elapsedMs) && r[|summaries| + 8] == ""
  {
    var rows := RowLines(summaries, f);
    Framed(HeaderLine(), SeparatorLine(), rows, TotalLine(Totals(summaries), f),
           StatsLine(processedCount, cachedCount, elapsedMs))
  }

  /** Appends `line` of each summary to `lines`, in order. */
  method AppendRows(lines: seq<string>, summaries: seq<DailySummary>, line: DailySummary -> string) returns (r: seq<string>)
    ensures r == lines + MapLines(summaries, line)
  {
    r := lines;
    for i := 0 to |summaries|
      invariant |r| == |lines| + i && r[..|lines|] == lines
      invariant forall j :: 0 <= j < i ==> r[|lines| + j] == line(summaries[j])
    {
      r := r + [line(summaries[i])];
    }
  }

  /** formatTable: the message for no data, or the table's lines joined by
      newlines; `table` are those lines. */
  method FormatTable(summaries: seq<DailySummary>, processedCount: int, cachedCount: int, elapsedMs: int, f: Printf)
    returns (out: string, ghost table: seq<string>)
    ensures summaries == [] ==> out == NoData()
    ensures summaries != [] ==>
      && out == Join(table, '\n')
      && table == TableLines(summaries, processedCount, cachedCount, elapsedMs, f)
  {
    if summaries == [] {
      return NoData(), [];
    }
    var header := HeaderLine();
    var separator := SeparatorLine();
    var lines := AppendRows(["", header, separator], summaries, s => RowLine(s, f));
    var totals := SumSummaries(summaries);
    lines := lines + [separator, TotalLine(totals, f), separator, header,
                      StatsLine(processedCount, cachedCount, elapsedMs), ""];
    out := Join(lines, '\n');
    table := lines;
  }

  // ---------------------------------------------------------------------
  // Layout facts.

  /** The separator is 86 characters wide. */
  lemma SeparatorIs86()
    ensures SeparatorWidth == 86
    ensures |Visible(SeparatorPieces())| == 86
  {
    assert Visible(SeparatorPieces()) == Repeat('\U{2500}', SeparatorWidth) by {
      assert SeparatorPieces()[1..][1..][1..] == [];
    }
  }

  lemma VisibleHeaderCell(text: string)
    ensures Visible(HeaderCell(text)) == "  " + text
  {
    var c := HeaderCell(text);
    assert c[1..] == [Text(text)] && c[1..][1..] == [];
    assert Visible(c[1..]) == text + [];
  }

  lemma VisibleRowCell(styles: seq<Sgr>, text: string)
    ensures Visible(RowCell(styles, text)) == "  " + text
  {
    var tail: seq<Piece> := [Text(text), Style(Reset)];
    VisibleAppend([Text("  ")], StylePieces(styles) + tail);
    VisibleAppend(StylePieces(styles), tail);
    assert tail[1..][1..] == [];
    assert [Text("  ")][1..] == [];
    assert RowCell(styles, text) == [Text("  ")] + (StylePieces(styles) + tail);
  }

  /** The text of six pieces of a line in a row. */
  lemma VisibleSix(c1: seq<Piece>, c2: seq<Piece>, c3: seq<Piece>, c4: seq<Piece>, c5: seq<Piece>, c6: seq<Piece>)
    ensures Visible(c1 + (c2 + (c3 + (c4 + (c5 + c6)))))
      == Visible(c1) + (Visible(c2) + (Visible(c3) + (Visible(c4) + (Visible(c5) + Visible(c6)))))
  {
    VisibleAppend(c1, c2 + (c3 + (c4 + (c5 + c6))));
    VisibleAppend(c2, c3 + (c4 + (c5 + c6)));
    VisibleAppend(c3, c4 + (c5 + c6));
    VisibleAppend(c4, c5 + c6);
    VisibleAppend(c5, c6);
  }

  /** The header shows its cells in column order. */
  lemma HeaderColumnsOf(cells: seq<string>)
    requires |cells| == |Columns|
    ensures Visible(HeaderPiecesOf(cells)) == Layout(cells)
  {
    var lead: seq<Piece> := [Style(Dim), Text(Pad(cells[0], ColDate, Left))];
    var c1 := HeaderCell(Pad(cells[1], ColInput, Right));
    var c2 := HeaderCell(Pad(cells[2], ColOutput, Right));
    var c3 := HeaderCell(Pad(cells[3], ColCacheW, Right));
    var c4 := HeaderCell(Pad(cells[4], ColCacheR, Right));
    var c5 := HeaderCell(Pad(cells[5], ColCost, Right));
    var c6 := HeaderCell(Pad(cells[6], ColSessions, Right)) + [Style(Reset)];
    VisibleAppend(lead, c1 + (c2 + (c3 + (c4 + (c5 + c6)))));
    VisibleSix(c1, c2, c3, c4, c5, c6);
    VisibleHeaderCell(Pad(cells[1], ColInput, Right));
    VisibleHeaderCell(Pad(cells[2], ColOutput, Right));
    VisibleHeaderCell(Pad(cells[3], ColCacheW, Right));
    VisibleHeaderCell(Pad(cells[4], ColCacheR, Right));
    VisibleHeaderCell(Pad(cells[5], ColCost, Right));
    VisibleHeaderCell(Pad(cells[6], ColSessions, Right));
    VisibleAppend(HeaderCell(Pad(cells[6], ColSessions, Right)), [Style(Reset)]);
    assert Visible([Style(Reset)]) == [] by {
      assert [Style(Reset)][1..] == [];
    }
    assert Visible(lead) == Pad(cells[0], ColDate, Left) by {
      assert lead[1..][1..] == [];
    }
  }

  /** The header shows the column titles in column order. */
  lemma HeaderColumns()
    ensures Visible(HeaderPieces()) == Layout(Titles())
  {
    HeaderColumnsOf(Titles());
  }

  /** A row shows its cells in column order, whatever codes lead it. */
  lemma RowColumnsOf(lead: seq<Sgr>, cells: seq<string>)
    requires |cells| == |Columns|
    ensures Visible(RowPiecesOf(lead, cells)) == Layout(cells)
  {
    var first: seq<Piece> := [Text(Pad(cells[0], ColDate, Left)), Style(Reset)];
    VisibleAppend(StylePieces(lead), first + TailPieces(cells));
    VisibleAppend(first, TailPieces(cells));
    assert Visible(first) == Pad(cells[0], ColDate, Left) by {
      assert first[1..][1..] == [];
    }
    VisibleSix(RowCell([Cyan], Pad(cells[1], ColInput, Right)),
               RowCell([Cyan], Pad(cells[2], ColOutput, Right)),
               RowCell([Yellow], Pad(cells[3], ColCacheW, Right)),
               RowCell([Yellow], Pad(cells[4], ColCacheR, Right)),
               RowCell([Green, Bold], Pad(cells[5], ColCost, Right)),
               RowCell([Dim], Pad(cells[6], ColSessions, Right)));
    VisibleRowCell([Cyan], Pad(cells[1], ColInput, Right));
    VisibleRowCell([Cyan], Pad(cells[2], ColOutput, Right));
    VisibleRowCell([Yellow], Pad(cells[3], ColCacheW, Right));
    VisibleRowCell([Yellow], Pad(cells[4], ColCacheR, Right));
    VisibleRowCell([Green, Bold], Pad(cells[5], ColCost, Right));
    VisibleRowCell([Dim], Pad(cells[6], ColSessions, Right));
  }

  /** A row shows its cells in the same column order as the header. */
  lemma RowColumns(s: DailySummary, f: Printf)
    ensures Visible(RowPieces(s, f)) == Layout(RowCells(s, f))
  {
    RowColumnsOf([White], RowCells(s, f));
  }

  /** The totals line shows "TOTAL" and the totals in the row columns. */
  lemma TotalColumns(t: DailySummary, f: Printf)
    ensures Visible(TotalPieces(t, f)) == Layout(RowCells(t.(date := "TOTAL"), f))
  {
    RowColumnsOf([Bold, White], RowCells(t.(date := "TOTAL"), f));
  }

  /** Cells that fit their columns make a line exactly as wide as the separator. */
  lemma LayoutWidth(cells: seq<string>)
    requires |cells| == |Columns|
    requires forall j :: 0 <= j < |cells| ==> |cells[j]| <= Columns[j].width
    ensures |Layout(cells)| == SeparatorWidth
  {
  }
}

/**
 * The serverless `export-expenses` function
 * (frontend/supabase/functions/export-expenses/index.ts): it selects rows
 * with the same rules as the serverless list, turns each into display
 * values, and answers with a spreadsheet for `format=xlsx` or with CSV text
 * whose description field is always quoted, as section 2 of RFC 4180
 * describes. The locale date rendering is the caller-supplied `formatDate`.
 */
module ExportFunction {
  import opened Wrappers
  import opened Text
  import opened Money
  import opened Csv
  import opened Categories
  import opened ExpenseModel
  import ExpensesFunction

  /** `formatCurrency(amountInCents)`: a rupee sign, then the amount in rupees to two decimals. */
  function FormatCurrency(cents: int): (r: string)
    ensures cents >= 0 ==>
      r == "₹" + NatToString(cents / 100) + "." + [DigitChar(cents % 100 / 10), DigitChar(cents % 10)]
    ensures |r| >= 1 && r[0] == '₹' && ParseFixed2(r[1..]) == Some(cents)
  {
    var r := "₹" + Fixed2(cents);
    ParseFixed2RoundTrip(cents);
    assert r[1..] == Fixed2(cents);
    r
  }

  /** `categoryLabels`. */
  const CategoryLabels: map<string, string> := map[
    "food" := "Food & Dining",
    "transport" := "Transport",
    "entertainment" := "Entertainment",
    "shopping" := "Shopping",
    "bills" := "Bills & Utilities",
    "health" := "Health",
    "education" := "Education",
    "other" := "Other"
  ]

  /** `categoryLabels[tag] || tag`: the label of a known tag, and any other tag unchanged. */
  function LabelFor(tag: string): (r: string)
    ensures tag !in Tags ==> r == tag
  {
    if tag in CategoryLabels && CategoryLabels[tag] != "" then CategoryLabels[tag] else tag
  }

  /** The export's label table has exactly the eight tags, and gives each the label the client shows. */
  lemma LabelTablesAgree(c: Category)
    ensures CategoryLabels.Keys == Tags
    ensures LabelFor(Tag(c)) == Label(c)
  {
  }

  /** One exported row: display date, category label, raw description, formatted amount. */
  datatype Row = Row(date: string, category: string, description: string, amount: string)

  function RowOf(e: Expense, formatDate: string -> string): Row
  {
    Row(formatDate(e.date), LabelFor(e.category), e.description, FormatCurrency(e.amount))
  }

  function RowsOf(rows: seq<Expense>, formatDate: string -> string): (r: seq<Row>)
    ensures |r| == |rows|
    ensures forall i :: 0 <= i < |rows| ==> r[i] == RowOf(rows[i], formatDate)
  {
    if rows == [] then [] else [RowOf(rows[0], formatDate)] + RowsOf(rows[1..], formatDate)
  }

  /** One CSV line: date, category, the quoted description with its quotes doubled, amount. */
  function CsvLine(r: Row): string
  {
    Join([r.date, r.category, Quote(r.description), r.amount], ",")
  }

  function CsvLines(rows: seq<Row>): (r: seq<string>)
    ensures |r| == |rows|
    ensures forall i :: 0 <= i < |rows| ==> r[i] == CsvLine(rows[i])
  {
    if rows == [] then [] else [CsvLine(rows[0])] + CsvLines(rows[1..])
  }

  /** The byte order mark that starts the CSV text. */
  const Bom: string := "\U{FEFF}"

  const HeaderLine: string := "Date,Category,Description,Amount"

  /** The CSV text: the mark, the header line and a line feed, then the data lines joined by line feeds. */
  function CsvText(rows: seq<Row>): string
  {
    Bom + HeaderLine + "\n" + Join(CsvLines(rows), "\n")
  }

  /** The query parameters of an export request. */
  datatype ExportParams = ExportParams(
    format: Option<string>,
    category: Option<string>,
    sort: Option<string>,
    startDate: Option<string>,
    endDate: Option<string>)

  datatype ExportResponse =
    | Preflight
    | ErrorResponse(status: nat, error: string)
    | CsvFile(content: string)
    | XlsxFile(rows: seq<Row>)

  /** The rows an export covers: the serverless list's selection, 1000 at most. */
  function ExportedRows(table: seq<Expense>, p: ExportParams): seq<Expense>
  {
    ExpensesFunction.SelectRows(table, ExpensesFunction.Selection(p.category, p.sort, p.startDate, p.endDate))
  }

  /**
   * The function's handler over the table's rows. `outage` is a failure of
   * the query, answered with the store's message.
   */
  function Export(
    table: seq<Expense>, m: ExpensesFunction.HttpMethod, p: ExportParams,
    formatDate: string -> string, outage: Option<string>): (r: ExportResponse)
    ensures m.Options? <==> r.Preflight?
    ensures !m.Options? && !m.Get? ==> r == ErrorResponse(405, "Method not allowed")
    ensures m.Get? && outage.Some? ==> r == ErrorResponse(500, outage.value)
    ensures m.Get? && outage.None? ==>
      && (r.XlsxFile? <==> p.format == Some("xlsx"))
      && (r.XlsxFile? ==> r.rows == RowsOf(ExportedRows(table, p), formatDate))
      && (r.CsvFile? <==> p.format != Some("xlsx"))
      && (r.CsvFile? ==> r.content == CsvText(RowsOf(ExportedRows(table, p), formatDate)))
  {
    if m.Options? then Preflight
    else if !m.Get? then ErrorResponse(405, "Method not allowed")
    else if outage.Some? then ErrorResponse(500, outage.value)
    else
      var rows := RowsOf(ExportedRows(table, p), formatDate);
      if Or(p.format, "csv") == "xlsx" then XlsxFile(rows) else CsvFile(CsvText(rows))
  }

  /** An export holds at most 1000 rows, each a stored row that passes the filters, in date order. */
  lemma ExportedRowsCorrect(table: seq<Expense>, p: ExportParams)
    ensures var rows := ExportedRows(table, p);
      var q := ExpensesFunction.Selection(p.category, p.sort, p.startDate, p.endDate);
      && |rows| <= ExpensesFunction.MaxRows
      && (forall e :: e in rows ==> e in table && Matches(q, e))
      && SortedByDate(rows, p.sort == Some("oldest"))
  {
    ExpensesFunction.SelectRowsCorrect(table, ExpensesFunction.Selection(p.category, p.sort, p.startDate, p.endDate));
  }

  // ---- reading the CSV back ----

  /** The cells of one line: the description quoted, everything else verbatim. */
  function LineCells(r: Row): seq<Cell>
  {
    [Plain(r.date), Plain(r.category), Quoted(r.description), Plain(r.amount)]
  }

  const HeaderCells: seq<Cell> := [Plain("Date"), Plain("Category"), Plain("Description"), Plain("Amount")]

  lemma JoinFour(a: string, b: string, c: string, d: string)
    ensures Join([a, b, c, d], ",") == a + "," + (b + "," + (c + "," + d))
  {
    assert [a, b, c, d][1..] == [b, c, d];
    assert [b, c, d][1..] == [c, d];
    assert [c, d][1..] == [d];
    assert Join([c, d], ",") == c + "," + d;
    assert Join([b, c, d], ",") == b + "," + Join([c, d], ",");
  }

  lemma EncodeFour(w: Cell, x: Cell, y: Cell, z: Cell)
    ensures EncodeRecord([w, x, y, z])
         == EncodeCell(w) + "," + (EncodeCell(x) + "," + (EncodeCell(y) + "," + EncodeCell(z)))
    ensures Texts([w, x, y, z]) == [w.text, x.text, y.text, z.text]
  {
    assert [w, x, y, z][1..] == [x, y, z];
    assert [x, y, z][1..] == [y, z];
    assert [y, z][1..] == [z];
    assert EncodeRecord([y, z]) == EncodeCell(y) + "," + EncodeCell(z);
    assert EncodeRecord([x, y, z]) == EncodeCell(x) + "," + EncodeRecord([y, z]);
    assert Texts([z]) == [z.text];
    assert Texts([y, z]) == [y.text] + Texts([z]);
    assert Texts([x, y, z]) == [x.text] + Texts([y, z]);
  }

  lemma CsvLineCells(r: Row)
    ensures CsvLine(r) == EncodeRecord(LineCells(r))
    ensures Texts(LineCells(r)) == [r.date, r.category, r.description, r.amount]
  {
    JoinFour(r.date, r.category, Quote(r.description), r.amount);
    EncodeFour(Plain(r.date), Plain(r.category), Quoted(r.description), Plain(r.amount));
  }

  lemma HeaderCellsLine()
    ensures EncodeRecord(HeaderCells) == HeaderLine
  {
    EncodeFour(Plain("Date"), Plain("Category"), Plain("Description"), Plain("Amount"));
    HeaderLineText();
  }

  lemma HeaderLineText()
    ensures "Date" + "," + ("Category" + "," + ("Description" + "," + "Amount")) == HeaderLine
  {
  }

  lemma HeaderCellsTexts()
    ensures Texts(HeaderCells) == ["Date", "Category", "Description", "Amount"]
  {
    EncodeFour(Plain("Date"), Plain("Category"), Plain("Description"), Plain("Amount"));
  }

  lemma HeaderCellsReadable()
    ensures ReadableRecord(HeaderCells)
  {
    assert PlainSafe("Date") && PlainSafe("Category");
    assert PlainSafe("Description") && PlainSafe("Amount");
  }

  /** The date, category and amount of a row need no quoting. */
  predicate RowSafe(r: Row)
  {
    PlainSafe(r.date) && PlainSafe(r.category) && PlainSafe(r.amount)
  }

  /** The records the CSV text encodes: the header, then one record per row. */
  function RowRecords(rows: seq<Row>): (r: seq<seq<Cell>>)
    ensures |r| == |rows| + 1 && r[0] == HeaderCells
    ensures forall i :: 1 <= i < |r| ==> r[i] == LineCells(rows[i - 1])
  {
    [HeaderCells] + seq(|rows|, i requires 0 <= i < |rows| => LineCells(rows[i]))
  }

  lemma CsvTextEncodes(rows: seq<Row>)
    requires |rows| >= 1
    ensures CsvText(rows)[..1] == Bom && CsvText(rows)[1..] == EncodeRecords(RowRecords(rows))
  {
    var records := RowRecords(rows);
    var cells := records[1..];
    var lines := CsvLines(rows);
    forall i | 0 <= i < |lines| ensures lines[i] == EncodeRecord(cells[i]) {
      CsvLineCells(rows[i]);
    }
    JoinEncodedRecords(lines, cells);
    HeaderCellsLine();
    assert EncodeRecords(records) == HeaderLine + "\n" + EncodeRecords(cells);
    assert CsvText(rows) == Bom + EncodeRecords(records);
  }

  lemma RowRecordsReadable(rows: seq<Row>)
    requires forall i :: 0 <= i < |rows| ==> RowSafe(rows[i])
    ensures forall i :: 0 <= i < |rows| + 1 ==> ReadableRecord(RowRecords(rows)[i])
  {
    HeaderCellsReadable();
  }

  /**
   * After the byte order mark, a CSV reader recovers the header and then
   * every row's values in order, whatever its description holds (commas,
   * quotes, line feeds): the doubled quotes undo exactly.
   */
  lemma CsvTextReadsBack(rows: seq<Row>)
    requires |rows| >= 1
    requires forall i :: 0 <= i < |rows| ==> RowSafe(rows[i])
    ensures var text := CsvText(rows);
      && text[..1] == Bom
      && ReadRecords(text[1..]).Some?
      && var recs := ReadRecords(text[1..]).value;
         && |recs| == |rows| + 1
         && recs[0] == ["Date", "Category", "Description", "Amount"]
         && forall i :: 0 <= i < |rows| ==>
              recs[i + 1] == [rows[i].date, rows[i].category, rows[i].description, rows[i].amount]
  {
    var records := RowRecords(rows);
    CsvTextEncodes(rows);
    RowRecordsReadable(rows);
    ReadRecordsEncode(records);
    var recs := ReadRecords(CsvText(rows)[1..]).value;
    AllTextsAt(records, 0);
    HeaderCellsTexts();
    forall i | 0 <= i < |rows|
      ensures recs[i + 1] == [rows[i].date, rows[i].category, rows[i].description, rows[i].amount]
    {
      AllTextsAt(records, i + 1);
      CsvLineCells(rows[i]);
    }
  }

  /** With no rows the text is the mark and the header line, and it ends with a line feed. */
  lemma EmptyCsvText()
    ensures CsvText([]) == Bom + HeaderLine + "\n"
  {
  }

  /** No label holds a comma, a quote or a line feed. */
  lemma LabelSafe(c: Category)
    ensures PlainSafe(Label(c))
  {
    match c
    case Food => assert PlainSafe("Food & Dining");
    case Transport => assert PlainSafe("Transport");
    case Entertainment => assert PlainSafe("Entertainment");
    case Shopping => assert PlainSafe("Shopping");
    case Bills => assert PlainSafe("Bills & Utilities");
    case Health => assert PlainSafe("Health");
    case Education => assert PlainSafe("Education");
    case Other => assert PlainSafe("Other");
  }

  /** A row needs no quoting outside its description when its display date and its tag need none. */
  lemma ExportRowSafe(e: Expense, formatDate: string -> string)
    requires PlainSafe(formatDate(e.date)) && PlainSafe(e.category)
    ensures RowSafe(RowOf(e, formatDate))
  {
    RupeeAmountSafe(e.amount);
    var c := ParseCategory(e.category);
    if c.Some? {
      LabelTablesAgree(c.value);
      LabelSafe(c.value);
    }
  }

  /**
   * The export reads the stored amount as paise, while the serverless insert
   * stores `Math.round` of the posted rupee amount: a posted amount `x`
   * exports as `Math.round(x) / 100` rupees, less than `x` for every positive `x`.
   */
  lemma ServerlessAmountExportsAsCents(c: ExpensesFunction.CheckedPost, key: Option<string>)
    requires c.amount > 0.0
    ensures var shown := FormatCurrency(ExpensesFunction.DraftOf(c, key).amount);
      |shown| >= 1 && shown[0] == '₹' && ParseFixed2(shown[1..]) == Some(Round(c.amount))
    ensures (Round(c.amount) as real) / 100.0 < c.amount
  {
    var x := c.amount;
    if x < 0.5 {
      RoundUnique(x, 0);
    } else {
      assert Round(x) as real <= x + 0.5;
    }
  }
}

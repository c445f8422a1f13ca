/**
 * The REST backend's HTTP handlers (backend/controllers/expenseController.js):
 * query defaults, the replies of create, list and delete, export format
 * dispatch, and the CSV text the export builds without any quoting.
 */
module ExpenseController {
  import opened Wrappers
  import opened Text
  import opened Money
  import opened Csv
  import opened ExpenseModel
  import opened ExpenseService

  /** The query string of the list and export routes; each parameter may be absent. */
  datatype RequestQuery = RequestQuery(
    category: Option<string>,
    sort: Option<string>,
    startDate: Option<string>,
    endDate: Option<string>,
    format: Option<string>)

  /** The filters both routes pass on, with `sort` defaulting to "desc". */
  function FiltersOf(q: RequestQuery): Filters
  {
    Filters(q.category, Or(q.sort, "desc"), q.startDate, q.endDate)
  }

  /** A list is oldest-first exactly when the query says `sort=asc`; any other value, or none, is newest-first. */
  lemma SortDefault(q: RequestQuery)
    ensures QueryOf(FiltersOf(q)).ascending <==> q.sort == Some("asc")
    ensures q.sort.None? ==> FiltersOf(q).sort == "desc"
  {
  }

  /** What a handler sends; an `Err` of a handler is the error it hands to `next`. */
  datatype Reply =
    | RowReply(status: nat, data: Expense)
    | ListReply(status: nat, expenses: seq<ShownExpense>, total: real)
    | CsvFile(content: string)
    | Workbook(rows: seq<ExportedExpense>)
    | Refusal(status: nat, message: string)

  /**
   * `createExpense`: the `Idempotency-Key` header goes to the service as is,
   * and whatever row the service returns, new or replayed, is sent with 201.
   */
  method CreateExpense(
    t: Table, body: NewExpense, idempotencyKey: Option<string>, freshKey: string,
    createdAt: string, rival: Option<Draft>, outage: Option<string>)
    returns (r: Result<Reply, ServiceError>)
    requires t.Valid()
    modifies t
    ensures t.Valid()
    ensures r.Ok? ==> && r.value.RowReply? && r.value.status == 201 && r.value.data in t.rows
                      && r.value.data.idempotencyKey == Some(EffectiveKey(idempotencyKey, freshKey))
    ensures body.amount <= 0.0 ==> r == Err(BadRequest("Amount must be greater than 0")) && t.rows == old(t.rows)
    ensures body.amount > 0.0 && KeyLookup(old(t.rows), EffectiveKey(idempotencyKey, freshKey)).Some? ==>
              && r == Ok(RowReply(201, KeyLookup(old(t.rows), EffectiveKey(idempotencyKey, freshKey)).value))
              && t.rows == old(t.rows)
    ensures body.amount > 0.0 && KeyLookup(old(t.rows), EffectiveKey(idempotencyKey, freshKey)).None?
              && rival.None? && outage.None? ==>
              && r.Ok? && t.rows == old(t.rows) + [r.value.data]
              && StoredFrom(PayloadOf(body, EffectiveKey(idempotencyKey, freshKey)), r.value.data)
    // a store failure on the insert goes to `next` unchanged, whatever a concurrent request did
    ensures body.amount > 0.0 && KeyLookup(old(t.rows), EffectiveKey(idempotencyKey, freshKey)).None?
              && outage.Some? ==>
              r == Err(StoreFailure(Upstream(outage.value)))
    // a concurrent commit under another key does not stop this create: its row is appended last and sent with 201
    ensures body.amount > 0.0 && KeyLookup(old(t.rows), EffectiveKey(idempotencyKey, freshKey)).None?
              && outage.None? && (rival.None? || rival.value.idempotencyKey != Some(EffectiveKey(idempotencyKey, freshKey))) ==>
              && r.Ok? && r.value.RowReply? && r.value.status == 201
              && |t.rows| > |old(t.rows)| && t.rows[|t.rows| - 1] == r.value.data
              && StoredFrom(PayloadOf(body, EffectiveKey(idempotencyKey, freshKey)), r.value.data)
    // a lost race with a request under the same key sends that request's row with 201: one row, not two
    ensures body.amount > 0.0 && KeyLookup(old(t.rows), EffectiveKey(idempotencyKey, freshKey)).None?
              && rival.Some? && rival.value.idempotencyKey == Some(EffectiveKey(idempotencyKey, freshKey))
              && outage.None? ==>
              && r.Ok? && r.value.RowReply? && r.value.status == 201
              && t.rows == old(t.rows) + [r.value.data] && StoredFrom(rival.value, r.value.data)
    // rows are only appended, at most the concurrent request's and this one's;
    // an error sent to `next` writes nothing of this request's
    ensures old(t.rows) <= t.rows && |t.rows| <= |old(t.rows)| + 2
    ensures r.Err? && rival.None? ==> t.rows == old(t.rows)
    ensures r.Err? ==>
              && |t.rows| <= |old(t.rows)| + 1
              && (|t.rows| == |old(t.rows)| + 1 ==> rival.Some? && StoredFrom(rival.value, t.rows[|old(t.rows)|]))
  {
    var created := CreateExpenseService(t, body, idempotencyKey, freshKey, createdAt, rival, outage);
    match created {
      case Ok(row) => r := Ok(RowReply(201, row));
      case Err(e) => r := Err(e);
    }
  }

  /** `getExpenses`: 200 with the service's rows and total, under the defaulted filters. */
  function GetExpenses(t: Table, q: RequestQuery): Reply
    reads t
  {
    var listing := GetExpensesService(t, FiltersOf(q));
    ListReply(200, listing.expenses, listing.total)
  }

  /**
   * The list reply shows the table's filtered rows in date order (ascending
   * only for `sort=asc`), with a total that is the sum of what is shown.
   */
  lemma GetExpensesCorrect(t: Table, q: RequestQuery)
    ensures var r := GetExpenses(t, q);
      var stored := t.GetExpenses(FiltersOf(q)).expenses;
      && r.status == 200
      && r.expenses == ShowAll(stored)
      && SortedByDate(stored, q.sort == Some("asc"))
      && (forall e :: e in stored <==> e in t.rows && Matches(QueryOf(FiltersOf(q)), e))
      && r.total == ShownSum(r.expenses)
  {
    GetExpensesServiceCorrect(t, FiltersOf(q));
  }

  /** `deleteExpense`: 200 with the snapshot of the removed row. */
  method DeleteExpense(t: Table, id: Option<string>, outage: Option<string>) returns (r: Result<Reply, ServiceError>)
    requires t.Valid()
    modifies t
    ensures t.Valid()
    ensures (id.None? || id.value == "") ==> r == Err(BadRequest("Expense ID required")) && t.rows == old(t.rows)
    ensures id.Some? && id.value != "" && outage.Some? ==>
              r == Err(StoreFailure(Upstream(outage.value))) && t.rows == old(t.rows)
    ensures id.Some? && id.value != "" && outage.None? ==>
              && t.rows == WithoutId(old(t.rows), id.value)
              && (r.Ok? <==> exists e :: e in old(t.rows) && e.id == id.value)
              && (r.Ok? ==> && r.value.RowReply? && r.value.status == 200
                            && r.value.data in old(t.rows) && r.value.data.id == id.value)
              && (r.Err? ==> r.error == StoreFailure(NoRows))
  {
    var deleted := DeleteExpenseService(t, id, outage);
    match deleted {
      case Ok(row) => r := Ok(RowReply(200, row));
      case Err(e) => r := Err(e);
    }
  }

  // ---- export ----

  const CsvHeader: seq<string> := ["Date", "Category", "Description", "Amount"]

  /** One data line: the four values joined by commas, the amount after a rupee sign, nothing quoted. */
  function CsvLine(e: ExportedExpense): string
  {
    e.date + "," + e.category + "," + e.description + ",₹" + e.amount
  }

  function CsvLines(rows: seq<ExportedExpense>): (r: seq<string>)
    ensures |r| == |rows|
    ensures forall i :: 0 <= i < |rows| ==> r[i] == CsvLine(rows[i])
  {
    if rows == [] then [] else [CsvLine(rows[0])] + CsvLines(rows[1..])
  }

  /** `exportCSV`: the header line, then one line per row, joined by line feeds. */
  function ExportCsv(rows: seq<ExportedExpense>): string
  {
    Join([Join(CsvHeader, ",")] + CsvLines(rows), "\n")
  }

  /**
   * `exportExpenses`: `format` defaults to "csv"; "csv" gives the CSV text,
   * "excel" the spreadsheet rows, anything else a 400.
   */
  function ExportExpenses(t: Table, q: RequestQuery): (r: Reply)
    reads t
    ensures r.CsvFile? <==> q.format.None? || q.format == Some("") || q.format == Some("csv")
    ensures r.Workbook? <==> q.format == Some("excel")
    ensures r.Refusal? <==> !r.CsvFile? && !r.Workbook?
    ensures r.Refusal? ==> r == Refusal(400, "Invalid export format")
    ensures r.CsvFile? ==> r.content == ExportCsv(GetExpensesForExportService(t, FiltersOf(q)))
    ensures r.Workbook? ==> r.rows == GetExpensesForExportService(t, FiltersOf(q))
    ensures r.RowReply? || r.ListReply? ==> false
  {
    var format := Or(q.format, "csv");
    var expenses := GetExpensesForExportService(t, FiltersOf(q));
    if format == "csv" then CsvFile(ExportCsv(expenses))
    else if format == "excel" then Workbook(expenses)
    else Refusal(400, "Invalid export format")
  }

  /** The four values of one data line. */
  function LineFields(e: ExportedExpense): seq<string>
  {
    [e.date, e.category, e.description, "₹" + e.amount]
  }

  /** A line reads back field by field only when no value holds a comma, a quote or a line feed. */
  predicate LineSafe(e: ExportedExpense)
  {
    PlainSafe(e.date) && PlainSafe(e.category) && PlainSafe(e.description) && PlainSafe("₹" + e.amount)
  }

  /** Unquoted cells holding the given values. */
  function PlainCells(fields: seq<string>): (r: seq<Cell>)
    ensures |r| == |fields|
    ensures forall i :: 0 <= i < |fields| ==> r[i] == Plain(fields[i])
  {
    seq(|fields|, i requires 0 <= i < |fields| => Plain(fields[i]))
  }

  /** Unquoted fields are encoded by joining them with commas, and read as themselves. */
  lemma {:induction false} PlainFieldsLine(fields: seq<string>)
    ensures EncodeRecord(PlainCells(fields)) == Join(fields, ",")
    ensures Texts(PlainCells(fields)) == fields
    decreases |fields|
  {
    if |fields| >= 1 {
      var cells := PlainCells(fields);
      assert cells == [Plain(fields[0])] + PlainCells(fields[1..]);
      PlainFieldsLine(fields[1..]);
      if |fields| >= 2 {
        EncodeRecordCons(Plain(fields[0]), PlainCells(fields[1..]));
      }
    }
  }

  /** A data line is the comma join of its four values. */
  lemma CsvLineFields(e: ExportedExpense)
    ensures CsvLine(e) == Join(LineFields(e), ",")
  {
    var f := LineFields(e);
    assert f[1..][1..][1..] == ["₹" + e.amount];
    assert f[1..][1..] == [e.description, "₹" + e.amount];
    assert f[1..] == [e.category, e.description, "₹" + e.amount];
    var d := "₹" + e.amount;
    assert Join(f[1..][1..], ",") == e.description + "," + d;
    assert Join(f[1..], ",") == e.category + "," + (e.description + "," + d);
    assert Join(f, ",") == e.date + "," + (e.category + "," + (e.description + "," + d));
    assert ",₹" + e.amount == "," + d;
  }

  /** The header line is "Date,Category,Description,Amount". */
  lemma HeaderLine()
    ensures Join(CsvHeader, ",") == "Date,Category,Description,Amount"
  {
    assert CsvHeader[1..][1..][1..] == ["Amount"];
    assert CsvHeader[1..][1..] == ["Description", "Amount"];
    assert CsvHeader[1..] == ["Category", "Description", "Amount"];
    assert Join(CsvHeader, ",") == "Date" + "," + ("Category" + "," + ("Description" + "," + "Amount"));
    HeaderText();
  }

  lemma HeaderText()
    ensures "Date" + "," + ("Category" + "," + ("Description" + "," + "Amount")) == "Date,Category,Description,Amount"
  {
  }

  lemma LettersSafe(s: string)
    requires forall k :: 0 <= k < |s| ==> 'A' <= s[k] <= 'z'
    ensures PlainSafe(s)
  {
  }

  /** The records the export text encodes: the header, then one record per row. */
  function ExportRecords(rows: seq<ExportedExpense>): (r: seq<seq<Cell>>)
    ensures |r| == |rows| + 1
    ensures r[0] == PlainCells(CsvHeader)
    ensures forall i :: 1 <= i < |r| ==> r[i] == PlainCells(LineFields(rows[i - 1]))
  {
    [PlainCells(CsvHeader)] + seq(|rows|, i requires 0 <= i < |rows| => PlainCells(LineFields(rows[i])))
  }

  lemma ExportCsvEncodes(rows: seq<ExportedExpense>)
    ensures ExportCsv(rows) == EncodeRecords(ExportRecords(rows))
  {
    var records := ExportRecords(rows);
    var lines := [Join(CsvHeader, ",")] + CsvLines(rows);
    forall i | 0 <= i < |lines| ensures lines[i] == EncodeRecord(records[i]) {
      ExportLineEncodes(rows, i);
    }
    JoinEncodedRecords(lines, records);
  }

  /** Each line of the export, header included, encodes its record. */
  lemma ExportLineEncodes(rows: seq<ExportedExpense>, i: nat)
    requires i < |rows| + 1
    ensures ([Join(CsvHeader, ",")] + CsvLines(rows))[i] == EncodeRecord(ExportRecords(rows)[i])
  {
    if i == 0 {
      HeaderLineEncodes(rows);
    } else {
      DataLineEncodesAt(rows, i);
    }
  }

  lemma HeaderLineEncodes(rows: seq<ExportedExpense>)
    ensures ([Join(CsvHeader, ",")] + CsvLines(rows))[0] == EncodeRecord(ExportRecords(rows)[0])
  {
    HeaderEncodes();
  }

  lemma DataLineEncodesAt(rows: seq<ExportedExpense>, i: nat)
    requires 1 <= i < |rows| + 1
    ensures ([Join(CsvHeader, ",")] + CsvLines(rows))[i] == EncodeRecord(ExportRecords(rows)[i])
  {
    ExportLineAt(rows, i);
    ExportRecordAt(rows, i);
    DataLineEncodes(rows[i - 1]);
  }

  lemma ExportLineAt(rows: seq<ExportedExpense>, i: nat)
    requires 1 <= i < |rows| + 1
    ensures ([Join(CsvHeader, ",")] + CsvLines(rows))[i] == CsvLine(rows[i - 1])
  {
    var lines := CsvLines(rows);
    var line := lines[i - 1];
    assert line == CsvLine(rows[i - 1]);
    FollowsHeader(Join(CsvHeader, ","), lines, i);
  }

  lemma FollowsHeader(header: string, lines: seq<string>, i: nat)
    requires 1 <= i < |lines| + 1
    ensures ([header] + lines)[i] == lines[i - 1]
  {
  }

  lemma ExportRecordAt(rows: seq<ExportedExpense>, i: nat)
    requires 1 <= i < |rows| + 1
    ensures ExportRecords(rows)[i] == PlainCells(LineFields(rows[i - 1]))
  {
  }

  lemma HeaderEncodes()
    ensures EncodeRecord(PlainCells(CsvHeader)) == Join(CsvHeader, ",")
  {
    PlainFieldsLine(CsvHeader);
  }

  /** A data line is the encoding of its four values as unquoted cells. */
  lemma DataLineEncodes(e: ExportedExpense)
    ensures EncodeRecord(PlainCells(LineFields(e))) == CsvLine(e)
  {
    CsvLineFields(e);
    PlainFieldsLine(LineFields(e));
  }

  lemma ExportRecordsReadable(rows: seq<ExportedExpense>)
    requires forall i :: 0 <= i < |rows| ==> LineSafe(rows[i])
    ensures forall i :: 0 <= i < |rows| + 1 ==> ReadableRecord(ExportRecords(rows)[i])
  {
    var records := ExportRecords(rows);
    forall i | 0 <= i < |records| ensures ReadableRecord(records[i]) {
      if i == 0 {
        forall k | 0 <= k < 4 ensures PlainSafe(CsvHeader[k]) {
          LettersSafe(CsvHeader[k]);
        }
      } else {
        var f := LineFields(rows[i - 1]);
        assert forall k :: 0 <= k < 4 ==> PlainSafe(f[k]);
      }
    }
  }

  /**
   * When no value holds a comma, quote or line feed, a CSV reader recovers
   * the header and then each row's date, category tag, description and
   * rupee-prefixed amount, one line per row, in order.
   */
  lemma ExportCsvReadsBack(rows: seq<ExportedExpense>)
    requires forall i :: 0 <= i < |rows| ==> LineSafe(rows[i])
    ensures ReadRecords(ExportCsv(rows)).Some?
    ensures var recs := ReadRecords(ExportCsv(rows)).value;
      && |recs| == |rows| + 1 && recs[0] == CsvHeader
      && forall i :: 0 <= i < |rows| ==>
           recs[i + 1] == [rows[i].date, rows[i].category, rows[i].description, "₹" + rows[i].amount]
  {
    var records := ExportRecords(rows);
    ExportCsvEncodes(rows);
    ExportRecordsReadable(rows);
    ReadRecordsEncode(records);
    var recs := ReadRecords(ExportCsv(rows)).value;
    AllTextsAt(records, 0);
    PlainFieldsLine(CsvHeader);
    forall i | 0 <= i < |rows|
      ensures recs[i + 1] == [rows[i].date, rows[i].category, rows[i].description, "₹" + rows[i].amount]
    {
      AllTextsAt(records, i + 1);
      PlainFieldsLine(LineFields(rows[i]));
    }
  }

  /**
   * Because nothing is quoted, a comma inside a description splits it: the
   * line reads back as five fields, and the description is not recoverable.
   */
  lemma CommaInDescriptionSplitsLine(e: ExportedExpense, before: string, after: string)
    requires e.description == before + "," + after
    requires PlainSafe(e.date) && PlainSafe(e.category) && PlainSafe(before) && PlainSafe(after)
    requires PlainSafe("₹" + e.amount)
    ensures ReadRecord(CsvLine(e)) == Some(([e.date, e.category, before, after, "₹" + e.amount], ""))
  {
    var fields := [e.date, e.category, before, after, "₹" + e.amount];
    var cells := PlainCells(fields);
    CommaLineFields(e, before, after);
    PlainFieldsLine(fields);
    assert ReadableRecord(cells);
    ReadRecordEncode(cells, "");
    assert CsvLine(e) + "" == CsvLine(e);
  }

  /** With a comma in the description, the line is the comma join of five values. */
  lemma CommaLineFields(e: ExportedExpense, before: string, after: string)
    requires e.description == before + "," + after
    ensures CsvLine(e) == Join([e.date, e.category, before, after, "₹" + e.amount], ",")
  {
    var d := "₹" + e.amount;
    var fields := [e.date, e.category, before, after, d];
    CsvLineFields(e);
    assert fields[1..][1..][1..][1..] == [d];
    assert fields[1..][1..][1..] == [after, d];
    assert fields[1..][1..] == [before, after, d];
    assert fields[1..] == [e.category, before, after, d];
    assert Join(fields[1..][1..][1..], ",") == after + "," + d;
    assert Join(fields[1..][1..], ",") == before + "," + (after + "," + d);
    assert Join(fields[1..], ",") == e.category + "," + (before + "," + (after + "," + d));
    assert Join(fields, ",") == e.date + "," + (e.category + "," + (before + "," + (after + "," + d)));
    var f := LineFields(e);
    assert f[1..][1..][1..] == [d];
    assert f[1..][1..] == [e.description, d];
    assert f[1..] == [e.category, e.description, d];
  }
}

/**
 * The REST backend's business rules (backend/services/expenseService.js):
 * at-most-once create per idempotency key with rupee-to-paise conversion,
 * paise-to-rupee conversion of listings, guarded delete, and export rows.
 */
module ExpenseService {
  import opened Wrappers
  import opened Money
  import opened ExpenseModel

  /** An error the service throws with a `statusCode`, or a store error it lets through. */
  datatype ServiceError = BadRequest(message: string) | StoreFailure(cause: StoreError)

  /** The `statusCode` the error carries; store errors carry none. */
  function StatusCode(e: ServiceError): Option<int>
  {
    match e
    case BadRequest(_) => Some(400)
    case StoreFailure(_) => None
  }

  /** The request body as the service reads it: the amount in rupees. */
  datatype NewExpense = NewExpense(amount: real, category: string, description: string, date: string)

  /** `idempotencyKeyHeader || uuidv4()`: the header when it is a non-empty string, else a fresh uuid. */
  function EffectiveKey(header: Option<string>, freshKey: string): string
  {
    if header.Some? && header.value != "" then header.value else freshKey
  }

  /** The row a fresh create asks the store to insert. */
  function PayloadOf(data: NewExpense, key: string): Draft
  {
    Draft(ToPaise(data.amount), data.category, data.description, data.date, Some(key))
  }

  /**
   * `createExpenseService(expenseData, idempotencyKeyHeader)`.
   *
   * `freshKey` is the uuid the service would generate; `createdAt` is the
   * store's clock; `outage` is a failure of the store during the insert;
   * `rival` is the row of a concurrent request that the store commits between
   * this call's key lookup and its insert; when it carries the same key, this
   * is the race the `23505` branch recovers from.
   */
  method CreateExpenseService(
    t: Table, data: NewExpense, header: Option<string>, freshKey: string,
    createdAt: string, rival: Option<Draft>, outage: Option<string>)
    returns (r: Result<Expense, ServiceError>)
    requires t.Valid()
    modifies t
    ensures t.Valid()
    // a non-positive amount is refused before the table is touched
    ensures data.amount <= 0.0 ==> r == Err(BadRequest("Amount must be greater than 0")) && t.rows == old(t.rows)
    // a replay returns the row stored under the key and writes nothing
    ensures data.amount > 0.0 && KeyLookup(old(t.rows), EffectiveKey(header, freshKey)).Some? ==>
              && r == Ok(KeyLookup(old(t.rows), EffectiveKey(header, freshKey)).value)
              && t.rows == old(t.rows)
    // a first create inserts exactly one row, in paise, under the effective key
    ensures data.amount > 0.0 && KeyLookup(old(t.rows), EffectiveKey(header, freshKey)).None?
              && rival.None? && outage.None? ==>
              && r.Ok? && t.rows == old(t.rows) + [r.value]
              && StoredFrom(PayloadOf(data, EffectiveKey(header, freshKey)), r.value)
    // any other store failure propagates unchanged and writes nothing of this request's
    ensures data.amount > 0.0 && KeyLookup(old(t.rows), EffectiveKey(header, freshKey)).None?
              && rival.None? && outage.Some? ==>
              r == Err(StoreFailure(Upstream(outage.value))) && t.rows == old(t.rows)
    ensures data.amount > 0.0 && KeyLookup(old(t.rows), EffectiveKey(header, freshKey)).None?
              && outage.Some? ==>
              r == Err(StoreFailure(Upstream(outage.value)))
    // a concurrent commit under another key does not stop this create: its own row is appended last
    ensures data.amount > 0.0 && KeyLookup(old(t.rows), EffectiveKey(header, freshKey)).None?
              && outage.None? && (rival.None? || rival.value.idempotencyKey != Some(EffectiveKey(header, freshKey))) ==>
              && r.Ok? && |t.rows| > |old(t.rows)| && t.rows[|t.rows| - 1] == r.value
              && StoredFrom(PayloadOf(data, EffectiveKey(header, freshKey)), r.value)
    // a concurrent request whose own key is free commits its row first
    ensures data.amount > 0.0 && KeyLookup(old(t.rows), EffectiveKey(header, freshKey)).None?
              && rival.Some? && (rival.value.idempotencyKey.None? || KeyLookup(old(t.rows), rival.value.idempotencyKey.value).None?) ==>
              |t.rows| > |old(t.rows)| && StoredFrom(rival.value, t.rows[|old(t.rows)|])
    // rows are only appended: at most the rival's row and this request's row;
    // a failure writes nothing of this request's
    ensures old(t.rows) <= t.rows && |t.rows| <= |old(t.rows)| + 2
    ensures r.Err? ==>
              && |t.rows| <= |old(t.rows)| + 1
              && (|t.rows| == |old(t.rows)| + 1 ==> rival.Some? && StoredFrom(rival.value, t.rows[|old(t.rows)|]))
    // losing the race to a request with the same key returns that request's row: one row, not two
    ensures data.amount > 0.0 && KeyLookup(old(t.rows), EffectiveKey(header, freshKey)).None?
              && rival.Some? && rival.value.idempotencyKey == Some(EffectiveKey(header, freshKey))
              && outage.None? ==>
              && r.Ok? && t.rows == old(t.rows) + [r.value] && StoredFrom(rival.value, r.value)
    // without a usable header the row is stored under the fresh uuid; while that uuid is new,
    // the create never replays another request's row and appends exactly one row
    ensures data.amount > 0.0 && (header.None? || header == Some(""))
            && (forall e :: e in old(t.rows) ==> e.idempotencyKey != Some(freshKey))
            && rival.None? && outage.None? ==>
              && r.Ok? && t.rows == old(t.rows) + [r.value] && r.value.idempotencyKey == Some(freshKey)
              && StoredFrom(PayloadOf(data, freshKey), r.value)
    // whatever succeeds is the one stored row with the effective key
    ensures r.Ok? ==> r.value in t.rows && r.value.idempotencyKey == Some(EffectiveKey(header, freshKey))
  {
    if data.amount <= 0.0 {
      return Err(BadRequest("Amount must be greater than 0"));
    }
    var key := EffectiveKey(header, freshKey);
    var existing := t.FindByIdempotencyKey(key);
    if existing.Some? {
      return Ok(existing.value);
    }
    var payload := PayloadOf(data, key);
    ghost var before := t.rows;
    if rival.Some? {
      var _ := t.Insert(rival.value, createdAt, None);
      if rival.value.idempotencyKey != Some(key) {
        assert forall e :: e in t.rows ==> e in before || e.idempotencyKey == rival.value.idempotencyKey;
      }
    }
    var created := t.Insert(payload, createdAt, outage);
    match created {
      case Ok(row) =>
        r := Ok(row);
      case Err(e) =>
        if e == UniqueViolation {
          var again := t.FindByIdempotencyKey(key);
          if rival.Some? && rival.value.idempotencyKey == Some(key) {
            assert t.rows == before + [t.rows[|t.rows| - 1]];
            assert t.rows[|t.rows| - 1] in t.rows;
          }
          r := Ok(again.value);
        } else {
          r := Err(StoreFailure(e));
        }
    }
  }

  /**
   * A create without a usable header looks up its fresh uuid, so while that
   * uuid is new to the table it never replays a row another request stored:
   * two keyless creates are never taken for one another.
   */
  lemma KeylessCreateNeverReplays(rows: seq<Expense>, header: Option<string>, freshKey: string)
    requires header.None? || header == Some("")
    requires forall e :: e in rows ==> e.idempotencyKey != Some(freshKey)
    ensures KeyLookup(rows, EffectiveKey(header, freshKey)).None?
  {
  }

  /** A row as the list endpoint returns it: the amount back in rupees. */
  datatype ShownExpense = ShownExpense(
    id: string,
    amount: real,
    category: string,
    description: string,
    date: string,
    createdAt: string,
    idempotencyKey: Option<string>)

  /** `{ ...expense, amount: expense.amount / 100 }`. */
  function Shown(e: Expense): ShownExpense
  {
    ShownExpense(e.id, e.amount as real / 100.0, e.category, e.description, e.date, e.createdAt, e.idempotencyKey)
  }

  function ShowAll(rows: seq<Expense>): (r: seq<ShownExpense>)
    ensures |r| == |rows|
  {
    if rows == [] then [] else [Shown(rows[0])] + ShowAll(rows[1..])
  }

  /** The sum of the shown amounts. */
  function ShownSum(xs: seq<ShownExpense>): real
  {
    if xs == [] then 0.0 else xs[0].amount + ShownSum(xs[1..])
  }

  datatype ShownListing = ShownListing(expenses: seq<ShownExpense>, total: real)

  /** `getExpensesService(filters)`: the listing with amounts and total divided by 100. */
  function GetExpensesService(t: Table, f: Filters): (r: ShownListing)
    reads t
  {
    var listing := t.GetExpenses(f);
    ShownListing(ShowAll(listing.expenses), listing.total as real / 100.0)
  }

  lemma {:induction false} ShowAllAt(rows: seq<Expense>, i: nat)
    requires i < |rows|
    ensures ShowAll(rows)[i] == Shown(rows[i])
    decreases i
  {
    if i > 0 {
      ShowAllAt(rows[1..], i - 1);
    }
  }

  lemma {:induction false} ShownSumOfShowAll(rows: seq<Expense>)
    ensures ShownSum(ShowAll(rows)) == Sum(rows) as real / 100.0
    decreases |rows|
  {
    if rows != [] {
      ShownSumOfShowAll(rows[1..]);
    }
  }

  /**
   * The shown listing keeps the rows, their order and every column but the
   * amount, which is divided by 100; the shown total is the sum of the shown
   * amounts; and the shown amounts convert back to the stored paise.
   */
  lemma GetExpensesServiceCorrect(t: Table, f: Filters)
    ensures var r := GetExpensesService(t, f);
      var stored := t.GetExpenses(f).expenses;
      && |r.expenses| == |stored|
      && (forall i :: 0 <= i < |stored| ==>
            && r.expenses[i].id == stored[i].id && r.expenses[i].category == stored[i].category
            && r.expenses[i].description == stored[i].description && r.expenses[i].date == stored[i].date
            && r.expenses[i].createdAt == stored[i].createdAt
            && r.expenses[i].idempotencyKey == stored[i].idempotencyKey
            && r.expenses[i].amount * 100.0 == stored[i].amount as real
            && ToPaise(r.expenses[i].amount) == stored[i].amount)
      && r.total == ShownSum(r.expenses)
  {
    var stored := t.GetExpenses(f).expenses;
    forall i | 0 <= i < |stored|
      ensures ShowAll(stored)[i] == Shown(stored[i]) && ToPaise(Shown(stored[i]).amount) == stored[i].amount
    {
      ShowAllAt(stored, i);
      ToPaiseOfShown(stored[i].amount);
    }
    ShownSumOfShowAll(stored);
  }

  /** `deleteExpenseService(id)`: 400 for a missing or empty id, else the repository's delete. */
  method DeleteExpenseService(t: Table, id: Option<string>, outage: Option<string>) returns (r: Result<Expense, ServiceError>)
    requires t.Valid()
    modifies t
    ensures t.Valid()
    ensures (id.None? || id.value == "") ==> r == Err(BadRequest("Expense ID required")) && t.rows == old(t.rows)
    // a store error is thrown on unchanged and nothing is removed
    ensures id.Some? && id.value != "" && outage.Some? ==>
              r == Err(StoreFailure(Upstream(outage.value))) && t.rows == old(t.rows)
    ensures id.Some? && id.value != "" && outage.None? ==>
              && t.rows == WithoutId(old(t.rows), id.value)
              && (r.Ok? <==> exists e :: e in old(t.rows) && e.id == id.value)
              && (r.Ok? ==> r.value in old(t.rows) && r.value.id == id.value)
              && (r.Err? ==> r.error == StoreFailure(NoRows))
  {
    if id.None? || id.value == "" {
      return Err(BadRequest("Expense ID required"));
    }
    var deleted := t.DeleteExpense(id.value, outage);
    match deleted {
      case Ok(row) => r := Ok(row);
      case Err(e) => r := Err(StoreFailure(e));
    }
  }

  /** A row as the export receives it: the amount as a two-decimal rupee string. */
  datatype ExportedExpense = ExportedExpense(
    id: string,
    amount: string,
    category: string,
    description: string,
    date: string,
    createdAt: string,
    idempotencyKey: Option<string>)

  /** `{ ...expense, amount: (expense.amount / 100).toFixed(2) }`. */
  function Exported(e: Expense): ExportedExpense
  {
    ExportedExpense(e.id, Fixed2(e.amount), e.category, e.description, e.date, e.createdAt, e.idempotencyKey)
  }

  function ExportAll(rows: seq<Expense>): (r: seq<ExportedExpense>)
    ensures |r| == |rows|
  {
    if rows == [] then [] else [Exported(rows[0])] + ExportAll(rows[1..])
  }

  /** `getExpensesForExportService(filters)`. */
  function GetExpensesForExportService(t: Table, f: Filters): seq<ExportedExpense>
    reads t
  {
    ExportAll(t.GetExpenses(f).expenses)
  }

  lemma {:induction false} ExportAllAt(rows: seq<Expense>, i: nat)
    requires i < |rows|
    ensures ExportAll(rows)[i] == Exported(rows[i])
    decreases i
  {
    if i > 0 {
      ExportAllAt(rows[1..], i - 1);
    }
  }

  /**
   * Export rows are the listed rows in the same order with every column but
   * the amount unchanged, and each amount string reads back as the stored paise.
   */
  lemma GetExpensesForExportServiceCorrect(t: Table, f: Filters)
    ensures var r := GetExpensesForExportService(t, f);
      var stored := t.GetExpenses(f).expenses;
      && |r| == |stored|
      && (forall i :: 0 <= i < |stored| ==>
            && r[i].id == stored[i].id && r[i].category == stored[i].category
            && r[i].description == stored[i].description && r[i].date == stored[i].date
            && r[i].createdAt == stored[i].createdAt && r[i].idempotencyKey == stored[i].idempotencyKey
            && ParseFixed2(r[i].amount) == Some(stored[i].amount))
  {
    var stored := t.GetExpenses(f).expenses;
    forall i | 0 <= i < |stored|
      ensures ExportAll(stored)[i] == Exported(stored[i]) && ParseFixed2(Fixed2(stored[i].amount)) == Some(stored[i].amount)
    {
      ExportAllAt(stored, i);
      ParseFixed2RoundTrip(stored[i].amount);
    }
  }
}

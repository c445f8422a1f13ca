/**
 * The serverless `expenses` function (frontend/supabase/functions/expenses/index.ts),
 * a second implementation of the same table API over the same `expenses`
 * table. It differs from the REST backend in several ways: it checks
 * categories against the closed set and descriptions against 200 characters,
 * uses an idempotency key only when the client sends one, stores
 * `Math.round(amount)` with no conversion to paise, caps lists at 1000 rows,
 * and answers a lost key race with a 500 instead of replaying the row.
 */
module ExpensesFunction {
  import opened Wrappers
  import opened Text
  import opened Seqs
  import opened Money
  import opened Json
  import opened Categories
  import opened ExpenseModel
  import ExpenseService

  /** The request methods the function distinguishes. */
  datatype HttpMethod = Options | Get | Post | Delete | OtherMethod(name: string)

  /** The URL's search parameters, each absent or a string. */
  datatype SearchParams = SearchParams(
    id: Option<string>,
    category: Option<string>,
    sort: Option<string>,
    startDate: Option<string>,
    endDate: Option<string>)

  /** The fields the POST handler reads from its JSON body. */
  datatype PostBody = PostBody(
    amount: Option<Value>,
    category: Option<Value>,
    description: Option<Value>,
    date: Option<Value>,
    idempotencyKey: Option<string>)

  /** What the function answers; `ErrorResponse` is `{ error: message }` with a status. */
  datatype Response =
    | Preflight
    | ErrorResponse(status: nat, error: string)
    | DeleteOk
    | ListResponse(expenses: seq<Expense>, total: int)
    | ExpenseResponse(status: nat, expense: Expense)

  /** The `.limit(1000)` of every list query. */
  const MaxRows: nat := 1000

  // ---- GET ----

  /**
   * The query a list request builds: the category unless absent or "all",
   * each date bound when given, and oldest-first only for `sort=oldest`.
   */
  function Selection(category: Option<string>, sort: Option<string>, startDate: Option<string>, endDate: Option<string>): Query
  {
    Query(
      if Given(category).Some? && category.value != "all" then category else None,
      Given(startDate), Given(endDate),
      Or(sort, "newest") == "oldest")
  }

  /** The selected rows in date order, at most `MaxRows` of them. */
  function SelectRows(rows: seq<Expense>, q: Query): seq<Expense>
  {
    Take(RunQuery(rows, q), MaxRows)
  }

  /**
   * A selection holds at most 1000 rows; they are the first rows of the
   * fully ordered result, so each passes the filters and they are in date
   * order; and when no more than 1000 rows pass, every one of them is there.
   */
  lemma SelectRowsCorrect(rows: seq<Expense>, q: Query)
    ensures var r := SelectRows(rows, q);
      && |r| <= MaxRows
      && r == RunQuery(rows, q)[..|r|]
      && (|RunQuery(rows, q)| <= MaxRows ==> r == RunQuery(rows, q))
      && (|RunQuery(rows, q)| > MaxRows ==> |r| == MaxRows)
      && (forall e :: e in r ==> e in rows && Matches(q, e))
      && SortedByDate(r, q.ascending)
      && (|RunQuery(rows, q)| <= MaxRows ==> forall e :: e in rows && Matches(q, e) ==> e in r)
  {
    RunQueryCorrect(rows, q);
    var all := RunQuery(rows, q);
    var r := SelectRows(rows, q);
    forall e | e in r ensures e in rows && Matches(q, e) {
      var k :| 0 <= k < |r| && r[k] == e;
      assert all[k] == e;
    }
  }

  /** A selection in which no category tag or "all" parameter is given keeps every category. */
  lemma SelectionCategory(category: Option<string>, sort: Option<string>, startDate: Option<string>, endDate: Option<string>)
    ensures var q := Selection(category, sort, startDate, endDate);
      && (q.category.Some? <==> category.Some? && category.value != "" && category.value != "all")
      && (q.ascending <==> sort == Some("oldest"))
  {
  }

  /** The GET answer: the selected rows and the sum of their stored amounts. */
  function ListExpenses(rows: seq<Expense>, p: SearchParams): Response
  {
    var data := SelectRows(rows, Selection(p.category, p.sort, p.startDate, p.endDate));
    ListResponse(data, Sum(data))
  }

  // ---- POST ----

  /** A body that passed the checks: a positive number, a known tag, a non-blank description of at most 200 characters, and some date. */
  datatype CheckedPost = CheckedPost(amount: real, category: string, description: string, date: Value)

  predicate AmountOk(v: Option<Value>)
  {
    v.Some? && v.value.JNum? && v.value.n > 0.0
  }

  predicate CategoryOk(v: Option<Value>)
  {
    v.Some? && v.value.JStr? && v.value.s in Tags
  }

  predicate DescriptionGiven(v: Option<Value>)
  {
    v.Some? && v.value.JStr? && Trim(v.value.s) != ""
  }

  /** The body checks, in order; the first that fails decides the message. */
  function CheckPost(b: PostBody): (r: Result<CheckedPost, string>)
    ensures r.Ok? <==> && AmountOk(b.amount) && CategoryOk(b.category) && DescriptionGiven(b.description)
                       && |b.description.value.s| <= 200 && Truthy(b.date)
    ensures !AmountOk(b.amount) ==> r == Err("Amount must be a positive number")
    ensures AmountOk(b.amount) && !CategoryOk(b.category) ==> r == Err("Invalid category")
    ensures AmountOk(b.amount) && CategoryOk(b.category) && !DescriptionGiven(b.description) ==>
              r == Err("Description is required")
    ensures (AmountOk(b.amount) && CategoryOk(b.category) && DescriptionGiven(b.description)
             && |b.description.value.s| > 200) ==> r == Err("Description must be 200 characters or fewer")
    ensures (AmountOk(b.amount) && CategoryOk(b.category) && DescriptionGiven(b.description)
             && |b.description.value.s| <= 200 && !Truthy(b.date)) ==> r == Err("Date is required")
    ensures r.Ok? ==> && r.value.amount == b.amount.value.n && r.value.category == b.category.value.s
                      && r.value.description == b.description.value.s && r.value.date == b.date.value
  {
    if !AmountOk(b.amount) then Err("Amount must be a positive number")
    else if !CategoryOk(b.category) then Err("Invalid category")
    else if !DescriptionGiven(b.description) then Err("Description is required")
    else if |b.description.value.s| > 200 then Err("Description must be 200 characters or fewer")
    else if !Truthy(b.date) then Err("Date is required")
    else Ok(CheckedPost(b.amount.value.n, b.category.value.s, b.description.value.s, b.date.value))
  }

  /** The row a checked body asks the store to insert: rounded amount, trimmed description, key or null. */
  function DraftOf(c: CheckedPost, key: Option<string>): Draft
  {
    Draft(Round(c.amount), c.category, Trim(c.description), if c.date.JStr? then c.date.s else "", key)
  }

  /**
   * What POST does with a body that passed the checks: replay the row stored
   * under a given key, or insert the rounded, trimmed row. `rival` and
   * `outage` are as for the REST service; `dateRejection` is the store's
   * message when the date is not a string it can read.
   */
  method StoreChecked(
    t: Table, c: CheckedPost, key: Option<string>, createdAt: string,
    rival: Option<Draft>, outage: Option<string>, dateRejection: string)
    returns (resp: Response)
    requires t.Valid()
    modifies t
    ensures t.Valid()
    // a key the table already holds replays the stored row with 200
    ensures key.Some? && KeyLookup(old(t.rows), key.value).Some? ==>
              resp == ExpenseResponse(200, KeyLookup(old(t.rows), key.value).value) && t.rows == old(t.rows)
    // otherwise one row is inserted: Math.round of the amount, the trimmed description, the key or null
    ensures (key.None? || KeyLookup(old(t.rows), key.value).None?) && rival.None? && outage.None? && c.date.JStr? ==>
              && resp.ExpenseResponse? && resp.status == 201
              && t.rows == old(t.rows) + [resp.expense] && StoredFrom(DraftOf(c, key), resp.expense)
    // a concurrent commit under another key does not stop the insert: this request's row is appended last
    ensures (key.None? || KeyLookup(old(t.rows), key.value).None?) && outage.None? && c.date.JStr?
            && (key.None? || rival.None? || rival.value.idempotencyKey != key) ==>
              && resp.ExpenseResponse? && resp.status == 201
              && |t.rows| > |old(t.rows)| && t.rows[|t.rows| - 1] == resp.expense
              && StoredFrom(DraftOf(c, key), resp.expense)
    // a concurrent request whose own key is free commits its row first
    ensures (key.None? || KeyLookup(old(t.rows), key.value).None?) && rival.Some?
            && (rival.value.idempotencyKey.None? || KeyLookup(old(t.rows), rival.value.idempotencyKey.value).None?) ==>
              |t.rows| > |old(t.rows)| && StoredFrom(rival.value, t.rows[|old(t.rows)|])
    // a key lost to a concurrent insert is not recovered: the store's unique violation is answered 500,
    // and the table holds the rival's row but not this request's
    ensures (key.Some? && KeyLookup(old(t.rows), key.value).None?
             && rival.Some? && rival.value.idempotencyKey == key && outage.None? && c.date.JStr?) ==>
              && resp == ErrorResponse(500, Message(UniqueViolation))
              && |t.rows| == |old(t.rows)| + 1 && old(t.rows) <= t.rows
              && StoredFrom(rival.value, t.rows[|old(t.rows)|])
    // a store failure on the insert is answered 500 with the store's message
    ensures (key.None? || KeyLookup(old(t.rows), key.value).None?) && outage.Some? ==>
              resp == ErrorResponse(500, outage.value)
    // so is a date the store cannot read
    ensures (key.None? || KeyLookup(old(t.rows), key.value).None?) && outage.None? && !c.date.JStr? ==>
              resp == ErrorResponse(500, dateRejection)
    // rows are only appended, at most the rival's and this request's; a 201 appends the stored draft last
    ensures old(t.rows) <= t.rows && |t.rows| <= |old(t.rows)| + 2
    ensures resp.ExpenseResponse? && resp.status == 201 ==>
              && |t.rows| > |old(t.rows)| && t.rows[|t.rows| - 1] == resp.expense
              && StoredFrom(DraftOf(c, key), resp.expense)
    // a 500 writes nothing of this request's: with no rival the table is unchanged
    ensures resp.ErrorResponse? ==>
              && resp.status == 500
              && (rival.None? ==> t.rows == old(t.rows))
              && |t.rows| <= |old(t.rows)| + 1
              && (|t.rows| == |old(t.rows)| + 1 ==> rival.Some? && StoredFrom(rival.value, t.rows[|old(t.rows)|]))
    ensures resp.ExpenseResponse? ==> resp.expense in t.rows
  {
    if key.Some? {
      var existing := t.FindByIdempotencyKey(key.value);
      if existing.Some? {
        return ExpenseResponse(200, existing.value);
      }
    }
    var failure := outage;
    if outage.None? && !c.date.JStr? {
      failure := Some(dateRejection);
    }
    resp := InsertChecked(t, DraftOf(c, key), createdAt, rival, failure);
  }

  /**
   * The insert of a POST whose key (if any) the table did not hold: a
   * `rival` row is committed first when its own key is free, then the draft
   * is inserted unless `failure` says the store refuses it or the rival took
   * its key; any store error is answered 500 with its message.
   */
  method InsertChecked(t: Table, draft: Draft, createdAt: string, rival: Option<Draft>, failure: Option<string>)
    returns (resp: Response)
    requires t.Valid()
    modifies t
    ensures t.Valid()
    // rows are only ever appended: at most the rival's row and this request's row
    ensures old(t.rows) <= t.rows && |t.rows| <= |old(t.rows)| + 2
    ensures (draft.idempotencyKey.None? || KeyLookup(old(t.rows), draft.idempotencyKey.value).None?)
            && rival.None? && failure.None? ==>
              && resp.ExpenseResponse? && resp.status == 201
              && t.rows == old(t.rows) + [resp.expense] && StoredFrom(draft, resp.expense)
    // the draft is stored exactly when the store works and its key is still free after the rival
    ensures failure.None? && (draft.idempotencyKey.None? ||
              (KeyLookup(old(t.rows), draft.idempotencyKey.value).None?
               && (rival.None? || rival.value.idempotencyKey != draft.idempotencyKey))) ==>
              resp.ExpenseResponse?
    ensures (draft.idempotencyKey.Some? && rival.Some? && rival.value.idempotencyKey == draft.idempotencyKey
             && failure.None?) ==>
              resp == ErrorResponse(500, Message(UniqueViolation))
    ensures failure.Some? ==> resp == ErrorResponse(500, failure.value)
    // a rival whose key is free is committed first
    ensures rival.Some? && (rival.value.idempotencyKey.None? || KeyLookup(old(t.rows), rival.value.idempotencyKey.value).None?) ==>
              |t.rows| > |old(t.rows)| && StoredFrom(rival.value, t.rows[|old(t.rows)|])
    // a 201 appends the stored draft last; a 500 writes nothing of this request's
    ensures resp.ExpenseResponse? ==>
              && resp.status == 201 && |t.rows| > |old(t.rows)| && t.rows[|t.rows| - 1] == resp.expense
              && StoredFrom(draft, resp.expense)
              && (rival.None? ==> t.rows == old(t.rows) + [resp.expense])
    ensures resp.ErrorResponse? ==>
              && resp.status == 500
              && (rival.None? ==> t.rows == old(t.rows))
              && |t.rows| <= |old(t.rows)| + 1
              && (|t.rows| == |old(t.rows)| + 1 ==> rival.Some? && StoredFrom(rival.value, t.rows[|old(t.rows)|]))
    ensures resp.ExpenseResponse? ==> resp.expense in t.rows
  {
    if rival.Some? {
      ghost var before := t.rows;
      var raced := t.Insert(rival.value, createdAt, None);
      if draft.idempotencyKey.Some? && rival.value.idempotencyKey == draft.idempotencyKey {
        if raced.Ok? {
          assert raced.value in t.rows;
        }
        assert KeyLookup(t.rows, draft.idempotencyKey.value).Some?;
      } else if draft.idempotencyKey.Some? && KeyLookup(before, draft.idempotencyKey.value).None? {
        assert forall e :: e in t.rows ==> e in before || e.idempotencyKey == rival.value.idempotencyKey;
      }
    }
    var inserted := t.Insert(draft, createdAt, failure);
    if inserted.Ok? {
      resp := ExpenseResponse(201, inserted.value);
    } else {
      resp := ErrorResponse(500, Message(inserted.error));
    }
  }

  /**
   * The POST handler. `body` is `None` when `req.json()` throws or yields
   * `null`, so that destructuring it throws: the catch-all answers 500. Any
   * other JSON value is read field by field, and a body that fails a check is
   * answered 400 with the first failing check's message and nothing is
   * written; a key is used only when it is a non-empty string.
   */
  method PostExpense(
    t: Table, body: Option<PostBody>, createdAt: string,
    rival: Option<Draft>, outage: Option<string>, dateRejection: string)
    returns (resp: Response)
    requires t.Valid()
    modifies t
    ensures t.Valid()
    ensures body.None? ==> resp == ErrorResponse(500, "Internal server error") && t.rows == old(t.rows)
    ensures body.Some? && CheckPost(body.value).Err? ==>
              resp == ErrorResponse(400, CheckPost(body.value).error) && t.rows == old(t.rows)
    // a key the table holds replays its row
    ensures (body.Some? && CheckPost(body.value).Ok? && Given(body.value.idempotencyKey).Some?
             && KeyLookup(old(t.rows), body.value.idempotencyKey.value).Some?) ==>
              && resp == ExpenseResponse(200, KeyLookup(old(t.rows), body.value.idempotencyKey.value).value)
              && t.rows == old(t.rows)
    // a new key, or none, inserts exactly one row stored from the checked body under that key or null
    ensures (body.Some? && CheckPost(body.value).Ok?
             && (Given(body.value.idempotencyKey).None? || KeyLookup(old(t.rows), body.value.idempotencyKey.value).None?)
             && rival.None? && outage.None? && body.value.date.value.JStr?) ==>
              && resp.ExpenseResponse? && resp.status == 201
              && t.rows == old(t.rows) + [resp.expense]
              && StoredFrom(DraftOf(CheckPost(body.value).value, Given(body.value.idempotencyKey)), resp.expense)
    ensures (body.Some? && CheckPost(body.value).Ok? && Given(body.value.idempotencyKey).None?
             && rival.None? && outage.None? && body.value.date.value.JStr?) ==>
              && resp.ExpenseResponse? && resp.status == 201
              && t.rows == old(t.rows) + [resp.expense]
              && StoredFrom(DraftOf(CheckPost(body.value).value, None), resp.expense)
    // a concurrent commit under another key does not stop the insert: this request's row is appended last
    ensures (body.Some? && CheckPost(body.value).Ok?
             && (Given(body.value.idempotencyKey).None? || KeyLookup(old(t.rows), body.value.idempotencyKey.value).None?)
             && outage.None? && body.value.date.value.JStr?
             && (Given(body.value.idempotencyKey).None? || rival.None? || rival.value.idempotencyKey != Given(body.value.idempotencyKey))) ==>
              && resp.ExpenseResponse? && resp.status == 201
              && |t.rows| > |old(t.rows)| && t.rows[|t.rows| - 1] == resp.expense
              && StoredFrom(DraftOf(CheckPost(body.value).value, Given(body.value.idempotencyKey)), resp.expense)
    // a concurrent request whose own key is free commits its row first
    ensures (body.Some? && CheckPost(body.value).Ok?
             && (Given(body.value.idempotencyKey).None? || KeyLookup(old(t.rows), body.value.idempotencyKey.value).None?)
             && rival.Some? && (rival.value.idempotencyKey.None? || KeyLookup(old(t.rows), rival.value.idempotencyKey.value).None?)) ==>
              |t.rows| > |old(t.rows)| && StoredFrom(rival.value, t.rows[|old(t.rows)|])
    // the insert's failures are answered 500: a store error, an unreadable date, a key lost to a rival
    ensures (body.Some? && CheckPost(body.value).Ok?
             && (Given(body.value.idempotencyKey).None? || KeyLookup(old(t.rows), body.value.idempotencyKey.value).None?)
             && outage.Some?) ==>
              resp == ErrorResponse(500, outage.value)
    ensures (body.Some? && CheckPost(body.value).Ok?
             && (Given(body.value.idempotencyKey).None? || KeyLookup(old(t.rows), body.value.idempotencyKey.value).None?)
             && outage.None? && !body.value.date.value.JStr?) ==>
              resp == ErrorResponse(500, dateRejection)
    ensures (body.Some? && CheckPost(body.value).Ok? && Given(body.value.idempotencyKey).Some?
             && KeyLookup(old(t.rows), body.value.idempotencyKey.value).None?
             && rival.Some? && rival.value.idempotencyKey == Given(body.value.idempotencyKey)
             && outage.None? && body.value.date.value.JStr?) ==>
              && resp == ErrorResponse(500, Message(UniqueViolation))
              && |t.rows| == |old(t.rows)| + 1 && StoredFrom(rival.value, t.rows[|old(t.rows)|])
    // rows are only appended, at most two, and a 500 writes nothing of this request's
    ensures old(t.rows) <= t.rows && |t.rows| <= |old(t.rows)| + 2
    ensures resp.ErrorResponse? ==>
              && (rival.None? ==> t.rows == old(t.rows))
              && |t.rows| <= |old(t.rows)| + 1
              && (|t.rows| == |old(t.rows)| + 1 ==> rival.Some? && StoredFrom(rival.value, t.rows[|old(t.rows)|]))
    ensures resp.ExpenseResponse? ==> resp.expense in t.rows
  {
    if body.None? {
      return ErrorResponse(500, "Internal server error");
    }
    var checked := CheckPost(body.value);
    if checked.Err? {
      return ErrorResponse(400, checked.error);
    }
    resp := StoreChecked(t, checked.value, Given(body.value.idempotencyKey), createdAt, rival, outage, dateRejection);
  }

  /** A request without a key never reads the key column and stores the row with a null key. */
  lemma KeylessPostStoresNullKey(c: CheckedPost)
    ensures DraftOf(c, Given(None)).idempotencyKey.None?
    ensures DraftOf(c, Given(Some(""))).idempotencyKey.None?
  {
  }

  /**
   * The two variants store different numbers for the same posted amount: the
   * REST backend stores `Math.round(amount * 100)` paise, this function
   * `Math.round(amount)`. They agree only below half a paisa, where both store 0.
   */
  lemma AmountUnitsDiffer(data: ExpenseService.NewExpense, c: CheckedPost, restKey: string, key: Option<string>)
    requires data.amount == c.amount && c.amount > 0.0
    ensures ExpenseService.PayloadOf(data, restKey).amount == Round(100.0 * data.amount)
    ensures DraftOf(c, key).amount == Round(c.amount)
    ensures ExpenseService.PayloadOf(data, restKey).amount == DraftOf(c, key).amount <==> c.amount < 0.005
  {
    var x := c.amount;
    ToPaiseOfPositive(x);
    if x < 0.5 {
      RoundUnique(x, 0);
    } else {
      assert Round(x) as real <= x + 0.5 < x * 100.0 - 0.5;
    }
  }

  // ---- DELETE ----

  /** The DELETE handler: every row with the id is removed, and success is reported even when none had it. */
  method DeleteExpense(t: Table, id: Option<string>, outage: Option<string>) returns (resp: Response)
    requires t.Valid()
    modifies t
    ensures t.Valid()
    ensures Given(id).None? ==> resp == ErrorResponse(400, "Missing id parameter") && t.rows == old(t.rows)
    ensures Given(id).Some? && outage.Some? ==> resp == ErrorResponse(500, outage.value) && t.rows == old(t.rows)
    ensures Given(id).Some? && outage.None? ==> resp == DeleteOk && t.rows == WithoutId(old(t.rows), id.value)
    ensures Given(id).Some? && outage.None? && (forall e :: e in old(t.rows) ==> e.id != id.value) ==>
              resp == DeleteOk && t.rows == old(t.rows)
  {
    if Given(id).None? {
      return ErrorResponse(400, "Missing id parameter");
    }
    if outage.Some? {
      return ErrorResponse(500, outage.value);
    }
    ghost var before := t.rows;
    var _ := t.RemoveById(id.value);
    if forall e :: e in before ==> e.id != id.value {
      KeepAllFilter(before, OtherId(id.value));
    }
    resp := DeleteOk;
  }

  // ---- dispatch ----

  /**
   * `Deno.serve`'s handler: OPTIONS, DELETE, GET and POST, and 405 for any
   * other method. `outage` is the store's error on whichever query the
   * method runs.
   */
  method Serve(
    t: Table, m: HttpMethod, p: SearchParams, body: Option<PostBody>, createdAt: string,
    rival: Option<Draft>, outage: Option<string>, dateRejection: string)
    returns (resp: Response)
    requires t.Valid()
    modifies t
    ensures t.Valid()
    ensures m.Options? ==> resp == Preflight && t.rows == old(t.rows)
    ensures m.OtherMethod? ==> resp == ErrorResponse(405, "Method not allowed") && t.rows == old(t.rows)
    ensures m.Get? && outage.None? ==> resp == ListExpenses(old(t.rows), p) && t.rows == old(t.rows)
    ensures m.Get? && outage.Some? ==> resp == ErrorResponse(500, outage.value) && t.rows == old(t.rows)
    ensures m.Delete? && Given(p.id).Some? && outage.None? ==> resp == DeleteOk && t.rows == WithoutId(old(t.rows), p.id.value)
    ensures m.Delete? && Given(p.id).None? ==> resp == ErrorResponse(400, "Missing id parameter") && t.rows == old(t.rows)
    ensures m.Delete? && Given(p.id).Some? && outage.Some? ==> resp == ErrorResponse(500, outage.value) && t.rows == old(t.rows)
    ensures m.Post? && body.None? ==> resp == ErrorResponse(500, "Internal server error") && t.rows == old(t.rows)
    ensures m.Post? && body.Some? && CheckPost(body.value).Err? ==>
              resp == ErrorResponse(400, CheckPost(body.value).error) && t.rows == old(t.rows)
    ensures (m.Post? && body.Some? && CheckPost(body.value).Ok? && Given(body.value.idempotencyKey).Some?
             && KeyLookup(old(t.rows), body.value.idempotencyKey.value).Some?) ==>
              && resp == ExpenseResponse(200, KeyLookup(old(t.rows), body.value.idempotencyKey.value).value)
              && t.rows == old(t.rows)
    ensures (m.Post? && body.Some? && CheckPost(body.value).Ok?
             && (Given(body.value.idempotencyKey).None? || KeyLookup(old(t.rows), body.value.idempotencyKey.value).None?)
             && rival.None? && outage.None? && body.value.date.value.JStr?) ==>
              && resp.ExpenseResponse? && resp.status == 201
              && t.rows == old(t.rows) + [resp.expense]
              && StoredFrom(DraftOf(CheckPost(body.value).value, Given(body.value.idempotencyKey)), resp.expense)
    ensures (m.Post? && body.Some? && CheckPost(body.value).Ok?
             && (Given(body.value.idempotencyKey).None? || KeyLookup(old(t.rows), body.value.idempotencyKey.value).None?)
             && outage.Some?) ==>
              resp == ErrorResponse(500, outage.value)
    ensures (m.Post? && body.Some? && CheckPost(body.value).Ok?
             && (Given(body.value.idempotencyKey).None? || KeyLookup(old(t.rows), body.value.idempotencyKey.value).None?)
             && outage.None? && !body.value.date.value.JStr?) ==>
              resp == ErrorResponse(500, dateRejection)
    ensures (m.Post? && body.Some? && CheckPost(body.value).Ok?
             && (Given(body.value.idempotencyKey).None? || KeyLookup(old(t.rows), body.value.idempotencyKey.value).None?)
             && outage.None? && body.value.date.value.JStr?
             && (Given(body.value.idempotencyKey).None? || rival.None? || rival.value.idempotencyKey != Given(body.value.idempotencyKey))) ==>
              && resp.ExpenseResponse? && resp.status == 201
              && |t.rows| > |old(t.rows)| && t.rows[|t.rows| - 1] == resp.expense
              && StoredFrom(DraftOf(CheckPost(body.value).value, Given(body.value.idempotencyKey)), resp.expense)
    ensures (m.Post? && body.Some? && CheckPost(body.value).Ok?
             && (Given(body.value.idempotencyKey).None? || KeyLookup(old(t.rows), body.value.idempotencyKey.value).None?)
             && rival.Some? && (rival.value.idempotencyKey.None? || KeyLookup(old(t.rows), rival.value.idempotencyKey.value).None?)) ==>
              |t.rows| > |old(t.rows)| && StoredFrom(rival.value, t.rows[|old(t.rows)|])
    ensures (m.Post? && body.Some? && CheckPost(body.value).Ok? && Given(body.value.idempotencyKey).Some?
             && KeyLookup(old(t.rows), body.value.idempotencyKey.value).None?
             && rival.Some? && rival.value.idempotencyKey == Given(body.value.idempotencyKey)
             && outage.None? && body.value.date.value.JStr?) ==>
              && resp == ErrorResponse(500, Message(UniqueViolation))
              && |t.rows| == |old(t.rows)| + 1 && StoredFrom(rival.value, t.rows[|old(t.rows)|])
    // only a POST writes rows, and only by appending; a 500 writes nothing of this request's
    ensures !m.Post? && !m.Delete? ==> t.rows == old(t.rows)
    ensures m.Post? ==> old(t.rows) <= t.rows && |t.rows| <= |old(t.rows)| + 2
    ensures m.Post? && resp.ErrorResponse? ==>
              && (rival.None? ==> t.rows == old(t.rows))
              && |t.rows| <= |old(t.rows)| + 1
              && (|t.rows| == |old(t.rows)| + 1 ==> rival.Some? && StoredFrom(rival.value, t.rows[|old(t.rows)|]))
  {
    match m {
      case Options =>
        resp := Preflight;
      case Delete =>
        resp := DeleteExpense(t, p.id, outage);
      case Get =>
        if outage.Some? {
          resp := ErrorResponse(500, outage.value);
        } else {
          resp := ListExpenses(t.rows, p);
        }
      case Post =>
        resp := PostExpense(t, body, createdAt, rival, outage, dateRejection);
      case OtherMethod(_) =>
        resp := ErrorResponse(405, "Method not allowed");
    }
  }

  /** A GET answer holds at most 1000 rows and a total equal to the sum of exactly those rows. */
  lemma ListExpensesCorrect(rows: seq<Expense>, p: SearchParams)
    ensures var r := ListExpenses(rows, p);
      var q := Selection(p.category, p.sort, p.startDate, p.endDate);
      && r.ListResponse? && |r.expenses| <= MaxRows && r.total == Sum(r.expenses)
      && (forall e :: e in r.expenses ==> e in rows && Matches(q, e))
      && SortedByDate(r.expenses, p.sort == Some("oldest"))
  {
    SelectRowsCorrect(rows, Selection(p.category, p.sort, p.startDate, p.endDate));
  }
}

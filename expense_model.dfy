/**
 * The `expenses` table and the repository over it (backend/models/expenseModel.js).
 *
 * The table is an in-memory sequence of rows kept by a `Table` object; its
 * invariant is the store's uniqueness constraints: ids are unique and a
 * non-null idempotency key appears on at most one row. Inserts mint the id
 * and take the store's clock reading as a parameter; a failure of the store
 * itself (network, permissions) is an `outage` parameter.
 */
module ExpenseModel {
  import opened Wrappers
  import opened Text
  import opened Seqs

  /** A stored row. `amount` is whatever integer the writer stored (paise for the REST backend). */
  datatype Expense = Expense(
    id: string,
    amount: int,
    category: string,
    description: string,
    date: string,
    createdAt: string,
    idempotencyKey: Option<string>)

  /** What a writer hands to `insert`: a row without the columns the store fills in. */
  datatype Draft = Draft(amount: int, category: string, description: string, date: string, idempotencyKey: Option<string>)

  /** The failures the repository distinguishes: code `23505`, code `PGRST116`, and any other. */
  datatype StoreError = UniqueViolation | NoRows | Upstream(message: string)

  /** The PostgREST / Postgres error code of a failure. */
  function Code(e: StoreError): string
  {
    match e
    case UniqueViolation => "23505"
    case NoRows => "PGRST116"
    case Upstream(_) => ""
  }

  /** The error text the store reports with a failure. */
  function Message(e: StoreError): string
  {
    match e
    case UniqueViolation => "duplicate key value violates unique constraint"
    case NoRows => "JSON object requested, multiple (or no) rows returned"
    case Upstream(m) => m
  }

  /** `row` is what the store makes of `d`: every column of the draft copied unchanged. */
  predicate StoredFrom(d: Draft, row: Expense)
  {
    && row.amount == d.amount && row.category == d.category && row.description == d.description
    && row.date == d.date && row.idempotencyKey == d.idempotencyKey
  }

  // ---- the uniqueness constraints ----

  predicate KeysUnique(rows: seq<Expense>)
  {
    forall i, j :: 0 <= i < j < |rows| && rows[i].idempotencyKey.Some? ==> rows[i].idempotencyKey != rows[j].idempotencyKey
  }

  predicate IdsUnique(rows: seq<Expense>)
  {
    forall i, j :: 0 <= i < j < |rows| ==> rows[i].id != rows[j].id
  }

  /** The id the store gives its `n`-th row. */
  function MintId(n: nat): string
  {
    "exp-" + NatToString(n)
  }

  /** The counter a minted id was made from. */
  function IdNumber(id: string): Option<nat>
  {
    if |id| > 4 && id[..4] == "exp-" && AllDigits(id[4..]) then Some(ParseDigits(id[4..])) else None
  }

  lemma IdNumberOfMint(n: nat)
    ensures IdNumber(MintId(n)) == Some(n)
  {
    assert MintId(n)[4..] == NatToString(n);
    ParseNatToString(n);
  }

  // ---- lookups ----

  /** The first row carrying `key`. */
  function KeyLookup(rows: seq<Expense>, key: string): (r: Option<Expense>)
    ensures r.None? <==> forall e :: e in rows ==> e.idempotencyKey != Some(key)
    ensures r.Some? ==> r.value in rows && r.value.idempotencyKey == Some(key)
  {
    if rows == [] then None
    else if rows[0].idempotencyKey == Some(key) then Some(rows[0])
    else KeyLookup(rows[1..], key)
  }

  /** Under the key constraint the row found is the only row with that key. */
  lemma KeyLookupUnique(rows: seq<Expense>, key: string, e: Expense)
    requires KeysUnique(rows) && e in rows && e.idempotencyKey == Some(key)
    ensures KeyLookup(rows, key) == Some(e)
  {
    var f := KeyLookup(rows, key).value;
    var i :| 0 <= i < |rows| && rows[i] == e;
    var j :| 0 <= j < |rows| && rows[j] == f;
    if i < j {
      assert rows[i].idempotencyKey != rows[j].idempotencyKey;
    } else if j < i {
      assert rows[j].idempotencyKey != rows[i].idempotencyKey;
    }
  }

  function OtherId(id: string): Expense -> bool
  {
    (e: Expense) => e.id != id
  }

  function SameId(id: string): Expense -> bool
  {
    (e: Expense) => e.id == id
  }

  /** The table after `delete().eq("id", id)`: every other row, in order. */
  function WithoutId(rows: seq<Expense>, id: string): seq<Expense>
  {
    Filter(rows, OtherId(id))
  }

  /** The rows `delete().eq("id", id).select()` reports as deleted. */
  function WithId(rows: seq<Expense>, id: string): seq<Expense>
  {
    Filter(rows, SameId(id))
  }

  /** Ids are unique, so at most one row is deleted, and it is the row that had the id. */
  lemma {:induction false} WithIdAtMostOne(rows: seq<Expense>, id: string)
    requires IdsUnique(rows)
    ensures |WithId(rows, id)| <= 1
    ensures forall e :: e in WithId(rows, id) <==> e in rows && e.id == id
    decreases |rows|
  {
    if rows != [] {
      assert IdsUnique(rows[1..]) by {
        forall i, j | 0 <= i < j < |rows| - 1 ensures rows[1..][i].id != rows[1..][j].id {
          assert rows[1..][i] == rows[i + 1] && rows[1..][j] == rows[j + 1];
        }
      }
      WithIdAtMostOne(rows[1..], id);
      if rows[0].id == id {
        forall e | e in rows[1..] ensures e.id != id {
          var k :| 0 <= k < |rows| - 1 && rows[1..][k] == e;
          assert rows[k + 1] == e;
        }
        FilterNone(rows[1..], SameId(id));
      }
    }
  }

  /** Removing rows keeps both constraints. */
  lemma {:induction false} FilterKeepsUnique(rows: seq<Expense>, keep: Expense -> bool)
    requires KeysUnique(rows) && IdsUnique(rows)
    ensures KeysUnique(Filter(rows, keep)) && IdsUnique(Filter(rows, keep))
    decreases |rows|
  {
    if rows != [] {
      var tail := rows[1..];
      UniqueTail(rows);
      FilterKeepsUnique(tail, keep);
      var rest := Filter(tail, keep);
      if keep(rows[0]) {
        forall e | e in rest
          ensures e.id != rows[0].id && (rows[0].idempotencyKey.Some? ==> e.idempotencyKey != rows[0].idempotencyKey)
        {
          var k :| 0 <= k < |tail| && tail[k] == e;
          assert rows[k + 1] == e;
        }
        UniqueCons(rows[0], rest);
      } else {
        assert Filter(rows, keep) == rest;
      }
    }
  }

  lemma UniqueTail(rows: seq<Expense>)
    requires rows != [] && KeysUnique(rows) && IdsUnique(rows)
    ensures KeysUnique(rows[1..]) && IdsUnique(rows[1..])
  {
    var tail := rows[1..];
    forall i, j | 0 <= i < j < |tail| ensures tail[i].id != tail[j].id {
      assert tail[i] == rows[i + 1] && tail[j] == rows[j + 1];
    }
    forall i, j | 0 <= i < j < |tail| && tail[i].idempotencyKey.Some?
      ensures tail[i].idempotencyKey != tail[j].idempotencyKey
    {
      assert tail[i] == rows[i + 1] && tail[j] == rows[j + 1];
    }
  }

  lemma UniqueCons(x: Expense, rest: seq<Expense>)
    requires KeysUnique(rest) && IdsUnique(rest)
    requires forall e :: e in rest ==> e.id != x.id && (x.idempotencyKey.Some? ==> e.idempotencyKey != x.idempotencyKey)
    ensures KeysUnique([x] + rest) && IdsUnique([x] + rest)
  {
    var r := [x] + rest;
    forall i, j | 0 <= i < j < |r| ensures r[i].id != r[j].id {
      assert r[j] == rest[j - 1];
      if i > 0 { assert r[i] == rest[i - 1]; } else { assert r[j] in rest; }
    }
    forall i, j | 0 <= i < j < |r| && r[i].idempotencyKey.Some?
      ensures r[i].idempotencyKey != r[j].idempotencyKey
    {
      assert r[j] == rest[j - 1];
      if i > 0 { assert r[i] == rest[i - 1]; } else { assert r[j] in rest; }
    }
  }

  // ---- queries ----

  /** The store-level query `getExpenses` builds: optional filters and the direction of `order("date")`. */
  datatype Query = Query(category: Option<string>, startDate: Option<string>, endDate: Option<string>, ascending: bool)

  /** `eq("category")`, `gte("date")` and `lte("date")` for the filters that are present. */
  predicate Matches(q: Query, e: Expense)
  {
    && (q.category.Some? ==> e.category == q.category.value)
    && (q.startDate.Some? ==> LexLe(q.startDate.value, e.date))
    && (q.endDate.Some? ==> LexLe(e.date, q.endDate.value))
  }

  function MatchesQuery(q: Query): Expense -> bool
  {
    (e: Expense) => Matches(q, e)
  }

  /** The rows a query selects, in table order. */
  function Where(rows: seq<Expense>, q: Query): seq<Expense>
  {
    Filter(rows, MatchesQuery(q))
  }

  /** `a` may come before `b` in a result ordered by date in the given direction. */
  predicate InOrder(a: Expense, b: Expense, ascending: bool)
  {
    if ascending then LexLe(a.date, b.date) else LexLe(b.date, a.date)
  }

  predicate SortedByDate(rows: seq<Expense>, ascending: bool)
  {
    forall i, j :: 0 <= i < j < |rows| ==> InOrder(rows[i], rows[j], ascending)
  }

  lemma InOrderTotal(a: Expense, b: Expense, ascending: bool)
    ensures InOrder(a, b, ascending) || InOrder(b, a, ascending)
  {
    LexLeTotal(a.date, b.date);
  }

  lemma InOrderTransitive(a: Expense, b: Expense, c: Expense, ascending: bool)
    requires InOrder(a, b, ascending) && InOrder(b, c, ascending)
    ensures InOrder(a, c, ascending)
  {
    if ascending {
      LexLeTransitive(a.date, b.date, c.date);
    } else {
      LexLeTransitive(c.date, b.date, a.date);
    }
  }

  /** Places `x` before the first row it may precede. */
  function InsertByDate(x: Expense, rows: seq<Expense>, ascending: bool): seq<Expense>
  {
    if rows == [] then [x]
    else if InOrder(x, rows[0], ascending) then [x] + rows
    else [rows[0]] + InsertByDate(x, rows[1..], ascending)
  }

  /**
   * `order("date", { ascending })`. The store leaves the order of rows with
   * equal dates unspecified; this definition keeps their table order.
   */
  function SortByDate(rows: seq<Expense>, ascending: bool): seq<Expense>
  {
    if rows == [] then [] else InsertByDate(rows[0], SortByDate(rows[1..], ascending), ascending)
  }

  lemma SortedCons(x: Expense, rows: seq<Expense>, ascending: bool)
    requires SortedByDate(rows, ascending)
    requires forall k :: 0 <= k < |rows| ==> InOrder(x, rows[k], ascending)
    ensures SortedByDate([x] + rows, ascending)
  {
    var r := [x] + rows;
    forall i, j | 0 <= i < j < |r| ensures InOrder(r[i], r[j], ascending) {
      if i == 0 {
        assert r[j] == rows[j - 1];
      } else {
        assert r[i] == rows[i - 1] && r[j] == rows[j - 1];
      }
    }
  }

  lemma SortedTail(rows: seq<Expense>, ascending: bool)
    requires rows != [] && SortedByDate(rows, ascending)
    ensures SortedByDate(rows[1..], ascending)
  {
    var tail := rows[1..];
    forall i, j | 0 <= i < j < |tail| ensures InOrder(tail[i], tail[j], ascending) {
      assert tail[i] == rows[i + 1] && tail[j] == rows[j + 1];
    }
  }

  lemma {:induction false} InsertByDatePermutes(x: Expense, rows: seq<Expense>, ascending: bool)
    ensures multiset(InsertByDate(x, rows, ascending)) == multiset(rows) + multiset{x}
    decreases |rows|
  {
    if rows != [] && !InOrder(x, rows[0], ascending) {
      InsertByDatePermutes(x, rows[1..], ascending);
      assert rows == [rows[0]] + rows[1..];
    }
  }

  lemma {:induction false} InsertByDateSorted(x: Expense, rows: seq<Expense>, ascending: bool)
    requires SortedByDate(rows, ascending)
    ensures SortedByDate(InsertByDate(x, rows, ascending), ascending)
    decreases |rows|
  {
    if rows == [] {
    } else if InOrder(x, rows[0], ascending) {
      forall k | 0 <= k < |rows| ensures InOrder(x, rows[k], ascending) {
        if k > 0 {
          InOrderTransitive(x, rows[0], rows[k], ascending);
        }
      }
      SortedCons(x, rows, ascending);
    } else {
      InOrderTotal(x, rows[0], ascending);
      var tail := rows[1..];
      SortedTail(rows, ascending);
      InsertByDateSorted(x, tail, ascending);
      InsertByDatePermutes(x, tail, ascending);
      var rest := InsertByDate(x, tail, ascending);
      forall k | 0 <= k < |rest| ensures InOrder(rows[0], rest[k], ascending) {
        assert rest[k] in multiset(rest);
        if rest[k] != x {
          assert rest[k] in multiset(tail);
          var m :| 0 <= m < |tail| && tail[m] == rest[k];
          assert rows[m + 1] == rest[k];
        }
      }
      SortedCons(rows[0], rest, ascending);
    }
  }

  /** Sorting by date yields a date-ordered permutation of its input. */
  lemma SortByDateCorrect(rows: seq<Expense>, ascending: bool)
    ensures SortedByDate(SortByDate(rows, ascending), ascending)
    ensures multiset(SortByDate(rows, ascending)) == multiset(rows)
  {
    SortByDateSorted(rows, ascending);
    SortByDatePermutes(rows, ascending);
  }

  lemma {:induction false} SortByDateSorted(rows: seq<Expense>, ascending: bool)
    ensures SortedByDate(SortByDate(rows, ascending), ascending)
    decreases |rows|
  {
    if rows != [] {
      SortByDateSorted(rows[1..], ascending);
      InsertByDateSorted(rows[0], SortByDate(rows[1..], ascending), ascending);
    }
  }

  lemma {:induction false} SortByDatePermutes(rows: seq<Expense>, ascending: bool)
    ensures multiset(SortByDate(rows, ascending)) == multiset(rows)
    decreases |rows|
  {
    if rows != [] {
      SortByDatePermutes(rows[1..], ascending);
      InsertByDatePermutes(rows[0], SortByDate(rows[1..], ascending), ascending);
      assert rows == [rows[0]] + rows[1..];
    }
  }

  /** `select("*")` with the query's filters and `order("date")`. */
  function RunQuery(rows: seq<Expense>, q: Query): seq<Expense>
  {
    SortByDate(Where(rows, q), q.ascending)
  }

  /**
   * A query returns exactly the matching rows (each as often as it is stored),
   * ordered by date in the query's direction.
   */
  lemma RunQueryCorrect(rows: seq<Expense>, q: Query)
    ensures SortedByDate(RunQuery(rows, q), q.ascending)
    ensures forall e :: multiset(RunQuery(rows, q))[e] == if Matches(q, e) then multiset(rows)[e] else 0
    ensures forall e :: e in RunQuery(rows, q) <==> e in rows && Matches(q, e)
  {
    SortByDateCorrect(Where(rows, q), q.ascending);
    forall e ensures multiset(RunQuery(rows, q))[e] == if Matches(q, e) then multiset(rows)[e] else 0 {
      FilterMultiset(rows, MatchesQuery(q), e);
    }
    forall e ensures e in RunQuery(rows, q) <==> e in rows && Matches(q, e) {
      assert e in RunQuery(rows, q) <==> e in multiset(RunQuery(rows, q));
    }
  }

  /** The sum of the amounts (`reduce((sum, item) => sum + item.amount, 0)`). */
  function Sum(rows: seq<Expense>): int
  {
    if rows == [] then 0 else rows[0].amount + Sum(rows[1..])
  }

  lemma {:induction false} SumAppend(a: seq<Expense>, b: seq<Expense>)
    ensures Sum(a + b) == Sum(a) + Sum(b)
    decreases |a|
  {
    if a == [] {
      assert a + b == b;
    } else {
      assert (a + b)[1..] == a[1..] + b;
      SumAppend(a[1..], b);
    }
  }

  /** The total does not depend on the order of the rows. */
  lemma {:induction false} SumPermutation(a: seq<Expense>, b: seq<Expense>)
    requires multiset(a) == multiset(b)
    ensures Sum(a) == Sum(b)
    decreases |a|
  {
    if a != [] {
      assert a[0] in multiset(b);
      var k :| 0 <= k < |b| && b[k] == a[0];
      RemoveFromPermutation(a, b, k);
      SumPermutation(a[1..], b[..k] + b[k + 1..]);
      SumRemove(b, k);
    }
  }

  lemma RemoveFromPermutation(a: seq<Expense>, b: seq<Expense>, k: nat)
    requires a != [] && multiset(a) == multiset(b) && k < |b| && b[k] == a[0]
    ensures multiset(a[1..]) == multiset(b[..k] + b[k + 1..])
  {
    assert b == b[..k] + [b[k]] + b[k + 1..];
    assert a == [a[0]] + a[1..];
    assert multiset(b) == multiset(b[..k]) + multiset{b[k]} + multiset(b[k + 1..]);
    assert multiset(a) == multiset{a[0]} + multiset(a[1..]);
    assert multiset(b[..k] + b[k + 1..]) == multiset(b[..k]) + multiset(b[k + 1..]);
    calc {
      multiset(a[1..]);
      multiset(a) - multiset{a[0]};
      multiset(b) - multiset{b[k]};
      multiset(b[..k] + b[k + 1..]);
    }
  }

  lemma SumRemove(b: seq<Expense>, k: nat)
    requires k < |b|
    ensures Sum(b) == b[k].amount + Sum(b[..k] + b[k + 1..])
  {
    var left, right := b[..k], b[k + 1..];
    assert b == left + [b[k]] + right;
    SumAppend(left + [b[k]], right);
    SumAppend(left, [b[k]]);
    SumAppend(left, right);
    assert Sum([b[k]]) == b[k].amount;
  }

  /** The filters the REST controller passes down; `sort` already defaulted to "desc". */
  datatype Filters = Filters(category: Option<string>, sort: string, startDate: Option<string>, endDate: Option<string>)

  /** A query parameter that is present and not the empty string (JavaScript truthiness). */
  function Given(p: Option<string>): Option<string>
  {
    if p.Some? && p.value != "" then p else None
  }

  /** `param || fallback`: the parameter when it is truthy, else the fallback. */
  function Or(p: Option<string>, fallback: string): string
  {
    if Given(p).Some? then p.value else fallback
  }

  /** The query `getExpenses` builds: each filter only when truthy, ascending only for "asc". */
  function QueryOf(f: Filters): Query
  {
    Query(Given(f.category), Given(f.startDate), Given(f.endDate), f.sort == "asc")
  }

  /** What `getExpenses` returns: the rows and their total in stored units. */
  datatype Listing = Listing(expenses: seq<Expense>, total: int)

  /** `getExpenses(filters)` over a given sequence of rows. */
  function ListingOf(rows: seq<Expense>, f: Filters): Listing
  {
    var data := RunQuery(rows, QueryOf(f));
    Listing(data, Sum(data))
  }

  /**
   * Every listed row passes the filters that are given (category equality,
   * inclusive date bounds), every stored row that passes is listed, the list
   * is ordered by date ascending exactly when `sort` is "asc", and the total
   * is the sum over exactly the filtered rows, not the whole table.
   */
  lemma ListingOfCorrect(rows: seq<Expense>, f: Filters)
    ensures var r := ListingOf(rows, f);
      && (forall e :: e in r.expenses ==>
            && (Given(f.category).Some? ==> e.category == f.category.value)
            && (Given(f.startDate).Some? ==> LexLe(f.startDate.value, e.date))
            && (Given(f.endDate).Some? ==> LexLe(e.date, f.endDate.value)))
      && (forall e :: e in rows && Matches(QueryOf(f), e) ==> e in r.expenses)
      && SortedByDate(r.expenses, f.sort == "asc")
      && r.total == Sum(r.expenses) == Sum(Where(rows, QueryOf(f)))
  {
    var q := QueryOf(f);
    RunQueryCorrect(rows, q);
    SortByDateCorrect(Where(rows, q), q.ascending);
    SumPermutation(RunQuery(rows, q), Where(rows, q));
  }

  /**
   * The expenses table. `rows` is its content in insertion order; `nextId`
   * is the counter ids are minted from.
   */
  class Table {
    var rows: seq<Expense>
    var nextId: nat

    /** The store's constraints: unique ids, unique non-null keys, and every id minted earlier. */
    ghost predicate Valid()
      reads this
    {
      && KeysUnique(rows) && IdsUnique(rows)
      && forall e :: e in rows ==> IdNumber(e.id).Some? && IdNumber(e.id).value < nextId
    }

    constructor ()
      ensures Valid() && rows == []
    {
      rows := [];
      nextId := 0;
    }

    /** `findByIdempotencyKey(key)`: the row with that key, or null ("no rows" is not an error). */
    function FindByIdempotencyKey(key: string): (r: Option<Expense>)
      reads this
      requires Valid()
      ensures r.None? <==> forall e :: e in rows ==> e.idempotencyKey != Some(key)
      ensures r.Some? ==> r.value in rows && r.value.idempotencyKey == Some(key)
      ensures forall e :: e in rows && e.idempotencyKey == Some(key) ==> r == Some(e)
    {
      var r := KeyLookup(rows, key);
      forall e | e in rows && e.idempotencyKey == Some(key) ensures r == Some(e) {
        KeyLookupUnique(rows, key, e);
      }
      r
    }

    /** `getExpenses(filters)` against the current table. */
    function GetExpenses(f: Filters): (r: Listing)
      reads this
      ensures r.total == Sum(r.expenses)
      ensures forall e :: e in r.expenses <==> e in rows && Matches(QueryOf(f), e)
      ensures SortedByDate(r.expenses, f.sort == "asc")
    {
      RunQueryCorrect(rows, QueryOf(f));
      ListingOf(rows, f)
    }

    /**
     * `insert([draft]).select().single()`: the row with a freshly minted id and
     * the store's clock reading, unless the store is down or the draft's key is
     * already taken (`23505`); a failed insert writes nothing.
     */
    method Insert(d: Draft, createdAt: string, outage: Option<string>) returns (r: Result<Expense, StoreError>)
      requires Valid()
      modifies this
      ensures Valid()
      ensures outage.Some? ==> r == Err(Upstream(outage.value))
      ensures (outage.None? && d.idempotencyKey.Some? && KeyLookup(old(rows), d.idempotencyKey.value).Some?)
              ==> r == Err(UniqueViolation)
      ensures (outage.None? && (d.idempotencyKey.None? || KeyLookup(old(rows), d.idempotencyKey.value).None?))
              ==> r.Ok?
      ensures r.Err? ==> rows == old(rows)
      ensures r.Ok? ==> && rows == old(rows) + [r.value]
                        && StoredFrom(d, r.value) && r.value.createdAt == createdAt
                        && forall e :: e in old(rows) ==> e.id != r.value.id
    {
      if outage.Some? {
        return Err(Upstream(outage.value));
      }
      if d.idempotencyKey.Some? && KeyLookup(rows, d.idempotencyKey.value).Some? {
        return Err(UniqueViolation);
      }
      var id := MintId(nextId);
      IdNumberOfMint(nextId);
      var row := Expense(id, d.amount, d.category, d.description, d.date, createdAt, d.idempotencyKey);
      var before := rows;
      rows := rows + [row];
      nextId := nextId + 1;
      r := Ok(row);
      forall i, j | 0 <= i < j < |rows| ensures rows[i].id != rows[j].id {
        if j == |rows| - 1 {
          assert rows[i] in before;
        } else {
          assert rows[i] == before[i] && rows[j] == before[j];
        }
      }
      forall i, j | 0 <= i < j < |rows| && rows[i].idempotencyKey.Some?
        ensures rows[i].idempotencyKey != rows[j].idempotencyKey
      {
        if j == |rows| - 1 {
          assert rows[i] in before;
        } else {
          assert rows[i] == before[i] && rows[j] == before[j];
        }
      }
    }

    /** `delete().eq("id", id).select()`: removes every row with the id and reports them. */
    method RemoveById(id: string) returns (removed: seq<Expense>)
      requires Valid()
      modifies this
      ensures Valid()
      ensures rows == WithoutId(old(rows), id)
      ensures removed == WithId(old(rows), id) && |removed| <= 1
      ensures forall e :: e in removed <==> e in old(rows) && e.id == id
    {
      removed := WithId(rows, id);
      WithIdAtMostOne(rows, id);
      FilterKeepsUnique(rows, OtherId(id));
      rows := WithoutId(rows, id);
    }

    /**
     * `deleteExpense(id)`: `delete().eq("id", id).select().single()` — the
     * snapshot of the deleted row, or `PGRST116` when no row had the id.
     * `outage` is any other error the store reports (it is down, or the id
     * is not a value the id column accepts): it is thrown and nothing is
     * removed.
     */
    method DeleteExpense(id: string, outage: Option<string>) returns (r: Result<Expense, StoreError>)
      requires Valid()
      modifies this
      ensures Valid()
      ensures outage.Some? ==> r == Err(Upstream(outage.value)) && rows == old(rows)
      ensures outage.None? ==> rows == WithoutId(old(rows), id)
      ensures outage.None? ==> (r.Ok? <==> exists e :: e in old(rows) && e.id == id)
      ensures r.Ok? ==> r.value in old(rows) && r.value.id == id && r.value !in rows
      ensures outage.None? && r.Err? ==> r.error == NoRows && rows == old(rows)
    {
      if outage.Some? {
        return Err(Upstream(outage.value));
      }
      var removed := RemoveById(id);
      if |removed| == 1 {
        r := Ok(removed[0]);
      } else {
        r := Err(NoRows);
        assert removed == [];
        assert forall e :: e in old(rows) ==> OtherId(id)(e);
        KeepAllFilter(old(rows), OtherId(id));
      }
    }
  }

  /** A filter that keeps everything is the identity. */
  lemma {:induction false} KeepAllFilter(rows: seq<Expense>, keep: Expense -> bool)
    requires forall e :: e in rows ==> keep(e)
    ensures Filter(rows, keep) == rows
    decreases |rows|
  {
    if rows != [] {
      KeepAllFilter(rows[1..], keep);
      assert rows == [rows[0]] + rows[1..];
    }
  }
}

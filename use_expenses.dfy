/**
 * The client's expense state (frontend/src/hooks/useExpenses.ts): the list
 * and total on screen, the loading and adding flags, the last add error and
 * the chosen filter and sort order, with the operations that change them.
 * Every network answer is a parameter of the operation that awaits it, and
 * `crypto.randomUUID()` is the caller-supplied `freshKey`.
 */
module UseExpenses {
  import opened Wrappers
  import opened Seqs
  import opened Categories
  import opened ExpenseModel
  import opened ExpenseService
  import opened ExpenseController

  /** One `name=value` pair of a `URLSearchParams`. */
  datatype Param = Param(name: string, value: string)

  /** `params.get(name)`: the value of the first pair with that name. */
  function ParamValue(params: seq<Param>, name: string): (r: Option<string>)
    ensures r.Some? <==> exists i :: 0 <= i < |params| && params[i].name == name
  {
    if params == [] then None
    else if params[0].name == name then Some(params[0].value)
    else ParamValue(params[1..], name)
  }

  /** The sort parameter the client sends for a sort order. */
  function SortParam(s: SortOrder): string
  {
    if s == Oldest then "asc" else "desc"
  }

  /**
   * The query of a list fetch: the category only when one is chosen, then
   * the sort, "asc" for oldest first and "desc" otherwise.
   */
  function FetchParams(cat: CategoryFilter, s: SortOrder): (r: seq<Param>)
    ensures 1 <= |r| <= 2
    ensures ParamValue(r, "category") == (if cat.Only? then Some(Tag(cat.category)) else None)
    ensures ParamValue(r, "sort") == Some(SortParam(s))
  {
    (if cat.Only? then [Param("category", Tag(cat.category))] else []) + [Param("sort", SortParam(s))]
  }

  /** How the REST backend reads a query string of the client. */
  function RequestOf(params: seq<Param>): RequestQuery
  {
    RequestQuery(ParamValue(params, "category"), ParamValue(params, "sort"), None, None, None)
  }

  /**
   * The backend answers a client fetch with exactly the chosen category's rows
   * (all rows for "all"), oldest first exactly for `Oldest`, and a total that
   * is the sum of the listed amounts.
   */
  lemma FetchParamsServed(t: Table, cat: CategoryFilter, s: SortOrder)
    ensures var q := RequestOf(FetchParams(cat, s));
      && QueryOf(FiltersOf(q)) == Query(if cat.Only? then Some(Tag(cat.category)) else None, None, None, s == Oldest)
      && GetExpenses(t, q).total == ShownSum(GetExpenses(t, q).expenses)
  {
    var q := RequestOf(FetchParams(cat, s));
    SortDefault(q);
    GetExpensesCorrect(t, q);
  }

  /** What a list fetch ends with: the parsed body's two fields, or a failure (not ok, unreachable, or not JSON). */
  datatype FetchResponse = Listed(expenses: Option<seq<ShownExpense>>, total: Option<real>) | FetchFailed

  /** The list a successful fetch shows: `result.expenses || []`. */
  function ListedExpenses(r: FetchResponse): seq<ShownExpense>
    requires r.Listed?
  {
    if r.expenses.Some? then r.expenses.value else []
  }

  /** The total a successful fetch shows: `result.total || 0`. */
  function ListedTotal(r: FetchResponse): real
    requires r.Listed?
  {
    if r.total.Some? then r.total.value else 0.0
  }

  /** A response whose total is the sum of its rows, as the backend's list replies are. */
  predicate Consistent(r: FetchResponse)
  {
    r.Listed? ==> ListedTotal(r) == ShownSum(ListedExpenses(r))
  }

  /** The backend's list reply, as the client receives it, is consistent. */
  lemma ServedResponseConsistent(t: Table, cat: CategoryFilter, s: SortOrder)
    ensures var reply := GetExpenses(t, RequestOf(FetchParams(cat, s)));
      Consistent(Listed(Some(reply.expenses), Some(reply.total)))
  {
    FetchParamsServed(t, cat, s);
  }

  /** The body of an add request. */
  datatype PostRequest = PostRequest(
    idempotencyKey: string,
    amount: real,
    category: string,
    description: string,
    /** the calendar day the body's `date` names, counted in days from 1970-01-01 */
    day: int)

  /**
   * What an add ends with: created (`response.ok`), refused with the
   * body's `message` if it has one, or thrown before an answer was read
   * (network failure or a body that is not JSON) with the error's message.
   */
  datatype AddResponse = Created | Refused(reason: Option<string>) | Thrown(error: string)

  /** The message an add failure is rethrown with and shown as `addError`. */
  function AddFailure(r: AddResponse): string
    requires !r.Created?
  {
    match r
    case Refused(m) => Or(m, "Failed to add expense")
    case Thrown(m) => if m != "" then m else "Failed to add expense. Please try again."
  }

  const MsPerDay: int := 86_400_000
  const MsPerMinute: int := 60_000

  /**
   * The instant the date picker yields for a calendar day: that day's local
   * midnight, in a time zone `offsetMinutes` east of UTC.
   */
  function LocalMidnight(day: int, offsetMinutes: int): Instant
  {
    day * MsPerDay - offsetMinutes * MsPerMinute
  }

  /** The day `d.toISOString().split("T")[0]` names: the UTC calendar day of the instant. */
  function UtcDay(t: Instant): int
  {
    t / MsPerDay
  }

  /** The calendar day of an instant on the user's own clock. */
  function LocalDay(t: Instant, offsetMinutes: int): int
  {
    (t + offsetMinutes * MsPerMinute) / MsPerDay
  }

  /**
   * As written, the add request names the UTC day of the picked date, which
   * east of UTC (India is 330 minutes east) is the day before the one picked.
   */
  lemma UtcDayOfPickedDate(day: int, offsetMinutes: int)
    requires 0 < offsetMinutes < 24 * 60
    ensures UtcDay(LocalMidnight(day, offsetMinutes)) == day - 1
  {
    var t := LocalMidnight(day, offsetMinutes);
    assert (day - 1) * MsPerDay <= t < day * MsPerDay;
  }

  /** Read on the user's own clock, the picked date is the day picked, in every time zone. */
  lemma LocalDayOfPickedDate(day: int, offsetMinutes: int)
    ensures LocalDay(LocalMidnight(day, offsetMinutes), offsetMinutes) == day
  {
    assert LocalMidnight(day, offsetMinutes) + offsetMinutes * MsPerMinute == day * MsPerDay;
  }

  /** The state `useExpenses` keeps. */
  class ExpensesHook {
    var expenses: seq<ShownExpense>
    var total: real
    var isLoading: bool
    var isAdding: bool
    var addError: Option<string>
    var filterCategory: CategoryFilter
    var sortOrder: SortOrder

    /** The total on screen is the sum of the rows on screen. */
    predicate TotalIsSum()
      reads this
    {
      total == ShownSum(expenses)
    }

    /** `hasExpenses`. */
    function HasExpenses(): bool
      reads this
    {
      |expenses| > 0
    }

    /** `isFiltered`. */
    function IsFiltered(): bool
      reads this
    {
      filterCategory != All
    }

    /** The first render: nothing listed, loading, every category, newest first. */
    constructor()
      ensures expenses == [] && total == 0.0 && TotalIsSum()
      ensures isLoading && !isAdding && addError.None?
      ensures filterCategory == All && sortOrder == Newest
      ensures !HasExpenses() && !IsFiltered()
    {
      expenses := [];
      total := 0.0;
      isLoading := true;
      isAdding := false;
      addError := None;
      filterCategory := All;
      sortOrder := Newest;
    }

    /**
     * `fetchExpenses(category?, sort?)`: ask for the given (or else the
     * current) category and order; show what came back, or keep the screen
     * as it was when the fetch failed; loading is over either way.
     */
    method FetchExpenses(category: Option<CategoryFilter>, sort: Option<SortOrder>, response: FetchResponse)
      returns (query: seq<Param>)
      modifies this
      ensures query == FetchParams(if category.Some? then category.value else old(filterCategory),
                                   if sort.Some? then sort.value else old(sortOrder))
      ensures response.Listed? ==> expenses == ListedExpenses(response) && total == ListedTotal(response)
      ensures response.Listed? ==> (HasExpenses() <==> ListedExpenses(response) != [])
      ensures response.FetchFailed? ==> expenses == old(expenses) && total == old(total)
      ensures Consistent(response) && old(TotalIsSum()) ==> TotalIsSum()
      ensures !isLoading
      ensures isAdding == old(isAdding) && addError == old(addError)
      ensures filterCategory == old(filterCategory) && sortOrder == old(sortOrder)
    {
      isLoading := true;
      var cat := if category.Some? then category.value else filterCategory;
      var s := if sort.Some? then sort.value else sortOrder;
      query := [];
      if cat.Only? {
        query := query + [Param("category", Tag(cat.category))];
      }
      query := query + [Param("sort", SortParam(s))];
      if response.Listed? {
        expenses := if response.expenses.Some? then response.expenses.value else [];
        total := if response.total.Some? then response.total.value else 0.0;
      }
      isLoading := false;
    }

    /** `setFilterCategory`: remember the category and fetch it in the current order. */
    method HandleFilterChange(value: CategoryFilter, response: FetchResponse) returns (query: seq<Param>)
      modifies this
      ensures filterCategory == value && sortOrder == old(sortOrder)
      ensures IsFiltered() <==> value.Only?
      ensures query == FetchParams(value, old(sortOrder))
      ensures response.Listed? ==> expenses == ListedExpenses(response) && total == ListedTotal(response)
      ensures response.FetchFailed? ==> expenses == old(expenses) && total == old(total)
      ensures !isLoading && isAdding == old(isAdding) && addError == old(addError)
    {
      filterCategory := value;
      query := FetchExpenses(Some(value), Some(sortOrder), response);
    }

    /** `setSortOrder`: remember the order and fetch the current category in it. */
    method HandleSortChange(value: SortOrder, response: FetchResponse) returns (query: seq<Param>)
      modifies this
      ensures sortOrder == value && filterCategory == old(filterCategory)
      ensures query == FetchParams(old(filterCategory), value)
      ensures response.Listed? ==> expenses == ListedExpenses(response) && total == ListedTotal(response)
      ensures response.FetchFailed? ==> expenses == old(expenses) && total == old(total)
      ensures !isLoading && isAdding == old(isAdding) && addError == old(addError)
    {
      sortOrder := value;
      query := FetchExpenses(Some(filterCategory), Some(value), response);
    }

    /**
     * `addExpense(data)`: post the form under a fresh idempotency key and,
     * once created, refetch the current list; on failure remember the
     * message and rethrow it (`Err`). The body's date is the picked day on
     * the user's clock (see `LocalDayOfPickedDate`).
     */
    method AddExpense(data: ExpenseFormData, freshKey: string, offsetMinutes: int,
                      response: AddResponse, refetch: FetchResponse)
      returns (request: PostRequest, outcome: Result<(), string>, query: Option<seq<Param>>)
      modifies this
      ensures request == PostRequest(freshKey, data.amount, Tag(data.category), data.description,
                                     LocalDay(data.date, offsetMinutes))
      ensures !isAdding
      ensures filterCategory == old(filterCategory) && sortOrder == old(sortOrder)
      ensures response.Created? ==>
        && outcome.Ok? && addError.None?
        && query == Some(FetchParams(old(filterCategory), old(sortOrder)))
        && (refetch.Listed? ==> expenses == ListedExpenses(refetch) && total == ListedTotal(refetch))
        && (refetch.FetchFailed? ==> expenses == old(expenses) && total == old(total))
        && !isLoading
      ensures !response.Created? ==>
        && outcome == Err(AddFailure(response)) && addError == Some(AddFailure(response))
        && query.None?
        && expenses == old(expenses) && total == old(total) && isLoading == old(isLoading)
    {
      isAdding := true;
      addError := None;
      request := PostRequest(freshKey, data.amount, Tag(data.category), data.description,
                             LocalDay(data.date, offsetMinutes));
      if response.Created? {
        var q := FetchExpenses(None, None, refetch);
        query := Some(q);
        outcome := Ok(());
      } else {
        var message := AddFailure(response);
        addError := Some(message);
        query := None;
        outcome := Err(message);
      }
      isAdding := false;
    }

    /**
     * `deleteExpense(id)`: once the backend confirms, drop the rows with that
     * id, keeping the order of the rest, and total what remains; on failure
     * nothing changes.
     */
    method DeleteExpense(id: string, confirmed: bool)
      modifies this
      ensures confirmed ==> expenses == Filter(old(expenses), OtherShownId(id)) && TotalIsSum()
      ensures confirmed ==> forall e :: e in expenses <==> e in old(expenses) && e.id != id
      ensures !confirmed ==> expenses == old(expenses) && total == old(total)
      ensures isLoading == old(isLoading) && isAdding == old(isAdding) && addError == old(addError)
      ensures filterCategory == old(filterCategory) && sortOrder == old(sortOrder)
    {
      if confirmed {
        var updated := Filter(expenses, OtherShownId(id));
        expenses := updated;
        total := ShownSum(updated);
      }
    }
  }

  /** `e.id !== id`. */
  function OtherShownId(id: string): ShownExpense -> bool
  {
    (e: ShownExpense) => e.id != id
  }

  /** Dropping rows takes their amounts off the total. */
  lemma {:induction false} ShownSumFilter(xs: seq<ShownExpense>, id: string)
    ensures ShownSum(Filter(xs, OtherShownId(id))) + ShownSum(Filter(xs, SameShownId(id))) == ShownSum(xs)
  {
    if xs != [] {
      ShownSumFilter(xs[1..], id);
      ShownSumAppend(if OtherShownId(id)(xs[0]) then [xs[0]] else [], Filter(xs[1..], OtherShownId(id)));
      ShownSumAppend(if SameShownId(id)(xs[0]) then [xs[0]] else [], Filter(xs[1..], SameShownId(id)));
    }
  }

  /** `e.id === id`. */
  function SameShownId(id: string): ShownExpense -> bool
  {
    (e: ShownExpense) => e.id == id
  }

  lemma {:induction false} ShownSumAppend(xs: seq<ShownExpense>, ys: seq<ShownExpense>)
    ensures ShownSum(xs + ys) == ShownSum(xs) + ShownSum(ys)
  {
    if xs != [] {
      assert (xs + ys)[1..] == xs[1..] + ys;
      ShownSumAppend(xs[1..], ys);
    } else {
      assert xs + ys == ys;
    }
  }

  /**
   * A confirmed delete of a consistent screen lowers the total by exactly the
   * amounts of the rows it removed.
   */
  lemma DeleteLowersTotal(xs: seq<ShownExpense>, id: string)
    ensures ShownSum(Filter(xs, OtherShownId(id))) == ShownSum(xs) - ShownSum(Filter(xs, SameShownId(id)))
  {
    ShownSumFilter(xs, id);
  }
}

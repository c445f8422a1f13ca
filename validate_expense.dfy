/**
 * The REST backend's request validator (backend/middlewares/validateExpense.js):
 * the create body's zod schema as an accept/reject predicate, the issue
 * messages it reports, and the middleware's 400-or-`next` decision.
 * `Date.parse` is the caller-supplied `dateParses`.
 */
module ValidateExpense {
  import opened Wrappers
  import opened Json
  import opened ExpenseService

  /** The fields of a create body; `None` is a missing field. */
  datatype Body = Body(amount: Option<Value>, category: Option<Value>, description: Option<Value>, date: Option<Value>)

  /** The amount check: coerce with `Number`, then require a number greater than 0. */
  function AmountIssues(v: Option<Value>, parseNumber: string -> Option<real>): (r: seq<string>)
    ensures |r| <= 1
    ensures r == [] <==> ToNumber(v, parseNumber).Some? && ToNumber(v, parseNumber).value > 0.0
  {
    match ToNumber(v, parseNumber)
    case None => ["Expected number, received nan"]
    case Some(n) => if n > 0.0 then [] else ["Amount must be greater than 0"]
  }

  /** A required string with at least one character. */
  function TextIssues(v: Option<Value>, requiredMessage: string, emptyMessage: string): (r: seq<string>)
    ensures |r| <= 1
    ensures r == [] <==> v.Some? && v.value.JStr? && |v.value.s| >= 1
    ensures v.None? ==> r == [requiredMessage]
    ensures v.Some? && v.value.JStr? && v.value.s == "" ==> r == [emptyMessage]
  {
    match v
    case None => [requiredMessage]
    case Some(JStr(s)) => if |s| >= 1 then [] else [emptyMessage]
    case Some(other) => ["Expected string, received " + TypeName(other)]
  }

  /** A required string that `Date.parse` accepts. */
  function DateIssues(v: Option<Value>, dateParses: string -> bool): (r: seq<string>)
    ensures |r| <= 1
    ensures r == [] <==> v.Some? && v.value.JStr? && dateParses(v.value.s)
    ensures v.None? ==> r == ["Date is required"]
  {
    match v
    case None => ["Date is required"]
    case Some(JStr(s)) => if dateParses(s) then [] else ["Date must be a valid ISO string"]
    case Some(other) => ["Expected string, received " + TypeName(other)]
  }

  /** Every issue of a body, one per failing field, in the schema's field order. */
  function Issues(b: Body, parseNumber: string -> Option<real>, dateParses: string -> bool): seq<string>
  {
    AmountIssues(b.amount, parseNumber)
    + TextIssues(b.category, "Category is required", "Category cannot be empty")
    + TextIssues(b.description, "Description is required", "Description cannot be empty")
    + DateIssues(b.date, dateParses)
  }

  /** `expenseSchema` as a predicate: what the schema lets through. */
  predicate Accepts(b: Body, parseNumber: string -> Option<real>, dateParses: string -> bool)
  {
    && ToNumber(b.amount, parseNumber).Some? && ToNumber(b.amount, parseNumber).value > 0.0
    && b.category.Some? && b.category.value.JStr? && b.category.value.s != ""
    && b.description.Some? && b.description.value.JStr? && b.description.value.s != ""
    && b.date.Some? && b.date.value.JStr? && dateParses(b.date.value.s)
  }

  /** The middleware's decision: hand on to the next handler with the body unchanged, or answer. */
  datatype Outcome = Next(body: Body) | Reject(status: nat, message: string, errors: seq<string>)

  /** `validateExpense`. */
  function Validate(b: Body, parseNumber: string -> Option<real>, dateParses: string -> bool): (r: Outcome)
    ensures r.Next? <==> Accepts(b, parseNumber, dateParses)
    ensures r.Next? ==> r.body == b
    ensures r.Reject? ==> && r.status == 400 && r.message == "Validation failed"
                          && 1 <= |r.errors| <= 4 && r.errors == Issues(b, parseNumber, dateParses)
  {
    var issues := Issues(b, parseNumber, dateParses);
    if issues == [] then Next(b) else Reject(400, "Validation failed", issues)
  }

  /** A body with nothing in it is refused with all four "required" messages, in field order. */
  lemma EmptyBodyRejected(parseNumber: string -> Option<real>, dateParses: string -> bool)
    ensures Validate(Body(None, None, None, None), parseNumber, dateParses)
         == Reject(400, "Validation failed",
                   ["Expected number, received nan", "Category is required", "Description is required", "Date is required"])
  {
  }

  /**
   * Category and description are open: any non-empty string passes, a tag
   * outside the eight categories and a description of blanks included.
   */
  lemma OpenTextFields(b: Body, parseNumber: string -> Option<real>, dateParses: string -> bool, category: string, description: string)
    requires Accepts(b, parseNumber, dateParses)
    requires category != "" && description != ""
    ensures Validate(b.(category := Some(JStr(category)), description := Some(JStr(description))), parseNumber, dateParses).Next?
  {
  }

  /** What the create service reads from a body that reached it: `Number` of the amount, and the three strings. */
  function ServiceInput(b: Body, parseNumber: string -> Option<real>): Option<NewExpense>
  {
    if && ToNumber(b.amount, parseNumber).Some?
       && b.category.Some? && b.category.value.JStr?
       && b.description.Some? && b.description.value.JStr?
       && b.date.Some? && b.date.value.JStr?
    then Some(NewExpense(ToNumber(b.amount, parseNumber).value, b.category.value.s, b.description.value.s, b.date.value.s))
    else None
  }

  /**
   * Behind the validator (the create route runs it first), the service
   * always gets a positive amount and non-empty category and description:
   * its own "Amount must be greater than 0" answer cannot be reached on that route.
   */
  lemma ValidatedBodyPassesService(b: Body, parseNumber: string -> Option<real>, dateParses: string -> bool)
    requires Validate(b, parseNumber, dateParses).Next?
    ensures ServiceInput(b, parseNumber).Some?
    ensures var input := ServiceInput(b, parseNumber).value;
      input.amount > 0.0 && input.category != "" && input.description != "" && dateParses(input.date)
  {
  }
}

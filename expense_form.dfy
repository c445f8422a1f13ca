/**
 * The add-expense form (frontend/src/components/expenses/ExpenseForm.tsx):
 * its zod schema as a parser from the field values to `ExpenseFormData`, the
 * date picker's rule against future days, and the submit that resets the
 * fields only once the add went through. `Number(text)` is the
 * caller-supplied `parseNumber` (`None` for `NaN`); "now" is a parameter.
 */
module ExpenseForm {
  import opened Wrappers
  import opened Text
  import opened Categories
  import opened Json
  import ValidateExpense
  import ExpensesFunction

  const MaxAmount: real := 10_000_000.0
  const MaxDescription: nat := 200

  /**
   * What the fields hold: the amount input's text (`None` while it is
   * `undefined`), the selected category, the description as typed, and the
   * picked date.
   */
  datatype FormValues = FormValues(amount: Option<string>, category: Option<Category>, description: string, date: Option<Instant>)

  /** The fields after a reset: nothing but today's date. */
  function Blank(now: Instant): FormValues
  {
    FormValues(None, None, "", Some(now))
  }

  /** `z.coerce.number()`'s view of the amount: `Number(undefined)` is `NaN`. */
  function AmountNumber(v: Option<string>, parseNumber: string -> Option<real>): Option<real>
  {
    if v.None? then None else parseNumber(v.value)
  }

  predicate AmountOk(v: Option<string>, parseNumber: string -> Option<real>)
  {
    AmountNumber(v, parseNumber).Some? && 0.0 < AmountNumber(v, parseNumber).value <= MaxAmount
  }

  function AmountIssues(v: Option<string>, parseNumber: string -> Option<real>): (r: seq<string>)
    ensures |r| <= 1
    ensures r == [] <==> AmountOk(v, parseNumber)
    ensures v.None? ==> r == ["Enter a valid number"]
  {
    match AmountNumber(v, parseNumber)
    case None => ["Enter a valid number"]
    case Some(n) =>
      if n <= 0.0 then ["Amount must be positive"]
      else if n > MaxAmount then ["Amount is too large"]
      else []
  }

  function CategoryIssues(c: Option<Category>): (r: seq<string>)
    ensures r == [] <==> c.Some?
  {
    if c.None? then ["Select a category"] else []
  }

  /** The description is checked after trimming. */
  function DescriptionIssues(d: string): (r: seq<string>)
    ensures |r| <= 1
    ensures r == [] <==> 1 <= |Trim(d)| <= MaxDescription
  {
    var t := Trim(d);
    if |t| < 1 then ["Description is required"]
    else if |t| > MaxDescription then ["Max 200 characters"]
    else []
  }

  function DateIssues(d: Option<Instant>): (r: seq<string>)
    ensures r == [] <==> d.Some?
  {
    if d.None? then ["Pick a date"] else []
  }

  /** Every field's issue, in the schema's field order. */
  function FormIssues(v: FormValues, parseNumber: string -> Option<real>): seq<string>
  {
    AmountIssues(v.amount, parseNumber) + CategoryIssues(v.category)
    + DescriptionIssues(v.description) + DateIssues(v.date)
  }

  /**
   * `formSchema.safeParse`: the form data when every field passes (the
   * description trimmed), else the issues.
   */
  function ParseForm(v: FormValues, parseNumber: string -> Option<real>): (r: Result<ExpenseFormData, seq<string>>)
    ensures r.Ok? <==> && AmountOk(v.amount, parseNumber) && v.category.Some?
                       && 1 <= |Trim(v.description)| <= MaxDescription && v.date.Some?
    ensures r.Ok? ==> r.value == ExpenseFormData(AmountNumber(v.amount, parseNumber).value, v.category.value,
                                                 Trim(v.description), v.date.value)
    ensures r.Err? ==> 1 <= |r.error| <= 4 && r.error == FormIssues(v, parseNumber)
  {
    var issues := FormIssues(v, parseNumber);
    if issues == [] then
      Ok(ExpenseFormData(AmountNumber(v.amount, parseNumber).value, v.category.value, Trim(v.description), v.date.value))
    else Err(issues)
  }

  /** A fresh form, submitted untouched, names the three fields still to fill in. */
  lemma BlankFormRejected(now: Instant, parseNumber: string -> Option<real>)
    ensures var r := ParseForm(Blank(now), parseNumber);
      && r.Err? && |r.error| == 3
      && r.error[0] == "Enter a valid number" && r.error[1] == "Select a category" && r.error[2] == "Description is required"
  {
    BlankFormIssues(now, parseNumber);
    assert Blank(now).category.None?;
  }

  lemma BlankFormIssues(now: Instant, parseNumber: string -> Option<real>)
    ensures var issues := FormIssues(Blank(now), parseNumber);
      && |issues| == 3
      && issues[0] == "Enter a valid number" && issues[1] == "Select a category" && issues[2] == "Description is required"
  {
    // each field of a blank form yields its own message, except the preset date
    assert Blank(now).date.Some?;
    assert AmountIssues(None, parseNumber) == ["Enter a valid number"];
    assert CategoryIssues(None) == ["Select a category"];
    EmptyDescriptionIssue();
    assert FormIssues(Blank(now), parseNumber)
        == ["Enter a valid number"] + ["Select a category"] + ["Description is required"] + [];
  }

  lemma EmptyDescriptionIssue()
    ensures DescriptionIssues("") == ["Description is required"]
  {
    assert |Trim("")| == 0;
  }

  /** What the form hands on is within bounds and already trimmed. */
  lemma ParsedFormNormal(v: FormValues, parseNumber: string -> Option<real>)
    requires ParseForm(v, parseNumber).Ok?
    ensures var data := ParseForm(v, parseNumber).value;
      && 0.0 < data.amount <= MaxAmount
      && 1 <= |data.description| <= MaxDescription
      && Trim(data.description) == data.description
  {
    TrimIdempotent(v.description);
  }

  /** The JSON body the client posts for accepted form data and a date text. */
  function RequestBody(data: ExpenseFormData, dateText: string): ValidateExpense.Body
  {
    ValidateExpense.Body(Some(JNum(data.amount)), Some(JStr(Tag(data.category))),
                         Some(JStr(data.description)), Some(JStr(dateText)))
  }

  /** A positive amount and a non-empty description pass the REST validator with any date text it parses. */
  lemma RequestBodyValid(data: ExpenseFormData, dateText: string, backendNumber: string -> Option<real>, dateParses: string -> bool)
    requires data.amount > 0.0 && data.description != "" && dateParses(dateText)
    ensures ValidateExpense.Validate(RequestBody(data, dateText), backendNumber, dateParses).Next?
    ensures ValidateExpense.ServiceInput(RequestBody(data, dateText), backendNumber).value.amount == data.amount
  {
    assert Tag(data.category) != "";
  }

  /**
   * Whatever the form accepts the REST backend's validator accepts too, as
   * long as the date text parses; the service then reads the form's amount.
   */
  lemma AcceptedFormPassesValidator(v: FormValues, parseNumber: string -> Option<real>,
                                    dateText: string, backendNumber: string -> Option<real>, dateParses: string -> bool)
    requires ParseForm(v, parseNumber).Ok? && dateParses(dateText)
    ensures var data := ParseForm(v, parseNumber).value;
      && ValidateExpense.Validate(RequestBody(data, dateText), backendNumber, dateParses).Next?
      && ValidateExpense.ServiceInput(RequestBody(data, dateText), backendNumber).value.amount == data.amount
  {
    var data := ParseForm(v, parseNumber).value;
    ParsedFormNormal(v, parseNumber);
    assert data.amount > 0.0 && data.description != "";
    RequestBodyValid(data, dateText, backendNumber, dateParses);
  }

  /** The body the serverless function receives for accepted form data. */
  function ServerlessBody(data: ExpenseFormData, dateText: string, key: Option<string>): ExpensesFunction.PostBody
  {
    ExpensesFunction.PostBody(Some(JNum(data.amount)), Some(JStr(Tag(data.category))),
                              Some(JStr(data.description)), Some(JStr(dateText)), key)
  }

  /** A positive amount and a trimmed description of 1 to 200 characters pass the serverless checks. */
  lemma ServerlessBodyValid(data: ExpenseFormData, dateText: string, key: Option<string>)
    requires data.amount > 0.0 && 1 <= |data.description| <= MaxDescription && Trim(data.description) == data.description
    requires dateText != ""
    ensures ExpensesFunction.CheckPost(ServerlessBody(data, dateText, key)).Ok?
  {
    TagRoundTrip(data.category);
  }

  /**
   * Whatever the form accepts the serverless function's checks accept too,
   * for any non-empty date text.
   */
  lemma AcceptedFormPassesServerlessChecks(v: FormValues, parseNumber: string -> Option<real>,
                                           dateText: string, key: Option<string>)
    requires ParseForm(v, parseNumber).Ok? && dateText != ""
    ensures ExpensesFunction.CheckPost(ServerlessBody(ParseForm(v, parseNumber).value, dateText, key)).Ok?
  {
    ParsedFormNormal(v, parseNumber);
    ServerlessBodyValid(ParseForm(v, parseNumber).value, dateText, key);
  }

  /** The form's field state. */
  class FormState {
    var values: FormValues

    /** `defaultValues`: empty fields and today's date. */
    constructor(now: Instant)
      ensures values == Blank(now)
    {
      values := Blank(now);
    }

    /**
     * A click in the calendar: a day after now is disabled and changes
     * nothing; any other day becomes the date. `None` is the selected day
     * clicked again, which clears it.
     */
    method PickDate(picked: Option<Instant>, now: Instant) returns (accepted: bool)
      modifies this
      ensures accepted <==> picked.None? || picked.value <= now
      ensures accepted ==> values == old(values).(date := picked)
      ensures !accepted ==> values == old(values)
    {
      if picked.Some? && picked.value > now {
        accepted := false;
      } else {
        values := values.(date := picked);
        accepted := true;
      }
    }

    /**
     * A submit: when the schema refuses, the issues are shown and nothing is
     * sent; otherwise the parsed data goes to `onSubmit`, whose outcome is
     * `added`, and the fields reset only when it succeeded.
     */
    method Submit(parseNumber: string -> Option<real>, added: bool, now: Instant)
      returns (sent: Option<ExpenseFormData>, issues: seq<string>)
      modifies this
      ensures ParseForm(old(values), parseNumber).Err? ==>
        && sent.None? && issues == ParseForm(old(values), parseNumber).error && values == old(values)
      ensures ParseForm(old(values), parseNumber).Ok? ==>
        && sent == Some(ParseForm(old(values), parseNumber).value) && issues == []
        && values == (if added then Blank(now) else old(values))
    {
      var parsed := ParseForm(values, parseNumber);
      if parsed.Err? {
        sent := None;
        issues := parsed.error;
      } else {
        sent := Some(parsed.value);
        issues := [];
        if added {
          values := Blank(now);
        }
      }
    }
  }
}

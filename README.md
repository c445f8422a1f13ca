# Expense Tracker — a verified model of its expense logic

The Expense Tracker records personal expenses in one `expenses` table. Each row has:
- an id;
- an amount;
- a category tag;
- a description;
- an ISO date;
- a creation time;
- an optional idempotency key.

Two implementations of the same API sit in front of the table:

- **The REST backend.** It has a service, a model, a controller and a request validator. It stores amounts in paise and synthesizes an idempotency key when the client sends none. Its CSV export quotes nothing.
- **The serverless `expenses` and `export-expenses` functions.** They check the closed set of eight categories and store `Math.round(amount)`. They cap every list at 1000 rows and quote the description in their CSV.

The React client has three parts that are modelled: the `useExpenses` hook's state, the add form's schema and reset, and the category vocabulary.

The model keeps the source's shape:
- The table is a class, `ExpenseModel.Table`. Its rows are a sequence, and `Valid()` holds its constraints: unique ids and unique non-null keys.
- Code that changes the table or the hook's state is made of methods with `modifies` clauses.
- Queries, validators, formatting and CSV building are functions.

Every store call, network answer, clock reading and random key is a parameter of the operation that awaits it. The `rival` draft of a create is the row a concurrent request commits between the key lookup and the insert. It lets the model state what the `23505` branch recovers from.

Strings such as ISO dates are ordered character by character (`Text.LexLe`), and that order is proved total. Amounts are `real` and `int`: `Math.round` is `Floor(x + 0.5)`. `toFixed(2)` of paise is an exact decimal rendering that is proved to read back.

A reference CSV reader (`Csv.ReadRecords`) is the partner of both exporters. It follows section 2 of RFC 4180, except that records end with a bare line feed, as both exporters write them, rather than CR LF. The serverless export is proved to read back row by row whatever its descriptions hold. The REST export is proved to read back only when no value holds a comma, a quote or a line feed. The model also proves how a comma splits its line.

Modules follow the source files:
- `Categories` covers `types/expense.ts`.
- `ExpenseModel`, `ExpenseService`, `ExpenseController` and `ValidateExpense` cover the backend.
- `ExpensesFunction` and `ExportFunction` cover the serverless functions.
- `UseExpenses` and `ExpenseForm` cover the client.
- `Text`, `Seqs`, `Money`, `Csv`, `Json` and `Wrappers` are shared helpers.

## Model

| member | source | states |
|---|---|---|
| Categories.ParseCategory | frontend/src/types/expense.ts:11-19 | a string names a category exactly when it is one of the eight tags, and then that category's tag is the string |
| Categories.TagRoundTrip | frontend/src/types/expense.ts:11-19 | every category's tag is one of the eight and parses back to the same category |
| Categories.TagInjective | frontend/src/types/expense.ts:11-19 | two categories with the same tag are the same category |
| Categories.ExpenseCategoriesComplete | frontend/src/types/expense.ts:30-39 | `EXPENSE_CATEGORIES` has eight entries, and each category appears once, at its declaration position, with its label |
| Categories.ExpenseCategoriesMatchTags | frontend/supabase/functions/expenses/index.ts:20-23 | the values of `EXPENSE_CATEGORIES` are exactly the serverless `VALID_CATEGORIES` |
| Categories.ColorsDefined | frontend/src/types/expense.ts:41-50 | `categoryColors` gives every category a non-empty class string, and distinct categories get distinct hues |
| Categories.ParseSortOrder | frontend/src/types/expense.ts:28 | exactly "newest" and "oldest" name sort orders, each naming the order whose literal it is |
| Categories.SortOrderRoundTrip | frontend/src/types/expense.ts:28 | each sort order's literal parses back to it |
| Text.LexLeReflexive | backend/models/expenseModel.js:35-36 | every date string sorts at or before itself |
| Text.LexLeTotal | backend/models/expenseModel.js:35-36 | any two date strings are comparable |
| Text.LexLeTransitive | backend/models/expenseModel.js:35-36 | the string order used by `order("date")` is transitive |
| Text.LexLeAntisymmetric | backend/models/expenseModel.js:35-36 | two strings that sort at or before each other are equal |
| Text.Trim | frontend/supabase/functions/expenses/index.ts:86 | `trim()` yields the run of the input that starts at `TrimOffset`, and neither of its ends is whitespace |
| Text.TrimDropsLeadingWhitespace | frontend/supabase/functions/expenses/index.ts:86 | everything `trim()` drops before its result is whitespace |
| Text.TrimDropsTrailingWhitespace | frontend/supabase/functions/expenses/index.ts:86 | everything `trim()` drops after its result is whitespace |
| Text.TrimEmptyIff | frontend/supabase/functions/expenses/index.ts:86 | `s.trim().length === 0` exactly when every character of `s` is whitespace |
| Text.TrimIdempotent | frontend/src/components/expenses/ExpenseForm.tsx:43-47 | trimming a trimmed string changes nothing |
| Seqs.Filter | frontend/src/hooks/useExpenses.ts:135 | `filter` keeps exactly the elements that pass, and never lengthens the list |
| Seqs.FilterAppend | frontend/src/hooks/useExpenses.ts:135 | filtering a concatenation filters each part: the relative order of kept elements is preserved |
| Seqs.FilterMultiset | frontend/src/hooks/useExpenses.ts:135 | a passing element keeps its multiplicity, and a failing one disappears |
| Seqs.Take | frontend/supabase/functions/expenses/index.ts:64 | `.limit(n)` keeps exactly the first `n` rows, or all of them when there are fewer |
| Money.Round | frontend/supabase/functions/expenses/index.ts:112 | `Math.round(x)` is the integer within half a unit, halves rounding up |
| Money.RoundUnique | frontend/supabase/functions/expenses/index.ts:112 | that integer is unique |
| Money.ToPaise | backend/services/expenseService.js:25 | `Math.round(amount * 100)` is the paise count nearest to the rupee amount |
| Money.ToPaiseOfShown | backend/services/expenseService.js:55 | a listed amount `paise / 100` converts back to the same paise |
| Money.ToPaiseOfPositive | backend/services/expenseService.js:11-25 | a positive amount stores a non-negative paise count, positive exactly when the amount is at least half a paisa |
| Money.ToPaiseOfTinyAmount | backend/services/expenseService.js:25 | a positive amount below half a paisa (0.004) is stored as 0 |
| Money.ParseFixed2UnsignedRoundTrip | backend/services/expenseService.js:81 | the two-decimal rendering of a non-negative paise count reads back as that count |
| Money.ParseFixed2RoundTrip | backend/services/expenseService.js:81 | `(paise / 100).toFixed(2)` reads back as the paise count, sign included |
| Money.Fixed2Alphabet | backend/services/expenseService.js:81 | that rendering holds only digits, a dot and a minus sign |
| Csv.ReadQuotedEscape | frontend/supabase/functions/export-expenses/index.ts:101 | reading a quote-doubled text up to its closing quote gives back the text and what follows, as in section 2 of RFC 4180 |
| Csv.ReadFieldEncode | frontend/supabase/functions/export-expenses/index.ts:101 | a quoted field, or a verbatim field with no delimiter, reads back as its text and stops at the field end |
| Csv.ReadRecordEncode | frontend/supabase/functions/export-expenses/index.ts:100-102 | a line of readable fields joined by commas reads back as the list of their texts |
| Csv.ReadRecordsEncode | frontend/supabase/functions/export-expenses/index.ts:99-103 | readable lines joined by line feeds read back line by line |
| Csv.JoinEncodedRecords | frontend/supabase/functions/export-expenses/index.ts:103 | lines that each encode a record, joined by `"\n"`, are the encoding of the records |
| Csv.RupeeAmountSafe | backend/controllers/expenseController.js:95 | a `₹`-prefixed two-decimal amount holds no comma, quote or line feed |
| ExpenseModel.KeyLookup | backend/models/expenseModel.js:69-82 | the lookup finds nothing exactly when no row has the key; what it finds is a row of the table with that key |
| ExpenseModel.KeyLookupUnique | backend/models/expenseModel.js:69-82 | while keys are unique, the row found is the row that has the key |
| ExpenseModel.WithIdAtMostOne | backend/models/expenseModel.js:53-66 | with unique ids, a delete by id reports at most one row, the one that had the id |
| ExpenseModel.FilterKeepsUnique | backend/models/expenseModel.js:53-66 | removing rows keeps ids and keys unique |
| ExpenseModel.InOrderTotal | backend/models/expenseModel.js:35-36 | any two rows can be placed in date order, in either direction |
| ExpenseModel.InOrderTransitive | backend/models/expenseModel.js:35-36 | date order in either direction is transitive |
| ExpenseModel.SortByDateCorrect | backend/models/expenseModel.js:35-36 | ordering by date yields a date-ordered permutation of the rows |
| ExpenseModel.RunQueryCorrect | backend/models/expenseModel.js:18-38 | the query result is ordered by date and holds each stored row that passes the filters as often as the table does, and no other row |
| ExpenseModel.SumAppend | backend/models/expenseModel.js:45 | the `reduce` total of two lists is the sum of their totals |
| ExpenseModel.SumPermutation | backend/models/expenseModel.js:45 | the total does not depend on the order of the rows |
| ExpenseModel.ListingOfCorrect | backend/models/expenseModel.js:17-51 | listed rows pass the category filter and the inclusive date bounds that are given; every passing row is listed; the order is ascending exactly for "asc"; the total is the sum over exactly the filtered rows |
| ExpenseModel.Table.FindByIdempotencyKey | backend/models/expenseModel.js:69-82 | `findByIdempotencyKey` gives null when no row has the key, and otherwise the unique row that has it |
| ExpenseModel.Table.GetExpenses | backend/models/expenseModel.js:17-51 | the listing holds exactly the rows that pass the filters, in date order, with their total |
| ExpenseModel.Table.Insert | backend/models/expenseModel.js:3-15 | the insert appends exactly one row copied from the draft, with a fresh id; a taken key fails with `23505` and a store failure with its message, and nothing is written in either case |
| ExpenseModel.Table.RemoveById | frontend/supabase/functions/expenses/index.ts:43 | `delete().eq("id", id)` leaves every other row in order and reports the at most one row removed |
| ExpenseModel.Table.DeleteExpense | backend/models/expenseModel.js:53-66 | `deleteExpense` removes the row with the id and returns its snapshot; with no such row it fails with `PGRST116`, and any other store error is thrown; on both failures the table is unchanged |
| ExpenseModel.KeepAllFilter | frontend/supabase/functions/expenses/index.ts:43-45 | deleting an id no row has leaves the table unchanged |
| ExpenseService.CreateExpenseService | backend/services/expenseService.js:10-47 | the create rules below |
| ExpenseService.KeylessCreateNeverReplays | backend/services/expenseService.js:17-23 | a create with no usable header looks up its fresh uuid, so while that uuid is new it finds no row and never replays another request's row |
| ExpenseService.ShownSumOfShowAll | backend/services/expenseService.js:58 | the sum of the amounts divided by 100 is the total divided by 100 |
| ExpenseService.GetExpensesServiceCorrect | backend/services/expenseService.js:49-64 | the listing keeps length, order and every column but the amount; each amount is divided by 100 and converts back to the stored paise; the total is the sum of the shown amounts |
| ExpenseService.DeleteExpenseService | backend/services/expenseService.js:66-74 | a missing or empty id gets 400 "Expense ID required" and nothing is removed; a store error propagates and nothing is removed; otherwise the model's delete decides the reply |
| ExpenseService.GetExpensesForExportServiceCorrect | backend/services/expenseService.js:76-83 | export rows are the listed rows in order, with every column but the amount unchanged, and each amount string reads back as the stored paise |
| ExpenseController.SortDefault | backend/controllers/expenseController.js:27-32 | a list is ascending exactly for `sort=asc`, and a missing sort becomes "desc" |
| ExpenseController.CreateExpense | backend/controllers/expenseController.js:10-23 | the header key is passed on as it is, and the service's row, new or replayed, is sent with 201. A store failure goes to `next` whatever a concurrent request did. A concurrent commit under another key still sends this request's row, appended last; a lost same-key race sends the other request's row, with one row written. Rows are only appended, at most two, and an error writes nothing of this request's |
| ExpenseController.GetExpensesCorrect | backend/controllers/expenseController.js:25-44 | the reply is 200 with the filtered rows, converted, in date order, ascending only for `sort=asc`, and a total equal to the sum of what is shown |
| ExpenseController.DeleteExpense | backend/controllers/expenseController.js:46-59 | 200 with the snapshot of the removed row, or the service's error (a missing id, no such row, or a store error), with nothing removed |
| ExpenseController.ExportExpenses | backend/controllers/expenseController.js:61-89 | the format defaults to "csv"; "csv" gives the CSV of the export rows, "excel" the spreadsheet rows, and anything else 400 "Invalid export format" |
| ExpenseController.CsvLines | backend/controllers/expenseController.js:94-96 | one line per exported row, in order |
| ExpenseController.CsvLineFields | backend/controllers/expenseController.js:95 | a data line is the comma join of date, raw category tag, unquoted description and `₹` amount |
| ExpenseController.HeaderLine | backend/controllers/expenseController.js:92 | the header line is exactly `Date,Category,Description,Amount` |
| ExpenseController.ExportCsvEncodes | backend/controllers/expenseController.js:91-104 | the export text is the header record and one unquoted record per row, joined by `"\n"` |
| ExpenseController.ExportCsvReadsBack | backend/controllers/expenseController.js:91-104 | when no value holds a comma, quote or line feed, a CSV reader gets back the header and each row's four values, in order |
| ExpenseController.CommaInDescriptionSplitsLine | backend/controllers/expenseController.js:95 | a comma in the description makes the line read back as five fields |
| ValidateExpense.AmountIssues | backend/middlewares/validateExpense.js:5-7 | the amount passes exactly when its numeric coercion is a number greater than 0 |
| ValidateExpense.TextIssues | backend/middlewares/validateExpense.js:9-19 | category and description pass exactly when they are strings of at least one character; missing and empty fields get their own messages |
| ValidateExpense.DateIssues | backend/middlewares/validateExpense.js:21-27 | the date passes exactly when it is a string `Date.parse` accepts |
| ValidateExpense.Validate | backend/middlewares/validateExpense.js:31-42 | an accepted body goes to `next` unchanged; any other body gets 400 "Validation failed" with one message per failing field, in field order |
| ValidateExpense.EmptyBodyRejected | backend/middlewares/validateExpense.js:4-28 | an empty body gets all four messages |
| ValidateExpense.OpenTextFields | backend/middlewares/validateExpense.js:9-19 | any non-empty category and description pass, including unknown tags and blank descriptions |
| ValidateExpense.ValidatedBodyPassesService | backend/services/expenseService.js:11-15 | behind the validator the service always sees a positive amount, so its own amount check is never reached |
| ExpensesFunction.SelectRowsCorrect | frontend/supabase/functions/expenses/index.ts:55-66 | at most 1000 rows, a prefix of the fully ordered selection, each passing the filters, in date order, and all of them when no more than 1000 pass |
| ExpensesFunction.SelectionCategory | frontend/supabase/functions/expenses/index.ts:50-63 | the category filter applies exactly when the parameter is non-empty and not "all"; the order is ascending exactly for `sort=oldest` |
| ExpensesFunction.CheckPost | frontend/supabase/functions/expenses/index.ts:80-94 | a body passes exactly when all five checks hold; otherwise the first failing check's message is returned |
| ExpensesFunction.StoreChecked | frontend/supabase/functions/expenses/index.ts:96-122 | a key already stored replays its row with 200 and writes nothing. Otherwise one row is appended with the rounded amount, the trimmed description and the key or null, with 201. A concurrent commit under another key, or a keyless request, does not stop the insert: 201 with this request's row appended last, after the other request's. A store error or an unreadable date gives 500 and writes nothing of this request's. A key lost to a concurrent insert gives 500, and the table then holds the rival's row only. Rows are only appended, at most two |
| ExpensesFunction.InsertChecked | frontend/supabase/functions/expenses/index.ts:109-122 | the draft is stored exactly when the store works and its key is still free after any rival commit. A 201 appends it last. A 500 carries the store's message, including the unique violation of a lost race, and writes nothing of this request's: without a rival the table is unchanged |
| ExpensesFunction.PostExpense | frontend/supabase/functions/expenses/index.ts:75-123 | an unparsable body gets 500 and a body failing a check 400, with no write. A known key replays with 200. A new key, or none, appends one row stored under that key or null, with 201, also after a concurrent commit under another key, which lands first. A store error, an unreadable date or a lost key race gives 500 and writes nothing of this request's; rows are only appended, at most two |
| ExpensesFunction.KeylessPostStoresNullKey | frontend/supabase/functions/expenses/index.ts:116 | a missing or empty key stores `idempotency_key = null` |
| ExpensesFunction.AmountUnitsDiffer | frontend/supabase/functions/expenses/index.ts:112 | for every positive amount, the REST backend stores `Math.round(100 * amount)` and this function `Math.round(amount)`; the two agree only below half a paisa |
| ExpensesFunction.DeleteExpense | frontend/supabase/functions/expenses/index.ts:39-46 | a missing id gets 400 and a store error 500, with no write; otherwise every row with the id is removed and success is reported, even when none matched |
| ExpensesFunction.Serve | frontend/supabase/functions/expenses/index.ts:25-129 | OPTIONS is answered alone and other methods get 405, with no write. GET lists or gives 500. DELETE gives 400 without an id, 500 on a store error, and otherwise removes the id's rows. POST gives 500 for an unparsable body and 400 for a failing one, replays a known key, appends one row for a new key or none (last, after a concurrent commit under another key), gives 500 on a store error, and 500 with the unique violation when a concurrent request took the key. Only POST and DELETE write, and POST only appends, at most two rows |
| ExpensesFunction.ListExpensesCorrect | frontend/supabase/functions/expenses/index.ts:49-72 | a GET answer holds at most 1000 filtered rows in date order, and a total that is their sum in stored units |
| ExportFunction.FormatCurrency | frontend/supabase/functions/export-expenses/index.ts:17-19 | for non-negative paise: `₹`, the rupees, a dot and two digits; for any paise, the text after `₹` reads back as the paise count |
| ExportFunction.LabelFor | frontend/supabase/functions/export-expenses/index.ts:71 | an unknown tag is emitted unchanged |
| ExportFunction.LabelTablesAgree | frontend/supabase/functions/export-expenses/index.ts:26-35 | `categoryLabels` has exactly the eight tags, each with the client's label |
| ExportFunction.RowsOf | frontend/supabase/functions/export-expenses/index.ts:69-74 | one display row per selected row, in order |
| ExportFunction.CsvLines | frontend/supabase/functions/export-expenses/index.ts:100-102 | one CSV line per display row, in order |
| ExportFunction.Export | frontend/supabase/functions/export-expenses/index.ts:37-116 | OPTIONS is answered alone; other non-GET methods get 405; a GET gives the spreadsheet exactly for `format=xlsx` and CSV otherwise, over the selected rows |
| ExportFunction.ExportedRowsCorrect | frontend/supabase/functions/export-expenses/index.ts:59-66 | at most 1000 rows, each a stored row passing the filters, in date order |
| ExportFunction.CsvLineCells | frontend/supabase/functions/export-expenses/index.ts:101 | a line is the encoding of date, label, quoted description and amount, and reads as those four texts |
| ExportFunction.HeaderCellsLine | frontend/supabase/functions/export-expenses/index.ts:99 | the header line encodes the four column names |
| ExportFunction.CsvTextEncodes | frontend/supabase/functions/export-expenses/index.ts:99-103 | after the byte order mark, the text encodes the header record and one record per row |
| ExportFunction.CsvTextReadsBack | frontend/supabase/functions/export-expenses/index.ts:99-103 | after the byte order mark, a CSV reader recovers the header and every row's four values, whatever the description holds, when the date, label and amount need no quoting |
| ExportFunction.EmptyCsvText | frontend/supabase/functions/export-expenses/index.ts:99-103 | with no rows the text is the mark and the header line followed by a line feed |
| ExportFunction.LabelSafe | frontend/supabase/functions/export-expenses/index.ts:26-35 | no label holds a comma, quote or line feed |
| ExportFunction.ExportRowSafe | frontend/supabase/functions/export-expenses/index.ts:69-74 | a row whose display date and tag need no quoting needs none outside its description |
| ExportFunction.ServerlessAmountExportsAsCents | frontend/supabase/functions/export-expenses/index.ts:17-19 | for every positive amount posted to the serverless insert, the export shows `Math.round(amount)` hundredths of a rupee, which is less than the amount posted |
| UseExpenses.ParamValue | frontend/src/hooks/useExpenses.ts:29-35 | `params.get(name)` finds a value exactly when some pair has that name |
| UseExpenses.FetchParams | frontend/src/hooks/useExpenses.ts:29-35 | the query has a category exactly when one is chosen, and its sort is "asc" for oldest and "desc" otherwise |
| UseExpenses.FetchParamsServed | frontend/src/hooks/useExpenses.ts:29-36 | the REST backend reads the client's query as the chosen category, no date bounds and ascending exactly for oldest, and answers a total equal to the sum of the rows |
| UseExpenses.ServedResponseConsistent | frontend/src/hooks/useExpenses.ts:44-45 | what the backend sends the hook has a total equal to the sum of its rows |
| UseExpenses.UtcDayOfPickedDate | frontend/src/hooks/useExpenses.ts:96 | as written, east of UTC the request names the day before the day picked |
| UseExpenses.LocalDayOfPickedDate | frontend/src/hooks/useExpenses.ts:96 | read on the user's clock, the picked instant names the day picked |
| UseExpenses.ExpensesHook.constructor | frontend/src/hooks/useExpenses.ts:11-19 | the first state: nothing listed, a total of 0, loading, every category, newest first; so `hasExpenses` and `isFiltered` are both false |
| UseExpenses.ExpensesHook.FetchExpenses | frontend/src/hooks/useExpenses.ts:21-53 | explicit arguments override the current filter and sort; a reply replaces list and total, a failure keeps them; loading ends either way; a consistent reply keeps the total equal to the sum; after a reply, `hasExpenses` holds exactly when the reply listed rows |
| UseExpenses.ExpensesHook.HandleFilterChange | frontend/src/hooks/useExpenses.ts:60-66 | the category is stored and fetched in the current order; `isFiltered` then holds exactly when a single category was chosen |
| UseExpenses.ExpensesHook.HandleSortChange | frontend/src/hooks/useExpenses.ts:68-74 | the order is stored and the current category fetched in it |
| UseExpenses.ExpensesHook.AddExpense | frontend/src/hooks/useExpenses.ts:76-118 | the post carries the fresh key and the picked day read on the user's clock; on success the error is cleared and the list refetched; on failure the message is stored and rethrown and the list is kept; `isAdding` is false afterwards |
| UseExpenses.ExpensesHook.DeleteExpense | frontend/src/hooks/useExpenses.ts:121-142 | a delete the server confirmed keeps exactly the other rows in order, and the total is their sum; an unconfirmed one changes nothing |
| UseExpenses.ShownSumFilter | frontend/src/hooks/useExpenses.ts:136 | the totals of the kept and the removed rows add up to the old total |
| UseExpenses.ShownSumAppend | frontend/src/hooks/useExpenses.ts:136 | the `reduce` total of two lists is the sum of their totals |
| UseExpenses.DeleteLowersTotal | frontend/src/hooks/useExpenses.ts:134-137 | a delete lowers the total by exactly the removed rows' amounts |
| ExpenseForm.AmountIssues | frontend/src/components/expenses/ExpenseForm.tsx:35-38 | the amount passes exactly when it is a number with 0 < amount ≤ 10,000,000; an empty field is "Enter a valid number" |
| ExpenseForm.CategoryIssues | frontend/src/components/expenses/ExpenseForm.tsx:39-42 | a category passes exactly when one is selected |
| ExpenseForm.DescriptionIssues | frontend/src/components/expenses/ExpenseForm.tsx:43-47 | the description passes exactly when its trimmed length is between 1 and 200 |
| ExpenseForm.DateIssues | frontend/src/components/expenses/ExpenseForm.tsx:48 | a date passes exactly when one is picked |
| ExpenseForm.ParseForm | frontend/src/components/expenses/ExpenseForm.tsx:34-49 | the schema accepts exactly when every field passes, and yields the trimmed description; otherwise it yields one to four issues |
| ExpenseForm.BlankFormRejected | frontend/src/components/expenses/ExpenseForm.tsx:61-66 | an untouched form is refused for amount, category and description, in that order |
| ExpenseForm.EmptyDescriptionIssue | frontend/src/components/expenses/ExpenseForm.tsx:46 | an empty description is "Description is required" |
| ExpenseForm.ParsedFormNormal | frontend/src/components/expenses/ExpenseForm.tsx:34-49 | accepted data has an amount in range and a trimmed description of 1 to 200 characters |
| ExpenseForm.AcceptedFormPassesValidator | backend/middlewares/validateExpense.js:4-28 | what the form accepts, the REST validator accepts too, given a date text it parses; the service then reads the form's amount |
| ExpenseForm.AcceptedFormPassesServerlessChecks | frontend/supabase/functions/expenses/index.ts:80-94 | what the form accepts passes the serverless POST checks, given a non-empty date |
| ExpenseForm.FormState.constructor | frontend/src/components/expenses/ExpenseForm.tsx:59-67 | the default values: nothing but today's date |
| ExpenseForm.FormState.PickDate | frontend/src/components/expenses/ExpenseForm.tsx:168-175 | a day later than now is refused and changes nothing; any other day, or a cleared one, becomes the date |
| ExpenseForm.FormState.Submit | frontend/src/components/expenses/ExpenseForm.tsx:69-76 | a refused form shows its issues and keeps its values; an accepted one is sent, and the fields reset only when the add succeeded |

`ExpenseService.CreateExpenseService` proves these rules:
- A non-positive amount is refused with 400 before any lookup.
- A key already stored returns its row and writes nothing.
- A first create appends exactly one row, holding the amount in paise under the effective key.
- A create with no usable header stores its row under the fresh uuid. While that uuid is new, it appends exactly one row and never replays another request's row.
- Another store failure propagates and writes nothing of this request's.
- A lost key race returns the row stored under that key, so one row is written, not two.
- A concurrent request under another key commits its row first, and this request's row is still appended, last.
- Rows are only ever appended, at most two per call: the concurrent request's and this one's.

Some helpers carry no contract of their own; their meaning is stated where they are used.
`ExpenseService.EffectiveKey` is covered by `CreateExpenseService` and `KeylessCreateNeverReplays`.
`Json.ToNumber` is covered by `ValidateExpense.AmountIssues` and `ValidateExpense.EmptyBodyRejected`.
`UseExpenses.UtcDay` is covered by `UseExpenses.UtcDayOfPickedDate`.
`ExpensesFunction.DraftOf` is covered by `ExpensesFunction.StoreChecked`, `ExpensesFunction.PostExpense` and `ExpensesFunction.AmountUnitsDiffer`.
`ExportFunction.CsvText` is covered by `ExportFunction.CsvTextEncodes`, `ExportFunction.CsvTextReadsBack` and `ExportFunction.EmptyCsvText`.

## Left out

- Network, `fetch`, `Deno.serve`, the Supabase client and the Express wiring (app.js, routes, swagger, the error handler's status mapping, CORS, logging, `console` output) are not modelled. Store calls are methods of `ExpenseModel.Table`. Network answers are parameters.
- `exportExcel` and the `XLSX`/ExcelJS workbook building are foreign library calls. The model stops at the rows handed to them.
- `uuidv4` and `crypto.randomUUID` are the caller-supplied `freshKey`. Database ids are minted as `exp-<n>` from a counter, so they are unique. `created_at` is the caller-supplied `createdAt`.
- `Date.parse` is the caller-supplied predicate `dateParses`, and `Number(text)` is the caller-supplied `parseNumber`. The export's locale `formatDate` is the caller-supplied `formatDate`.
- The day number the add request carries is not rendered as `YYYY-MM-DD` text.
- IEEE floating point, `Infinity` and NaN arithmetic are not modelled. Amounts are exact reals, `Math.round` is `Floor(x + 0.5)`, and `toFixed(2)` is modelled on exact paise.
- String lengths count Dafny characters, not UTF-16 code units. The 200-character limits therefore differ from the source for characters outside the Basic Multilingual Plane.
- ExpenseModel.Table.GetExpenses: a failing list query in the REST backend is not modelled, because the model's table always answers. The serverless list's failure is modelled (`outage`).
- ExpenseModel.Table.FindByIdempotencyKey: errors other than "no rows" are not modelled, because the in-memory table cannot fail on a read.
- `getExpensesForExport` (backend/models/expenseModel.js:84-86) only calls `getExpenses`, so `Table.GetExpenses` models both.
- The store's order among rows with equal dates is not the database's. The model orders rows by a stable insertion sort on the date. `Table.GetExpenses` and the REST listing state only date order and which rows are listed. `ExpensesFunction.SelectRowsCorrect`, and the serverless GET through `ListExpenses`, keep the first 1000 rows of that particular order, so which of several equal-dated rows survive the 1000-row cut follows the model's order, not the database's.
- The race on a duplicate key is one `rival` insert committed between lookup and insert, not interleaved requests.
- The serverless POST: an idempotency key that is present but not a string is not modelled. A non-string date is a store rejection with the caller-supplied message.
- The text of `Message(UniqueViolation)` is a fixed stand-in. The store's real message also names the violated constraint.
- `categoryLabels` lookups of inherited object keys (such as `constructor`) are not modelled. A tag outside the table is emitted unchanged.
- The mount effect of `useExpenses` is `FetchExpenses(None, None, ·)` right after the constructor. `refetch` is `FetchExpenses`.
- react-hook-form's internals are not modelled. The form's category field holds a `Category`, because the select offers only the eight.
- UseExpenses.ExpensesHook.AddExpense: the request carries the picked day read on the user's clock (`LocalDay`), the corrected behaviour. It does not carry the UTC day that `useExpenses.ts:96` sends as written. The as-written day is modelled by `UseExpenses.UtcDay` and exhibited by `UseExpenses.UtcDayOfPickedDate` (see Findings).

## Findings

| source | as written | input that shows it | evidently intended | confidence | as-written member | corrected member |
|---|---|---|---|---|---|---|
| frontend/src/hooks/useExpenses.ts:96 | the request's date is `data.date.toISOString().split("T")[0]`, the UTC calendar day of the picked local midnight | a user at UTC+05:30 picks 10 March 2024 (day 19792). Local midnight is 2024-03-09T18:30Z, so the request carries 2024-03-09 (day 19791) | the calendar day the user picked | not executed | UseExpenses.UtcDayOfPickedDate | UseExpenses.LocalDayOfPickedDate (used by UseExpenses.ExpensesHook.AddExpense) |

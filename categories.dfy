/**
 * The closed vocabulary of the client (frontend/src/types/expense.ts):
 * the eight expense categories with their tags, labels and badge colours,
 * the option list the form and filters show, and the two sort orders.
 */
module Categories {
  import opened Wrappers

  /** `ExpenseCategory`, in declaration order. */
  datatype Category = Food | Transport | Entertainment | Shopping | Bills | Health | Education | Other

  /** `SortOrder`. */
  datatype SortOrder = Newest | Oldest

  /** The category filter of the list: `ExpenseCategory | "all"`. */
  datatype CategoryFilter = All | Only(category: Category)

  /** A JavaScript `Date` on the client: milliseconds since 1970-01-01T00:00:00Z. */
  type Instant = int

  /** `ExpenseFormData`: what the form hands to the hook, the amount in rupees. */
  datatype ExpenseFormData = ExpenseFormData(amount: real, category: Category, description: string, date: Instant)

  /** The tag a category is stored and sent as. */
  function Tag(c: Category): string
  {
    match c
    case Food => "food"
    case Transport => "transport"
    case Entertainment => "entertainment"
    case Shopping => "shopping"
    case Bills => "bills"
    case Health => "health"
    case Education => "education"
    case Other => "other"
  }

  /** The set of the eight tags (the serverless `VALID_CATEGORIES`). */
  const Tags: set<string> := {"food", "transport", "entertainment", "shopping", "bills", "health", "education", "other"}

  /** The category a tag names, if it names one. */
  function ParseCategory(s: string): (r: Option<Category>)
    ensures r.Some? <==> s in Tags
    ensures r.Some? ==> Tag(r.value) == s
  {
    match s
    case "food" => Some(Food)
    case "transport" => Some(Transport)
    case "entertainment" => Some(Entertainment)
    case "shopping" => Some(Shopping)
    case "bills" => Some(Bills)
    case "health" => Some(Health)
    case "education" => Some(Education)
    case "other" => Some(Other)
    case _ => None
  }

  /** Tags name categories one to one, and every tag is one of the eight. */
  lemma TagRoundTrip(c: Category)
    ensures Tag(c) in Tags && ParseCategory(Tag(c)) == Some(c)
  {
  }

  lemma TagInjective(c: Category, d: Category)
    requires Tag(c) == Tag(d)
    ensures c == d
  {
    TagRoundTrip(c);
    TagRoundTrip(d);
  }

  /** The label shown for a category (the `label` of `EXPENSE_CATEGORIES`). */
  function Label(c: Category): string
  {
    match c
    case Food => "Food & Dining"
    case Transport => "Transport"
    case Entertainment => "Entertainment"
    case Shopping => "Shopping"
    case Bills => "Bills & Utilities"
    case Health => "Health"
    case Education => "Education"
    case Other => "Other"
  }

  /** The Tailwind hue of each category's badge. */
  function Hue(c: Category): string
  {
    match c
    case Food => "orange"
    case Transport => "blue"
    case Entertainment => "purple"
    case Shopping => "pink"
    case Bills => "red"
    case Health => "green"
    case Education => "indigo"
    case Other => "gray"
  }

  /**
   * `categoryColors`: every entry is the same four classes (light and dark
   * background and text) in the category's hue.
   */
  function Color(c: Category): string
  {
    var h := Hue(c);
    "bg-" + h + "-100 text-" + h + "-700 dark:bg-" + h + "-900/30 dark:text-" + h + "-400"
  }

  /** Every category has a colour, and distinct categories get distinct hues. */
  lemma ColorsDefined(c: Category, d: Category)
    ensures |Color(c)| > 0
    ensures c != d ==> Hue(c) != Hue(d)
  {
  }

  /** Position of a category in the declaration of `ExpenseCategory`. */
  function Ordinal(c: Category): nat
  {
    match c
    case Food => 0
    case Transport => 1
    case Entertainment => 2
    case Shopping => 3
    case Bills => 4
    case Health => 5
    case Education => 6
    case Other => 7
  }

  /** One entry of `EXPENSE_CATEGORIES`. */
  datatype CategoryOption = CategoryOption(value: Category, labelText: string)

  /** `EXPENSE_CATEGORIES`, the option list of the form and of the filter. */
  const ExpenseCategories: seq<CategoryOption> := [
    CategoryOption(Food, "Food & Dining"),
    CategoryOption(Transport, "Transport"),
    CategoryOption(Entertainment, "Entertainment"),
    CategoryOption(Shopping, "Shopping"),
    CategoryOption(Bills, "Bills & Utilities"),
    CategoryOption(Health, "Health"),
    CategoryOption(Education, "Education"),
    CategoryOption(Other, "Other")
  ]

  /**
   * The option list holds each category exactly once, at its declaration
   * position, with its label.
   */
  lemma ExpenseCategoriesComplete(c: Category)
    ensures |ExpenseCategories| == 8
    ensures Ordinal(c) < 8 && ExpenseCategories[Ordinal(c)] == CategoryOption(c, Label(c))
    ensures forall i :: 0 <= i < |ExpenseCategories| && ExpenseCategories[i].value == c ==> i == Ordinal(c)
  {
  }

  /** The option list's values are exactly the tags the serverless functions accept. */
  lemma ExpenseCategoriesMatchTags()
    ensures forall s :: s in Tags <==> exists i :: 0 <= i < |ExpenseCategories| && Tag(ExpenseCategories[i].value) == s
  {
    forall s | s in Tags
      ensures exists i :: 0 <= i < |ExpenseCategories| && Tag(ExpenseCategories[i].value) == s
    {
      var c := ParseCategory(s).value;
      ExpenseCategoriesComplete(c);
      assert Tag(ExpenseCategories[Ordinal(c)].value) == s;
    }
  }

  /** The two `SortOrder` literals. */
  function SortTag(o: SortOrder): string
  {
    match o
    case Newest => "newest"
    case Oldest => "oldest"
  }

  function ParseSortOrder(s: string): (r: Option<SortOrder>)
    ensures r.Some? <==> s == "newest" || s == "oldest"
    ensures r.Some? ==> SortTag(r.value) == s
  {
    if s == "newest" then Some(Newest) else if s == "oldest" then Some(Oldest) else None
  }

  lemma SortOrderRoundTrip(o: SortOrder)
    ensures ParseSortOrder(SortTag(o)) == Some(o)
  {
  }
}

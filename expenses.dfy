/** The expense records, the category registry and the pure rules the
    tracker's operations follow: how a menu choice becomes a category, how an
    Add fills in a record, how a display index is validated, how an Update
    merges the new fields into a record, and what the two reports add up. */
module Expenses {
  import opened Python

  /** One entry of the expense list; the amount is an exact real. */
  datatype Expense = Expense(category: string, amount: real, date: string)

  /** The registry every session starts with. */
  const DefaultCategories: seq<string> := ["Food", "Transport", "Entertainment", "Bills", "Other"]

  /** The category used whenever a menu choice does not name one. */
  const Fallback: string := "Other"

  // ------------------------------------------------------ category choices

  /** `CATEGORIES[int(choice) - 1]`, with `"Other"` when `int` raises
      `ValueError` or the index raises `IndexError`. Python's negative
      indexing applies, so `"0"` names the last entry. */
  function LookupCategory(py: Builtins, categories: seq<string>, choice: string): (r: string)
    ensures r == Fallback || r in categories
    ensures py.parseInt(choice).None? ==> r == Fallback
    ensures (py.parseInt(choice).Some? && 1 <= py.parseInt(choice).value <= |categories|)
              ==> r == categories[py.parseInt(choice).value - 1]
    ensures (py.parseInt(choice).Some? && 1 - |categories| <= py.parseInt(choice).value <= 0)
              ==> r == categories[|categories| + py.parseInt(choice).value - 1]
    ensures (py.parseInt(choice).Some? && !(1 - |categories| <= py.parseInt(choice).value <= |categories|))
              ==> r == Fallback
  {
    match py.parseInt(choice)
    case None => Fallback
    case Some(k) => PyIndex(categories, k - 1).GetOr(Fallback)
  }

  /** The category an Add uses, and the registry after it. */
  datatype Resolution = Resolution(category: string, registry: seq<string>)

  /** Category choice in Add: the entry one past the end of the menu
      (`str(len(CATEGORIES) + 1)`, compared as text) asks for a new name,
      which is appended untrimmed when it is not blank; a blank name falls
      back to `"Other"`. Every other choice is looked up. */
  function ResolveForAdd(py: Builtins, categories: seq<string>, choice: string, newName: string): (r: Resolution)
    ensures r.registry == categories || r.registry == categories + [newName]
    ensures r.registry != categories <==> choice == DecimalString(|categories| + 1) && !IsBlank(newName)
    ensures r.registry != categories ==> r.category == newName
    ensures choice == DecimalString(|categories| + 1) && IsBlank(newName) ==> r.category == Fallback
    ensures choice != DecimalString(|categories| + 1) ==> r.category == LookupCategory(py, categories, choice)
    ensures r.category == Fallback || r.category in r.registry
  {
    if choice == DecimalString(|categories| + 1) then
      if !IsBlank(newName) then Resolution(newName, categories + [newName])
      else Resolution(Fallback, categories)
    else Resolution(LookupCategory(py, categories, choice), categories)
  }

  /** Every name in the registry is non-blank. */
  predicate NamesNonBlank(categories: seq<string>) {
    forall i :: 0 <= i < |categories| ==> !IsBlank(categories[i])
  }

  // ------------------------------------------------------------------- Add

  /** The date Add stores: the input verbatim when it is not blank and
      `strptime` accepts it, otherwise today's date. */
  function DateOrToday(py: Builtins, dateText: string, today: string): (r: string)
    ensures r == dateText || r == today
    ensures !IsBlank(dateText) && ValidDate(py, dateText) ==> r == dateText
    ensures IsBlank(dateText) || !ValidDate(py, dateText) ==> r == today
  {
    if IsBlank(dateText) then today
    else if ValidDate(py, dateText) then dateText
    else today
  }

  // ------------------------------------------------- display index choices

  /** How the index prompt of Delete and Update is answered. */
  datatype IndexChoice =
    | NoExpenses       // the list is empty; nothing is asked
    | NotANumber       // int() raised ValueError
    | OutOfRange       // a number outside 1..len(expenses)
    | At(index: nat)   // the 0-based position addressed

  /** `int(text) - 1` checked against `0 <= index < len(expenses)`. */
  function SelectIndex(py: Builtins, count: nat, text: string): (r: IndexChoice)
    ensures r == NoExpenses <==> count == 0
    ensures r == NotANumber <==> count > 0 && py.parseInt(text).None?
    ensures r == OutOfRange <==>
      count > 0 && py.parseInt(text).Some? && !(1 <= py.parseInt(text).value <= count)
    ensures r.At? ==> r.index < count && py.parseInt(text) == Some(r.index + 1)
  {
    if count == 0 then NoExpenses
    else
      match py.parseInt(text)
      case None => NotANumber
      case Some(n) => if 0 <= n - 1 < count then At(n - 1) else OutOfRange
  }

  // ---------------------------------------------------------------- Delete

  /** `xs.pop(i)` as a value: the list without its element at `i`, the others
      in their original order. */
  function RemoveAt(xs: seq<Expense>, i: nat): (r: seq<Expense>)
    requires i < |xs|
    ensures |r| == |xs| - 1
    ensures forall j :: 0 <= j < i ==> r[j] == xs[j]
    ensures forall j :: i <= j < |r| ==> r[j] == xs[j + 1]
    ensures multiset(r) + multiset{xs[i]} == multiset(xs)
  {
    assert xs == xs[..i] + [xs[i]] + xs[i + 1..];
    xs[..i] + xs[i + 1..]
  }

  // ---------------------------------------------------------------- Update

  /** The record after an Update, field by field: a blank input keeps the old
      value; an amount `float` rejects and a date `strptime` rejects keep the
      old value too; a non-blank category is stored verbatim. */
  function UpdateRecord(py: Builtins, e: Expense, amountText: string, categoryText: string, dateText: string): (r: Expense)
    ensures IsBlank(amountText) || py.parseFloat(amountText).None? ==> r.amount == e.amount
    ensures !IsBlank(amountText) && py.parseFloat(amountText).Some? ==> r.amount == py.parseFloat(amountText).value
    ensures IsBlank(categoryText) ==> r.category == e.category
    ensures !IsBlank(categoryText) ==> r.category == categoryText
    ensures IsBlank(dateText) || !ValidDate(py, dateText) ==> r.date == e.date
    ensures !IsBlank(dateText) && ValidDate(py, dateText) ==> r.date == dateText
  {
    var amount := if IsBlank(amountText) then e.amount else py.parseFloat(amountText).GetOr(e.amount);
    var category := if IsBlank(categoryText) then e.category else categoryText;
    var date := if !IsBlank(dateText) && ValidDate(py, dateText) then dateText else e.date;
    Expense(category, amount, date)
  }

  // ----------------------------------------------------- view by category

  /** `[e for e in xs if e.category == c]`. */
  function FilterCategory(xs: seq<Expense>, c: string): (r: seq<Expense>)
    ensures |r| <= |xs|
    ensures forall j :: 0 <= j < |r| ==> r[j].category == c
    ensures forall e :: multiset(r)[e] == if e.category == c then multiset(xs)[e] else 0
  {
    if xs == [] then []
    else
      var init := xs[..|xs| - 1];
      var last := xs[|xs| - 1];
      assert xs == init + [last];
      FilterCategory(init, c) + if last.category == c then [last] else []
  }

  /** The sum of `share(e)` over the records `e` of `xs`, added front to
      back as the source's loops do. Every total the tracker reports is one. */
  function SumOf(xs: seq<Expense>, share: Expense -> real): real {
    if xs == [] then 0.0 else SumOf(xs[..|xs| - 1], share) + share(xs[|xs| - 1])
  }

  /** The sum of the amounts of `xs`. */
  function SumAmounts(xs: seq<Expense>): real {
    SumOf(xs, (e: Expense) => e.amount)
  }

  /** What one record adds to the total of category `c`. */
  function CategoryShare(e: Expense, c: string): real {
    if e.category == c then e.amount else 0.0
  }

  /** The total of category `c`, counted record by record over the whole list
      (an independent statement of what the filtered sum should equal). */
  function CategoryTotal(xs: seq<Expense>, c: string): real {
    SumOf(xs, e => CategoryShare(e, c))
  }

  // --------------------------------------------------------- monthly total

  /** What one record adds to the total of year `y`, month `m`: its amount
      when `strptime` accepts its date and the year and month agree, and
      nothing otherwise. */
  function MonthShare(py: Builtins, e: Expense, y: int, m: int): real {
    match py.parseDate(e.date)
    case Some(d) => if d.year == y && d.month == m then e.amount else 0.0
    case None => 0.0
  }

  function MonthSum(py: Builtins, xs: seq<Expense>, y: int, m: int): real {
    SumOf(xs, e => MonthShare(py, e, y, m))
  }

  /** The monthly report: the month's sum when both `int(year)` and
      `int(month)` succeed, and 0 when either raises. */
  function MonthlyTotalOf(py: Builtins, xs: seq<Expense>, yearText: string, monthText: string): real {
    match (py.parseInt(yearText), py.parseInt(monthText))
    case (Some(y), Some(m)) => MonthSum(py, xs, y, m)
    case _ => 0.0
  }
}

/** The tracker's session state and its five operations. The expense list
    and the category registry are fields that the operations update in place;
    `store` holds what the last save wrote to the expense file. Console input
    arrives as the operations' string parameters, and today's date as
    `today`. */
module Tracker {
  import opened Python
  import opened Expenses
  import opened ExpenseProperties

  class ExpenseTracker {
    var expenses: seq<Expense>
    var categories: seq<string>
    var store: seq<Expense>

    /** No registry entry is blank (the defaults are not, and Add only
        registers names that are not). */
    ghost predicate Valid()
      reads this
    {
      NamesNonBlank(categories)
    }

    /** Start a session on the records loaded from the expense file (empty
        when there is no file yet) with the default registry. */
    constructor (loaded: seq<Expense>)
      ensures Valid()
      ensures expenses == loaded && store == loaded && categories == DefaultCategories
    {
      expenses := loaded;
      store := loaded;
      categories := DefaultCategories;
      new;
      forall i | 0 <= i < |categories| ensures !IsBlank(categories[i]) {
        assert categories[i][0] in "FTEBO";
      }
    }

    /** Write the whole expense list to the file. */
    method Save()
      modifies this
      ensures store == expenses
      ensures expenses == old(expenses) && categories == old(categories)
    {
      store := expenses;
    }

    /** Add: resolve the category (possibly registering a new one), take the
        amount (0 when `float` rejects it) and the date (today when blank or
        rejected), append the record and save. */
    method AddExpense(py: Builtins, choice: string, newName: string, amountText: string, dateText: string, today: string)
      returns (added: Expense)
      requires Valid()
      modifies this
      ensures Valid() && old(categories) <= categories
      ensures var res := ResolveForAdd(py, old(categories), choice, newName);
        categories == res.registry && added.category == res.category
      ensures added.amount == py.parseFloat(amountText).GetOr(0.0)
      ensures added.date == DateOrToday(py, dateText, today)
      ensures expenses == old(expenses) + [added]
      ensures store == expenses
    {
      ResolveKeepsRegistry(py, categories, choice, newName);
      var category := Fallback;
      if choice == DecimalString(|categories| + 1) {
        if !IsBlank(newName) {
          categories := categories + [newName];
          category := newName;
        }
      } else {
        category := LookupCategory(py, categories, choice);
      }

      var amount: real;
      match py.parseFloat(amountText) {
        case Some(v) => amount := v;
        case None => amount := 0.0;
      }

      var date: string;
      if IsBlank(dateText) {
        date := today;
      } else if py.parseDate(dateText).Some? {
        date := dateText;
      } else {
        date := today;
      }

      added := Expense(category, amount, date);
      expenses := expenses + [added];
      Save();
    }

    /** Delete: validate the 1-based index; when it addresses a record,
        remove that one record and save; otherwise change nothing. */
    method DeleteExpense(py: Builtins, indexText: string) returns (result: IndexChoice)
      modifies this
      ensures result == SelectIndex(py, |old(expenses)|, indexText)
      ensures result.At? ==> expenses == RemoveAt(old(expenses), result.index) && store == expenses
      ensures !result.At? ==> expenses == old(expenses) && store == old(store)
      ensures categories == old(categories)
    {
      if |expenses| == 0 {
        return NoExpenses;
      }
      match py.parseInt(indexText) {
        case None =>
          result := NotANumber;
        case Some(n) =>
          var index := n - 1;
          if 0 <= index < |expenses| {
            expenses := expenses[..index] + expenses[index + 1..];
            Save();
            result := At(index);
          } else {
            result := OutOfRange;
          }
      }
    }

    /** Update: validate the 1-based index; when it addresses a record,
        replace each of its fields that has a usable new value and save
        (even when no field changed); otherwise change nothing. */
    method UpdateExpense(py: Builtins, indexText: string, amountText: string, categoryText: string, dateText: string)
      returns (result: IndexChoice)
      modifies this
      ensures result == SelectIndex(py, |old(expenses)|, indexText)
      ensures result.At? ==>
        expenses == old(expenses)[result.index := UpdateRecord(py, old(expenses)[result.index], amountText, categoryText, dateText)]
        && store == expenses
      ensures !result.At? ==> expenses == old(expenses) && store == old(store)
      ensures categories == old(categories)
    {
      if |expenses| == 0 {
        return NoExpenses;
      }
      match py.parseInt(indexText) {
        case None =>
          result := NotANumber;
        case Some(n) =>
          var index := n - 1;
          if 0 <= index < |expenses| {
            var expense := expenses[index];
            if !IsBlank(amountText) {
              match py.parseFloat(amountText) {
                case Some(v) => expense := expense.(amount := v);
                case None =>
              }
            }
            if !IsBlank(categoryText) {
              expense := expense.(category := categoryText);
            }
            if !IsBlank(dateText) {
              if py.parseDate(dateText).Some? {
                expense := expense.(date := dateText);
              }
            }
            expenses := expenses[index := expense];
            Save();
            result := At(index);
          } else {
            result := OutOfRange;
          }
      }
    }

    /** View by category: resolve the choice to a name, keep the records of
        exactly that category in list order, and add up their amounts. */
    method ViewByCategory(py: Builtins, choice: string) returns (selected: string, matches: seq<Expense>, total: real)
      ensures selected == LookupCategory(py, categories, choice)
      ensures matches == FilterCategory(expenses, selected)
      ensures total == CategoryTotal(expenses, selected)
    {
      selected := LookupCategory(py, categories, choice);
      matches := FilterCategory(expenses, selected);
      total := 0.0;
      var i := 0;
      while i < |matches|
        invariant 0 <= i <= |matches|
        invariant total == SumAmounts(matches[..i])
      {
        assert matches[..i + 1][..i] == matches[..i];
        total := total + matches[i].amount;
        i := i + 1;
      }
      assert matches[..i] == matches;
      FilterSumIsCategoryTotal(expenses, selected);
    }

    /** Monthly total: scan every record; a record whose date `strptime`
        rejects, or for which `int(year)` or `int(month)` raises, is skipped;
        the others add their amount when year and month agree. */
    method MonthlyTotal(py: Builtins, yearText: string, monthText: string) returns (total: real)
      ensures total == MonthlyTotalOf(py, expenses, yearText, monthText)
    {
      total := 0.0;
      var i := 0;
      while i < |expenses|
        invariant 0 <= i <= |expenses|
        invariant total == MonthlyTotalOf(py, expenses[..i], yearText, monthText)
      {
        var expense := expenses[i];
        assert expenses[..i + 1] == expenses[..i] + [expense];
        if py.parseInt(yearText).Some? && py.parseInt(monthText).Some? {
          AddMovesMonthSum(py, expenses[..i], expense, py.parseInt(yearText).value, py.parseInt(monthText).value);
        }
        match py.parseDate(expense.date) {
          case None =>
          case Some(d) =>
            match py.parseInt(yearText) {
              case None =>
              case Some(y) =>
                if d.year == y {
                  match py.parseInt(monthText) {
                    case None =>
                    case Some(m) =>
                      if d.month == m {
                        total := total + expense.amount;
                      }
                  }
                }
            }
        }
        i := i + 1;
      }
      assert expenses[..i] == expenses;
    }
  }
}

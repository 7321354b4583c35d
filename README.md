# Expense tracker — a Dafny model

The tracker is a console program that keeps a list of expense records
(category, amount, date) in a JSON file and a session registry of category
names that starts as `Food, Transport, Entertainment, Bills, Other`. Its
operations add a record, delete or update one by its 1-based display number,
list the records of one category with their total, and total the records of
one year and month.

This project models that session state as the class
`Tracker.ExpenseTracker`. The expense list and the registry are fields that
the operations update in place, and `store` is what the last save wrote to
the file. Each operation is a method. It takes the text the user would have
typed as string parameters, and today's date as `today`. Every method is
proved against the pure rules in module `Expenses`:

- `LookupCategory` and `ResolveForAdd` turn a menu choice into a category.
- `DateOrToday` picks the date an Add stores.
- `SelectIndex` validates a display number.
- `RemoveAt` and `UpdateRecord` say what Delete and Update do to the list.
- `FilterCategory`, `CategoryTotal` and `MonthlyTotalOf` define the two reports.

Module `ExpenseProperties` proves what those rules promise together. The
category report's sum equals a record-by-record total. The filter keeps list
order. Add, Delete and Update move every total by exactly the share of the
record they add, remove or replace. A record with a rejected date never counts
toward a month.

Module `Python` holds the few built-ins the program relies on:

- `str.strip()`, defined as `Strip`; `IsBlank` is shown equal to `Strip(s) == ""`.
- `str(n)`, defined as `DecimalString`, with its digits proved to denote `n`.
- Python list indexing, including negative positions, defined as `PyIndex`.
- The parsers `int()`, `float()` and `strptime(…, "%Y-%m-%d")`. These are not
  defined here. They are the three fields of a `Builtins` value that every
  operation receives, so each proof holds whatever those parsers accept.
  `None` stands for the `ValueError` a parser raises.

Where the behaviour described for the program and its code differ, the model
follows the code:

- A new category name is registered exactly as typed. It is not trimmed; only
  the blank test uses `strip()`.
- Registry entries need not be unique. Choosing the "new category" entry and
  typing an existing name appends a duplicate.
- A category choice is an index into a Python list. So `"0"` selects the last
  entry, and `"-1"` the one before it (`Expenses.LookupCategory`).
- The "new category" entry is recognised by comparing text with
  `str(len(CATEGORIES) + 1)`. A choice such as `"06"` or `" 6"` that `int`
  reads as that number goes to the lookup, which raises `IndexError`, so the
  category becomes `"Other"` (`ExpenseProperties.NewCategorySlotNeedsExactText`).
- A date is accepted when `strptime` accepts it. That test is more lenient
  than the strict `YYYY-MM-DD` form, for example it takes unpadded fields.

## Model

| member | source | states |
|---|---|---|
| `Python.Strip` | main.py:30 | `strip()` returns a prefix of the left-stripped text after which only whitespace was cut off; it neither starts nor ends in whitespace, and is empty exactly when every character is whitespace |
| `Python.BlankIffStripsToEmpty` | main.py:49 | the blank test used by the model (all characters whitespace) agrees with `s.strip() == ""` |
| `Python.DecimalString` | main.py:28 | `str(n)` is a non-empty string of decimal digits, with no leading zero, that denotes `n` |
| `Python.PyIndex` | main.py:36 | a list index succeeds exactly for `-len <= i < len`, and then yields `xs[i]` for `i >= 0` and `xs[len+i]` for `i < 0` |
| `Expenses.LookupCategory` | main.py:141-145 | the chosen category is `"Other"` or a registry entry: `"Other"` when `int` rejects the choice or reads a `k` outside `1-len..len`; entry `k-1` for `k` in `1..len`; entry `len+k-1` for `k` in `1-len..0`, so `"0"` names the last entry |
| `Expenses.ResolveForAdd` | main.py:24-38 | the registry is unchanged or gains exactly the new name at the end; it grows exactly when the choice is the text `str(len+1)` and the name is not blank, and then the category is that name; the exact text `str(len+1)` with a blank name gives `"Other"`; any other choice gives `LookupCategory` of it; the category is always `"Other"` or a registry entry |
| `Expenses.DateOrToday` | main.py:47-57 | the stored date is the input or today; it is the input verbatim exactly when the input is not blank and `strptime` accepts it |
| `Expenses.SelectIndex` | main.py:84-92 | the index prompt ends in exactly one of four ways: empty list, not a number, out of `1..len`, or a 0-based position below `len` whose number `int` read |
| `Expenses.RemoveAt` | main.py:86 | `pop(i)` leaves one record fewer, keeps the records before `i` in place, shifts the ones after down by one, and removes exactly one copy of the popped record |
| `Expenses.UpdateRecord` | main.py:110-124 | each field is replaced or kept on its own: a blank input or one the parser rejects keeps the old value, a parsed amount or accepted date replaces it, and a non-blank category is stored verbatim |
| `Expenses.FilterCategory` | main.py:148 | the filtered list holds only records of the chosen category, each as many times as the expense list holds it, and no others |
| `ExpenseProperties.NewCategorySlotNeedsExactText` | main.py:28-38 | a choice that `int` reads as `len+1` but that is not written `str(len+1)` yields `"Other"` and leaves the registry unchanged |
| `ExpenseProperties.ResolveKeepsRegistry` | main.py:27-33 | resolving a choice only ever extends the registry, and never with a blank name |
| `ExpenseProperties.FilterIsSubsequence` | main.py:148 | the filtered list is a subsequence of the expense list: same records, same order |
| `ExpenseProperties.FilterSumIsCategoryTotal` | main.py:148-158 | the sum the category report adds up equals the category's total counted over the whole list |
| `ExpenseProperties.AddedRecordListedLast` | main.py:59-60 | after an Add, the report for the new record's category lists it last, after the ones listed before |
| `ExpenseProperties.AddMovesCategoryTotal` | main.py:59-60 | appending a record raises its category's total by its amount and leaves the other categories' totals alone |
| `ExpenseProperties.AddMovesMonthSum` | main.py:59-60 | appending a record raises the total of its date's month by its amount and leaves the other months alone |
| `ExpenseProperties.DeleteMovesTotals` | main.py:85-86 | deleting record `i` lowers every category and month total by exactly that record's share |
| `ExpenseProperties.UpdateMovesTotals` | main.py:110-122 | replacing record `i` changes every category and month total by the new record's share minus the old one's |
| `ExpenseProperties.InvalidDateContributesNothing` | main.py:169-174 | inserting a record whose date `strptime` rejects, anywhere in the list, leaves every month's total unchanged |
| `ExpenseProperties.UnparsedYearOrMonthGivesZero` | main.py:167-174 | when `int` rejects the year or the month, the monthly total is 0 whatever the list holds |
| `ExpenseProperties.UpdateAllBlankIsIdentity` | main.py:110-124 | an update with all three fields blank leaves the record field-for-field unchanged |
| `Tracker.ExpenseTracker.constructor` | main.py:8-15 | a session starts with the loaded records, the same records as the file's content, and the default registry |
| `Tracker.ExpenseTracker.Save` | main.py:179-181 | the file content becomes the current expense list; list and registry are untouched |
| `Tracker.ExpenseTracker.AddExpense` | main.py:18-62 | the registry becomes the resolved one (and stays free of blank names); exactly one record is appended, with the resolved category, the parsed amount or 0, and the input date or today; earlier records are unchanged; the result is saved |
| `Tracker.ExpenseTracker.DeleteExpense` | main.py:78-92 | the outcome is `SelectIndex` of the input; on a valid number exactly that record is removed and the list saved; otherwise list, file and registry are unchanged |
| `Tracker.ExpenseTracker.UpdateExpense` | main.py:95-131 | the outcome is `SelectIndex` of the input; on a valid number only that record changes, to `UpdateRecord` of it, and the list is saved; otherwise nothing changes |
| `Tracker.ExpenseTracker.ViewByCategory` | main.py:134-160 | the selected name is `LookupCategory` of the choice; the listed records are those of exactly that category in list order; the total is that category's total over the whole list (0 when none match) |
| `Tracker.ExpenseTracker.MonthlyTotal` | main.py:163-176 | the loop, with its swallowed exceptions, computes the sum of amounts over the records whose date parses to the given year and month, or 0 when the year or month does not parse |

## Left out

- Reading and writing the JSON file (main.py:8-12, main.py:179-181). The
  records loaded at start are the constructor's parameter. A missing file means
  an empty list. A corrupt file, which stops the program, is not modelled.
  `Save` copies the list into the `store` field instead of serialising it.
- The menu loop and every printed line: `menu` (main.py:184-214),
  `view_expenses` (main.py:65-75), the confirmations and the warnings ("Invalid
  choice", "Invalid amount", "Invalid date"). Which message Delete and Update
  print is still visible in their `IndexChoice` result.
- The order of the prompts. Every input is a parameter, even those the program
  only asks for in some branches: the new category name, and Update's three
  field inputs. Where the program would not ask, the parameter is ignored.
- `datetime.now()` (main.py:50, 57): today's date is the `today` parameter.
- The exact grammars of `int()`, `float()` and `strptime`. These are library
  behaviour, so they are parameters of the model.
- `float` arithmetic, NaN and infinity, and the `:.2f` formatting of totals
  (main.py:160, 176). Amounts are exact reals, and sums are exact.
- Records loaded from the file with a missing field or a non-numeric amount.
  Delete reads only `amount` and `category`, after the removal was saved
  (main.py:86-88): a missing one raises `KeyError`; a missing date or a
  non-numeric amount raises nothing. Update raises `KeyError` at main.py:104
  when any field is missing. The category report leaves out a record without
  a category (main.py:148); a matching record without an amount or date, or
  with a non-numeric amount, raises (main.py:157-158). The monthly report
  skips a record whose date is missing, or whose amount is missing or
  non-numeric when its date matches (main.py:170-174); it counts a record
  that lacks only its category. Every modelled record has all three fields,
  and its amount is a number.
- `Tracker.ExpenseTracker.ViewByCategory`: when no record matches, the program
  prints "no expenses" and no total. The method still returns its total, which
  is 0 in that case.

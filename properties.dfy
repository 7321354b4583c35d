/** What the tracker's rules promise once they are put together: the
    category report agrees with a record-by-record total, the filter keeps the
    list's order, and each change to the list (Add, Delete, Update) moves every
    report by exactly the share of the records it adds, removes or replaces. */
module ExpenseProperties {
  import opened Python
  import opened Expenses

  // ------------------------------------------------------ category choices

  /** A choice that `int` reads as `len(CATEGORIES) + 1` but that is not
      written exactly as `str(len(CATEGORIES) + 1)` (say `"06"` or `" 6"`)
      does not offer a new category: the lookup raises `IndexError` and the
      category is `"Other"`, registry unchanged. */
  lemma NewCategorySlotNeedsExactText(py: Builtins, categories: seq<string>, choice: string, newName: string)
    requires choice != DecimalString(|categories| + 1)
    requires py.parseInt(choice) == Some(|categories| + 1)
    ensures ResolveForAdd(py, categories, choice, newName) == Resolution(Fallback, categories)
  {
  }

  /** Adding keeps the registry's invariants: it only grows, so the
      default entries stay at the front, and no blank name gets in. */
  lemma ResolveKeepsRegistry(py: Builtins, categories: seq<string>, choice: string, newName: string)
    requires NamesNonBlank(categories)
    ensures categories <= ResolveForAdd(py, categories, choice, newName).registry
    ensures NamesNonBlank(ResolveForAdd(py, categories, choice, newName).registry)
  {
  }

  // ------------------------------------------------------------------ sums

  /** A total over two lists joined is the sum of their totals. */
  lemma {:induction false} SumOfAppend(xs: seq<Expense>, ys: seq<Expense>, share: Expense -> real)
    ensures SumOf(xs + ys, share) == SumOf(xs, share) + SumOf(ys, share)
    decreases |ys|
  {
    if ys != [] {
      var init := ys[..|ys| - 1];
      assert (xs + ys)[..|xs + ys| - 1] == xs + init;
      SumOfAppend(xs, init, share);
    } else {
      assert xs + ys == xs;
    }
  }

  lemma SumOfSingle(e: Expense, share: Expense -> real)
    ensures SumOf([e], share) == share(e)
  {
  }

  /** Removing the record at `i` takes exactly its share off any total. */
  lemma SumOfRemoveAt(xs: seq<Expense>, i: nat, share: Expense -> real)
    requires i < |xs|
    ensures SumOf(RemoveAt(xs, i), share) == SumOf(xs, share) - share(xs[i])
  {
    var pre, post := xs[..i], xs[i + 1..];
    var rest := xs[i..];
    assert rest == [xs[i]] + post;
    assert xs == pre + rest;
    SumOfAppend(pre, rest, share);
    SumOfAppend([xs[i]], post, share);
    SumOfSingle(xs[i], share);
    SumOfAppend(pre, post, share);
  }

  /** Replacing the record at `i` by `e` swaps its share for that of `e`. */
  lemma SumOfReplace(xs: seq<Expense>, i: nat, e: Expense, share: Expense -> real)
    requires i < |xs|
    ensures SumOf(xs[i := e], share) == SumOf(xs, share) - share(xs[i]) + share(e)
  {
    var ys := xs[i := e];
    assert RemoveAt(ys, i) == RemoveAt(xs, i);
    SumOfRemoveAt(xs, i, share);
    SumOfRemoveAt(ys, i, share);
  }

  // ------------------------------------------------------ view by category

  /** `a` is `b` with some records left out and the rest in order. */
  ghost predicate SubsequenceOf(a: seq<Expense>, b: seq<Expense>)
    decreases |b|
  {
    if a == [] then true
    else if b == [] then false
    else (a[|a| - 1] == b[|b| - 1] && SubsequenceOf(a[..|a| - 1], b[..|b| - 1]))
         || SubsequenceOf(a, b[..|b| - 1])
  }

  /** The filtered list keeps the order of the expense list. */
  lemma {:induction false} FilterIsSubsequence(xs: seq<Expense>, c: string)
    ensures SubsequenceOf(FilterCategory(xs, c), xs)
  {
    if xs != [] {
      var init := xs[..|xs| - 1];
      var last := xs[|xs| - 1];
      FilterIsSubsequence(init, c);
      var f := FilterCategory(init, c);
      if last.category == c {
        assert (f + [last])[..|f|] == f;
      } else {
        assert FilterCategory(xs, c) == f;
        if f != [] {
          assert SubsequenceOf(f, init);
        }
      }
    }
  }

  /** The total the category report prints equals the category's total
      counted record by record over the whole list. */
  lemma {:induction false} FilterSumIsCategoryTotal(xs: seq<Expense>, c: string)
    ensures SumAmounts(FilterCategory(xs, c)) == CategoryTotal(xs, c)
  {
    if xs != [] {
      var init := xs[..|xs| - 1];
      var last := xs[|xs| - 1];
      FilterSumIsCategoryTotal(init, c);
      var f := FilterCategory(init, c);
      if last.category == c {
        assert (f + [last])[..|f|] == f;
      } else {
        assert FilterCategory(xs, c) == f + [];
        assert f + [] == f;
      }
    }
  }

  /** A record just added is the last one its category's report lists. */
  lemma AddedRecordListedLast(xs: seq<Expense>, e: Expense)
    ensures FilterCategory(xs + [e], e.category) == FilterCategory(xs, e.category) + [e]
  {
  }

  // ------------------------------------------- how each change moves totals

  /** Appending a record adds exactly its share to a category total. */
  lemma AddMovesCategoryTotal(xs: seq<Expense>, e: Expense, c: string)
    ensures CategoryTotal(xs + [e], c) == CategoryTotal(xs, c) + CategoryShare(e, c)
  {
  }

  /** Appending a record adds exactly its share to a monthly total. */
  lemma AddMovesMonthSum(py: Builtins, xs: seq<Expense>, e: Expense, y: int, m: int)
    ensures MonthSum(py, xs + [e], y, m) == MonthSum(py, xs, y, m) + MonthShare(py, e, y, m)
  {
  }

  /** Deleting the record at `i` takes exactly its share off every total. */
  lemma DeleteMovesTotals(py: Builtins, xs: seq<Expense>, i: nat, c: string, y: int, m: int)
    requires i < |xs|
    ensures CategoryTotal(RemoveAt(xs, i), c) == CategoryTotal(xs, c) - CategoryShare(xs[i], c)
    ensures MonthSum(py, RemoveAt(xs, i), y, m) == MonthSum(py, xs, y, m) - MonthShare(py, xs[i], y, m)
  {
    SumOfRemoveAt(xs, i, e => CategoryShare(e, c));
    SumOfRemoveAt(xs, i, e => MonthShare(py, e, y, m));
  }

  /** Replacing the record at `i` by `e` swaps its share for that of `e` in
      every total. */
  lemma UpdateMovesTotals(py: Builtins, xs: seq<Expense>, i: nat, e: Expense, c: string, y: int, m: int)
    requires i < |xs|
    ensures CategoryTotal(xs[i := e], c) == CategoryTotal(xs, c) - CategoryShare(xs[i], c) + CategoryShare(e, c)
    ensures MonthSum(py, xs[i := e], y, m) == MonthSum(py, xs, y, m) - MonthShare(py, xs[i], y, m) + MonthShare(py, e, y, m)
  {
    SumOfReplace(xs, i, e, e => CategoryShare(e, c));
    SumOfReplace(xs, i, e, e => MonthShare(py, e, y, m));
  }

  // --------------------------------------------------------- monthly total

  /** A record whose date `strptime` rejects never changes a monthly total,
      wherever it sits in the list. */
  lemma InvalidDateContributesNothing(py: Builtins, xs: seq<Expense>, i: nat, e: Expense, y: int, m: int)
    requires i <= |xs| && !ValidDate(py, e.date)
    ensures MonthSum(py, xs[..i] + [e] + xs[i..], y, m) == MonthSum(py, xs, y, m)
  {
    var share := (x: Expense) => MonthShare(py, x, y, m);
    assert xs == xs[..i] + xs[i..];
    SumOfAppend(xs[..i] + [e], xs[i..], share);
    SumOfAppend(xs[..i], [e], share);
    SumOfAppend(xs[..i], xs[i..], share);
    assert SumOf([e], share) == 0.0 by {
      assert [e][..0] == [];
    }
  }

  /** When `int` rejects the year or the month, every record's test raises
      and the report is 0, whatever the list holds. */
  lemma UnparsedYearOrMonthGivesZero(py: Builtins, xs: seq<Expense>, yearText: string, monthText: string)
    requires py.parseInt(yearText).None? || py.parseInt(monthText).None?
    ensures MonthlyTotalOf(py, xs, yearText, monthText) == 0.0
  {
  }

  // ---------------------------------------------------------------- Update

  /** An Update with every field left blank leaves the record as it was. */
  lemma UpdateAllBlankIsIdentity(py: Builtins, e: Expense, amountText: string, categoryText: string, dateText: string)
    requires IsBlank(amountText) && IsBlank(categoryText) && IsBlank(dateText)
    ensures UpdateRecord(py, e, amountText, categoryText, dateText) == e
  {
  }
}

/** The home screen's balance: the amount owed to the user, folded over the
    expense list the store returned, and the per-expense amount each row
    shows. */
module Dashboard {
  import opened Money
  import opened Records

  /** What the user is owed for one expense: the share times the number of
      friends it was split with (the payer's own share excluded). */
  function Owed(e: Expense): (owed: real)
    ensures e.splitBetween == [] ==> owed == 0.0
    ensures e.amountPerPerson >= 0.0 ==> owed >= 0.0
  {
    e.amountPerPerson * |e.splitBetween| as real
  }

  /** A two-decimal share owes a two-decimal amount. */
  lemma OwedIsCents(e: Expense)
    requires IsCents(e.amountPerPerson)
    ensures IsCents(Owed(e))
  {
    var share, friends := e.amountPerPerson, |e.splitBetween|;
    CentsTimesCount(share, friends);
    assert Owed(e) == share * friends as real;
  }

  /** The row's "+ ₹…" figure: the owed amount through `toFixed(2)`. */
  function RowDisplay(e: Expense): (shown: real)
    ensures IsCents(shown)
    ensures -0.005 <= shown - Owed(e) <= 0.005
  {
    Round2(Owed(e))
  }

  /** `expenses.reduce((acc, curr) => acc + owed(curr), acc)`, a left fold. */
  function Reduce(acc: real, expenses: seq<Expense>): (total: real)
    ensures expenses == [] ==> total == acc
    decreases |expenses|
  {
    if expenses == [] then acc
    else Reduce(acc + Owed(expenses[0]), expenses[1..])
  }

  /** The "Total Owed to You" figure computed after a fetch. */
  function TotalOwedToYou(expenses: seq<Expense>): (total: real)
    ensures expenses == [] ==> total == 0.0
  {
    Reduce(0.0, expenses)
  }

  /** Reference definition: the sum of the per-row owed amounts. */
  function SumOfRows(expenses: seq<Expense>): (sum: real) {
    if expenses == [] then 0.0
    else Owed(expenses[0]) + SumOfRows(expenses[1..])
  }

  /** The fold started from acc adds the sum of the rows to acc. */
  lemma {:induction false} ReduceIsSum(acc: real, expenses: seq<Expense>)
    ensures Reduce(acc, expenses) == acc + SumOfRows(expenses)
    decreases |expenses|
  {
    if expenses != [] {
      ReduceIsSum(acc + Owed(expenses[0]), expenses[1..]);
    }
  }

  /** The total is the sum of the per-row owed amounts (before the rows'
      display rounding); the empty list gives 0. */
  lemma TotalIsSumOfRows(expenses: seq<Expense>)
    ensures TotalOwedToYou(expenses) == SumOfRows(expenses)
    ensures expenses == [] ==> TotalOwedToYou(expenses) == 0.0
  {
    ReduceIsSum(0.0, expenses);
  }

  lemma {:induction false} SumOfRowsAppend(a: seq<Expense>, b: seq<Expense>)
    ensures SumOfRows(a + b) == SumOfRows(a) + SumOfRows(b)
  {
    if a == [] {
      assert a + b == b;
    } else {
      assert (a + b)[1..] == a[1..] + b;
      SumOfRowsAppend(a[1..], b);
    }
  }

  /** Additivity: the total of two lists put together is the sum of their
      totals. */
  lemma TotalAppend(a: seq<Expense>, b: seq<Expense>)
    ensures TotalOwedToYou(a + b) == TotalOwedToYou(a) + TotalOwedToYou(b)
  {
    TotalIsSumOfRows(a + b);
    TotalIsSumOfRows(a);
    TotalIsSumOfRows(b);
    SumOfRowsAppend(a, b);
  }

  /** Taking one row out of the list takes its owed amount out of the sum. */
  lemma SumOfRowsRemove(left: seq<Expense>, x: Expense, right: seq<Expense>)
    ensures SumOfRows(left + [x] + right) == Owed(x) + SumOfRows(left + right)
  {
    SumOfRowsAppend(left + [x], right);
    SumOfRowsAppend(left, [x]);
    SumOfRowsAppend(left, right);
    SumOfOneRow(x);
  }

  lemma SumOfOneRow(e: Expense)
    ensures SumOfRows([e]) == Owed(e)
  {
    assert [e][1..] == [];
  }

  /** Taking out the element at index i takes one copy of it out of the
      multiset. */
  lemma MultisetRemoveAt(b: seq<Expense>, i: nat)
    requires i < |b|
    ensures multiset(b[..i] + b[i + 1..]) == multiset(b) - multiset{b[i]}
  {
    assert b == b[..i] + [b[i]] + b[i + 1..];
  }

  /** Taking out the row at index i takes its owed amount out of the sum. */
  lemma {:induction false} SumOfRowsRemoveAt(b: seq<Expense>, i: nat)
    requires i < |b|
    ensures SumOfRows(b) == Owed(b[i]) + SumOfRows(b[..i] + b[i + 1..])
  {
    if i == 0 {
      assert b[..0] + b[1..] == b[1..];
    } else {
      var c := b[1..];
      SumOfRowsRemoveAt(c, i - 1);
      assert b[..i] + b[i + 1..] == [b[0]] + (c[..i - 1] + c[i..]);
    }
  }

  lemma {:induction false} SumOfRowsIgnoresOrder(a: seq<Expense>, b: seq<Expense>)
    requires multiset(a) == multiset(b)
    ensures SumOfRows(a) == SumOfRows(b)
    decreases |a|
  {
    if a == [] {
      assert b == [] by {
        assert |b| == |multiset(b)| == 0;
      }
    } else {
      assert a[0] in multiset(b);
      var i :| 0 <= i < |b| && b[i] == a[0];
      var rest := b[..i] + b[i + 1..];
      assert multiset(a[1..]) == multiset(rest) by {
        MultisetRemoveAt(a, 0);
        assert a[..0] + a[1..] == a[1..];
        MultisetRemoveAt(b, i);
      }
      assert SumOfRows(b) == Owed(a[0]) + SumOfRows(rest) by {
        SumOfRowsRemoveAt(b, i);
      }
      SumOfRowsIgnoresOrder(a[1..], rest);
    }
  }

  /** The total does not depend on the order the store lists expenses in. */
  lemma TotalIgnoresOrder(a: seq<Expense>, b: seq<Expense>)
    requires multiset(a) == multiset(b)
    ensures TotalOwedToYou(a) == TotalOwedToYou(b)
  {
    TotalIsSumOfRows(a);
    TotalIsSumOfRows(b);
    SumOfRowsIgnoresOrder(a, b);
  }

  /** An expense split with nobody adds nothing wherever it stands. */
  lemma UnsplitExpenseAddsNothing(a: seq<Expense>, e: Expense, b: seq<Expense>)
    requires e.splitBetween == []
    ensures TotalOwedToYou(a + [e] + b) == TotalOwedToYou(a + b)
  {
    assert [e][1..] == [];
    assert TotalOwedToYou([e]) == Reduce(0.0 + Owed(e), []) == 0.0;
    TotalAppend(a + [e], b);
    TotalAppend(a, [e]);
    TotalAppend(a, b);
  }

  /** With no negative shares the total is not negative. */
  lemma {:induction false} SumOfRowsNonNegative(expenses: seq<Expense>)
    requires forall e :: e in expenses ==> e.amountPerPerson >= 0.0
    ensures SumOfRows(expenses) >= 0.0
  {
    if expenses != [] {
      assert expenses[0] in expenses;
      SumOfRowsNonNegative(expenses[1..]);
    }
  }

  lemma TotalNonNegative(expenses: seq<Expense>)
    requires forall e :: e in expenses ==> e.amountPerPerson >= 0.0
    ensures TotalOwedToYou(expenses) >= 0.0
  {
    TotalIsSumOfRows(expenses);
    SumOfRowsNonNegative(expenses);
  }

  /** When every share has two decimals, as the app saves them, each row's
      display is exact and the total has two decimals too. */
  lemma {:induction false} CentSharesGiveCentTotal(expenses: seq<Expense>)
    requires forall e :: e in expenses ==> IsCents(e.amountPerPerson)
    ensures IsCents(SumOfRows(expenses))
    ensures forall e :: e in expenses ==> RowDisplay(e) == Owed(e)
  {
    forall e | e in expenses ensures RowDisplay(e) == Owed(e) {
      OwedIsCents(e);
      Round2OfCents(Owed(e));
    }
    if expenses == [] {
      assert (0.0 * 100.0).Floor == 0;
    } else {
      assert expenses[0] in expenses;
      CentSharesGiveCentTotal(expenses[1..]);
      OwedIsCents(expenses[0]);
      CentsSum(Owed(expenses[0]), SumOfRows(expenses[1..]));
    }
  }

  // ---------------------------------------------------------------------
  // The screen's state
  // ---------------------------------------------------------------------

  /** What the expense request produced: a list the fold accepts; a list
      the fold throws on after it has been stored, which is never empty as
      it holds a record without `splitBetween`; or a failed request or
      unreadable reply. */
  datatype FetchResult = Fetched(expenses: seq<Expense>) | Unfoldable(expenses: seq<Expense>) | FetchFailed

  /** The balance card's state. */
  datatype State = State(expenses: seq<Expense>, totalOwedToYou: real, loading: bool)

  /** Before any fetch: no expenses, a total of 0, loading. */
  function Initial(): (s: State)
    ensures s.expenses == [] && s.totalOwedToYou == 0.0 && s.loading
  {
    State([], 0.0, true)
  }

  /** `fetchExpenses`: a decoded list replaces the list first; when the
      fold goes through, its result replaces the total; when it throws, the
      old total stays. A failed request keeps both. Loading ends in every
      case. */
  function AfterFetch(s: State, result: FetchResult): (s': State)
    ensures !s'.loading
    ensures !result.FetchFailed? ==> s'.expenses == result.expenses
    ensures result.Fetched? ==> s'.totalOwedToYou == SumOfRows(result.expenses)
    ensures result.Unfoldable? ==> s'.totalOwedToYou == s.totalOwedToYou
    ensures result.FetchFailed? ==> s'.expenses == s.expenses && s'.totalOwedToYou == s.totalOwedToYou
  {
    match result
    case Fetched(expenses) =>
      TotalIsSumOfRows(expenses);
      State(expenses, TotalOwedToYou(expenses), false)
    case Unfoldable(expenses) => State(expenses, s.totalOwedToYou, false)
    case FetchFailed => s.(loading := false)
  }

  /** A sequence of fetches none of which the fold threw on keeps the
      stored total equal to the sum of the rows of the stored list. */
  lemma {:induction false} TotalMatchesRows(results: seq<FetchResult>)
    ensures (forall i :: 0 <= i < |results| ==> !results[i].Unfoldable?) ==>
      var s := FetchAll(Initial(), results);
      s.totalOwedToYou == SumOfRows(s.expenses)
    decreases |results|
  {
    if results != [] {
      TotalMatchesRows(results[..|results| - 1]);
    }
  }

  /** A fold that throws leaves the previous total in the state next to
      the new list: after "Dinner" (60 owed), a list the fold throws on is
      stored while the total stays 60. The next render throws on the same
      record, so this pair is never displayed. */
  lemma UnfoldableKeepsPreviousTotal(e: Expense, bad: seq<Expense>)
    requires Owed(e) == 60.0 && bad != []
    ensures var s := FetchAll(Initial(), [Fetched([e]), Unfoldable(bad)]);
      s.expenses == bad && s.totalOwedToYou == 60.0
  {
    assert [Fetched([e]), Unfoldable(bad)][..1] == [Fetched([e])];
    assert [Fetched([e])][..0] == [];
    SumOfOneRow(e);
  }

  /** The state after a sequence of fetches, in order. */
  function FetchAll(s: State, results: seq<FetchResult>): (s': State)
    ensures results == [] ==> s' == s
    ensures results != [] ==> !s'.loading
    decreases |results|
  {
    if results == [] then s
    else AfterFetch(FetchAll(s, results[..|results| - 1]), results[|results| - 1])
  }
}

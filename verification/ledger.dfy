/** How an expense saved on the "Add Expense" screen shows up in the home
    screen's balance, assuming the store lists back the fields it was sent. */
module Ledger {
  import opened Wrappers
  import opened Money
  import opened Records
  import opened AddExpense
  import opened Dashboard

  /** The listed expense for a saved request: the request's fields with the
      id and date the store assigned. */
  function Stored(data: ExpenseData, id: ExpenseId, date: int): (e: Expense)
    ensures e.splitBetween == data.splitBetween && e.amountPerPerson == data.amountPerPerson
    ensures e.amount == data.amount && e.paidBy == data.paidBy && e.description == data.description
  {
    Expense(id, data.description, data.amount, data.paidBy, data.splitBetween, data.amountPerPerson, date)
  }

  /** What an expense whose share came from the split calculation adds to
      the balance: a two-decimal amount shown exactly on its row, nothing
      when it was split with nobody, nothing negative for a non-negative
      amount; together with the payer's own share it makes up the amount,
      up to half a hundredth per person. */
  lemma SplitExpenseOwed(e: Expense)
    requires e.amountPerPerson == SplitAmount(e.amount, SplitCount(e.splitBetween))
    ensures IsCents(Owed(e)) && RowDisplay(e) == Owed(e)
    ensures e.splitBetween == [] ==> Owed(e) == 0.0
    ensures e.amount >= 0.0 ==> Owed(e) >= 0.0
    ensures var people := (|e.splitBetween| + 1) as real;
      -0.005 * people <= Owed(e) + e.amountPerPerson - e.amount <= 0.005 * people
  {
    OwedIsCents(e);
    Round2OfCents(Owed(e));
    SplitExpenseDrift(e);
  }

  /** Rounding drift of a split expense, per person. */
  lemma SplitExpenseDrift(e: Expense)
    requires e.amountPerPerson == SplitAmount(e.amount, SplitCount(e.splitBetween))
    ensures var people := (|e.splitBetween| + 1) as real;
      -0.005 * people <= Owed(e) + e.amountPerPerson - e.amount <= 0.005 * people
  {
    SharesCoverAmount(e.amount, SplitCount(e.splitBetween));
    OwedPlusShare(e);
  }

  /** The friends' part and the payer's share make up head-count times the
      share. */
  lemma OwedPlusShare(e: Expense)
    ensures Owed(e) + e.amountPerPerson == e.amountPerPerson * SplitCount(e.splitBetween) as real
  {
    var share, n := e.amountPerPerson, |e.splitBetween| as real;
    assert SplitCount(e.splitBetween) as real == n + 1.0;
    assert share * (n + 1.0) == share * n + share;
  }

  /** Every expense the app saves is such an expense. */
  lemma SavedExpenseOwed(amount: AmountInput, description: string, selected: seq<FriendId>,
                         parseFloat: string -> Option<real>, id: ExpenseId, date: int)
    requires SaveRequest(amount, description, selected, parseFloat).Some?
    ensures var e := Stored(SaveRequest(amount, description, selected, parseFloat).value, id, date);
      && IsCents(Owed(e)) && RowDisplay(e) == Owed(e)
      && (selected == [] ==> Owed(e) == 0.0)
      && (e.amount >= 0.0 ==> Owed(e) >= 0.0)
      && -0.005 * (|e.splitBetween| + 1) as real <= Owed(e) + e.amountPerPerson - e.amount
      && Owed(e) + e.amountPerPerson - e.amount <= 0.005 * (|e.splitBetween| + 1) as real
  {
    SplitExpenseOwed(Stored(SaveRequest(amount, description, selected, parseFloat).value, id, date));
  }

  /** "Dinner" for 90 split with two friends: the row and the balance show
      60.00; once the expense is gone the balance is 0.00. */
  lemma DinnerBalance(f1: FriendId, f2: FriendId, parseFloat: string -> Option<real>, id: ExpenseId, date: int)
    requires parseFloat("90") == Some(90.0)
    ensures var request := SaveRequest(Typed("90"), "Dinner", [f1, f2], parseFloat);
      && request.Some?
      && TotalOwedToYou([Stored(request.value, id, date)]) == 60.0
      && TotalOwedToYou([]) == 0.0
  {
    DinnerScenario(f1, f2, parseFloat);
    var e := Stored(ExpenseData("Dinner", 90.0, Payer, [f1, f2], 30.0), id, date);
    TotalIsSumOfRows([e]);
    assert [e][1..] == [];
    assert Owed(e) == 60.0;
  }
}

/** The "Add Expense" screen: the equal split shown while typing, the
    selection of friends to split with, adopting a scanned receipt total,
    and the request sent when the expense is saved. */
module AddExpense {
  import opened Wrappers
  import opened Money
  import opened Records

  // ---------------------------------------------------------------------
  // Amount input and the split calculation
  // ---------------------------------------------------------------------

  /** What the amount state holds: the text typed into the number input, or
      the raw `total` of a scan response (a number, or absent). */
  datatype AmountInput = Typed(text: string) | Scanned(total: Option<real>)

  /** JavaScript truthiness of the amount state: an empty text, a missing
      total and a total of 0 are falsy; any other text, "0" included, is
      truthy. */
  predicate IsFalsy(amount: AmountInput) {
    match amount
    case Typed(text) => text == ""
    case Scanned(total) => total == None || total == Some(0.0)
  }

  /** `parseFloat(amount) || 0`. `parseFloat` is a parameter: None stands
      for NaN. A scanned number parses back to itself. */
  function NumericAmount(amount: AmountInput, parseFloat: string -> Option<real>): (numeric: real)
    ensures amount.Typed? ==> numeric == (if parseFloat(amount.text).Some? then parseFloat(amount.text).value else 0.0)
    ensures amount.Scanned? ==> numeric == (if amount.total.Some? then amount.total.value else 0.0)
    ensures amount.Scanned? ==> (numeric == 0.0 <==> IsFalsy(amount))
  {
    match amount
    case Typed(text) => (match parseFloat(text) case Some(v) => v case None => 0.0)
    case Scanned(total) => (match total case Some(t) => t case None => 0.0)
  }

  /** Head-count of the split: the selected friends plus the payer. */
  function SplitCount(selected: seq<FriendId>): (count: nat)
    ensures count >= 1
    ensures count - 1 == |selected|
  {
    |selected| + 1
  }

  /** The per-person share, rounded to two decimals as `toFixed(2)` does. */
  function SplitAmount(numeric: real, count: nat): (share: real)
    requires count >= 1
    ensures IsCents(share)
    ensures -0.005 <= share - numeric / count as real <= 0.005
    ensures numeric >= 0.0 ==> share >= 0.0
  {
    Round2(numeric / count as real)
  }

  /** An amount that does not parse counts as 0 and so does its share. */
  lemma UnparseableAmountIsZero(text: string, selected: seq<FriendId>, parseFloat: string -> Option<real>)
    requires parseFloat(text) == None
    ensures NumericAmount(Typed(text), parseFloat) == 0.0
    ensures SplitAmount(NumericAmount(Typed(text), parseFloat), SplitCount(selected)) == 0.0
  {
    Round2OfCents(0.0);
  }

  /** With nobody selected the payer's share is the whole amount, rounded. */
  lemma ShareWithNobodySelected(numeric: real)
    ensures SplitAmount(numeric, SplitCount([])) == Round2(numeric)
  {
    assert numeric / 1.0 == numeric;
  }

  /** The rounded shares of all participants add up to the amount up to half
      a hundredth per participant; the drift is not corrected. */
  lemma SharesCoverAmount(numeric: real, count: nat)
    requires count >= 1
    ensures var drift := SplitAmount(numeric, count) * count as real - numeric;
      -0.005 * count as real <= drift <= 0.005 * count as real
  {
    var n := count as real;
    assert numeric / n * n == numeric;
    ScaledBound(SplitAmount(numeric, count), numeric / n, n, numeric);
  }

  // ---------------------------------------------------------------------
  // Selecting the friends to split with
  // ---------------------------------------------------------------------

  /** `s.filter(x => x !== id)`. */
  function Without(s: seq<FriendId>, id: FriendId): (r: seq<FriendId>)
    ensures id !in r
    ensures forall x :: x != id ==> (x in r <==> x in s)
    ensures multiset(r) == multiset(s)[id := 0]
  {
    if s == [] then []
    else
      assert s == [s[0]] + s[1..];
      if s[0] == id then Without(s[1..], id)
      else [s[0]] + Without(s[1..], id)
  }

  /** Filtering out an absent id changes nothing. */
  lemma {:induction false} WithoutAbsent(s: seq<FriendId>, id: FriendId)
    requires id !in s
    ensures Without(s, id) == s
  {
    if s != [] {
      WithoutAbsent(s[1..], id);
    }
  }

  /** Filtering distributes over concatenation, keeping relative order. */
  lemma {:induction false} WithoutAppend(s: seq<FriendId>, t: seq<FriendId>, id: FriendId)
    ensures Without(s + t, id) == Without(s, id) + Without(t, id)
  {
    if s == [] {
      assert s + t == t;
    } else {
      assert (s + t)[1..] == s[1..] + t;
      WithoutAppend(s[1..], t, id);
    }
  }

  /** No id occurs twice. */
  predicate NoDuplicates(s: seq<FriendId>) {
    forall i, j :: 0 <= i < j < |s| ==> s[i] != s[j]
  }

  lemma {:induction false} WithoutKeepsNoDuplicates(s: seq<FriendId>, id: FriendId)
    requires NoDuplicates(s)
    ensures NoDuplicates(Without(s, id))
  {
    if s != [] {
      assert NoDuplicates(s[1..]) by {
        forall i, j | 0 <= i < j < |s[1..]| ensures s[1..][i] != s[1..][j] {
          assert s[1..][i] == s[i + 1] && s[1..][j] == s[j + 1];
        }
      }
      WithoutKeepsNoDuplicates(s[1..], id);
      if s[0] != id {
        assert s[0] !in s[1..] by {
          forall k | 0 <= k < |s[1..]| ensures s[1..][k] != s[0] {
            assert s[1..][k] == s[k + 1];
          }
        }
      }
    }
  }

  /** `toggleFriend`: a selected id is removed (every occurrence), any other
      id is appended at the end. */
  function Toggle(selected: seq<FriendId>, id: FriendId): (r: seq<FriendId>)
    ensures (id in r) == (id !in selected)
    ensures forall x :: x != id ==> (x in r <==> x in selected)
    ensures Without(r, id) == Without(selected, id)
    ensures id in selected ==> multiset(r) == multiset(selected)[id := 0]
    ensures id !in selected ==> r == selected + [id]
  {
    if id in selected then
      WithoutAbsent(Without(selected, id), id);
      Without(selected, id)
    else
      WithoutAppend(selected, [id], id);
      WithoutAbsent(selected, id);
      selected + [id]
  }

  /** Toggling keeps the selection free of duplicates. */
  lemma ToggleKeepsNoDuplicates(selected: seq<FriendId>, id: FriendId)
    requires NoDuplicates(selected)
    ensures NoDuplicates(Toggle(selected, id))
  {
    if id in selected {
      WithoutKeepsNoDuplicates(selected, id);
    }
  }

  /** Selecting an unselected friend and deselecting it again restores the
      selection exactly. */
  lemma ToggleTwiceRestores(selected: seq<FriendId>, id: FriendId)
    requires id !in selected
    ensures Toggle(Toggle(selected, id), id) == selected
  {
    WithoutAppend(selected, [id], id);
    WithoutAbsent(selected, id);
  }

  /** Deselecting and reselecting a selected friend moves it to the end:
      toggling twice is not the identity on the order of the selection. */
  lemma ToggleTwiceMovesToEnd(selected: seq<FriendId>, id: FriendId)
    requires id in selected
    ensures Toggle(Toggle(selected, id), id) == Without(selected, id) + [id]
  {
  }

  // ---------------------------------------------------------------------
  // Saving the expense
  // ---------------------------------------------------------------------

  /** The share shown as "₹… / person" and "Owes you ₹…": only while the
      parsed amount is positive. */
  function ShownShare(amount: AmountInput, selected: seq<FriendId>, parseFloat: string -> Option<real>): (shown: Option<real>)
    ensures shown.Some? <==> NumericAmount(amount, parseFloat) > 0.0
    ensures shown.Some? ==> IsCents(shown.value) && shown.value >= 0.0
    ensures shown.Some? ==> shown.value == SplitAmount(NumericAmount(amount, parseFloat), SplitCount(selected))
    ensures shown.Some? ==>
      -0.005 <= shown.value - NumericAmount(amount, parseFloat) / (|selected| + 1) as real <= 0.005
  {
    var numeric := NumericAmount(amount, parseFloat);
    if numeric > 0.0 then Some(SplitAmount(numeric, SplitCount(selected))) else None
  }

  /** The "create expense" request `handleSave` sends, or None when its
      guard `!amount || !description` stops it. */
  function SaveRequest(amount: AmountInput, description: string, selected: seq<FriendId>,
                       parseFloat: string -> Option<real>): (request: Option<ExpenseData>)
    ensures request.None? <==> IsFalsy(amount) || description == ""
    ensures request.Some? ==>
      var numeric := NumericAmount(amount, parseFloat);
      && request.value.description == description
      && request.value.amount == numeric
      && request.value.paidBy == Payer
      && request.value.splitBetween == selected
      && request.value.amountPerPerson == SplitAmount(numeric, SplitCount(selected))
  {
    if IsFalsy(amount) || description == "" then None
    else
      var numeric := NumericAmount(amount, parseFloat);
      Some(ExpenseData(description, numeric, Payer, selected, SplitAmount(numeric, SplitCount(selected))))
  }

  /** For a typed amount the guard rejects exactly an empty amount text or
      an empty description. */
  lemma TypedSaveGuard(text: string, description: string, selected: seq<FriendId>,
                       parseFloat: string -> Option<real>)
    ensures SaveRequest(Typed(text), description, selected, parseFloat).None?
        <==> text == "" || description == ""
  {
  }

  /** The guard lets a typed "0" through: a zero expense is saved. */
  lemma ZeroTextIsSaved(description: string, selected: seq<FriendId>, parseFloat: string -> Option<real>)
    requires description != ""
    requires parseFloat("0") == Some(0.0)
    ensures var request := SaveRequest(Typed("0"), description, selected, parseFloat);
      request.Some? && request.value.amount == 0.0 && request.value.amountPerPerson == 0.0
  {
    Round2OfCents(0.0);
  }

  /** The guard lets a whitespace-only description through. */
  lemma BlankDescriptionIsSaved(amount: AmountInput, selected: seq<FriendId>, parseFloat: string -> Option<real>)
    requires !IsFalsy(amount)
    ensures SaveRequest(amount, " ", selected, parseFloat).Some?
  {
  }

  /** A scanned total of 0 (a number, hence falsy) is rejected, unlike a
      typed "0". */
  lemma ScannedZeroIsRejected(description: string, selected: seq<FriendId>, parseFloat: string -> Option<real>)
    ensures SaveRequest(Scanned(Some(0.0)), description, selected, parseFloat) == None
  {
  }

  /** The saved share is the one shown per person, with two decimals, and
      the saved shares of everybody cover the amount up to rounding. */
  lemma SavedShareIsShownShare(amount: AmountInput, description: string, selected: seq<FriendId>,
                               parseFloat: string -> Option<real>)
    requires SaveRequest(amount, description, selected, parseFloat).Some?
    ensures var saved := SaveRequest(amount, description, selected, parseFloat).value;
      && IsCents(saved.amountPerPerson)
      && (saved.amount > 0.0 ==> ShownShare(amount, selected, parseFloat) == Some(saved.amountPerPerson))
      && -0.005 * (|selected| + 1) as real
         <= saved.amountPerPerson * (|selected| + 1) as real - saved.amount
         <= 0.005 * (|selected| + 1) as real
  {
    assert SplitCount(selected) == |selected| + 1;
    SharesCoverAmount(NumericAmount(amount, parseFloat), SplitCount(selected));
  }

  /** "Dinner", 90, split with two friends: each owes 30.00. */
  lemma DinnerScenario(f1: FriendId, f2: FriendId, parseFloat: string -> Option<real>)
    requires parseFloat("90") == Some(90.0)
    ensures SaveRequest(Typed("90"), "Dinner", [f1, f2], parseFloat)
         == Some(ExpenseData("Dinner", 90.0, Payer, [f1, f2], 30.0))
  {
    assert 90.0 / 3.0 == 30.0;
    Round2OfCents(30.0);
  }

  /** A scanned total of 45.5 split with one friend: each owes 22.75. */
  lemma ScannedReceiptScenario(f1: FriendId, parseFloat: string -> Option<real>)
    ensures SaveRequest(Scanned(Some(45.5)), "Receipt", [f1], parseFloat)
         == Some(ExpenseData("Receipt", 45.5, Payer, [f1], 22.75))
  {
    assert 45.5 / 2.0 == 22.75;
    Round2OfCents(22.75);
  }

  // ---------------------------------------------------------------------
  // The screen's state and its handlers
  // ---------------------------------------------------------------------

  /** What the scan request produced: no file picked, a response
      `{ success, total }`, or a failed request or unreadable reply. */
  datatype ScanOutcome = NoFile | Answered(success: bool, total: Option<real>) | ScanFailed

  /** The component state of the screen. `parseFloat` is the number parser
      the calculation uses. */
  class Form {
    var amount: AmountInput
    var description: string
    var selectedFriends: seq<FriendId>
    var isScanning: bool
    const parseFloat: string -> Option<real>

    constructor (parseFloat: string -> Option<real>)
      ensures amount == Typed("") && description == ""
      ensures selectedFriends == [] && !isScanning
      ensures this.parseFloat == parseFloat
    {
      amount := Typed("");
      description := "";
      selectedFriends := [];
      isScanning := false;
      this.parseFloat := parseFloat;
    }

    /** Typing into the amount input. */
    method EditAmount(text: string)
      modifies this
      ensures amount == Typed(text)
      ensures description == old(description) && selectedFriends == old(selectedFriends)
      ensures isScanning == old(isScanning)
    {
      amount := Typed(text);
    }

    /** Typing into the description input. */
    method EditDescription(text: string)
      modifies this
      ensures description == text
      ensures amount == old(amount) && selectedFriends == old(selectedFriends)
      ensures isScanning == old(isScanning)
    {
      description := text;
    }

    /** Clicking a friend's row. */
    method ToggleFriend(id: FriendId)
      modifies this
      ensures selectedFriends == Toggle(old(selectedFriends), id)
      ensures amount == old(amount) && description == old(description)
      ensures isScanning == old(isScanning)
    {
      selectedFriends := Toggle(selectedFriends, id);
    }

    /** `handleScan`: a successful scan adopts the scanned total; a failed
        scan or a failed request leaves the amount alone; once a file was
        picked, scanning is over when the handler ends. */
    method HandleScan(outcome: ScanOutcome)
      modifies this
      ensures amount == (if outcome.Answered? && outcome.success then Scanned(outcome.total) else old(amount))
      ensures isScanning == (if outcome.NoFile? then old(isScanning) else false)
      ensures description == old(description) && selectedFriends == old(selectedFriends)
    {
      if outcome.NoFile? {
        return;
      }
      isScanning := true;
      match outcome {
        case Answered(success, total) =>
          if success {
            amount := Scanned(total);
          }
        case ScanFailed =>
      }
      isScanning := false;
    }

    /** `handleSave`: the request it sends, if any. It changes no state. */
    method HandleSave() returns (request: Option<ExpenseData>)
      ensures request == SaveRequest(amount, description, selectedFriends, parseFloat)
    {
      request := SaveRequest(amount, description, selectedFriends, parseFloat);
    }
  }
}

# FairShare expense ledger in Dafny

A model of the expense-splitting logic of the FairShare web front end: three
React screens that record shared expenses and show what friends owe the user.

- **Add Expense** (`add_expense.dfy`, module `AddExpense`): the amount is
  parsed (`parseFloat(amount) || 0`), split equally between the selected
  friends and the payer, and rounded to two decimals; friends are selected by
  toggling their ids; a receipt scan may adopt a scanned total; saving sends a
  "create expense" request unless the amount or the description is falsy.
  The screen's state is the class `AddExpense.Form`; its handlers are methods.
- **Dashboard** (`dashboard.dfy`, module `Dashboard`): the "Total Owed to You"
  figure is a left fold over the listed expenses of `amountPerPerson` times
  the number of friends split with; each row shows the same per-expense
  amount through `toFixed(2)`.
- **Friends** (`friends.dfy`, module `Friends`): a new friend's name is
  rejected when `trim()` leaves nothing; otherwise it is sent as typed and
  the input is cleared once the request has gone through. The screen's state is the class `Friends.Page`.

Shared pieces: `Records` (ids, friends, expenses and request bodies),
`Money` (exact two-decimal rounding), `Wrappers` (`Option`), and `Ledger`
(how a saved expense shows up in the dashboard's balance).

Modelling choices:

- Money is an exact `real`. `Money.Round2` is `parseFloat(x.toFixed(2))` on
  exact decimals: the nearest hundredth, ties away from zero (`toFixed`
  rounds the magnitude and prints the sign separately).
- `parseFloat` is a parameter of type `string -> Option<real>`; `None`
  stands for NaN. Properties that need `parseFloat("")` to be NaN or
  `parseFloat("90")` to be 90 say so in their `requires`.
- The amount state holds either typed text or, after a successful scan, the
  scan's `total` as a number (or nothing when the response has no total):
  `AddExpense.AmountInput`. This matters for the save guard: a typed `"0"` is
  truthy, a scanned `0` is not.
- Ids are opaque types (`Records.FriendId`, `Records.ExpenseId`).
- Requests are returned as values (`Option<ExpenseData>`,
  `Option<NewFriend>`); nothing is sent anywhere.

Behaviour of the code that the model keeps as written: the save guard only
tests truthiness, so an amount of `"0"`, a negative amount and a
whitespace-only description are all saved (`AddExpense.ZeroTextIsSaved`,
`AddExpense.BlankDescriptionIsSaved`), while a scanned total of 0 is refused
(`AddExpense.ScannedZeroIsRejected`); `splitBetween` is an ordered list, and
toggling a friend off and on moves it to the end
(`AddExpense.ToggleTwiceMovesToEnd`); a scan without a total in its response
stores an absent amount, and a scan that fails leaves the previous amount in
place; `handleScan` returns before touching `isScanning` when no file was
picked, so only then can `isScanning` keep its previous value. On the
dashboard the fetched list is stored before the total is folded, so a list
the fold throws on (a record without `splitBetween`) leaves the state holding
the new list with the previous total (`Dashboard.UnfoldableKeepsPreviousTotal`);
the next render throws on the same record, so neither is displayed. On the friends
screen a create request that rejects throws before the input is cleared, so
the typed name stays.

## Model

| member | source | states |
|---|---|---|
| Money.Round2 | src/pages/AddExpense.jsx:35 | the share has two decimals, lies within half a hundredth of the exact value (upper tie for non-negative values, lower tie for negative ones) and keeps the sign of a non-negative value |
| Money.Round2Unique | src/pages/AddExpense.jsx:35 | any two-decimal value within half a hundredth of x (with the same tie rule) is Round2(x): the rounding is determined by that description |
| Money.Round2OfCents | src/pages/AddExpense.jsx:86 | `parseFloat` of the two-decimal text gives back a value that rounding leaves unchanged |
| Money.Round2Idempotent | src/pages/AddExpense.jsx:35 | rounding twice equals rounding once |
| Money.Round2Monotone | src/pages/AddExpense.jsx:35 | rounding preserves the order of amounts |
| Money.CentsTimesCount | src/pages/Dashboard.jsx:53 | a two-decimal share times a head-count has two decimals |
| Money.CentsSum | src/pages/Dashboard.jsx:54 | a sum of two-decimal amounts has two decimals |
| AddExpense.IsFalsy | src/pages/AddExpense.jsx:76 | the truthiness `!amount` tests: an empty text, an absent total and a total of 0 are falsy, any other text ("0" included) is not; its consequences are stated by `AddExpense.SaveRequest`, `AddExpense.TypedSaveGuard`, `AddExpense.ZeroTextIsSaved` and `AddExpense.ScannedZeroIsRejected` |
| AddExpense.NumericAmount | src/pages/AddExpense.jsx:33 | a typed text gives its parsed value, or 0 when it does not parse; a scanned total gives itself, or 0 when absent; a scanned amount is 0 exactly when it is falsy |
| AddExpense.SplitCount | src/pages/AddExpense.jsx:34 | the head-count is the number of selected friends plus the payer, so it is at least 1 and the division never divides by zero |
| AddExpense.SplitAmount | src/pages/AddExpense.jsx:35 | the share has two decimals, is within half a hundredth of amount / head-count, and is non-negative for a non-negative amount |
| AddExpense.UnparseableAmountIsZero | src/pages/AddExpense.jsx:33-35 | an amount text that does not parse (the empty text included, as `parseFloat("")` is NaN) counts as 0 and its share is 0.00 |
| AddExpense.ShareWithNobodySelected | src/pages/AddExpense.jsx:34-35 | with no friend selected the share is the whole amount, rounded |
| AddExpense.SharesCoverAmount | src/pages/AddExpense.jsx:34-35 | head-count times the share differs from the amount by at most half a hundredth per person |
| AddExpense.Without | src/pages/AddExpense.jsx:39 | the filtered list holds no occurrence of the id, every other id keeps its membership, and the multiset loses exactly the id's occurrences |
| AddExpense.WithoutAbsent | src/pages/AddExpense.jsx:39 | filtering out an id that is not there returns the list unchanged |
| AddExpense.WithoutAppend | src/pages/AddExpense.jsx:39 | filtering distributes over concatenation, so other ids keep their relative order |
| AddExpense.WithoutKeepsNoDuplicates | src/pages/AddExpense.jsx:39 | filtering keeps a duplicate-free list duplicate-free |
| AddExpense.Toggle | src/pages/AddExpense.jsx:37-43 | the id's membership flips; other ids keep membership and relative order; a selected id loses every occurrence; an unselected id is appended at the end |
| AddExpense.ToggleKeepsNoDuplicates | src/pages/AddExpense.jsx:37-43 | toggling keeps the selection free of duplicates |
| AddExpense.ToggleTwiceRestores | src/pages/AddExpense.jsx:37-43 | toggling an unselected id twice restores the selection exactly |
| AddExpense.ToggleTwiceMovesToEnd | src/pages/AddExpense.jsx:37-43 | toggling a selected id twice moves it to the end of the selection |
| AddExpense.ShownShare | src/pages/AddExpense.jsx:183-186 | the per-person share is shown exactly when the parsed amount is positive; the value shown is the split amount, the amount over the head-count rounded to two decimals, within half a hundredth of the exact quotient and not negative |
| AddExpense.SaveRequest | src/pages/AddExpense.jsx:76-87 | no request exactly when the amount is falsy or the description is empty; otherwise the request carries the description, the parsed amount, payer "You", the selection and the rounded share |
| AddExpense.TypedSaveGuard | src/pages/AddExpense.jsx:76-79 | for a typed amount only an empty amount text or an empty description is rejected |
| AddExpense.ZeroTextIsSaved | src/pages/AddExpense.jsx:76-87 | a typed "0" passes the guard and saves an amount and share of 0 |
| AddExpense.BlankDescriptionIsSaved | src/pages/AddExpense.jsx:76-79 | a whitespace-only description passes the guard |
| AddExpense.ScannedZeroIsRejected | src/pages/AddExpense.jsx:62-76 | a scanned total of 0 is stored as a number, which the guard rejects |
| AddExpense.SavedShareIsShownShare | src/pages/AddExpense.jsx:81-87 | the saved share has two decimals, equals the share shown per person, and head-count times it covers the amount up to rounding |
| AddExpense.DinnerScenario | src/pages/AddExpense.jsx:81-87 | 90 for "Dinner" split with two friends saves a share of 30.00 with those two friends |
| AddExpense.ScannedReceiptScenario | src/pages/AddExpense.jsx:61-87 | a scanned 45.5 split with one friend saves a share of 22.75 |
| AddExpense.Form.constructor | src/pages/AddExpense.jsx:7-13 | the screen starts with an empty amount and description, nobody selected, not scanning |
| AddExpense.Form.EditAmount | src/pages/AddExpense.jsx:129 | typing sets the amount text and nothing else |
| AddExpense.Form.EditDescription | src/pages/AddExpense.jsx:142 | typing sets the description and nothing else |
| AddExpense.Form.ToggleFriend | src/pages/AddExpense.jsx:37-43 | the selection becomes Toggle of the old selection; nothing else changes |
| AddExpense.Form.HandleScan | src/pages/AddExpense.jsx:45-73 | a successful scan sets the amount to the scanned total; an unsuccessful or failed scan leaves it; with a file picked scanning is over at the end; with no file nothing changes |
| AddExpense.Form.HandleSave | src/pages/AddExpense.jsx:75-87 | the request is SaveRequest of the current state; no state changes |
| Dashboard.Owed | src/pages/Dashboard.jsx:52-53 | what one expense adds: 0 when it was split with nobody, not negative for a non-negative share |
| Dashboard.Reduce | src/pages/Dashboard.jsx:49-55 | the left fold returns its accumulator on the empty list; `Dashboard.ReduceIsSum` relates it to the sum of rows |
| Dashboard.TotalOwedToYou | src/pages/Dashboard.jsx:49-57 | the fold from 0; 0 for the empty list; `Dashboard.TotalIsSumOfRows` relates it to the sum of rows |
| Dashboard.OwedIsCents | src/pages/Dashboard.jsx:52-53 | a two-decimal share gives a two-decimal owed amount |
| Dashboard.RowDisplay | src/pages/Dashboard.jsx:163-165 | the row's figure has two decimals and is within half a hundredth of share times friends |
| Dashboard.ReduceIsSum | src/pages/Dashboard.jsx:49-55 | the fold from any accumulator adds the sum of the per-row owed amounts to it |
| Dashboard.TotalIsSumOfRows | src/pages/Dashboard.jsx:49-55 | the total is the sum of the per-row owed amounts before display rounding; an empty list gives 0 |
| Dashboard.SumOfRowsAppend | src/pages/Dashboard.jsx:49-55 | the sum of rows is additive over concatenation |
| Dashboard.TotalAppend | src/pages/Dashboard.jsx:49-55 | total(A ++ B) = total(A) + total(B) |
| Dashboard.SumOfRowsRemove | src/pages/Dashboard.jsx:49-55 | removing one expense removes exactly its owed amount from the sum |
| Dashboard.SumOfRowsRemoveAt | src/pages/Dashboard.jsx:49-55 | removing the expense at any index removes exactly its owed amount from the sum |
| Dashboard.SumOfRowsIgnoresOrder | src/pages/Dashboard.jsx:49-55 | two lists with the same expenses have the same sum of rows |
| Dashboard.TotalIgnoresOrder | src/pages/Dashboard.jsx:49-55 | the total does not depend on the order of the list |
| Dashboard.UnsplitExpenseAddsNothing | src/pages/Dashboard.jsx:52-53 | an expense with an empty split list contributes 0 wherever it stands |
| Dashboard.SumOfRowsNonNegative | src/pages/Dashboard.jsx:49-55 | with no negative share the sum of rows is not negative |
| Dashboard.TotalNonNegative | src/pages/Dashboard.jsx:49-55 | with no negative share the total is not negative |
| Dashboard.CentSharesGiveCentTotal | src/pages/Dashboard.jsx:49-55 | when every share has two decimals the total has two decimals and every row's figure is exact |
| Dashboard.Initial | src/pages/Dashboard.jsx:14-16 | before any fetch the list is empty, the total is 0 and the screen is loading |
| Dashboard.AfterFetch | src/pages/Dashboard.jsx:40-63 | a decoded list replaces the list; when the fold goes through the total becomes its sum of rows, when the fold throws the old total stays; a failed request keeps both; loading ends in every case |
| Dashboard.FetchAll | src/pages/Dashboard.jsx:40-63 | no fetch leaves the state as it was; after at least one fetch the screen is no longer loading |
| Dashboard.TotalMatchesRows | src/pages/Dashboard.jsx:40-63 | after any sequence of fetches none of which the fold threw on, the stored total is the sum of the rows of the stored list |
| Dashboard.UnfoldableKeepsPreviousTotal | src/pages/Dashboard.jsx:46-61 | after a fetch owing 60, a fetch whose fold throws on a non-empty list stores that list and the state keeps 60 (the general fact is `Dashboard.AfterFetch`'s contract) |
| Friends.TrimStart | src/pages/Friends.jsx:23 | the result is a suffix of the name, everything dropped is white space, and it does not start with white space |
| Friends.TrimEnd | src/pages/Friends.jsx:23 | the result is a prefix of the name, everything dropped is white space, and it does not end with white space |
| Friends.IsWhiteSpace | src/pages/Friends.jsx:23 | the characters `trim()` strips: ECMAScript white space and line terminators |
| Friends.Trim | src/pages/Friends.jsx:23 | the trimmed name is no longer than the name and neither starts nor ends with white space |
| Friends.TrimIsInfix | src/pages/Friends.jsx:23 | the trimmed name is a contiguous part of the name, and everything before and after it is white space: with `Friends.Trim`'s contract, the name with its white-space ends removed |
| Friends.IsBlank | src/pages/Friends.jsx:23 | `!name.trim()`; `Friends.BlankIffAllWhiteSpace` characterises it |
| Friends.TrimStartAllWhiteSpace | src/pages/Friends.jsx:23 | a string of white space only trims to nothing |
| Friends.BlankIffAllWhiteSpace | src/pages/Friends.jsx:23 | a name is rejected exactly when all its characters are white space, the empty name included |
| Friends.NameWithLetterIsNotBlank | src/pages/Friends.jsx:23 | a name with one character that is not white space is accepted |
| Friends.Page.constructor | src/pages/Friends.jsx:7-8 | the screen starts with an empty name input and an empty list |
| Friends.Page.EditName | src/pages/Friends.jsx:51 | typing sets the name input and nothing else |
| Friends.Page.AddFriend | src/pages/Friends.jsx:22-33 | a blank name sends nothing and changes nothing; any other name is sent untrimmed as `{ name }`, and the input is cleared when the request went through and keeps the name when it rejected; the list does not change |
| Friends.AddSameNameTwice | src/pages/Friends.jsx:22-33 | entering the same name twice sends two identical create requests: there is no uniqueness check |
| Ledger.SplitExpenseOwed | src/pages/Dashboard.jsx:52-53 | an expense whose share came from the split owes a two-decimal amount shown exactly, 0 with no friends, non-negative for a non-negative amount, and with the payer's share makes up the amount up to rounding |
| Ledger.Stored | src/pages/Dashboard.jsx:44-46 | the listed expense carries the description, amount, payer, selection and share of the saved request |
| Ledger.SplitExpenseDrift | src/pages/Dashboard.jsx:52-53 | the owed amount plus the payer's share is within half a hundredth per person of the amount |
| Ledger.SavedExpenseOwed | src/pages/AddExpense.jsx:81-87 | every expense the screen saves, once listed, owes a two-decimal amount shown exactly on its row, 0 with no friends, non-negative for a non-negative amount, and with the payer's share makes up the amount within half a hundredth per person |
| Ledger.DinnerBalance | src/pages/Dashboard.jsx:49-55 | after saving 90 for "Dinner" split with two friends the balance is 60.00; with no expenses it is 0.00 |

## Left out

- All network requests (`fetch`, JSON decoding), `alert`, `confirm`, console logging and `navigate`: requests are returned as values, responses are parameters (`AddExpense.ScanOutcome`, `Dashboard.FetchResult`, the `posted` flag of `Friends.Page.AddFriend`).
- Dashboard.AfterFetch: a reply that decodes to something other than a list (an error body, since `fetch` does not reject on an HTTP error status) is stored as the expense list before the fold throws; the model's state holds only lists, so this case is not represented.
- Dashboard.TotalMatchesRows: holds only for fetches the fold accepts; after a list the fold throws on, the state keeps the previous total next to the new list (`Dashboard.UnfoldableKeepsPreviousTotal`).
- Rendering a stored list the fold threw on: the row figure (src/pages/Dashboard.jsx:164) or `expenses.map` throws, and with no error boundary the screen is unmounted; the model stops at the component state.
- The "You owe" figure (src/pages/Dashboard.jsx:109): fixed markup text with no logic behind it.
- Loading the friend lists (src/pages/AddExpense.jsx:19-30, src/pages/Friends.jsx:16-20) and refreshing after an add: the list is an input, and `Friends.Page.friends` only changes through a fetch that is not modelled.
- `deleteExpense` (src/pages/Dashboard.jsx:26-38): the screen only sends a DELETE and fetches again; what deletion does is the backend's. Removing a row from the list is covered by `Dashboard.SumOfRowsRemove`.
- The backend store: `Ledger.Stored` assumes it lists back the fields it was sent, with an id and date of its own.
- Binary floating point: amounts, shares and totals are exact reals. `toFixed` on doubles can differ from decimal rounding, `toFixed` prints exponent notation from 1e21 on, `parseFloat` also reads exponents and "Infinity", and floating-point addition is not associative, so `Dashboard.TotalAppend` and `Dashboard.TotalIgnoresOrder` hold for exact arithmetic only.
- `parseFloat` itself: it is a parameter; no lemma depends on how it parses beyond what its `requires` state.
- A scanned `total` that is not a number (a string in the JSON): it is modelled as a number or absent.
- `toLocaleString` and `toLocaleDateString` formatting (src/pages/Dashboard.jsx:90-93, 154) and all other rendering.
- Receipt recognition itself: only the scan response `{ success, total }` is consumed.
- Concurrency of the async handlers: each handler runs to completion; the disabled scan input while scanning (src/pages/AddExpense.jsx:155) is not modelled.
- Friend avatars: derived by the backend.

/** The records exchanged with the backend store: friends, the body of a
    "create expense" request, and expenses as the store lists them. */
module Records {

  /** Store-assigned identifiers; the app only compares them. */
  type FriendId(==, !new)
  type ExpenseId(==, !new)

  /** The payer of every expense the app creates. */
  const Payer: string := "You"

  /** A friend as listed by the store (`_id`, `name`, `avatar`). */
  datatype Friend = Friend(id: FriendId, name: string, avatar: string)

  /** The body of the "create friend" request. */
  datatype NewFriend = NewFriend(name: string)

  /** The body of the "create expense" request. */
  datatype ExpenseData = ExpenseData(
    description: string,
    amount: real,
    paidBy: string,
    splitBetween: seq<FriendId>,
    amountPerPerson: real)

  /** An expense as the store lists it: the request's fields plus the
      store's id and creation date. */
  datatype Expense = Expense(
    id: ExpenseId,
    description: string,
    amount: real,
    paidBy: string,
    splitBetween: seq<FriendId>,
    amountPerPerson: real,
    date: int)
}

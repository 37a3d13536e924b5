/**
 * The data shapes the ledger engine consumes and produces (src/lib/types.ts).
 *
 * An object literal `{ [userId: string]: number }` is modelled as the list of
 * its entries in enumeration order; amounts are exact reals.
 */
module Types {

  /** `T | null` */
  datatype Option<+T> = None | Some(value: T)

  /** The entries of a `{ [userId: string]: number }` object, in enumeration order. */
  type Entries = seq<(string, real)>

  datatype User = User(id: string, name: string)

  datatype Expense = Expense(
    id: string,
    description: string,
    amount: real,
    paidBy: Entries,        // amount paid by each user
    category: string,
    date: string,
    splitDetails: Entries   // amount owed by each user
  )

  /** A proposed transfer of `amount` from a debtor to a creditor. */
  datatype Transaction = Transaction(fromUserId: string, toUserId: string, amount: real)

  /** The keys of an object, in enumeration order (`Object.keys`). */
  function Keys(entries: Entries): seq<string>
  {
    seq(|entries|, k requires 0 <= k < |entries| => entries[k].0)
  }
}

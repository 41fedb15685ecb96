/** The transaction entity. */
module Transactions {

  /** A transaction is either income or expense, never both and never neither. */
  datatype TransactionType = INCOME | EXPENSE

  /** A calendar date, carried but never inspected. */
  datatype Date = Date(year: int, month: int, day: int)

  /** An income or expense record. `id` is drawn from the store's transaction
      counter; `userId` is a plain owner reference that is never checked
      against the stored accounts. */
  datatype Transaction = Transaction(
    id: int,
    userId: int,
    amount: real,
    category: string,
    date: Date,
    description: string,
    kind: TransactionType)
}

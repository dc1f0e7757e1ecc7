/** The expense record the app reads from and writes to the `expenses` table. */
module ExpenseRecord {

  /** A stored expense. `category` and `date` are the texts the row holds; a
      missing value is the empty text (both are falsy where the app tests them). */
  datatype Expense = Expense(
    id: string,
    amount: real,
    description: string,
    category: string,
    date: string,
    createdAt: string)

  /** The fields a new or updated expense is sent with. */
  datatype NewExpenseData = NewExpenseData(
    amount: real,
    description: string,
    category: string,
    date: string)

  /** The row `addExpense` inserts: `{ ...newExpense, user_id }`. */
  datatype ExpenseInsert = ExpenseInsert(
    userId: string,
    amount: real,
    description: string,
    category: string,
    date: string)

  /** The request `updateExpense` sends: the fields, for the row with id `id`. */
  datatype ExpenseUpdate = ExpenseUpdate(id: string, fields: NewExpenseData)
}

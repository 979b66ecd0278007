/** The ledger's records and enumerations (types.ts). */
module Types {

  datatype Option<+T> = None | Some(value: T)

  datatype TxType = Income | Expense
  datatype Context = Home | School
  datatype PaymentMethod = Cash | Bank | Other

  type Id = string

  /** A calendar date as the date input yields it, `YYYY-MM-DD`. */
  type Date = string

  /** One persisted ledger entry. `kind` is the source's `type` field. */
  datatype Transaction = Transaction(
    id: Id,
    date: Date,
    amount: real,
    kind: TxType,
    context: Context,
    category: string,
    paymentMethod: Option<PaymentMethod>,
    description: Option<string>)

  /** A transaction that has not been given an id yet (`Omit<Transaction, 'id'>`). */
  datatype Candidate = Candidate(
    date: Date,
    amount: real,
    kind: TxType,
    context: Context,
    category: string,
    paymentMethod: Option<PaymentMethod>,
    description: Option<string>)

  /** `{ ...t, id }`: the candidate's fields with the given id added. */
  function WithId(c: Candidate, id: Id): (t: Transaction)
    ensures t.id == id
    ensures Candidate(t.date, t.amount, t.kind, t.context, t.category, t.paymentMethod, t.description) == c
  {
    Transaction(id, c.date, c.amount, c.kind, c.context, c.category, c.paymentMethod, c.description)
  }

  /** `SummaryStats` together with the derived balance. */
  datatype Summary = Summary(totalIncome: real, totalExpense: real, balance: real)

  /** One slice of the category chart (`PieChartData`). */
  datatype PieSlice = PieSlice(name: string, value: real, color: string)
}

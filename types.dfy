// The dashboard's data model and its seed dataset (src/types.ts).

module Types {

  /**
   * A calendar day, written as the number YYYYMMDD (2023-03-01 is 20230301).
   * On well-formed dates numeric order is chronological order, and two dates
   * are equal exactly when their YYYY-MM-DD strings are.
   */
  type Date = nat

  datatype Option<T> = None | Some(value: T)

  /** The four kinds of liability. */
  datatype AccountType = CreditCard | Loan | Mortgage | Other

  /** One observed balance of one account on one day. */
  datatype BalanceEntry = BalanceEntry(date: Date, balance: real)

  /**
   * A tracked liability. `kind` is the source's `type` field; `interestRate`
   * is in hundredths of a percent (24.99% is 2499).
   */
  datatype Account = Account(
    id: string,
    name: string,
    kind: AccountType,
    interestRate: int,
    history: seq<BalanceEntry>)

  /** The two example accounts shown when the browser holds no saved list. */
  const InitialAccounts: seq<Account> := [
    Account("1", "Chase Sapphire", CreditCard, 2499, [
      BalanceEntry(20230101, 5000.0),
      BalanceEntry(20230201, 4800.0),
      BalanceEntry(20230301, 4500.0)
    ]),
    Account("2", "Auto Loan", Loan, 540, [
      BalanceEntry(20230101, 25000.0),
      BalanceEntry(20230201, 24600.0),
      BalanceEntry(20230301, 24200.0)
    ])
  ]

  /** The sort key of a balance entry: its date. */
  function EntryDate(e: BalanceEntry): int
  {
    e.date
  }

  function EntryBalance(e: BalanceEntry): real
  {
    e.balance
  }

  /** No two accounts share an id. */
  predicate DistinctIds(accounts: seq<Account>)
  {
    forall i, j :: 0 <= i < j < |accounts| ==> accounts[i].id != accounts[j].id
  }
}

/** The three tables of the referral backend and the values its handlers
    return, in place of the SQLite rows and the HTTP responses. */
module Types {

  datatype Option<+T> = None | Some(value: T)

  /** Row ids handed out by the autoincrement counter start at 1. */
  type Id = n: nat | n >= 1 witness 1

  /** A row of the Users table. `level` is fixed when the row is created. */
  datatype User = User(name: string, parentId: Option<Id>, level: int)

  /** A row of the Transactions table: who bought (`userId`), how much, and
      whom this row pays (`parentId`), at which percentage and how much. */
  datatype TxRow = TxRow(userId: Id, amount: real, parentId: Id,
                         profitPercentage: int, profitEarned: real)

  /** A row of the Earnings table, one per beneficiary. */
  datatype Earn = Earn(totalDirectEarnings: real, totalIndirectEarnings: real)

  /** The `earnings_update` broadcast; an absent total is JavaScript's `undefined`. */
  datatype Event = EarningsUpdate(userId: Id, totalDirectEarnings: Option<real>,
                                  totalIndirectEarnings: Option<real>)

  /** The error responses of the handlers (404 and the 400 of the referral cap). */
  datatype Error = NotFound | LimitExceeded

  datatype Result<+T> = Ok(value: T) | Err(error: Error)

  datatype Outcome = Pass | Fail(error: Error)

  /** One entry of `directReferrals` in the earnings report. */
  datatype Referral = Referral(id: Id, name: string)

  /** The body of the earnings report of one user. */
  datatype Report = Report(userId: Id, name: string, totalDirectEarnings: real,
                           totalIndirectEarnings: real, directReferrals: seq<Referral>)

  /** One entry of `sources` in the distribution report. */
  datatype Source = Source(userId: Id, amount: real, profitEarned: real)

  /** The body of the distribution report of one beneficiary. */
  datatype Distribution = Distribution(totalEarnings: real, sources: seq<Source>)
}

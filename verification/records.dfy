/** Plain data records of the gym back office: gyms, clients, membership
    types, memberships and financial transactions.

    Calendar dates are day numbers (consecutive days differ by one), money is
    counted in integer cents, and a foreign key is the `id` of the row it
    names. The current day is always an explicit `today` parameter. */
module Records {

  /** The conventional Some/None wrapper, used for nullable columns. */
  datatype Option<+T> = None | Some(value: T)

  /** A calendar date as a day number. */
  type Date = int

  /** A decimal(10, 2) money value, in cents. */
  type Cents = int

  /** Stored value of `Transaction.transaction_type` for money coming in. */
  const INCOME: string := "income"

  /** Stored value of `Transaction.transaction_type` for money going out. */
  const EXPENSE: string := "expense"

  /** Width, in days, of the window in which a membership counts as expiring soon. */
  const EXPIRY_WINDOW_DAYS: int := 7

  datatype Gym = Gym(id: nat, name: string, address: string, phone: Option<string>, email: Option<string>)

  /** A gym member; `gymId` is the foreign key to the owning gym. */
  datatype Client = Client(id: nat, name: string, phone: Option<string>, gymId: nat)

  /** A priced plan template. */
  datatype MembershipType = MembershipType(id: nat, name: string, durationMonths: nat, price: Cents)

  /** One paid membership period of a client; `endDate >= startDate` is
      expected but not enforced, so it is not assumed here either. */
  datatype Membership = Membership(clientId: nat, typeId: nat, startDate: Date, endDate: Date)

  /** A dated financial record. The type column is a free string: the two
      choices are offered by forms but not enforced by the table. */
  datatype Transaction = Transaction(
    transactionType: string,
    amount: Cents,
    date: Date,
    description: Option<string>,
    clientId: Option<nat>)
}

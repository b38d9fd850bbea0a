/** Decisions of the administrative screens: the income transaction recorded
    when a membership is saved, the status colour shown for a client, the
    icon shown for a transaction and the client a transaction links to. */
module Admin {
  import opened Records
  import opened Memberships
  import opened Finance

  // ---- Saving a membership ----

  /** The income transaction recorded for membership `m` of `client` on plan `plan`. */
  function IncomeFor(m: Membership, client: Client, plan: MembershipType): (t: Transaction)
    ensures Counts(t, INCOME, OwnId(client)) && !Counts(t, EXPENSE, OwnId(client))
    ensures t.amount == plan.price && t.date == m.startDate
    ensures t.description == Some("Income for " + plan.name + " membership of " + client.name)
  {
    Transaction(
      INCOME,
      plan.price,
      m.startDate,
      Some("Income for " + plan.name + " membership of " + client.name),
      Some(client.id))
  }

  /** The transaction table after the membership form is saved. `client` and
      `plan` are the rows the membership's foreign keys name. With the opt-in
      flag set exactly one income transaction is appended; without it the
      table is untouched. Whether the save creates or edits (`change`) plays
      no part. */
  function SaveModel(txs: seq<Transaction>, m: Membership, client: Client, plan: MembershipType,
                     addIncomeTransaction: bool, change: bool): (r: seq<Transaction>)
    requires client.id == m.clientId && plan.id == m.typeId
    ensures !addIncomeTransaction ==> r == txs
    ensures addIncomeTransaction ==> |r| == |txs| + 1 && r[..|txs|] == txs
    ensures addIncomeTransaction ==>
      && r[|txs|].transactionType == INCOME
      && r[|txs|].clientId == Some(m.clientId)
      && r[|txs|].amount == plan.price
      && r[|txs|].date == m.startDate
  {
    if addIncomeTransaction then txs + [IncomeFor(m, client, plan)] else txs
  }

  /** Creating and editing a membership record the same transactions. */
  lemma SaveModelIgnoresChange(txs: seq<Transaction>, m: Membership, client: Client, plan: MembershipType,
                               addIncomeTransaction: bool)
    requires client.id == m.clientId && plan.id == m.typeId
    ensures SaveModel(txs, m, client, plan, addIncomeTransaction, true)
         == SaveModel(txs, m, client, plan, addIncomeTransaction, false)
  {
  }

  /** Saving the same membership twice with the flag set records two income
      transactions: the save is not idempotent. */
  lemma SaveModelNotIdempotent(txs: seq<Transaction>, m: Membership, client: Client, plan: MembershipType)
    requires client.id == m.clientId && plan.id == m.typeId
    ensures var once := SaveModel(txs, m, client, plan, true, false);
            var twice := SaveModel(once, m, client, plan, true, true);
            |twice| == |txs| + 2 && twice != once && twice[|txs|] == twice[|txs| + 1]
  {
  }

  /** With the flag set, the client's income and balance grow by the plan's
      price, and so does the income of every gym the client belongs to;
      expenses stay the same. */
  lemma SaveModelCreditsIncome(clients: seq<Client>, txs: seq<Transaction>, m: Membership,
                               client: Client, plan: MembershipType, g: Gym)
    requires client.id == m.clientId && plan.id == m.typeId
    ensures var r := SaveModel(txs, m, client, plan, true, false);
            && ClientIncome(r, client) == ClientIncome(txs, client) + plan.price
            && ClientExpenses(r, client) == ClientExpenses(txs, client)
            && ClientBalance(r, client) == ClientBalance(txs, client) + plan.price
    ensures var r := SaveModel(txs, m, client, plan, true, false);
            && GymIncome(clients, r, g) ==
               GymIncome(clients, txs, g) + (if client.id in GymClientIds(clients, g) then plan.price else 0)
            && GymExpenses(clients, r, g) == GymExpenses(clients, txs, g)
  {
    var t := IncomeFor(m, client, plan);
    var ids := GymClientIds(clients, g);
    AppendTransaction(txs, t, INCOME, OwnId(client));
    AppendTransaction(txs, t, EXPENSE, OwnId(client));
    AppendTransaction(txs, t, INCOME, ids);
    AppendTransaction(txs, t, EXPENSE, ids);
  }

  // ---- Client status indicator ----

  datatype Colour = Red | Yellow | Green

  /** The few Python values the indicator's comparison meets: a string, or
      the (code, label) pair the status classifier returns. `==` between a
      pair and a string is always false. */
  datatype PyValue = Str(s: string) | Pair(first: string, second: string)

  /** The value the status classifier returns: its code paired with its
      label (the untranslated label is the code itself). */
  function StatusValue(s: Status): (v: PyValue)
    ensures v.Pair? && v.first == s.Code()
  {
    Pair(s.Code(), s.Code())
  }

  /** The indicator as written: it compares the returned value with the
      bare strings "expired" and "expiring_soon". */
  function IndicatorAsWritten(v: PyValue): (c: Colour)
    ensures c == Red <==> v == Str("expired")
    ensures c == Yellow <==> v == Str("expiring_soon")
  {
    if v == Str("expired") then Red
    else if v == Str("expiring_soon") then Yellow
    else Green
  }

  /** As written, every client is shown green, whatever its memberships. */
  lemma IndicatorAsWrittenAlwaysGreen(ms: seq<Membership>, today: Date)
    ensures IndicatorAsWritten(StatusValue(MembershipStatus(ms, today))) == Green
  {
  }

  /** A client whose only membership ended before today is expired, yet
      the indicator as written shows green. */
  lemma IndicatorAsWrittenMissesExpired()
    ensures var ms := [Membership(1, 1, 0, 30)];
            MembershipStatus(ms, 31) == Expired
            && IndicatorAsWritten(StatusValue(MembershipStatus(ms, 31))) == Green
  {
  }

  /** The intended indicator: red for expired, yellow for expiring soon,
      green otherwise (no membership included). */
  function StatusIndicator(s: Status): (c: Colour)
    ensures c == Red <==> s.Code() == "expired"
    ensures c == Yellow <==> s.Code() == "expiring_soon"
    ensures c == Green <==> s.Code() in {"no_membership", "active"}
  {
    match s
    case Expired => Red
    case ExpiringSoon => Yellow
    case NoMembership => Green
    case Active => Green
  }

  /** The intended indicator, read from the client's memberships: red
      exactly when it has memberships and all have ended, yellow exactly
      when one ends within the expiry window, green when it has none or its
      current memberships all run past the window. */
  lemma IndicatorFollowsMemberships(ms: seq<Membership>, today: Date)
    ensures StatusIndicator(MembershipStatus(ms, today)) == Red <==>
      |ms| > 0 && forall i :: 0 <= i < |ms| ==> ms[i].endDate < today
    ensures StatusIndicator(MembershipStatus(ms, today)) == Yellow <==>
      exists i :: 0 <= i < |ms| && today <= ms[i].endDate <= today + EXPIRY_WINDOW_DAYS
    ensures StatusIndicator(MembershipStatus(ms, today)) == Green <==>
      || |ms| == 0
      || (&& LastMembershipDay(ms, today).Some?
          && forall i :: 0 <= i < |ms| && ms[i].endDate >= today ==> ms[i].endDate > today + EXPIRY_WINDOW_DAYS)
  {
  }

  /** The intended colour for `client`, from the whole membership table:
      red exactly when the client has memberships and all have ended,
      yellow exactly when one of them ends within the expiry window. */
  function ClientIndicator(all: seq<Membership>, client: Client, today: Date): (c: Colour)
    ensures (forall m :: m in all ==> m.clientId != client.id) ==> c == Green
    ensures c == Red <==>
      && (exists m :: m in all && m.clientId == client.id)
      && (forall m :: m in all && m.clientId == client.id ==> m.endDate < today)
    ensures c == Yellow <==>
      exists m :: m in all && m.clientId == client.id && today <= m.endDate <= today + EXPIRY_WINDOW_DAYS
  {
    StatusIndicator(ClientStatus(all, client, today))
  }

  // ---- Transaction list columns ----

  datatype Icon = MoneyBag | WingedMoney | NoIcon

  /** Icon of a transaction's type; an unknown type gets none. */
  function TransactionIcon(t: Transaction): (i: Icon)
    ensures i == MoneyBag <==> t.transactionType == INCOME
    ensures i == WingedMoney <==> t.transactionType == EXPENSE
  {
    if t.transactionType == INCOME then MoneyBag
    else if t.transactionType == EXPENSE then WingedMoney
    else NoIcon
  }

  /** A transaction shown without an icon counts towards no income and no
      expense total. */
  lemma IconlessTransactionNotCounted(txs: seq<Transaction>, t: Transaction, ids: set<nat>)
    requires TransactionIcon(t) == NoIcon
    ensures SumAmounts(txs + [t], INCOME, ids) == SumAmounts(txs, INCOME, ids)
    ensures SumAmounts(txs + [t], EXPENSE, ids) == SumAmounts(txs, EXPENSE, ids)
  {
    AppendTransaction(txs, t, INCOME, ids);
    AppendTransaction(txs, t, EXPENSE, ids);
  }

  /** The transaction recorded on saving a membership shows the money bag. */
  lemma SavedIncomeShowsMoneyBag(txs: seq<Transaction>, m: Membership, client: Client, plan: MembershipType)
    requires client.id == m.clientId && plan.id == m.typeId
    ensures var r := SaveModel(txs, m, client, plan, true, false);
            TransactionIcon(r[|r| - 1]) == MoneyBag
  {
  }

  /** The client a transaction row links to, if it has one. */
  function RelatedClient(t: Transaction): (r: Option<nat>)
    ensures r.None? <==> t.clientId.None?
    ensures r.Some? ==> r.value == t.clientId.value
  {
    if t.clientId.Some? then Some(t.clientId.value) else None
  }
}

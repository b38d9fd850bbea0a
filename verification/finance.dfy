/** Money aggregates of a client and of a gym. A transaction is reached from
    a gym only through its client, so a transaction without a client never
    counts towards any gym. A sum over no rows is zero. */
module Finance {
  import opened Records
  import opened Seqs

  /** `t` has type `kind` and belongs to one of the clients `ids`. */
  predicate Counts(t: Transaction, kind: string, ids: set<nat>) {
    t.transactionType == kind && t.clientId.Some? && t.clientId.value in ids
  }

  /** Sum of the amounts of the transactions of type `kind` whose client is
      in `ids`; zero when no transaction qualifies. */
  function SumAmounts(txs: seq<Transaction>, kind: string, ids: set<nat>): (r: Cents)
    ensures (forall i :: 0 <= i < |txs| ==> !Counts(txs[i], kind, ids)) ==> r == 0
    ensures (forall i :: 0 <= i < |txs| ==> txs[i].amount >= 0) ==> r >= 0
  {
    if |txs| == 0 then 0
    else (if Counts(txs[0], kind, ids) then txs[0].amount else 0) + SumAmounts(txs[1..], kind, ids)
  }

  /** Summing over a concatenation adds the sums of the parts. */
  lemma {:induction false} SumAmountsAppend(a: seq<Transaction>, b: seq<Transaction>, kind: string, ids: set<nat>)
    ensures SumAmounts(a + b, kind, ids) == SumAmounts(a, kind, ids) + SumAmounts(b, kind, ids)
  {
    if |a| == 0 {
      assert a + b == b;
    } else {
      assert (a + b)[1..] == a[1..] + b;
      SumAmountsAppend(a[1..], b, kind, ids);
    }
  }

  /** Summing over two disjoint groups of clients adds the two sums. */
  lemma {:induction false} SumAmountsSplit(txs: seq<Transaction>, kind: string, a: set<nat>, b: set<nat>)
    requires a !! b
    ensures SumAmounts(txs, kind, a + b) == SumAmounts(txs, kind, a) + SumAmounts(txs, kind, b)
  {
    if |txs| > 0 {
      SumAmountsSplit(txs[1..], kind, a, b);
    }
  }

  /** Signed ledger of the transactions of clients `ids`: income counts up,
      expense counts down, any other type counts nothing. */
  function Net(txs: seq<Transaction>, ids: set<nat>): Cents {
    if |txs| == 0 then 0
    else
      var t := txs[0];
      var signed :=
        if Counts(t, INCOME, ids) then t.amount
        else if Counts(t, EXPENSE, ids) then -t.amount
        else 0;
      signed + Net(txs[1..], ids)
  }

  /** Income minus expenses equals the one-pass signed ledger. */
  lemma {:induction false} IncomeMinusExpensesIsNet(txs: seq<Transaction>, ids: set<nat>)
    ensures SumAmounts(txs, INCOME, ids) - SumAmounts(txs, EXPENSE, ids) == Net(txs, ids)
  {
    if |txs| > 0 {
      IncomeMinusExpensesIsNet(txs[1..], ids);
    }
  }

  // ---- Client ----

  /** The one-client group of `client`, for the client-level totals. */
  function OwnId(client: Client): set<nat> {
    {client.id}
  }

  /** A client's income: the sum over its own "income" transactions. */
  function ClientIncome(txs: seq<Transaction>, client: Client): (r: Cents)
    ensures |txs| == 0 ==> r == 0
    ensures (forall i :: 0 <= i < |txs| ==> txs[i].clientId != Some(client.id)) ==> r == 0
    ensures (forall i :: 0 <= i < |txs| ==> txs[i].amount >= 0) ==> r >= 0
  {
    SumAmounts(txs, INCOME, OwnId(client))
  }

  /** A client's expenses: the sum over its own "expense" transactions. */
  function ClientExpenses(txs: seq<Transaction>, client: Client): (r: Cents)
    ensures |txs| == 0 ==> r == 0
    ensures (forall i :: 0 <= i < |txs| ==> txs[i].clientId != Some(client.id)) ==> r == 0
    ensures (forall i :: 0 <= i < |txs| ==> txs[i].amount >= 0) ==> r >= 0
  {
    SumAmounts(txs, EXPENSE, OwnId(client))
  }

  /** A client's balance: its income less its expenses, which is the signed
      ledger of its own transactions. */
  function ClientBalance(txs: seq<Transaction>, client: Client): (r: Cents)
    ensures |txs| == 0 ==> r == 0
    ensures r == Net(txs, OwnId(client))
  {
    IncomeMinusExpensesIsNet(txs, OwnId(client));
    ClientIncome(txs, client) - ClientExpenses(txs, client)
  }

  // ---- Gym ----

  /** Ids of the clients of gym `g` (the `client__gym=self` join). */
  function GymClientIds(clients: seq<Client>, g: Gym): (ids: set<nat>)
    ensures forall id :: id in ids <==>
      exists i :: 0 <= i < |clients| && clients[i].id == id && clients[i].gymId == g.id
  {
    set i | 0 <= i < |clients| && clients[i].gymId == g.id :: clients[i].id
  }

  /** A gym's income: the sum over its clients' "income" transactions. */
  function GymIncome(clients: seq<Client>, txs: seq<Transaction>, g: Gym): (r: Cents)
    ensures |txs| == 0 ==> r == 0
    ensures (forall i :: 0 <= i < |txs| ==> txs[i].clientId.None?) ==> r == 0
    ensures (forall i :: 0 <= i < |txs| ==> txs[i].amount >= 0) ==> r >= 0
  {
    SumAmounts(txs, INCOME, GymClientIds(clients, g))
  }

  /** A gym's expenses: the sum over its clients' "expense" transactions. */
  function GymExpenses(clients: seq<Client>, txs: seq<Transaction>, g: Gym): (r: Cents)
    ensures |txs| == 0 ==> r == 0
    ensures (forall i :: 0 <= i < |txs| ==> txs[i].clientId.None?) ==> r == 0
    ensures (forall i :: 0 <= i < |txs| ==> txs[i].amount >= 0) ==> r >= 0
  {
    SumAmounts(txs, EXPENSE, GymClientIds(clients, g))
  }

  /** A gym's balance: income less expenses of its clients' transactions,
      which is the signed ledger of those transactions. */
  function GymBalance(clients: seq<Client>, txs: seq<Transaction>, g: Gym): (r: Cents)
    ensures r == Net(txs, GymClientIds(clients, g))
    ensures |txs| == 0 ==> r == 0
  {
    IncomeMinusExpensesIsNet(txs, GymClientIds(clients, g));
    GymIncome(clients, txs, g) - GymExpenses(clients, txs, g)
  }

  /** Number of clients of gym `g`. */
  function TotalClients(clients: seq<Client>, g: Gym): (n: nat)
    ensures n <= |clients|
    ensures n == 0 <==> forall i :: 0 <= i < |clients| ==> clients[i].gymId != g.id
    ensures n == |clients| <==> forall i :: 0 <= i < |clients| ==> clients[i].gymId == g.id
  {
    Count(clients, (c: Client) => c.gymId == g.id)
  }

  /** Client rows have distinct primary keys. */
  predicate DistinctIds(clients: seq<Client>) {
    forall i, j :: 0 <= i < j < |clients| ==> clients[i].id != clients[j].id
  }

  /** Per-client totals of type `kind`, added up over the clients of gym `g`. */
  function SumOverClients(clients: seq<Client>, txs: seq<Transaction>, kind: string, g: Gym): Cents {
    if |clients| == 0 then 0
    else
      (if clients[0].gymId == g.id then SumAmounts(txs, kind, OwnId(clients[0])) else 0)
      + SumOverClients(clients[1..], txs, kind, g)
  }

  /** A gym total is the sum of the matching totals of its clients. */
  lemma {:induction false} GymTotalIsSumOfClientTotals(clients: seq<Client>, txs: seq<Transaction>, kind: string, g: Gym)
    requires DistinctIds(clients)
    ensures SumAmounts(txs, kind, GymClientIds(clients, g)) == SumOverClients(clients, txs, kind, g)
  {
    if |clients| == 0 {
      assert GymClientIds(clients, g) == {};
      assert forall i :: 0 <= i < |txs| ==> !Counts(txs[i], kind, {});
    } else {
      var c := clients[0];
      var rest := clients[1..];
      var restIds := GymClientIds(rest, g);
      GymTotalIsSumOfClientTotals(rest, txs, kind, g);
      assert c.id !in restIds by {
        assert forall j :: 0 <= j < |rest| ==> rest[j] == clients[j + 1];
      }
      GymClientIdsCons(clients, g);
      if c.gymId == g.id {
        assert GymClientIds(clients, g) == OwnId(c) + restIds;
        SumAmountsSplit(txs, kind, OwnId(c), restIds);
      } else {
        assert GymClientIds(clients, g) == restIds;
      }
    }
  }

  /** The client ids of a gym, peeled one client row at a time. */
  lemma GymClientIdsCons(clients: seq<Client>, g: Gym)
    requires |clients| > 0
    ensures GymClientIds(clients, g) ==
      (if clients[0].gymId == g.id then {clients[0].id} else {}) + GymClientIds(clients[1..], g)
  {
    var rest := clients[1..];
    forall id | id in GymClientIds(clients, g)
      ensures id in (if clients[0].gymId == g.id then {clients[0].id} else {}) + GymClientIds(rest, g)
    {
      var i :| 0 <= i < |clients| && clients[i].id == id && clients[i].gymId == g.id;
      if i > 0 { assert rest[i - 1] == clients[i]; }
    }
    forall id | id in GymClientIds(rest, g) ensures id in GymClientIds(clients, g) {
      var j :| 0 <= j < |rest| && rest[j].id == id && rest[j].gymId == g.id;
      assert clients[j + 1] == rest[j];
    }
  }

  /** With distinct primary keys, the gym's client count is the number of
      client ids the gym totals range over. */
  lemma {:induction false} TotalClientsIsNumberOfGymClientIds(clients: seq<Client>, g: Gym)
    requires DistinctIds(clients)
    ensures TotalClients(clients, g) == |GymClientIds(clients, g)|
  {
    if |clients| == 0 {
      assert GymClientIds(clients, g) == {};
    } else {
      var c := clients[0];
      var rest := clients[1..];
      assert DistinctIds(rest) by {
        assert forall j :: 0 <= j < |rest| ==> rest[j] == clients[j + 1];
      }
      TotalClientsIsNumberOfGymClientIds(rest, g);
      assert c.id !in GymClientIds(rest, g) by {
        assert forall j :: 0 <= j < |rest| ==> rest[j] == clients[j + 1];
      }
      GymClientIdsCons(clients, g);
    }
  }

  /** Registering one more client raises a gym's count by one exactly when
      the client belongs to that gym. */
  lemma TotalClientsAddClient(clients: seq<Client>, c: Client, g: Gym)
    ensures TotalClients(clients + [c], g) == TotalClients(clients, g) + (if c.gymId == g.id then 1 else 0)
  {
    CountSnoc(clients, c, (x: Client) => x.gymId == g.id);
  }

  /** A transaction without a client changes neither total of any client or
      gym, whatever its type and amount. */
  lemma ClientlessTransactionIgnored(txs: seq<Transaction>, t: Transaction, kind: string, ids: set<nat>)
    requires t.clientId.None?
    ensures SumAmounts(txs + [t], kind, ids) == SumAmounts(txs, kind, ids)
  {
    SumAmountsAppend(txs, [t], kind, ids);
  }

  /** Appending one transaction of client `cid` adds its amount to the total
      of its own type for every client group containing `cid`, and leaves
      every other total alone. */
  lemma AppendTransaction(txs: seq<Transaction>, t: Transaction, kind: string, ids: set<nat>)
    ensures SumAmounts(txs + [t], kind, ids) ==
      SumAmounts(txs, kind, ids) + (if Counts(t, kind, ids) then t.amount else 0)
  {
    SumAmountsAppend(txs, [t], kind, ids);
  }
}

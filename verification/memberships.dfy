/** Membership-derived facts: whether one membership is running, how many
    days it has left, the four-way status of a client, the last day of the
    client's current membership, and how many memberships use a plan. */
module Memberships {
  import opened Records
  import opened Seqs

  /** Outcome of the status classification, in order of precedence. */
  datatype Status = NoMembership | Expired | ExpiringSoon | Active {

    /** The status code, the first half of the pair the classifier returns. */
    function Code(): string {
      match this
      case NoMembership => "no_membership"
      case Expired => "expired"
      case ExpiringSoon => "expiring_soon"
      case Active => "active"
    }
  }

  /** `today` lies in the membership's window, both bounds included. */
  predicate IsActive(m: Membership, today: Date)
    ensures IsActive(m, today) ==> m.startDate <= m.endDate
  {
    m.startDate <= today <= m.endDate
  }

  /** Both ends of a well-formed window are active days, and the days just
      outside it are not. */
  lemma ActiveWindowIsInclusive(m: Membership)
    requires m.startDate <= m.endDate
    ensures IsActive(m, m.startDate) && IsActive(m, m.endDate)
    ensures !IsActive(m, m.startDate - 1) && !IsActive(m, m.endDate + 1)
  {
  }

  /** Whole days left of a running membership; zero when it is not running. */
  function DaysRemaining(m: Membership, today: Date): (r: nat)
    ensures r > 0 <==> m.startDate <= today < m.endDate
    ensures m.startDate <= today ==> today + r == if today <= m.endDate then m.endDate else today
    ensures today < m.startDate ==> r == 0
    ensures IsActive(m, today) ==> r <= m.endDate - m.startDate
  {
    if IsActive(m, today) then m.endDate - today else 0
  }

  /** On consecutive active days the remaining count drops by exactly one. */
  lemma DaysRemainingCountsDown(m: Membership, today: Date)
    requires IsActive(m, today) && IsActive(m, today + 1)
    ensures DaysRemaining(m, today + 1) == DaysRemaining(m, today) - 1
  {
  }

  /** The memberships whose client is `clientId` (`client.membership_set`). */
  function MembershipSet(all: seq<Membership>, clientId: nat): (r: seq<Membership>)
    ensures forall m :: m in r <==> m in all && m.clientId == clientId
  {
    Filter(all, (m: Membership) => m.clientId == clientId)
  }

  /** The memberships not yet ended on `today` (`end_date >= today`). */
  function CurrentOrFuture(ms: seq<Membership>, today: Date): (r: seq<Membership>)
    ensures forall m :: m in r <==> m in ms && m.endDate >= today
  {
    Filter(ms, (m: Membership) => m.endDate >= today)
  }

  /** The memberships whose end falls within the expiry window of `today`. */
  function EndingWithinWindow(ms: seq<Membership>, today: Date): (r: seq<Membership>)
    ensures forall m :: m in r <==> m in ms && m.endDate <= today + EXPIRY_WINDOW_DAYS
  {
    Filter(ms, (m: Membership) => m.endDate <= today + EXPIRY_WINDOW_DAYS)
  }

  /** The four-way classification of a client from its memberships `ms`,
      checked in the order no membership, expired, expiring soon, active. */
  function MembershipStatus(ms: seq<Membership>, today: Date): (s: Status)
    ensures s == NoMembership <==> |ms| == 0
    ensures s == Expired <==>
      |ms| > 0 && forall i :: 0 <= i < |ms| ==> ms[i].endDate < today
    ensures s == ExpiringSoon <==>
      exists i :: 0 <= i < |ms| && today <= ms[i].endDate <= today + EXPIRY_WINDOW_DAYS
    ensures s == Active <==>
      && (exists i :: 0 <= i < |ms| && ms[i].endDate >= today)
      && (forall i :: 0 <= i < |ms| && ms[i].endDate >= today ==> ms[i].endDate > today + EXPIRY_WINDOW_DAYS)
  {
    if |ms| == 0 then NoMembership
    else
      var current := CurrentOrFuture(ms, today);
      if |current| == 0 then Expired
      else
        var soon := EndingWithinWindow(current, today);
        if |soon| > 0 then
          assert soon[0] in current && soon[0] in ms;
          ExpiringSoon
        else Active
  }

  /** The status of `client`, read from the whole membership table. */
  function ClientStatus(all: seq<Membership>, client: Client, today: Date): (s: Status)
    ensures s == NoMembership <==> forall m :: m in all ==> m.clientId != client.id
    ensures s == Expired <==>
      && (exists m :: m in all && m.clientId == client.id)
      && (forall m :: m in all && m.clientId == client.id ==> m.endDate < today)
    ensures s == ExpiringSoon <==>
      exists m :: m in all && m.clientId == client.id && today <= m.endDate <= today + EXPIRY_WINDOW_DAYS
    ensures s == Active <==>
      && (exists m :: m in all && m.clientId == client.id && m.endDate >= today)
      && (forall m :: m in all && m.clientId == client.id && m.endDate >= today ==>
            m.endDate > today + EXPIRY_WINDOW_DAYS)
  {
    var ms := MembershipSet(all, client.id);
    MembershipStatus(ms, today)
  }


  /** A membership that ends inside the window makes the client expiring
      soon, whatever other memberships it holds. */
  lemma NearerExpiryWins(ms: seq<Membership>, today: Date, i: nat)
    requires i < |ms| && today <= ms[i].endDate <= today + EXPIRY_WINDOW_DAYS
    ensures MembershipStatus(ms, today) == ExpiringSoon
  {
  }

  /** The status depends on `today` only once the client has a membership. */
  lemma NoMembershipIgnoresToday(ms: seq<Membership>, today: Date, other: Date)
    ensures MembershipStatus(ms, today) == NoMembership <==> MembershipStatus(ms, other) == NoMembership
  {
  }

  /** A running membership with at most a week left marks its client expiring soon. */
  lemma ShortRemainderMeansExpiringSoon(ms: seq<Membership>, today: Date, i: nat)
    requires i < |ms| && IsActive(ms[i], today) && DaysRemaining(ms[i], today) <= EXPIRY_WINDOW_DAYS
    ensures MembershipStatus(ms, today) == ExpiringSoon
  {
  }

  /** A worked calendar case, in days since 1970-01-01: on 2024-01-01
      (day 19723) a client holding memberships ending 2024-01-03 and
      2024-06-01 is expiring soon, and its horizon is 2024-06-01. */
  lemma CalendarExample()
    ensures var ms := [Membership(1, 1, 19700, 19725), Membership(1, 2, 19720, 19875)];
            MembershipStatus(ms, 19723) == ExpiringSoon && LastMembershipDay(ms, 19723) == Some(19875)
  {
  }

  /** Largest end date of a non-empty sequence of memberships. */
  function MaxEnd(ms: seq<Membership>): (d: Date)
    requires |ms| > 0
    ensures exists i :: 0 <= i < |ms| && ms[i].endDate == d
    ensures forall i :: 0 <= i < |ms| ==> ms[i].endDate <= d
  {
    if |ms| == 1 then ms[0].endDate
    else
      var rest := MaxEnd(ms[1..]);
      if ms[0].endDate >= rest then ms[0].endDate else rest
  }

  /** Last day of the client's current membership: the latest end date
      among memberships not yet ended, or none. */
  function LastMembershipDay(ms: seq<Membership>, today: Date): (r: Option<Date>)
    ensures r.None? <==> forall i :: 0 <= i < |ms| ==> ms[i].endDate < today
    ensures r.Some? ==> today <= r.value
    ensures r.Some? ==> exists i :: 0 <= i < |ms| && ms[i].endDate == r.value
    ensures r.Some? ==> forall i :: 0 <= i < |ms| ==> ms[i].endDate <= r.value
  {
    if |ms| == 0 then None
    else
      var current := CurrentOrFuture(ms, today);
      if |current| == 0 then None
      else
        var d := MaxEnd(current);
        assert forall i :: 0 <= i < |ms| && ms[i].endDate >= today ==> ms[i] in current;
        Some(d)
  }

  /** The horizon and the status agree: there is a horizon exactly when the
      client is expiring soon or active, and an active client's horizon lies
      beyond the expiry window. */
  lemma HorizonMatchesStatus(ms: seq<Membership>, today: Date)
    ensures LastMembershipDay(ms, today).None? <==> MembershipStatus(ms, today) in {NoMembership, Expired}
    ensures MembershipStatus(ms, today) == Active ==>
      LastMembershipDay(ms, today).value > today + EXPIRY_WINDOW_DAYS
    ensures MembershipStatus(ms, today) == ExpiringSoon ==>
      LastMembershipDay(ms, today).value >= today
  {
  }

  /** `MembershipType.num_clients`: the number of memberships of plan `mt`. */
  function NumClients(all: seq<Membership>, mt: MembershipType): (n: nat)
    ensures n <= |all|
    ensures n == 0 <==> forall i :: 0 <= i < |all| ==> all[i].typeId != mt.id
  {
    Count(all, (m: Membership) => m.typeId == mt.id)
  }

  /** Recording one more membership raises the plan's count by one exactly
      when that membership is on the plan, whoever holds it. */
  lemma NumClientsAddMembership(all: seq<Membership>, m: Membership, mt: MembershipType)
    ensures NumClients(all + [m], mt) == NumClients(all, mt) + (if m.typeId == mt.id then 1 else 0)
  {
    CountSnoc(all, m, (x: Membership) => x.typeId == mt.id);
  }

  /** `num_clients` counts memberships, not distinct clients: a client who
      renews the same plan is counted once per membership. */
  lemma NumClientsCountsRenewals(client: nat, mt: MembershipType)
    ensures NumClients([Membership(client, mt.id, 0, 30), Membership(client, mt.id, 31, 60)], mt) == 2
  {
  }
}

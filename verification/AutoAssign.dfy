/** Least-loaded assignment of new tickets (ticket.autoAssign.js, ticket.repo.js). */
module AutoAssign {
  import opened Basics

  datatype Membership = Membership(userId: string, maxPerDay: Option<int>, maxPerWeek: Option<int>)

  datatype Workload = Workload(
    assignedToday: int,
    assignedThisWeek: int,
    lastDailyReset: Option<int>,
    lastWeeklyReset: Option<int>
  )

  /** startOfDay and startOfWeek, in the server's time zone. */
  datatype Calendar = Calendar(dayStart: int -> int, weekStart: int -> int)

  datatype Load = Load(today: int, week: int)

  // ---------------------------------------------------------------- choosing an agent

  function RowOf(rows: map<string, Workload>, userId: string): Option<Workload> {
    if userId in rows then Some(rows[userId]) else None
  }

  function EffectiveLoad(w: Option<Workload>, cal: Calendar, now: int): Load {
    if w.None? then Load(0, 0)
    else
      Load(
        if w.value.lastDailyReset.Some? && w.value.lastDailyReset.value >= cal.dayStart(now)
        then w.value.assignedToday else 0,
        if w.value.lastWeeklyReset.Some? && w.value.lastWeeklyReset.value >= cal.weekStart(now)
        then w.value.assignedThisWeek else 0)
  }

  predicate UnderCaps(m: Membership, load: Load) {
    && (m.maxPerDay.Some? ==> load.today < m.maxPerDay.value)
    && (m.maxPerWeek.Some? ==> load.week < m.maxPerWeek.value)
  }

  function LoadOf(rows: map<string, Workload>, userId: string, cal: Calendar, now: int): Load {
    EffectiveLoad(RowOf(rows, userId), cal, now)
  }

  predicate IsEligible(m: Membership, rows: map<string, Workload>, cal: Calendar, now: int) {
    UnderCaps(m, LoadOf(rows, m.userId, cal, now))
  }

  /** The comparator: today's load, then the week's. */
  predicate Lighter(a: Load, b: Load) {
    a.today < b.today || (a.today == b.today && a.week < b.week)
  }

  function Filter(agents: seq<Membership>, eligible: Membership -> bool): seq<Membership> {
    if agents == [] then []
    else Filter(Init(agents), eligible) + (if eligible(Last(agents)) then [Last(agents)] else [])
  }

  function By(load: Membership -> Load): (Membership, Membership) -> bool {
    (a, b) => Lighter(load(a), load(b))
  }

  /** sort() is stable. */
  function Sort(agents: seq<Membership>, load: Membership -> Load): seq<Membership> {
    StableSort(agents, By(load))
  }

  function Choice(agents: seq<Membership>, eligible: Membership -> bool, load: Membership -> Load): Option<Membership> {
    var sorted := Sort(Filter(agents, eligible), load);
    if sorted == [] then None else Some(sorted[0])
  }

  /** The first of the lightest eligible agents. */
  ghost predicate IsFirstLightest(agents: seq<Membership>, k: int, eligible: Membership -> bool,
                                  load: Membership -> Load)
  {
    && 0 <= k < |agents| && eligible(agents[k])
    && (forall j :: 0 <= j < |agents| && eligible(agents[j]) ==> !Lighter(load(agents[j]), load(agents[k])))
    && (forall j :: 0 <= j < k && eligible(agents[j]) ==> Lighter(load(agents[k]), load(agents[j])))
  }

  lemma OneMoreAgent(agents: seq<Membership>, m: Membership, k: int, eligible: Membership -> bool,
                     load: Membership -> Load)
    requires IsFirstLightest(agents, k, eligible, load)
    ensures var better := eligible(m) && Lighter(load(m), load(agents[k]));
      IsFirstLightest(agents + [m], if better then |agents| else k, eligible, load)
  {
    var all := agents + [m];
    assert all[|agents|] == m && forall j :: 0 <= j < |agents| ==> all[j] == agents[j];
    if eligible(m) && Lighter(load(m), load(agents[k])) {
      forall j | 0 <= j < |agents| && eligible(all[j]) ensures Lighter(load(m), load(all[j])) {
        assert !Lighter(load(agents[j]), load(agents[k]));
      }
    }
  }

  lemma {:induction false} InsertHead(sorted: seq<Membership>, m: Membership, load: Membership -> Load)
    requires forall s :: s in sorted ==> !Lighter(load(s), load(sorted[0]))
    ensures Insert(sorted, m, By(load)) != []
    ensures Insert(sorted, m, By(load))[0]
         == if sorted == [] || Lighter(load(m), load(sorted[0])) then m else sorted[0]
  {
    if sorted != [] && Lighter(load(m), load(Last(sorted))) {
      InsertHead(Init(sorted), m, load);
      assert Last(sorted) in sorted;
    }
  }

  lemma {:induction false} InsertKeepsMembers(sorted: seq<Membership>, m: Membership, load: Membership -> Load)
    ensures forall s :: s in Insert(sorted, m, By(load)) ==> s in sorted || s == m
  {
    if sorted != [] && Lighter(load(m), load(Last(sorted))) {
      InsertKeepsMembers(Init(sorted), m, load);
    }
  }

  lemma {:induction false} OneMoreSorted(agents: seq<Membership>, eligible: Membership -> bool,
                                         load: Membership -> Load)
    requires agents != []
    ensures var before := Sort(Filter(Init(agents), eligible), load);
      Sort(Filter(agents, eligible), load)
      == if eligible(Last(agents)) then Insert(before, Last(agents), By(load)) else before
  {
    var before := Filter(Init(agents), eligible);
    assert Init(before + [Last(agents)]) == before && before + [] == before;
  }

  lemma {:induction false} ChosenFromEligible(agents: seq<Membership>, eligible: Membership -> bool,
                                              load: Membership -> Load)
    ensures forall s :: s in Sort(Filter(agents, eligible), load) ==> s in agents && eligible(s)
  {
    if agents != [] {
      ChosenFromEligible(Init(agents), eligible, load);
      OneMoreSorted(agents, eligible, load);
      InsertKeepsMembers(Sort(Filter(Init(agents), eligible), load), Last(agents), load);
    }
  }

  lemma HeadIsLightest(agents: seq<Membership>, k: int, sorted: seq<Membership>, eligible: Membership -> bool,
                       load: Membership -> Load)
    requires IsFirstLightest(agents, k, eligible, load) && sorted != [] && sorted[0] == agents[k]
    requires forall s :: s in sorted ==> s in agents && eligible(s)
    ensures forall s :: s in sorted ==> !Lighter(load(s), load(sorted[0]))
  {
    forall s | s in sorted ensures !Lighter(load(s), load(sorted[0])) {
      var j :| 0 <= j < |agents| && agents[j] == s;
    }
  }

  /** The head of a sorted list stands for the first of the lightest. */
  ghost predicate Picks(agents: seq<Membership>, sorted: seq<Membership>, k: int, eligible: Membership -> bool,
                        load: Membership -> Load)
  {
    if sorted == [] then forall m :: m in agents ==> !eligible(m)
    else IsFirstLightest(agents, k, eligible, load) && sorted[0] == agents[k]
  }

  lemma OneMorePick(agents: seq<Membership>, sorted: seq<Membership>, m: Membership, k: int,
                    eligible: Membership -> bool, load: Membership -> Load)
    returns (l: int)
    requires Picks(agents, sorted, k, eligible, load)
    requires forall s :: s in sorted ==> s in agents && eligible(s)
    ensures Picks(agents + [m], if eligible(m) then Insert(sorted, m, By(load)) else sorted, l, eligible, load)
  {
    l := k;
    if sorted == [] {
      l := |agents|;
    } else {
      HeadIsLightest(agents, k, sorted, eligible, load);
      OneMoreAgent(agents, m, k, eligible, load);
      if eligible(m) && Lighter(load(m), load(agents[k])) { l := |agents|; }
    }
    InsertHead(sorted, m, load);
  }

  /** Filtering, sorting and taking the head picks the first of the lightest eligible agents,
      and nobody exactly when nobody is eligible. */
  lemma {:induction false} ChoiceIsFirstLightest(agents: seq<Membership>, eligible: Membership -> bool,
                                                 load: Membership -> Load)
    returns (k: int)
    ensures Picks(agents, Sort(Filter(agents, eligible), load), k, eligible, load)
  {
    k := 0;
    if agents != [] {
      k := ChoiceIsFirstLightest(Init(agents), eligible, load);
      ChosenFromEligible(Init(agents), eligible, load);
      OneMoreSorted(agents, eligible, load);
      k := OneMorePick(Init(agents), Sort(Filter(Init(agents), eligible), load), Last(agents), k, eligible, load);
      assert Init(agents) + [Last(agents)] == agents;
    }
  }

  /** A choice is the first of the lightest; there is none exactly when nobody is eligible. */
  lemma ChoiceIsSound(agents: seq<Membership>, eligible: Membership -> bool, load: Membership -> Load)
    returns (k: int)
    ensures var c := Choice(agents, eligible, load);
      && (c.None? <==> forall m :: m in agents ==> !eligible(m))
      && (c.Some? ==> IsFirstLightest(agents, k, eligible, load) && c.value == agents[k])
  {
    k := ChoiceIsFirstLightest(agents, eligible, load);
    if Sort(Filter(agents, eligible), load) != [] { assert agents[k] in agents; }
  }

  // ---------------------------------------------------------------- a choice in terms of the rows

  /** A count stamped within the period stands, an older one is nothing. */
  predicate Counts(count: int, stamp: Option<int>, start: int, n: int) {
    n == if stamp.Some? && stamp.value >= start then count else 0
  }

  /** These are the user's tickets today and this week. */
  predicate HasLoad(rows: map<string, Workload>, userId: string, cal: Calendar, now: int, today: int, week: int) {
    if userId in rows then
      && Counts(rows[userId].assignedToday, rows[userId].lastDailyReset, cal.dayStart(now), today)
      && Counts(rows[userId].assignedThisWeek, rows[userId].lastWeeklyReset, cal.weekStart(now), week)
    else today == 0 && week == 0
  }

  /** The agent's load leaves both caps open. */
  predicate MayTake(m: Membership, today: int, week: int) {
    && (m.maxPerDay.Some? ==> today < m.maxPerDay.value)
    && (m.maxPerWeek.Some? ==> week < m.maxPerWeek.value)
  }

  /** The agent has this load and may take one more. */
  predicate IsFree(agents: seq<Membership>, rows: map<string, Workload>, cal: Calendar, now: int, j: int,
                   today: int, week: int)
  {
    && 0 <= j < |agents| && HasLoad(rows, agents[j].userId, cal, now, today, week)
    && MayTake(agents[j], today, week)
  }

  /** Of the agents whose caps are open the one with the fewest tickets today, then this week,
      is chosen, the first of them if there are several; nobody exactly when there is none. */
  lemma {:induction false} ChosenInRows(agents: seq<Membership>, rows: map<string, Workload>, cal: Calendar, now: int)
    returns (k: int, today: int, week: int)
    ensures var c := Chosen(agents, rows, cal, now);
      && (c.None? <==> forall j, t, w :: !IsFree(agents, rows, cal, now, j, t, w))
      && (c.Some? ==> IsFree(agents, rows, cal, now, k, today, week) && c.value == agents[k].userId)
      && (c.Some? ==> forall j, t, w :: IsFree(agents, rows, cal, now, j, t, w) ==>
            (today < t || (today == t && (week < w || (week == w && k <= j)))))
  {
    var eligible, load := EligibleNow(rows, cal, now), LoadNow(rows, cal, now);
    k := ChoiceIsSound(agents, eligible, load);
    forall j, t, w | 0 <= j < |agents| && HasLoad(rows, agents[j].userId, cal, now, t, w)
      ensures load(agents[j]) == Load(t, w) && (eligible(agents[j]) <==> MayTake(agents[j], t, w))
    {
    }
    forall j | 0 <= j < |agents|
      ensures HasLoad(rows, agents[j].userId, cal, now, load(agents[j]).today, load(agents[j]).week)
      ensures agents[j] in agents
      ensures eligible(agents[j]) <==>
        IsFree(agents, rows, cal, now, j, load(agents[j]).today, load(agents[j]).week)
    {
    }
    if Chosen(agents, rows, cal, now).None? {
      forall j, t, w ensures !IsFree(agents, rows, cal, now, j, t, w) {
        if 0 <= j < |agents| { assert !eligible(agents[j]); }
      }
    } else {
      assert IsFree(agents, rows, cal, now, k, load(agents[k]).today, load(agents[k]).week);
    }
    today, week := 0, 0;
    if Chosen(agents, rows, cal, now).Some? { today, week := load(agents[k]).today, load(agents[k]).week; }
  }

  // ---------------------------------------------------------------- recording an assignment

  /** The upsert: a new row is stamped now, an old row keeps its stamps. */
  function Recorded(rows: map<string, Workload>, userId: string, now: int): map<string, Workload> {
    if userId in rows then
      var w := rows[userId];
      rows[userId := w.(assignedToday := w.assignedToday + 1, assignedThisWeek := w.assignedThisWeek + 1)]
    else rows[userId := Workload(1, 1, Some(now), Some(now))]
  }

  /** The clock is read twice: when choosing and, inside the transaction, when recording. */
  datatype Ticket = Ticket(now: int, later: int)

  function EligibleNow(rows: map<string, Workload>, cal: Calendar, now: int): Membership -> bool {
    (m: Membership) => IsEligible(m, rows, cal, now)
  }

  function LoadNow(rows: map<string, Workload>, cal: Calendar, now: int): Membership -> Load {
    (m: Membership) => LoadOf(rows, m.userId, cal, now)
  }

  function Chosen(agents: seq<Membership>, rows: map<string, Workload>, cal: Calendar, now: int): Option<string> {
    var c := Choice(agents, EligibleNow(rows, cal, now), LoadNow(rows, cal, now));
    if c.None? then None else Some(c.value.userId)
  }

  function AfterTicket(agents: seq<Membership>, rows: map<string, Workload>, cal: Calendar, t: Ticket)
    : map<string, Workload>
  {
    var c := Chosen(agents, rows, cal, t.now);
    if c.None? then rows else Recorded(rows, c.value, t.later)
  }

  /** An organisation's agents and their workload rows. */
  class Organization {
    var agents: seq<Membership>
    var rows: map<string, Workload>

    constructor (agents: seq<Membership>)
      ensures this.agents == agents && rows == map[]
    {
      this.agents := agents;
      rows := map[];
    }

    method FindBestAutoAssignAgent(cal: Calendar, now: int) returns (best: Option<string>)
      ensures best == Chosen(agents, rows, cal, now)
    {
      var eligible := Filter(agents, EligibleNow(rows, cal, now));
      if eligible == [] { return None; }
      var sorted := Sort(eligible, LoadNow(rows, cal, now));
      SortIsNotEmpty(eligible, LoadNow(rows, cal, now));
      best := Some(sorted[0].userId);
    }

    method Upsert(userId: string, now: int)
      modifies `rows
      ensures rows == Recorded(old(rows), userId, now)
    {
      if userId in rows {
        var w := rows[userId];
        w := w.(assignedToday := w.assignedToday + 1);
        w := w.(assignedThisWeek := w.assignedThisWeek + 1);
        rows := rows[userId := w];
      } else {
        rows := rows[userId := Workload(1, 1, Some(now), Some(now))];
      }
    }

    /** No agent means an error and no change. */
    method AutoAssign(cal: Calendar, t: Ticket) returns (userId: Option<string>)
      modifies `rows
      ensures userId == Chosen(agents, old(rows), cal, t.now)
      ensures rows == AfterTicket(agents, old(rows), cal, t)
    {
      userId := FindBestAutoAssignAgent(cal, t.now);
      if userId.Some? { Upsert(userId.value, t.later); }
    }
  }

  lemma {:induction false} SortIsNotEmpty(agents: seq<Membership>, load: Membership -> Load)
    requires agents != []
    ensures Sort(agents, load) != []
  {
  }

  // ---------------------------------------------------------------- a day of tickets

  function AfterTickets(agents: seq<Membership>, rows: map<string, Workload>, cal: Calendar, tickets: seq<Ticket>)
    : map<string, Workload>
  {
    if tickets == [] then rows
    else AfterTicket(agents, AfterTickets(agents, rows, cal, Init(tickets)), cal, Last(tickets))
  }

  /** How many of the tickets went to this agent. */
  function Given(agents: seq<Membership>, rows: map<string, Workload>, cal: Calendar, tickets: seq<Ticket>,
                 userId: string): nat
  {
    if tickets == [] then 0
    else
      var before := AfterTickets(agents, rows, cal, Init(tickets));
      Given(agents, rows, cal, Init(tickets), userId)
      + (if Chosen(agents, before, cal, Last(tickets).now) == Some(userId) then 1 else 0)
  }

  predicate OnDay(cal: Calendar, now: int, day: int, week: int) {
    cal.dayStart(now) == day && cal.weekStart(now) == week
  }

  /** Every clock reading falls on one day. */
  ghost predicate OneDay(cal: Calendar, tickets: seq<Ticket>, day: int, week: int) {
    forall t :: t in tickets ==> OnDay(cal, t.now, day, week) && t.later >= day && t.later >= week
  }

  /** A row written today holds what was given today. */
  ghost predicate RowIs(rows: map<string, Workload>, userId: string, n: nat, day: int, week: int) {
    if n == 0 then userId !in rows
    else
      && userId in rows && rows[userId].assignedToday == n == rows[userId].assignedThisWeek
      && rows[userId].lastDailyReset.Some? && rows[userId].lastDailyReset.value >= day
      && rows[userId].lastWeeklyReset.Some? && rows[userId].lastWeeklyReset.value >= week
  }

  lemma {:induction false} RowsCountTheDay(agents: seq<Membership>, cal: Calendar, tickets: seq<Ticket>,
                                           day: int, week: int, userId: string)
    requires OneDay(cal, tickets, day, week)
    ensures RowIs(AfterTickets(agents, map[], cal, tickets), userId,
                  Given(agents, map[], cal, tickets, userId), day, week)
  {
    if tickets != [] {
      RowsCountTheDay(agents, cal, Init(tickets), day, week, userId);
    }
  }

  lemma LoadIsCount(rows: map<string, Workload>, userId: string, n: nat, cal: Calendar, now: int, day: int, week: int)
    requires RowIs(rows, userId, n, day, week) && OnDay(cal, now, day, week)
    ensures LoadOf(rows, userId, cal, now) == Load(n, n)
  {
  }

  /** With n tickets today and this week no cap is reached. */
  predicate BelowCaps(m: Membership, n: nat) {
    && (m.maxPerDay.Some? ==> n < m.maxPerDay.value)
    && (m.maxPerWeek.Some? ==> n < m.maxPerWeek.value)
  }

  /** Caps of zero or less let nothing through; otherwise they bound the count. */
  predicate WithinCaps(m: Membership, n: nat) {
    n == 0 || BelowCaps(m, n - 1)
  }

  predicate DistinctUsers(agents: seq<Membership>) {
    forall i, j :: 0 <= i < j < |agents| ==> agents[i].userId != agents[j].userId
  }

  /** The rows hold today's counts. */
  ghost predicate RowsAre(rows: map<string, Workload>, count: string -> nat, day: int, week: int) {
    forall userId :: RowIs(rows, userId, count(userId), day, week)
  }

  /** A choice from rows that hold counts, in counts. */
  lemma ChoiceFromCounts(agents: seq<Membership>, rows: map<string, Workload>, count: string -> nat, cal: Calendar,
                         now: int, day: int, week: int)
    returns (k: int)
    requires RowsAre(rows, count, day, week) && OnDay(cal, now, day, week)
    ensures var c := Chosen(agents, rows, cal, now);
      && (c.None? <==> forall m :: m in agents ==> !BelowCaps(m, count(m.userId)))
      && (c.Some? ==>
            && 0 <= k < |agents| && c.value == agents[k].userId
            && BelowCaps(agents[k], count(agents[k].userId))
            && (forall m :: m in agents && BelowCaps(m, count(m.userId)) ==>
                  count(agents[k].userId) <= count(m.userId)))
  {
    var eligible, load := EligibleNow(rows, cal, now), LoadNow(rows, cal, now);
    k := ChoiceIsSound(agents, eligible, load);
    forall m: Membership ensures load(m) == Load(count(m.userId), count(m.userId)) {
      LoadIsCount(rows, m.userId, count(m.userId), cal, now, day, week);
    }
    forall m | m in agents ensures eligible(m) <==> BelowCaps(m, count(m.userId)) {
      assert load(m).today == count(m.userId);
    }
  }

  /** What the day's choice looks like in counts. */
  lemma ChoiceByCount(agents: seq<Membership>, cal: Calendar, tickets: seq<Ticket>, now: int, day: int, week: int)
    returns (k: int)
    requires OneDay(cal, tickets, day, week) && OnDay(cal, now, day, week)
    ensures var c := Chosen(agents, AfterTickets(agents, map[], cal, tickets), cal, now);
      && (c.None? <==>
            forall m :: m in agents ==> !BelowCaps(m, Given(agents, map[], cal, tickets, m.userId)))
      && (c.Some? ==>
            && 0 <= k < |agents| && c.value == agents[k].userId
            && BelowCaps(agents[k], Given(agents, map[], cal, tickets, agents[k].userId))
            && (forall m :: m in agents && BelowCaps(m, Given(agents, map[], cal, tickets, m.userId)) ==>
                  Given(agents, map[], cal, tickets, agents[k].userId) <= Given(agents, map[], cal, tickets, m.userId)))
  {
    var count := (userId: string) => Given(agents, map[], cal, tickets, userId);
    var rows := AfterTickets(agents, map[], cal, tickets);
    forall userId ensures RowIs(rows, userId, count(userId), day, week) {
      RowsCountTheDay(agents, cal, tickets, day, week, userId);
    }
    k := ChoiceFromCounts(agents, rows, count, cal, now, day, week);
  }

  /** A day that starts without rows: a ticket is refused exactly when every agent is at a cap. */
  lemma {:induction false} RefusedIff(agents: seq<Membership>, cal: Calendar, tickets: seq<Ticket>,
                                      now: int, day: int, week: int)
    requires OneDay(cal, tickets, day, week) && OnDay(cal, now, day, week)
    ensures Chosen(agents, AfterTickets(agents, map[], cal, tickets), cal, now) == None
      <==> forall m :: m in agents ==> !BelowCaps(m, Given(agents, map[], cal, tickets, m.userId))
  {
    var k := ChoiceByCount(agents, cal, tickets, now, day, week);
  }

  /** ... no agent gets more than its caps allow ... */
  lemma {:induction false} CapsHold(agents: seq<Membership>, cal: Calendar, tickets: seq<Ticket>,
                                    day: int, week: int, m: Membership)
    requires OneDay(cal, tickets, day, week) && DistinctUsers(agents) && m in agents
    ensures WithinCaps(m, Given(agents, map[], cal, tickets, m.userId))
  {
    if tickets != [] {
      CapsHold(agents, cal, Init(tickets), day, week, m);
      var k := ChoiceByCount(agents, cal, Init(tickets), Last(tickets).now, day, week);
      if Chosen(agents, AfterTickets(agents, map[], cal, Init(tickets)), cal, Last(tickets).now) == Some(m.userId) {
        var j :| 0 <= j < |agents| && agents[j] == m;
        assert j == k;
      }
    }
  }

  /** ... and no agent gets more than one ticket ahead of an agent who could still take one. */
  lemma {:induction false} LoadsStayBalanced(agents: seq<Membership>, cal: Calendar, tickets: seq<Ticket>,
                                             day: int, week: int, a: Membership, b: Membership)
    requires OneDay(cal, tickets, day, week) && a in agents && b in agents
    requires BelowCaps(b, Given(agents, map[], cal, tickets, b.userId))
    ensures Given(agents, map[], cal, tickets, a.userId) <= Given(agents, map[], cal, tickets, b.userId) + 1
  {
    if tickets != [] {
      LoadsStayBalanced(agents, cal, Init(tickets), day, week, a, b);
      var k := ChoiceByCount(agents, cal, Init(tickets), Last(tickets).now, day, week);
    }
  }

  // ---------------------------------------------------------------- rows from before today

  /** The row's stamps lie before the day and the week of this reading of the clock. */
  predicate Outdated(w: Workload, cal: Calendar, now: int) {
    && (w.lastDailyReset.Some? ==> w.lastDailyReset.value < cal.dayStart(now))
    && (w.lastWeeklyReset.Some? ==> w.lastWeeklyReset.value < cal.weekStart(now))
  }

  lemma OneTicketMore(rows: map<string, Workload>, c: Option<string>, later: int, userId: string)
    requires userId in rows
    ensures var after := if c.None? then rows else Recorded(rows, c.value, later);
      var n := if c == Some(userId) then 1 else 0;
      userId in after && after[userId] == rows[userId].(
        assignedToday := rows[userId].assignedToday + n,
        assignedThisWeek := rows[userId].assignedThisWeek + n)
  {
  }

  /** Stamps are written once, so the caps of an agent whose row is from before today never
      bite again, however many tickets the agent is given. */
  lemma {:induction false} OutdatedRowsNeverCap(agents: seq<Membership>, rows: map<string, Workload>, cal: Calendar,
                                                tickets: seq<Ticket>, m: Membership, now: int)
    requires m.userId in rows && Outdated(rows[m.userId], cal, now)
    ensures var after := AfterTickets(agents, rows, cal, tickets);
      && m.userId in after
      && after[m.userId] == rows[m.userId].(
           assignedToday := rows[m.userId].assignedToday + Given(agents, rows, cal, tickets, m.userId),
           assignedThisWeek := rows[m.userId].assignedThisWeek + Given(agents, rows, cal, tickets, m.userId))
      && LoadOf(after, m.userId, cal, now) == Load(0, 0)
      && (IsEligible(m, after, cal, now) <==> BelowCaps(m, 0))
  {
    if tickets != [] {
      OutdatedRowsNeverCap(agents, rows, cal, Init(tickets), m, now);
      var before, t := AfterTickets(agents, rows, cal, Init(tickets)), Last(tickets);
      OneTicketMore(before, Chosen(agents, before, cal, t.now), t.later, m.userId);
    }
  }
}

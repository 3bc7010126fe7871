/**
  Assignments that overlap (ticket.autoAssign.js): the agent is chosen from one reading of
  the workloads and recorded later, and other requests may choose and record in between.
 */
module AutoAssignOverlap {
  import opened Basics
  import opened AutoAssign

  datatype Event =
    | Choose(request: nat, now: int)
    | Record(request: nat, later: int)
    | Abandon(request: nat)

  /** The rows, the choices not yet recorded, and all assignments of the day. */
  datatype Desk = Desk(rows: map<string, Workload>, chosen: map<nat, string>, given: multiset<string>)

  const EMPTY := Desk(map[], map[], multiset{})

  function Step(agents: seq<Membership>, cal: Calendar, d: Desk, e: Event): Desk {
    match e
    case Choose(r, now) =>
      var c := Chosen(agents, d.rows, cal, now);
      if r in d.chosen || c.None? then d else d.(chosen := d.chosen[r := c.value])
    case Record(r, later) =>
      if r !in d.chosen then d
      else Desk(Recorded(d.rows, d.chosen[r], later), d.chosen - {r}, d.given + multiset{d.chosen[r]})
    case Abandon(r) => d.(chosen := d.chosen - {r})
  }

  function Day(agents: seq<Membership>, cal: Calendar, events: seq<Event>): Desk {
    if events == [] then EMPTY else Step(agents, cal, Day(agents, cal, Init(events)), Last(events))
  }

  /** Every clock reading falls on one day. */
  predicate OnOneDay(cal: Calendar, e: Event, day: int, week: int) {
    match e
    case Choose(_, now) => OnDay(cal, now, day, week)
    case Record(_, later) => later >= day && later >= week
    case Abandon(_) => true
  }

  /** Never more than k requests between choosing and recording, all on one day. */
  predicate Overlaps(agents: seq<Membership>, cal: Calendar, events: seq<Event>, day: int, week: int, k: nat) {
    && |Day(agents, cal, events).chosen| <= k
    && (events != [] ==>
          Overlaps(agents, cal, Init(events), day, week, k) && OnOneDay(cal, Last(events), day, week))
  }

  /** The requests about to record an agent. */
  function Awaiting(d: Desk, userId: string): set<nat> {
    set r | r in d.chosen && d.chosen[r] == userId
  }

  /** What an agent has and is about to get. */
  function Burden(d: Desk, userId: string): nat {
    d.given[userId] + |Awaiting(d, userId)|
  }

  ghost predicate RowsHold(d: Desk, day: int, week: int) {
    forall userId :: RowIs(d.rows, userId, d.given[userId], day, week)
  }

  /** Nobody's burden is more than k ahead of an agent who could still take a ticket. */
  ghost predicate Balanced(agents: seq<Membership>, d: Desk, k: nat) {
    forall userId, b :: b in agents && BelowCaps(b, d.given[b.userId]) ==> Burden(d, userId) <= d.given[b.userId] + k
  }

  /** An agent's burden passes its caps by at most k - 1. */
  predicate NearCaps(m: Membership, burden: nat, k: nat) {
    burden == 0 || BelowCaps(m, if burden >= k then burden - k else 0)
  }

  ghost predicate AllNearCaps(agents: seq<Membership>, d: Desk, k: nat) {
    forall m :: m in agents ==> NearCaps(m, Burden(d, m.userId), k)
  }

  ghost predicate Inv(agents: seq<Membership>, d: Desk, day: int, week: int, k: nat) {
    RowsHold(d, day, week) && Balanced(agents, d, k) && AllNearCaps(agents, d, k)
  }

  lemma AwaitingIsFew(d: Desk, userId: string)
    ensures |Awaiting(d, userId)| <= |d.chosen|
  {
    SubsetIsSmaller(Awaiting(d, userId), d.chosen.Keys);
    assert |d.chosen| == |d.chosen.Keys|;
  }

  lemma ChooseKeepsInv(agents: seq<Membership>, cal: Calendar, d: Desk, r: nat, now: int, day: int, week: int, k: nat)
    requires Inv(agents, d, day, week, k) && OnDay(cal, now, day, week) && DistinctUsers(agents)
    requires |Step(agents, cal, d, Choose(r, now)).chosen| <= k
    ensures Inv(agents, Step(agents, cal, d, Choose(r, now)), day, week, k)
  {
    var d' := Step(agents, cal, d, Choose(r, now));
    if d' != d {
      var count := (userId: string) => d.given[userId];
      assert RowsAre(d.rows, count, day, week);
      var at := ChoiceFromCounts(agents, d.rows, count, cal, now, day, week);
      var winner := agents[at];
      AwaitingIsFew(d', winner.userId);
      forall userId ensures userId != winner.userId ==> Awaiting(d', userId) == Awaiting(d, userId) {}
      forall m | m in agents ensures NearCaps(m, Burden(d', m.userId), k) {
        if m.userId == winner.userId {
          var i :| 0 <= i < |agents| && agents[i] == m;
          assert i == at;
        } else {
          assert NearCaps(m, Burden(d, m.userId), k);
        }
      }
      forall userId, b | b in agents && BelowCaps(b, d'.given[b.userId])
        ensures Burden(d', userId) <= d'.given[b.userId] + k
      {
        if userId != winner.userId { assert Burden(d, userId) <= d.given[b.userId] + k; }
      }
    }
  }

  /** Recording turns one pending choice into an assignment. */
  lemma RecordKeepsBurden(agents: seq<Membership>, cal: Calendar, d: Desk, r: nat, later: int, userId: string)
    ensures var d' := Step(agents, cal, d, Record(r, later));
      Burden(d', userId) == Burden(d, userId) && d.given[userId] <= d'.given[userId]
  {
    var d' := Step(agents, cal, d, Record(r, later));
    if r in d.chosen {
      if d.chosen[r] == userId {
        assert Awaiting(d', userId) == Awaiting(d, userId) - {r} && r in Awaiting(d, userId);
      } else {
        assert Awaiting(d', userId) == Awaiting(d, userId);
      }
    }
  }

  lemma RecordKeepsInv(agents: seq<Membership>, cal: Calendar, d: Desk, r: nat, later: int, day: int, week: int, k: nat)
    requires Inv(agents, d, day, week, k) && later >= day && later >= week
    ensures Inv(agents, Step(agents, cal, d, Record(r, later)), day, week, k)
  {
    var d' := Step(agents, cal, d, Record(r, later));
    forall userId ensures RowIs(d'.rows, userId, d'.given[userId], day, week) {
      assert RowIs(d.rows, userId, d.given[userId], day, week);
    }
    forall m | m in agents ensures NearCaps(m, Burden(d', m.userId), k) {
      RecordKeepsBurden(agents, cal, d, r, later, m.userId);
    }
    forall userId, b | b in agents && BelowCaps(b, d'.given[b.userId])
      ensures Burden(d', userId) <= d'.given[b.userId] + k
    {
      RecordKeepsBurden(agents, cal, d, r, later, userId);
      RecordKeepsBurden(agents, cal, d, r, later, b.userId);
      assert BelowCaps(b, d.given[b.userId]);
    }
  }

  lemma AbandonKeepsInv(agents: seq<Membership>, cal: Calendar, d: Desk, r: nat, day: int, week: int, k: nat)
    requires Inv(agents, d, day, week, k)
    ensures Inv(agents, Step(agents, cal, d, Abandon(r)), day, week, k)
  {
    var d' := Step(agents, cal, d, Abandon(r));
    forall userId ensures Burden(d', userId) <= Burden(d, userId) {
      SubsetIsSmaller(Awaiting(d', userId), Awaiting(d, userId));
    }
    forall m | m in agents ensures NearCaps(m, Burden(d', m.userId), k) {
      assert NearCaps(m, Burden(d, m.userId), k);
    }
    forall userId, b | b in agents && BelowCaps(b, d'.given[b.userId])
      ensures Burden(d', userId) <= d'.given[b.userId] + k
    {
      assert Burden(d, userId) <= d.given[b.userId] + k;
    }
  }

  lemma {:induction false} EveryDayKeepsInv(agents: seq<Membership>, cal: Calendar, events: seq<Event>,
                                            day: int, week: int, k: nat)
    requires DistinctUsers(agents) && Overlaps(agents, cal, events, day, week, k)
    ensures Inv(agents, Day(agents, cal, events), day, week, k)
  {
    if events == [] {
      assert forall userId :: Awaiting(EMPTY, userId) == {};
      assert forall userId :: Burden(EMPTY, userId) == 0;
    } else {
      EveryDayKeepsInv(agents, cal, Init(events), day, week, k);
      var before := Day(agents, cal, Init(events));
      match Last(events)
      case Choose(r, now) => ChooseKeepsInv(agents, cal, before, r, now, day, week, k);
      case Record(r, later) => RecordKeepsInv(agents, cal, before, r, later, day, week, k);
      case Abandon(r) => AbandonKeepsInv(agents, cal, before, r, day, week, k);
    }
  }

  /** With at most k requests between choosing and recording: nobody gets more than k tickets
      ahead of an agent who could still take one, and caps are passed by at most k - 1.  For
      k = 1 these are the serial results. */
  lemma {:induction false} OverlapIsBounded(agents: seq<Membership>, cal: Calendar, events: seq<Event>,
                                            day: int, week: int, k: nat, a: Membership, b: Membership)
    requires DistinctUsers(agents) && Overlaps(agents, cal, events, day, week, k)
    requires a in agents && b in agents
    ensures var d := Day(agents, cal, events);
      && NearCaps(a, d.given[a.userId], k)
      && (BelowCaps(b, d.given[b.userId]) ==> d.given[a.userId] <= d.given[b.userId] + k)
  {
    EveryDayKeepsInv(agents, cal, events, day, week, k);
    var d := Day(agents, cal, events);
    assert NearCaps(a, Burden(d, a.userId), k);
    assert BelowCaps(b, d.given[b.userId]) ==> Burden(d, a.userId) <= d.given[b.userId] + k;
  }

  /** Which requests are between choosing and recording after an event, and with which agent. */
  lemma PendingExactlyWhen(agents: seq<Membership>, cal: Calendar, d: Desk, e: Event, r: nat)
    ensures var d' := Step(agents, cal, d, e);
      && (r in d'.chosen <==>
            (r in d.chosen && !(e.Record? && e.request == r) && !(e.Abandon? && e.request == r))
            || (e.Choose? && e.request == r && Chosen(agents, d.rows, cal, e.now).Some?))
      && (r in d.chosen && r in d'.chosen ==> d'.chosen[r] == d.chosen[r])
      && (r !in d.chosen && r in d'.chosen ==> Chosen(agents, d.rows, cal, e.now) == Some(d'.chosen[r]))
  {
  }

  // ---------------------------------------------------------------- the bounds are reached

  /** Requests 0 to m - 1 have chosen this user, and nothing is recorded. */
  ghost predicate AllChose(d: Desk, userId: string, m: nat) {
    && d.rows == map[] && d.given == multiset{}
    && (forall r :: r in d.chosen <==> 0 <= r < m) && (forall r :: r in d.chosen ==> d.chosen[r] == userId)
  }

  /** Requests up to m - 1 have recorded the user, those up to k - 1 are about to. */
  ghost predicate SomeRecorded(d: Desk, userId: string, m: nat, k: nat) {
    && d.given == Many(userId, m)
    && (forall r :: r in d.chosen <==> m <= r < k) && (forall r :: r in d.chosen ==> d.chosen[r] == userId)
  }

  /** m assignments, all to this user. */
  function Many(userId: string, m: nat): multiset<string> {
    multiset{}[userId := m]
  }

  datatype Period = Period(day: int, week: int)

  /** Some day with at most k requests at a time comes by here. */
  ghost predicate Reachable(agents: seq<Membership>, cal: Calendar, p: Period, k: nat, d: Desk) {
    exists events :: Overlaps(agents, cal, events, p.day, p.week, k) && Day(agents, cal, events) == d
  }

  /** A set of desks that no event within the bound leaves. */
  ghost predicate Closed(agents: seq<Membership>, cal: Calendar, p: Period, k: nat, reached: Desk -> bool) {
    forall d, e :: reached(d) && OnOneDay(cal, e, p.day, p.week) && |Step(agents, cal, d, e).chosen| <= k
      ==> reached(Step(agents, cal, d, e))
  }

  lemma ReachableIsClosed(agents: seq<Membership>, cal: Calendar, p: Period, k: nat)
    ensures Reachable(agents, cal, p, k, EMPTY)
    ensures Closed(agents, cal, p, k, d => Reachable(agents, cal, p, k, d))
  {
    assert Overlaps(agents, cal, [], p.day, p.week, k) && Day(agents, cal, []) == EMPTY;
    forall d, e | Reachable(agents, cal, p, k, d) && OnOneDay(cal, e, p.day, p.week)
        && |Step(agents, cal, d, e).chosen| <= k
      ensures Reachable(agents, cal, p, k, Step(agents, cal, d, e))
    {
      var events :| Overlaps(agents, cal, events, p.day, p.week, k) && Day(agents, cal, events) == d;
      assert Init(events + [e]) == events && Last(events + [e]) == e;
      assert Overlaps(agents, cal, events + [e], p.day, p.week, k);
    }
  }

  /** On an empty table the first agent is chosen. */
  lemma FirstIsChosen(agents: seq<Membership>, cal: Calendar, now: int)
    requires agents != [] && BelowCaps(agents[0], 0)
    ensures Chosen(agents, map[], cal, now) == Some(agents[0].userId)
  {
    var eligible, load := EligibleNow(map[], cal, now), LoadNow(map[], cal, now);
    var k := ChoiceIsSound(agents, eligible, load);
    assert agents[0] in agents && eligible(agents[0]);
    assert forall m :: load(m) == Load(0, 0);
  }

  lemma FirstIsReached(agents: seq<Membership>, cal: Calendar, p: Period, k: nat, reached: Desk -> bool,
                       now: int, d: Desk, r: nat)
    requires Closed(agents, cal, p, k, reached) && reached(d) && OnDay(cal, now, p.day, p.week)
    requires agents != [] && BelowCaps(agents[0], 0) && d.rows == map[] && r !in d.chosen
    requires |d.chosen[r := agents[0].userId]| <= k
    ensures reached(d.(chosen := d.chosen[r := agents[0].userId]))
  {
    FirstIsChosen(agents, cal, now);
    assert Step(agents, cal, d, Choose(r, now)) == d.(chosen := d.chosen[r := agents[0].userId]);
  }

  lemma OneChooses(agents: seq<Membership>, cal: Calendar, p: Period, k: nat, reached: Desk -> bool,
                   now: int, d: Desk, m: nat)
    returns (d': Desk)
    requires Closed(agents, cal, p, k, reached) && reached(d) && OnDay(cal, now, p.day, p.week) && m < k
    requires agents != [] && BelowCaps(agents[0], 0) && AllChose(d, agents[0].userId, m)
    ensures reached(d') && AllChose(d', agents[0].userId, m + 1)
  {
    d' := d.(chosen := d.chosen[m := agents[0].userId]);
    SizeBelow(d'.chosen.Keys, m + 1);
    assert |d'.chosen| == |d'.chosen.Keys|;
    FirstIsReached(agents, cal, p, k, reached, now, d, m);
  }

  lemma OneRecords(agents: seq<Membership>, cal: Calendar, later: int, d: Desk, userId: string, m: nat, k: nat)
    requires m < k && SomeRecorded(d, userId, m, k)
    ensures var d' := Step(agents, cal, d, Record(m, later));
      SomeRecorded(d', userId, m + 1, k) && |d'.chosen| <= k
  {
    var d' := Step(agents, cal, d, Record(m, later));
    SizeBelow(d'.chosen.Keys, k);
    assert |d'.chosen| == |d'.chosen.Keys|;
    assert Many(userId, m) + multiset{userId} == Many(userId, m + 1);
  }

  lemma {:induction false} AllChoose(agents: seq<Membership>, cal: Calendar, p: Period, k: nat,
                                     reached: Desk -> bool, now: int, m: nat)
    returns (d: Desk)
    requires Closed(agents, cal, p, k, reached) && reached(EMPTY) && OnDay(cal, now, p.day, p.week)
    requires agents != [] && BelowCaps(agents[0], 0) && m <= k
    ensures reached(d) && AllChose(d, agents[0].userId, m)
  {
    d := EMPTY;
    if m > 0 {
      d := AllChoose(agents, cal, p, k, reached, now, m - 1);
      d := OneChooses(agents, cal, p, k, reached, now, d, m - 1);
    }
  }

  lemma {:induction false} AllRecord(agents: seq<Membership>, cal: Calendar, p: Period, k: nat,
                                     reached: Desk -> bool, later: int, start: Desk, userId: string, m: nat)
    returns (d: Desk)
    requires Closed(agents, cal, p, k, reached) && reached(start) && SomeRecorded(start, userId, 0, k) && m <= k
    requires later >= p.day && later >= p.week
    ensures reached(d) && SomeRecorded(d, userId, m, k)
  {
    d := start;
    if m > 0 {
      var before := AllRecord(agents, cal, p, k, reached, later, start, userId, m - 1);
      OneRecords(agents, cal, later, before, userId, m - 1, k);
      d := Step(agents, cal, before, Record(m - 1, later));
    }
  }

  lemma AllAtOnce(agents: seq<Membership>, cal: Calendar, p: Period, k: nat, reached: Desk -> bool,
                  now: int, later: int)
    returns (d: Desk)
    requires Closed(agents, cal, p, k, reached) && reached(EMPTY) && OnDay(cal, now, p.day, p.week)
    requires agents != [] && BelowCaps(agents[0], 0) && later >= p.day && later >= p.week
    ensures reached(d) && d.given == Many(agents[0].userId, k)
  {
    var chosen := AllChoose(agents, cal, p, k, reached, now, k);
    assert Many(agents[0].userId, 0) == multiset{};
    d := AllRecord(agents, cal, p, k, reached, later, chosen, agents[0].userId, k);
  }

  /** Both bounds are reached: k requests at once all go to the first agent, whatever its caps
      above zero and however free the others. */
  lemma OverlapBoundIsReached(agents: seq<Membership>, cal: Calendar, now: int, k: nat)
    requires agents != [] && BelowCaps(agents[0], 0)
    ensures exists d :: Reachable(agents, cal, Period(cal.dayStart(now), cal.weekStart(now)), k, d)
                     && d.given == Many(agents[0].userId, k)
  {
    var p := Period(cal.dayStart(now), cal.weekStart(now));
    ReachableIsClosed(agents, cal, p, k);
    var later := if p.day > p.week then p.day else p.week;
    var d := AllAtOnce(agents, cal, p, k, d => Reachable(agents, cal, p, k, d), now, later);
  }
}

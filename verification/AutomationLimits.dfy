/**
  The organisation's message limit while handlings of a ticket overlap
  (ai.automation.guards.js, ai.automation.decision.js): the guard compares it with a counter
  that a late update can lower again.
 */
module AutomationLimits {
  import opened Basics
  import opened AutomationGuards
  import opened AutomationDecision
  import H = AutomationHandler
  import opened AutomationOverlap

  /** The count that the handling read; its update writes one more. */
  function Level(f: Flight): nat {
    f.snapshot.fields.aiMessageCount
  }

  function Reading(flights: map<nat, Flight>, i: nat): set<nat> {
    set r | r in flights && flights[r].Read? && Level(flights[r]) == i
  }

  function Storing(flights: map<nat, Flight>, i: nat): set<nat> {
    set r | r in flights && flights[r].Stored? && Level(flights[r]) == i
  }

  // What one event adds at a level: a comment, a failure behind a comment, an update.

  function Lands(s: State, e: Event, i: nat): nat {
    if e.Respond? && e.r in s.flights && s.flights[e.r].Read? && Level(s.flights[e.r]) == i then 1 else 0
  }

  function Fails(s: State, e: Event, i: nat): nat {
    if e.Fail? && IsStored(s, e.r) && Level(s.flights[e.r]) == i then 1 else 0
  }

  function Writes(s: State, e: Event, i: nat): nat {
    if e.Update? && IsStored(s, e.r) && Level(s.flights[e.r]) == i then 1 else 0
  }

  /** The three numbers of a level. */
  datatype Tally = Tally(comments: nat, failures: nat, updates: nat)

  function TallyOf(facts: H.Facts, events: seq<Event>, i: nat): Tally {
    if events == [] then Tally(0, 0, 0)
    else
      Counted(TallyOf(facts, Init(events), i), Course(facts, Init(events)), Last(events), i)
  }

  /** How often the counter has come to a level. */
  function Arrivals(facts: H.Facts, events: seq<Event>, i: nat): nat {
    if i == 0 then 1 else TallyOf(facts, events, i - 1).updates
  }

  // ---------------------------------------------------------------- one level

  predicate Counts(s: State, i: nat) {
    s.ticket.fields.aiMessageCount == i
  }

  /** Comments are updated, failed or waiting, and each arrival of the counter at the level lets
      at most k handlings begin before it leaves, not counting those that fail: `room` is k for
      each arrival. */
  predicate LevelSound(s: State, k: nat, i: nat, t: Tally, room: nat) {
    && t.comments == t.updates + t.failures + |Storing(s.flights, i)|
    && (Counts(s, i) ==> room >= k)
    && t.comments + |Reading(s.flights, i)| <= t.failures + room +
         if Counts(s, i) then |Reading(s.flights, i)| + |Storing(s.flights, i)| - k else 0
  }

  lemma LevelsAreBounded(flights: map<nat, Flight>, i: nat)
    ensures |Reading(flights, i)| + |Storing(flights, i)| <= |flights|
  {
    assert |flights| == |flights.Keys|;
    assert Reading(flights, i) !! Storing(flights, i);
    assert |Reading(flights, i) + Storing(flights, i)| == |Reading(flights, i)| + |Storing(flights, i)|;
    SubsetIsSmaller(Reading(flights, i) + Storing(flights, i), flights.Keys);
  }

  lemma JoiningLevel(flights: map<nat, Flight>, r: nat, f: Flight, i: nat)
    requires r !in flights && f.Read?
    ensures Reading(flights[r := f], i) == Reading(flights, i) + (if Level(f) == i then {r} else {})
    ensures Storing(flights[r := f], i) == Storing(flights, i)
  {
  }

  lemma LandingLevel(flights: map<nat, Flight>, r: nat, i: nat)
    requires r in flights && flights[r].Read?
    ensures var f := flights[r]; var later := flights[r := Stored(f.snapshot, f.h)];
      && Reading(later, i) == Reading(flights, i) - {r}
      && Storing(later, i) == Storing(flights, i) + (if Level(f) == i then {r} else {})
      && (r in Reading(flights, i) <==> Level(f) == i) && r !in Storing(flights, i)
  {
  }

  lemma LeavingLevel(flights: map<nat, Flight>, r: nat, i: nat)
    ensures Reading(flights - {r}, i) == Reading(flights, i) - {r}
    ensures Storing(flights - {r}, i) == Storing(flights, i) - {r}
    ensures r in flights && flights[r].Stored? ==>
      Reading(flights - {r}, i) == Reading(flights, i) && (r in Storing(flights, i) <==> Level(flights[r]) == i)
    ensures !(r in flights && flights[r].Stored?) ==> Storing(flights - {r}, i) == Storing(flights, i)
  {
  }

  lemma BeginKeepsLevel(s: State, facts: H.Facts, r: nat, h: H.Handling, k: nat, i: nat, t: Tally, room: nat)
    requires LevelSound(s, k, i, t, room)
    ensures LevelSound(Step(s, facts, Begin(r, h)), k, i, t, room)
  {
    if r !in s.flights { JoiningLevel(s.flights, r, Read(s.ticket, h), i); }
  }

  lemma RespondKeepsLevel(s: State, facts: H.Facts, r: nat, k: nat, i: nat, t: Tally, room: nat)
    requires LevelSound(s, k, i, t, room)
    ensures LevelSound(Step(s, facts, Respond(r)), k, i, t.(comments := t.comments + Lands(s, Respond(r), i)), room)
  {
    if r in s.flights && s.flights[r].Read? { LandingLevel(s.flights, r, i); }
  }

  lemma FailKeepsLevel(s: State, facts: H.Facts, r: nat, k: nat, i: nat, t: Tally, room: nat)
    requires LevelSound(s, k, i, t, room)
    ensures LevelSound(Step(s, facts, Fail(r)), k, i, t.(failures := t.failures + Fails(s, Fail(r), i)), room)
  {
    var s' := Step(s, facts, Fail(r));
    assert s'.flights == s.flights - {r} && Counts(s', i) == Counts(s, i);
    LeavingLevel(s.flights, r, i);
    RemovingOne(Storing(s.flights, i), r);
    RemovingOne(Reading(s.flights, i), r);
    assert Fails(s, Fail(r), i) == if r in Storing(s.flights, i) then 1 else 0;
  }

  lemma RemovingOne(a: set<nat>, r: nat)
    ensures |a - {r}| == |a| - if r in a then 1 else 0
  {
    if r !in a { assert a - {r} == a; }
  }

  /** An update of the level below brings the counter here, any other takes it away. */
  lemma UpdateKeepsLevel(s: State, facts: H.Facts, r: nat, k: nat, i: nat, t: Tally, room: nat)
    requires LevelSound(s, k, i, t, room) && |s.flights| <= k && IsStored(s, r)
    ensures LevelSound(Step(s, facts, Update(r)), k, i, t.(updates := t.updates + Writes(s, Update(r), i)),
                       room + if Level(s.flights[r]) + 1 == i then k else 0)
  {
    var s' := Step(s, facts, Update(r));
    LevelsAreBounded(s.flights, i);
    LeavingLevel(s.flights, r, i);
    assert s'.flights == s.flights - {r} && s'.ticket.fields.aiMessageCount == Level(s.flights[r]) + 1;
  }

  lemma OthersKeepLevel(s: State, facts: H.Facts, e: Event, k: nat, i: nat, t: Tally, room: nat)
    requires LevelSound(s, k, i, t, room) && (e.Assign? || e.Edit?)
    ensures LevelSound(Step(s, facts, e), k, i, t, room)
  {
    var s' := Step(s, facts, e);
    assert s'.flights == s.flights && s'.ticket.fields.aiMessageCount == s.ticket.fields.aiMessageCount;
  }

  function Counted(t: Tally, s: State, e: Event, i: nat): Tally {
    Tally(t.comments + Lands(s, e, i), t.failures + Fails(s, e, i), t.updates + Writes(s, e, i))
  }

  function MoreRoom(s: State, e: Event, k: nat, i: nat): nat {
    if i > 0 && Writes(s, e, i - 1) == 1 then k else 0
  }

  lemma StepKeepsLevel(s: State, facts: H.Facts, e: Event, k: nat, i: nat, t: Tally, room: nat)
    requires LevelSound(s, k, i, t, room) && |s.flights| <= k
    ensures LevelSound(Step(s, facts, e), k, i, Counted(t, s, e, i), room + MoreRoom(s, e, k, i))
  {
    match e
    case Begin(r, h) => BeginKeepsLevel(s, facts, r, h, k, i, t, room);
    case Respond(r) => RespondKeepsLevel(s, facts, r, k, i, t, room);
    case Fail(r) => FailKeepsLevel(s, facts, r, k, i, t, room);
    case Update(r) => if IsStored(s, r) { UpdateKeepsLevel(s, facts, r, k, i, t, room); }
    case _ => OthersKeepLevel(s, facts, e, k, i, t, room);
  }

  lemma {:induction false} RoomGrows(facts: H.Facts, events: seq<Event>, k: nat, i: nat)
    requires events != []
    ensures k * Arrivals(facts, events, i)
         == k * Arrivals(facts, Init(events), i) + MoreRoom(Course(facts, Init(events)), Last(events), k, i)
  {
    var before := Arrivals(facts, Init(events), i);
    assert k * (before + 1) == k * before + k;
  }

  lemma {:induction false} EveryLevelIsSound(facts: H.Facts, events: seq<Event>, k: nat, i: nat)
    requires Overlaps(facts, events, k)
    ensures LevelSound(Course(facts, events), k, i, TallyOf(facts, events, i), k * Arrivals(facts, events, i))
  {
    if events == [] {
      assert Reading(START.flights, i) == {} && Storing(START.flights, i) == {};
    } else {
      EveryLevelIsSound(facts, Init(events), k, i);
      RoomGrows(facts, events, k, i);
      StepKeepsLevel(Course(facts, Init(events)), facts, Last(events), k, i, TallyOf(facts, Init(events), i),
                     k * Arrivals(facts, Init(events), i));
    }
  }

  // ---------------------------------------------------------------- all levels

  function Power(k: nat, n: nat): nat {
    if n == 0 then 1 else k * Power(k, n - 1)
  }

  lemma SoundLevelIsFew(s: State, k: nat, i: nat, t: Tally, arrivals: nat)
    requires LevelSound(s, k, i, t, k * arrivals) && |s.flights| <= k
    ensures t.updates + t.failures <= t.comments <= t.failures + k * arrivals
  {
    LevelsAreBounded(s.flights, i);
  }

  lemma MoreTimes(k: nat, a: nat, b: nat)
    requires a <= b
    ensures k * a <= k * b
  {
  }

  /** A level gets k times as many comments as the level below, not counting failures. */
  lemma {:induction false} LevelIsFew(facts: H.Facts, events: seq<Event>, k: nat, i: nat)
    requires Overlaps(facts, events, k)
    ensures var t := TallyOf(facts, events, i);
      t.updates + t.failures <= t.comments <= t.failures + Power(k, i + 1)
    decreases i
  {
    EveryLevelIsSound(facts, events, k, i);
    SoundLevelIsFew(Course(facts, events), k, i, TallyOf(facts, events, i), Arrivals(facts, events, i));
    if i > 0 {
      LevelIsFew(facts, events, k, i - 1);
      MoreTimes(k, Arrivals(facts, events, i), Power(k, i));
    }
    assert Power(k, i + 1) == k * Power(k, i);
  }

  function Sum(n: nat, f: nat -> nat): nat {
    if n == 0 then 0 else Sum(n - 1, f) + f(n - 1)
  }

  lemma {:induction false} SumMoves(n: nat, f: nat -> nat, g: nat -> nat, at: nat, d: nat)
    requires forall i: nat :: i < n ==> g(i) == f(i) + if i == at then d else 0
    ensures Sum(n, g) == Sum(n, f) + if at < n then d else 0
  {
    if n > 0 { SumMoves(n - 1, f, g, at, d); }
  }

  function CommentsAt(facts: H.Facts, events: seq<Event>): nat -> nat {
    (i: nat) => TallyOf(facts, events, i).comments
  }

  function FailuresAt(facts: H.Facts, events: seq<Event>): nat -> nat {
    (i: nat) => TallyOf(facts, events, i).failures
  }

  /** Every handling is for an organisation with this limit. */
  predicate Limited(events: seq<Event>, limit: nat) {
    forall i :: 0 <= i < |events| && events[i].Begin? ==> H.HasLimit(events[i].h.org, limit)
  }

  ghost predicate BelowLimit(s: State, limit: nat) {
    forall r :: r in s.flights ==> Level(s.flights[r]) < limit
  }

  lemma StepStaysBelowLimit(s: State, facts: H.Facts, e: Event, limit: nat)
    requires BelowLimit(s, limit) && (e.Begin? ==> H.HasLimit(e.h.org, limit))
    ensures BelowLimit(Step(s, facts, e), limit)
  {
  }

  /** Which level an event's comment or failure belongs to. */
  function LevelOf(s: State, e: Event): nat {
    if (e.Respond? || e.Fail?) && e.r in s.flights then Level(s.flights[e.r]) else 0
  }

  lemma OneMoreFailure(s: State, facts: H.Facts, e: Event)
    ensures Step(s, facts, e).past.failures == s.past.failures + Fails(s, e, LevelOf(s, e))
  {
    if e.Respond? && e.r in s.flights && s.flights[e.r].Read? { assert Step(s, facts, e) == Landed(s, e.r); }
  }

  lemma LandedComment(s: State, r: nat)
    requires r in s.flights && s.flights[r].Read?
    ensures CountAi(Landed(s, r).ticket.comments) == CountAi(s.ticket.comments) + 1
  {
    H.CountAiOneMore(s.ticket.comments, Comment(s.flights[r].h.newId, Ai, s.flights[r].h.now));
  }

  lemma EditedComments(s: State, facts: H.Facts, change: H.Event)
    requires change.Write? ==> change.author != Ai
    ensures CountAi(Step(s, facts, Edit(change)).ticket.comments) == CountAi(s.ticket.comments)
  {
    if change.Write? { H.CountAiOneMore(s.ticket.comments, Comment(change.id, change.author, change.at)); }
  }

  lemma OneMoreComment(s: State, facts: H.Facts, e: Event)
    requires ByPeople(e)
    ensures CountAi(Step(s, facts, e).ticket.comments) == CountAi(s.ticket.comments) + Lands(s, e, LevelOf(s, e))
  {
    match e
    case Respond(r) => if r in s.flights && s.flights[r].Read? { LandedComment(s, r); }
    case Edit(change) => EditedComments(s, facts, change);
    case _ => assert Step(s, facts, e).ticket.comments == s.ticket.comments;
  }

  lemma {:induction false} LevelsAddUp(facts: H.Facts, events: seq<Event>, k: nat, limit: nat)
    requires Overlaps(facts, events, k) && Limited(events, limit)
    ensures var s := Course(facts, events);
      && BelowLimit(s, limit)
      && CountAi(s.ticket.comments) == Sum(limit, CommentsAt(facts, events))
      && s.past.failures == Sum(limit, FailuresAt(facts, events))
  {
    if events == [] {
      SumOfNothing(limit, CommentsAt(facts, events));
      SumOfNothing(limit, FailuresAt(facts, events));
    } else {
      var before, e := Init(events), Last(events);
      var s := Course(facts, before);
      LevelsAddUp(facts, before, k, limit);
      assert events[|events| - 1] == e;
      StepStaysBelowLimit(s, facts, e, limit);
      OneMoreComment(s, facts, e);
      OneMoreFailure(s, facts, e);
      var at := LevelOf(s, e);
      SumMoves(limit, CommentsAt(facts, before), CommentsAt(facts, events), at, Lands(s, e, at));
      SumMoves(limit, FailuresAt(facts, before), FailuresAt(facts, events), at, Fails(s, e, at));
    }
  }

  lemma {:induction false} SumOfNothing(n: nat, f: nat -> nat)
    requires forall i: nat :: i < n ==> f(i) == 0
    ensures Sum(n, f) == 0
  {
    if n > 0 { SumOfNothing(n - 1, f); }
  }

  lemma {:induction false} SumIsBelow(n: nat, f: nat -> nat, g: nat -> nat, h: nat -> nat)
    requires forall i: nat :: i < n ==> f(i) <= g(i) + h(i)
    ensures Sum(n, f) <= Sum(n, g) + Sum(n, h)
  {
    if n > 0 { SumIsBelow(n - 1, f, g, h); }
  }

  /** k + k^2 + ... + k^limit. */
  function Geometric(k: nat, limit: nat): nat {
    Sum(limit, (i: nat) => Power(k, i + 1))
  }

  /** With at most k handlings of a ticket at a time and a limit of m messages, the ticket gets
      at most k + k^2 + ... + k^m AI comments, and one more for each handling that fails between
      its comment and its update, however often AI is turned back on.  For k = 1 that is the
      limit; for a limit of one it is k. */
  lemma {:induction false} LimitUnderOverlap(facts: H.Facts, events: seq<Event>, k: nat, limit: nat)
    requires Overlaps(facts, events, k) && Limited(events, limit)
    ensures var s := Course(facts, events);
      CountAi(s.ticket.comments) <= Geometric(k, limit) + s.past.failures
  {
    LevelsAddUp(facts, events, k, limit);
    var powers := (i: nat) => Power(k, i + 1);
    forall i: nat | i < limit
      ensures CommentsAt(facts, events)(i) <= powers(i) + FailuresAt(facts, events)(i)
    {
      LevelIsFew(facts, events, k, i);
    }
    SumIsBelow(limit, CommentsAt(facts, events), powers, FailuresAt(facts, events));
  }

  lemma {:induction false} PowersOfOne(n: nat)
    ensures Power(1, n) == 1
  {
    if n > 0 { PowersOfOne(n - 1); }
  }

  /** Without overlap the limit is kept, and with a limit of one there are at most k. */
  lemma {:induction false} GeometricEnds(k: nat, limit: nat)
    ensures Geometric(1, limit) == limit && Geometric(k, 0) == 0 && Geometric(k, 1) == k
  {
    var powers := (i: nat) => Power(1, i + 1);
    forall i: nat | i < limit ensures powers(i) == 1 { PowersOfOne(i + 1); }
    SumOfOnes(limit, powers);
    var ks := (i: nat) => Power(k, i + 1);
    assert Power(k, 1) == k * Power(k, 0) == k;
    assert Sum(1, ks) == Sum(0, ks) + ks(0);
  }

  lemma {:induction false} SumOfOnes(n: nat, f: nat -> nat)
    requires forall i: nat :: i < n ==> f(i) == 1
    ensures Sum(n, f) == n
  {
    if n > 0 { SumOfOnes(n - 1, f); }
  }
}

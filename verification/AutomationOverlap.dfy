/**
  Overlapping handlings of one ticket (ai.automation.service.js): every handling decides and
  counts from the ticket it read, and writes the message count back from that copy.
 */
module AutomationOverlap {
  import opened Basics
  import opened AutomationGuards
  import opened AutomationDecision
  import opened AutomationHandler

  /** A handling past the guard, with its copy: before or after its comment is stored. */
  datatype Flight = Read(snapshot: Ticket, h: Handling) | Stored(snapshot: Ticket, h: Handling)

  /** The history counts AI comments by how much their handling had read, failures after a
      stored comment, and the times AI was turned back on. */
  datatype History = History(early: nat, late: nat, failures: nat, enables: nat)

  datatype State = State(ticket: Ticket, flights: map<nat, Flight>, past: History)

  datatype Event =
    | Begin(r: nat, h: Handling)
    | Respond(r: nat)
    | Assign(r: nat)
    | Update(r: nat)
    | Fail(r: nat)
    | Edit(change: AutomationHandler.Event)     // what people do to the ticket

  /** The copy holds so many AI comments that the update turns AI off. */
  predicate IsLate(f: Flight) {
    CountAi(f.snapshot.comments) + 1 >= MAX_MESSAGES
  }

  /** updateTicket writes the columns of buildTicketUpdate and leaves the others alone. */
  function Written(fields: Fields, f: Flight, facts: Facts): Fields {
    var resolves := ActionFor(f.snapshot, facts, f.h) == AutoResolve;
    fields.(
      aiMessageCount := f.snapshot.fields.aiMessageCount + 1,
      aiActive := if resolves || IsLate(f) then false else fields.aiActive,
      status := if resolves then RESOLVED else fields.status)
  }

  function Assigned(fields: Fields, f: Flight, facts: Facts): Fields {
    if ActionFor(f.snapshot, facts, f.h) == SmartAssign && f.h.agentAvailable
    then fields.(hasAssignee := true, status := IN_PROGRESS) else fields
  }

  function Landed(s: State, r: nat): State
    requires r in s.flights && s.flights[r].Read?
  {
    var f := s.flights[r];
    State(s.ticket.(comments := s.ticket.comments + [Comment(f.h.newId, Ai, f.h.now)]),
          s.flights[r := Stored(f.snapshot, f.h)],
          if IsLate(f) then s.past.(late := s.past.late + 1) else s.past.(early := s.past.early + 1))
  }

  predicate IsStored(s: State, r: nat) {
    r in s.flights && s.flights[r].Stored?
  }

  function Step(s: State, facts: Facts, e: Event): State {
    match e
    case Begin(r, h) =>
      if r !in s.flights && Responds(s.ticket, h) then s.(flights := s.flights[r := Read(s.ticket, h)]) else s
    case Respond(r) => if r in s.flights && s.flights[r].Read? then Landed(s, r) else s
    case Assign(r) =>
      if IsStored(s, r) then s.(ticket := s.ticket.(fields := Assigned(s.ticket.fields, s.flights[r], facts))) else s
    case Update(r) =>
      if IsStored(s, r)
      then s.(ticket := s.ticket.(fields := Written(s.ticket.fields, s.flights[r], facts)), flights := s.flights - {r})
      else s
    case Fail(r) =>
      s.(flights := s.flights - {r},
         past := if IsStored(s, r) then s.past.(failures := s.past.failures + 1) else s.past)
    case Edit(change) =>
      if change.Handle? then s
      else s.(ticket := Apply(s.ticket, facts, change),
              past := if change.EnableAi? then s.past.(enables := s.past.enables + 1) else s.past)
  }

  const START := State(NEW_TICKET, map[], History(0, 0, 0, 0))

  function Course(facts: Facts, events: seq<Event>): State {
    if events == [] then START
    else Step(Course(facts, Init(events)), facts, Last(events))
  }

  /** How often AI was turned back on, and how often a handling failed behind its comment. */
  function EnablesIn(events: seq<Event>): nat {
    if events == [] then 0
    else EnablesIn(Init(events)) + if Last(events).Edit? && Last(events).change.EnableAi? then 1 else 0
  }

  function FailuresIn(facts: Facts, events: seq<Event>): nat {
    if events == [] then 0
    else
      FailuresIn(facts, Init(events)) +
      if Last(events).Fail? && IsStored(Course(facts, Init(events)), Last(events).r) then 1 else 0
  }

  lemma {:induction false} HistoryCounts(facts: Facts, events: seq<Event>)
    ensures Course(facts, events).past.enables == EnablesIn(events)
    ensures Course(facts, events).past.failures == FailuresIn(facts, events)
  {
    if events != [] { HistoryCounts(facts, Init(events)); }
  }

  /** What people write is not an AI comment. */
  predicate ByPeople(e: Event) {
    e.Edit? && e.change.Write? ==> e.change.author != Ai
  }

  /** Never more than k handlings at a time, and people write no AI comments. */
  predicate Overlaps(facts: Facts, events: seq<Event>, k: nat) {
    && |Course(facts, events).flights| <= k
    && (events != [] ==>
          && Overlaps(facts, Init(events), k)
          && ByPeople(Last(events)))
  }

  /** A handling that nothing interrupts does what the serial handler does. */
  lemma UninterruptedIsHandled(s: State, facts: Facts, r: nat, h: Handling)
    requires r !in s.flights
    ensures var s1 := Step(s, facts, Begin(r, h));
      var s2 := Step(Step(s1, facts, Respond(r)), facts, Assign(r));
      Step(s2, facts, Update(r)).ticket == Handled(s.ticket, facts, h)
  {
  }

  // ---------------------------------------------------------------- how many comments

  function EarlyPending(flights: map<nat, Flight>): set<nat> {
    set r | r in flights && flights[r].Read? && !IsLate(flights[r])
  }

  function LatePending(flights: map<nat, Flight>): set<nat> {
    set r | r in flights && flights[r].Read? && IsLate(flights[r])
  }

  function LateOnes(flights: map<nat, Flight>): set<nat> {
    set r | r in flights && IsLate(flights[r])
  }

  /** No copy is ahead of the ticket, and no count ahead of its comments. */
  ghost predicate CopiesBehind(s: State) {
    && s.ticket.fields.aiMessageCount <= CountAi(s.ticket.comments)
    && (forall r :: r in s.flights ==>
          && s.flights[r].snapshot.fields.aiMessageCount <= CountAi(s.flights[r].snapshot.comments)
          && CountAi(s.flights[r].snapshot.comments) + (if s.flights[r].Stored? then 1 else 0)
             <= CountAi(s.ticket.comments))
  }

  predicate Counted(s: State) {
    CountAi(s.ticket.comments) == s.past.early + s.past.late
  }

  /** Early comments come from the first three and those then under way. */
  predicate EarlyFew(s: State, k: nat) {
    s.past.early + |EarlyPending(s.flights)| <= 3 + k
  }

  /** Late ones add at most k each time AI gets turned on, and one for each failure. */
  predicate LateFew(s: State, k: nat) {
    s.past.late + |LatePending(s.flights)| <= s.past.enables * k + s.past.failures +
      if s.ticket.fields.aiActive then |LateOnes(s.flights)| else k
  }

  predicate Few(s: State, k: nat) {
    Counted(s) && EarlyFew(s, k) && LateFew(s, k)
  }

  lemma SetsAreBounded(flights: map<nat, Flight>)
    ensures |EarlyPending(flights)| <= |flights| && |LateOnes(flights)| <= |flights|
    ensures |LatePending(flights)| <= |LateOnes(flights)|
  {
    assert |flights| == |flights.Keys|;
    SubsetIsSmaller(EarlyPending(flights), flights.Keys);
    SubsetIsSmaller(LateOnes(flights), flights.Keys);
    SubsetIsSmaller(LatePending(flights), LateOnes(flights));
  }

  lemma Joining(flights: map<nat, Flight>, r: nat, f: Flight)
    requires r !in flights && f.Read?
    ensures var more := flights[r := f];
      && EarlyPending(more) == EarlyPending(flights) + (if IsLate(f) then {} else {r})
      && LatePending(more) == LatePending(flights) + (if IsLate(f) then {r} else {})
      && LateOnes(more) == LateOnes(flights) + (if IsLate(f) then {r} else {})
  {
  }

  lemma Landing(flights: map<nat, Flight>, r: nat)
    requires r in flights && flights[r].Read?
    ensures var f := flights[r]; var later := flights[r := Stored(f.snapshot, f.h)];
      && EarlyPending(later) == EarlyPending(flights) - {r} && LatePending(later) == LatePending(flights) - {r}
      && LateOnes(later) == LateOnes(flights)
      && (r in EarlyPending(flights) <==> !IsLate(f)) && (r in LatePending(flights) <==> IsLate(f))
  {
  }

  lemma Leaving(flights: map<nat, Flight>, r: nat)
    ensures var fewer := flights - {r};
      && EarlyPending(fewer) == EarlyPending(flights) - {r} && LatePending(fewer) == LatePending(flights) - {r}
      && LateOnes(fewer) == LateOnes(flights) - {r}
      && (r in flights && flights[r].Stored? ==>
            EarlyPending(fewer) == EarlyPending(flights) && LatePending(fewer) == LatePending(flights))
  {
  }

  lemma BeginKeepsFew(s: State, facts: Facts, r: nat, h: Handling, k: nat)
    requires Few(s, k) && |Step(s, facts, Begin(r, h)).flights| <= k
    ensures Few(Step(s, facts, Begin(r, h)), k)
  {
    var s' := Step(s, facts, Begin(r, h));
    if s' != s {
      Joining(s.flights, r, Read(s.ticket, h));
      SetsAreBounded(s'.flights);
    }
  }

  lemma RespondKeepsFew(s: State, facts: Facts, r: nat, k: nat)
    requires Few(s, k)
    ensures Few(Step(s, facts, Respond(r)), k)
  {
    if r in s.flights && s.flights[r].Read? {
      Landing(s.flights, r);
      CountAiOneMore(s.ticket.comments, Comment(s.flights[r].h.newId, Ai, s.flights[r].h.now));
    }
  }

  lemma UpdateKeepsFew(s: State, facts: Facts, r: nat, k: nat)
    requires Few(s, k) && |s.flights| <= k
    ensures Few(Step(s, facts, Update(r)), k)
  {
    Leaving(s.flights, r);
    SetsAreBounded(s.flights);
  }

  lemma FailKeepsFew(s: State, facts: Facts, r: nat, k: nat)
    requires Few(s, k)
    ensures Few(Step(s, facts, Fail(r)), k)
  {
    Leaving(s.flights, r);
  }

  lemma EditKeepsFew(s: State, facts: Facts, change: AutomationHandler.Event, k: nat)
    requires Few(s, k) && |s.flights| <= k && (change.Write? ==> change.author != Ai)
    ensures Few(Step(s, facts, Edit(change)), k)
  {
    SetsAreBounded(s.flights);
    match change
    case Write(id, author, at) => CountAiOneMore(s.ticket.comments, Comment(id, author, at));
    case EnableAi => assert (s.past.enables + 1) * k == s.past.enables * k + k;
    case _ =>
  }

  lemma StepKeepsFew(s: State, facts: Facts, e: Event, k: nat)
    requires Few(s, k) && |s.flights| <= k && |Step(s, facts, e).flights| <= k
    requires ByPeople(e)
    ensures Few(Step(s, facts, e), k)
  {
    match e
    case Begin(r, h) => BeginKeepsFew(s, facts, r, h, k);
    case Respond(r) => RespondKeepsFew(s, facts, r, k);
    case Assign(_) =>
    case Update(r) => UpdateKeepsFew(s, facts, r, k);
    case Fail(r) => FailKeepsFew(s, facts, r, k);
    case Edit(change) => EditKeepsFew(s, facts, change, k);
  }

  lemma {:induction false} EveryCourseKeepsFew(facts: Facts, events: seq<Event>, k: nat)
    requires Overlaps(facts, events, k)
    ensures Few(Course(facts, events), k)
  {
    if events != [] {
      EveryCourseKeepsFew(facts, Init(events), k);
      StepKeepsFew(Course(facts, Init(events)), facts, Last(events), k);
    } else {
      assert forall r :: r !in Course(facts, events).flights;
    }
  }

  lemma FewMeansBounded(s: State, k: nat)
    requires Few(s, k) && |s.flights| <= k
    ensures CountAi(s.ticket.comments) <= 3 + (s.past.enables + 2) * k + s.past.failures
  {
    SetsAreBounded(s.flights);
    assert (s.past.enables + 2) * k == s.past.enables * k + 2 * k;
  }

  /** With at most k handlings of a ticket at a time, it gets at most 3 + 2k AI comments, k
      more each time AI is turned back on, and one more for each handling that fails between
      its comment and its update.  For k = 1 that is the budget of five. */
  lemma {:induction false} MessagesUnderOverlap(facts: Facts, events: seq<Event>, k: nat)
    requires Overlaps(facts, events, k)
    ensures var s := Course(facts, events);
      CountAi(s.ticket.comments) <= 3 + (s.past.enables + 2) * k + s.past.failures
  {
    EveryCourseKeepsFew(facts, events, k);
    FewMeansBounded(Course(facts, events), k);
  }

  // ---------------------------------------------------------------- what the counter says

  /** A ticket may only gain AI comments, and its count not by itself. */
  lemma GrowthKeepsCopiesBehind(s: State, s': State)
    requires CopiesBehind(s) && s'.ticket.fields.aiMessageCount == s.ticket.fields.aiMessageCount
    requires CountAi(s.ticket.comments) <= CountAi(s'.ticket.comments)
    requires forall r :: r in s'.flights ==> r in s.flights && s'.flights[r] == s.flights[r]
    ensures CopiesBehind(s')
  {
  }

  lemma RespondKeepsCopiesBehind(s: State, facts: Facts, r: nat)
    requires CopiesBehind(s)
    ensures CopiesBehind(Step(s, facts, Respond(r)))
  {
    if r in s.flights && s.flights[r].Read? {
      CountAiOneMore(s.ticket.comments, Comment(s.flights[r].h.newId, Ai, s.flights[r].h.now));
    }
  }

  lemma BeginKeepsCopiesBehind(s: State, facts: Facts, r: nat, h: Handling)
    requires CopiesBehind(s)
    ensures CopiesBehind(Step(s, facts, Begin(r, h)))
  {
  }

  lemma UpdateKeepsCopiesBehind(s: State, facts: Facts, r: nat)
    requires CopiesBehind(s)
    ensures CopiesBehind(Step(s, facts, Update(r)))
  {
  }

  lemma EditKeepsCopiesBehind(s: State, facts: Facts, change: AutomationHandler.Event)
    requires CopiesBehind(s)
    ensures CopiesBehind(Step(s, facts, Edit(change)))
  {
    if change.Write? { CountAiOneMore(s.ticket.comments, Comment(change.id, change.author, change.at)); }
    GrowthKeepsCopiesBehind(s, Step(s, facts, Edit(change)));
  }

  lemma StepKeepsCopiesBehind(s: State, facts: Facts, e: Event)
    requires CopiesBehind(s)
    ensures CopiesBehind(Step(s, facts, e))
  {
    match e
    case Begin(r, h) => BeginKeepsCopiesBehind(s, facts, r, h);
    case Respond(r) => RespondKeepsCopiesBehind(s, facts, r);
    case Update(r) => UpdateKeepsCopiesBehind(s, facts, r);
    case Edit(change) => EditKeepsCopiesBehind(s, facts, change);
    case Assign(r) => GrowthKeepsCopiesBehind(s, Step(s, facts, e));
    case Fail(r) => GrowthKeepsCopiesBehind(s, Step(s, facts, e));
  }

  /** However handlings overlap, the counter never passes the number of AI comments: an update
      can be lost, and none is made up. */
  lemma {:induction false} CounterNeverExceedsComments(facts: Facts, events: seq<Event>)
    ensures CopiesBehind(Course(facts, events))
    ensures Course(facts, events).ticket.fields.aiMessageCount <= CountAi(Course(facts, events).ticket.comments)
  {
    if events != [] {
      CounterNeverExceedsComments(facts, Init(events));
      StepKeepsCopiesBehind(Course(facts, Init(events)), facts, Last(events));
    }
  }

  // ---------------------------------------------------------------- states that are reached

  /** Some course with at most k handlings at a time comes by here. */
  ghost predicate Reachable(facts: Facts, k: nat, s: State) {
    exists events :: Overlaps(facts, events, k) && Course(facts, events) == s
  }

  /** A set of states that no event within the bound leaves. */
  ghost predicate Closed(facts: Facts, k: nat, reached: State -> bool) {
    forall s, e :: reached(s) && |Step(s, facts, e).flights| <= k && ByPeople(e) ==> reached(Step(s, facts, e))
  }

  lemma ReachableIsClosed(facts: Facts, k: nat)
    ensures Reachable(facts, k, START) && Closed(facts, k, s => Reachable(facts, k, s))
  {
    assert Overlaps(facts, [], k) && Course(facts, []) == START;
    forall s, e | Reachable(facts, k, s) && |Step(s, facts, e).flights| <= k && ByPeople(e)
      ensures Reachable(facts, k, Step(s, facts, e))
    {
      var events :| Overlaps(facts, events, k) && Course(facts, events) == s;
      assert Init(events + [e]) == events && Last(events + [e]) == e;
      assert Overlaps(facts, events + [e], k);
    }
  }

  lemma Advance(facts: Facts, k: nat, reached: State -> bool, s: State, e: Event) returns (s': State)
    requires Closed(facts, k, reached) && reached(s) && |Step(s, facts, e).flights| <= k
    requires ByPeople(e)
    ensures s' == Step(s, facts, e) && reached(s')
  {
    s' := Step(s, facts, e);
  }

  // ---------------------------------------------------------------- waves of handlings

  /** Ready for a wave: nothing under way, AI on, a user's comment 0 to answer, and no AI
      comment after this moment. */
  ghost predicate Calm(s: State, at: int) {
    && s.flights == map[] && s.ticket.fields.aiActive && !s.ticket.fields.hasAssignee
    && IsUserComment(s.ticket, 0)
    && (LastAi(s.ticket.comments).Some? ==> LastAi(s.ticket.comments).value.createdAt <= at)
  }

  /** A handling of comment 0 after the cooldown, for an organisation that lets it pass and
      neither resolves nor assigns. */
  function HandlingAt(s: State, at: int): Handling {
    Handling(0, at + COOLDOWN,
             Some(Org(OrgConfig(true, s.ticket.fields.aiMessageCount + 1), Thresholds(false, false, 0, 0, 0))),
             0, false, false, 1)
  }

  lemma CalmResponds(s: State, at: int)
    requires Calm(s, at)
    ensures Responds(s.ticket, HandlingAt(s, at))
  {
  }

  /** Requests 0 to n - 1 are under way with one copy, and the first m have responded. */
  ghost predicate Wave(flights: map<nat, Flight>, ticket: Ticket, h: Handling, m: nat, n: nat) {
    && (forall r :: r in flights <==> 0 <= r < n)
    && (forall r :: r in flights ==> flights[r] == if r < m then Stored(ticket, h) else Read(ticket, h))
  }

  /** All have responded, and the first m have updated the ticket and are gone. */
  ghost predicate Leftovers(flights: map<nat, Flight>, ticket: Ticket, h: Handling, m: nat, n: nat) {
    && (forall r :: r in flights <==> m <= r < n)
    && (forall r :: r in flights ==> flights[r] == Stored(ticket, h))
  }

  lemma FlightsBelow(flights: map<nat, Flight>, n: nat)
    requires forall r :: r in flights ==> r < n
    ensures |flights| <= n
  {
    SizeBelow(flights.Keys, n);
    assert |flights| == |flights.Keys|;
  }

  lemma OneBegins(facts: Facts, k: nat, reached: State -> bool, s: State, r: nat, h: Handling) returns (s': State)
    requires Closed(facts, k, reached) && reached(s) && r !in s.flights && Responds(s.ticket, h)
    requires |s.flights[r := Read(s.ticket, h)]| <= k
    ensures reached(s') && s' == s.(flights := s.flights[r := Read(s.ticket, h)])
  {
    s' := Advance(facts, k, reached, s, Begin(r, h));
  }

  lemma {:induction false} WaveBegins(facts: Facts, k: nat, reached: State -> bool, s: State, h: Handling, n: nat)
    returns (s': State)
    requires Closed(facts, k, reached) && reached(s) && s.flights == map[] && Responds(s.ticket, h) && n <= k
    ensures reached(s') && s'.ticket == s.ticket && s'.past == s.past
    ensures Wave(s'.flights, s.ticket, h, 0, n)
  {
    s' := s;
    if n > 0 {
      s' := WaveBegins(facts, k, reached, s, h, n - 1);
      FlightsBelow(s'.flights[n - 1 := Read(s.ticket, h)], n);
      s' := OneBegins(facts, k, reached, s', n - 1, h);
    }
  }

  /** A ticket with m more responses. */
  predicate Answers(now: Ticket, before: Ticket, m: nat, at: int) {
    && now.fields == before.fields && CountAi(now.comments) == CountAi(before.comments) + m
    && before.comments <= now.comments
    && (LastAi(now.comments).Some? ==> LastAi(now.comments).value.createdAt <= at + COOLDOWN)
  }

  predicate Untroubled(before: History, now: History) {
    now.failures == before.failures && now.enables == before.enables
  }

  lemma RespondedTicket(ticket: Ticket, before: Ticket, c: Comment, m: nat, at: int)
    requires Answers(ticket, before, m, at) && c.author == Ai && c.createdAt == at + COOLDOWN
    ensures Answers(ticket.(comments := ticket.comments + [c]), before, m + 1, at)
  {
    CountAiOneMore(ticket.comments, c);
    assert Last(ticket.comments + [c]) == c;
  }

  lemma OneResponds(facts: Facts, k: nat, reached: State -> bool, s: State, r: nat, before: Ticket, m: nat, at: int)
    returns (s': State)
    requires Closed(facts, k, reached) && reached(s) && r in s.flights && s.flights[r].Read?
    requires s.flights[r].h.now == at + COOLDOWN && Answers(s.ticket, before, m, at)
    requires |s.flights[r := Stored(s.flights[r].snapshot, s.flights[r].h)]| <= k
    ensures reached(s') && s'.flights == s.flights[r := Stored(s.flights[r].snapshot, s.flights[r].h)]
    ensures Answers(s'.ticket, before, m + 1, at) && Untroubled(s.past, s'.past)
  {
    var f := s.flights[r];
    RespondedTicket(s.ticket, before, Comment(f.h.newId, Ai, f.h.now), m, at);
    s' := Advance(facts, k, reached, s, Respond(r));
  }

  lemma {:induction false} WaveResponds(facts: Facts, k: nat, reached: State -> bool, s: State, ticket: Ticket,
                                        h: Handling, at: int, m: nat, n: nat)
    returns (s': State)
    requires Closed(facts, k, reached) && reached(s) && Wave(s.flights, ticket, h, 0, n) && m <= n <= k
    requires h.now == at + COOLDOWN && Answers(s.ticket, ticket, 0, at)
    ensures reached(s') && Wave(s'.flights, ticket, h, m, n)
    ensures Answers(s'.ticket, ticket, m, at) && Untroubled(s.past, s'.past)
  {
    s' := s;
    if m > 0 {
      var before := WaveResponds(facts, k, reached, s, ticket, h, at, m - 1, n);
      FlightsBelow(before.flights[m - 1 := Stored(ticket, h)], n);
      s' := OneResponds(facts, k, reached, before, m - 1, ticket, m - 1, at);
    }
  }

  /** What an update that does not resolve the ticket leaves in its fields. */
  predicate Rewritten(now: Fields, before: Fields, snapshot: Ticket) {
    && now.aiMessageCount == snapshot.fields.aiMessageCount + 1 && now.hasAssignee == before.hasAssignee
    && now.aiActive == (before.aiActive && CountAi(snapshot.comments) + 1 < MAX_MESSAGES)
  }

  lemma OneUpdates(facts: Facts, k: nat, reached: State -> bool, s: State, r: nat) returns (s': State)
    requires Closed(facts, k, reached) && reached(s) && IsStored(s, r) && |s.flights - {r}| <= k
    requires s.flights[r].h.org.Some? && !s.flights[r].h.org.value.thresholds.enableAutoResolve
    ensures reached(s') && s'.flights == s.flights - {r} && s'.past == s.past
    ensures s'.ticket.comments == s.ticket.comments
    ensures Rewritten(s'.ticket.fields, s.ticket.fields, s.flights[r].snapshot)
  {
    s' := Advance(facts, k, reached, s, Update(r));
  }

  /** The updates of a wave all write the same. */
  lemma {:induction false} WaveUpdates(facts: Facts, k: nat, reached: State -> bool, s: State, ticket: Ticket,
                                       h: Handling, m: nat, n: nat)
    returns (s': State)
    requires Closed(facts, k, reached) && reached(s) && Leftovers(s.flights, ticket, h, 0, n) && m <= n <= k
    requires h.org.Some? && !h.org.value.thresholds.enableAutoResolve
    ensures reached(s') && Leftovers(s'.flights, ticket, h, m, n)
    ensures s'.past == s.past && s'.ticket.comments == s.ticket.comments
    ensures if m == 0 then s'.ticket.fields == s.ticket.fields
            else Rewritten(s'.ticket.fields, s.ticket.fields, ticket)
  {
    s' := s;
    if m > 0 {
      var before := WaveUpdates(facts, k, reached, s, ticket, h, m - 1, n);
      FlightsBelow(before.flights - {m - 1}, n);
      s' := OneUpdates(facts, k, reached, before, m - 1);
    }
  }

  lemma UserCommentsStay(now: Ticket, before: Ticket, id: nat)
    requires before.comments <= now.comments && IsUserComment(before, id)
    ensures IsUserComment(now, id)
  {
    var c :| c in before.comments && c.id == id && c.author == User;
    var i :| 0 <= i < |before.comments| && before.comments[i] == c;
    assert now.comments[i] == c;
  }

  /** n handlings at once, all the way: n more comments, and AI stays on while the copies hold
      fewer than four. */
  lemma FullWave(facts: Facts, k: nat, reached: State -> bool, s: State, at: int, n: nat) returns (s': State)
    requires Closed(facts, k, reached) && reached(s) && Calm(s, at) && 1 <= n <= k
    ensures reached(s') && Untroubled(s.past, s'.past)
    ensures CountAi(s'.ticket.comments) == CountAi(s.ticket.comments) + n
    ensures s'.ticket.fields.aiMessageCount == s.ticket.fields.aiMessageCount + 1
    ensures CountAi(s.ticket.comments) + 1 < MAX_MESSAGES ==> Calm(s', at + COOLDOWN)
  {
    var h := HandlingAt(s, at);
    CalmResponds(s, at);
    var begun := WaveBegins(facts, k, reached, s, h, n);
    var responded := WaveResponds(facts, k, reached, begun, s.ticket, h, at, n, n);
    s' := WaveUpdates(facts, k, reached, responded, s.ticket, h, n, n);
    assert s'.flights == map[];
    UserCommentsStay(responded.ticket, s.ticket, 0);
    UserCommentsStay(s'.ticket, responded.ticket, 0);
  }

  const ASKED := Ticket(NEW_TICKET.fields, [Comment(0, User, 0)])

  lemma AskedTicket()
    ensures IsUserComment(ASKED, 0) && LastAi(ASKED.comments) == None && CountAi(ASKED.comments) == 0
  {
    assert ASKED.comments[0] in ASKED.comments && Init(ASKED.comments) == [];
  }

  lemma Opening(facts: Facts, k: nat, reached: State -> bool) returns (s: State)
    requires Closed(facts, k, reached) && reached(START)
    ensures reached(s) && s == START.(ticket := ASKED)
  {
    assert NEW_TICKET.comments + [Comment(0, User, 0)] == ASKED.comments;
    s := Advance(facts, k, reached, START, Edit(Write(0, User, 0)));
  }

  lemma FiveWaves(facts: Facts, k: nat, reached: State -> bool) returns (s: State)
    requires Closed(facts, k, reached) && reached(START) && k >= 1
    ensures reached(s) && Untroubled(START.past, s.past) && CountAi(s.ticket.comments) == 3 + 2 * k
  {
    s := Opening(facts, k, reached);
    AskedTicket();
    s := FullWave(facts, k, reached, s, 0, 1);
    s := FullWave(facts, k, reached, s, COOLDOWN, 1);
    s := FullWave(facts, k, reached, s, 2 * COOLDOWN, 1);
    s := FullWave(facts, k, reached, s, 3 * COOLDOWN, k);
    s := FullWave(facts, k, reached, s, 4 * COOLDOWN, k);
  }

  lemma OneWave(facts: Facts, k: nat, reached: State -> bool) returns (s: State)
    requires Closed(facts, k, reached) && reached(START) && k >= 1
    ensures reached(s) && CountAi(s.ticket.comments) == k && s.ticket.fields.aiMessageCount == 1
  {
    s := Opening(facts, k, reached);
    AskedTicket();
    s := FullWave(facts, k, reached, s, 0, k);
  }

  /** The bound is reached, for every k, without failures and without turning AI back on. */
  lemma BoundIsReached(facts: Facts, k: nat)
    requires k >= 1
    ensures exists s :: Reachable(facts, k, s) && Untroubled(START.past, s.past)
                     && CountAi(s.ticket.comments) == 3 + 2 * k
  {
    ReachableIsClosed(facts, k);
    var s := FiveWaves(facts, k, s => Reachable(facts, k, s));
  }

  /** Updates get lost: k handlings at once leave k comments and a counter of one. */
  lemma UpdatesAreLost(facts: Facts, k: nat)
    requires k >= 1
    ensures exists s :: Reachable(facts, k, s)
                     && CountAi(s.ticket.comments) == k && s.ticket.fields.aiMessageCount == 1
  {
    ReachableIsClosed(facts, k);
    var s := OneWave(facts, k, s => Reachable(facts, k, s));
  }
}

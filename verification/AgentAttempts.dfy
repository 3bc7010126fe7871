/**
  Agent runs that share one executor (agent/executor.py), attempt by attempt: an execution
  awaits its tool and sleeps between its attempts, and meanwhile other runs may begin, which
  resets the counter, call tools themselves, and tools may change their status.
 */
module AgentAttempts {
  import opened Basics
  import opened AgentRun

  type RunId = nat

  /** An execution between two attempts; what the guards had seen is history. */
  datatype Flight = Flight(tool: string, attempts: nat, seen: Exec)

  datatype Shared = Shared(x: Exec, waiting: map<RunId, Flight>)

  /** An attempt comes with its outcome, which decides what the run can do next. */
  datatype Event =
    | Begin(run: RunId)
    | Start(run: RunId, tool: string, outcome: Outcome)
    | Retry(run: RunId, outcome: Outcome)
    | SetStatus(tool: string, status: ToolStatus)

  /** A run does one thing at a time. */
  predicate CanOccur(s: Shared, e: Event) {
    match e
    case Begin(run) => run !in s.waiting
    case Start(run, _, _) => run !in s.waiting
    case Retry(run, _) => run in s.waiting
    case SetStatus(tool, _) => tool in s.x.registry
  }

  predicate GetsThrough(x: Exec, tool: string) {
    x.callCount < MAX_TOOL_CALLS_PER_RUN && Callable(x, tool)
  }

  /** The n-th attempt of an execution: counted, made, and perhaps to be repeated. */
  function Attempted(s: Shared, run: RunId, f: Flight, outcome: Outcome): Shared {
    Shared(
      s.x.(callCount := s.x.callCount + 1, executed := s.x.executed + [f.tool]),
      if outcome == ToolError(true) && f.attempts <= MAX_RETRIES then s.waiting[run := f] else s.waiting - {run})
  }

  function Occur(s: Shared, e: Event): Shared
    requires CanOccur(s, e)
  {
    match e
    case Begin(_) => s.(x := s.x.(callCount := 0))
    case Start(run, tool, outcome) =>
      if GetsThrough(s.x, tool) then Attempted(s, run, Flight(tool, 1, s.x), outcome) else s
    case Retry(run, outcome) =>
      var f := s.waiting[run];
      Attempted(s, run, f.(attempts := f.attempts + 1), outcome)
    case SetStatus(tool, status) => s.(x := s.x.(statuses := s.x.statuses[tool := status]))
  }

  // ---------------------------------------------------------------- runs, and one run's account

  /** The calls a run has made, those before its latest execution, the stretches between resets
      in which an execution of it got through, and whether the latest one did since a reset. */
  datatype Account = Account(own: nat, earlier: nat, stretches: nat, joined: bool)

  function Enter(a: Account, s: Shared, e: Event, me: RunId): Account {
    match e
    case Begin(_) => a.(joined := false)
    case Start(run, tool, _) =>
      if run != me || !GetsThrough(s.x, tool) then a
      else Account(a.own + 1, a.own, a.stretches + if a.joined then 0 else 1, true)
    case Retry(run, _) => if run == me then a.(own := a.own + 1) else a
    case SetStatus(_, _) => a
  }

  datatype Course = Course(s: Shared, a: Account)

  function Opening(start: Exec): Course {
    Course(Shared(start, map[]), Account(0, 0, 0, false))
  }

  function Advance(c: Course, e: Event, me: RunId): Course
    requires CanOccur(c.s, e)
  {
    Course(Occur(c.s, e), Enter(c.a, c.s, e, me))
  }

  predicate Possible(start: Exec, events: seq<Event>, me: RunId)
    decreases |events|, 0
  {
    events == [] || (Possible(start, Init(events), me) && CanOccur(After(start, Init(events), me).s, Last(events)))
  }

  function After(start: Exec, events: seq<Event>, me: RunId): Course
    requires Possible(start, events, me)
    decreases |events|, 1
  {
    if events == [] then Opening(start) else Advance(After(start, Init(events), me), Last(events), me)
  }

  // ---------------------------------------------------------------- the budget

  const BUDGET := 5

  /** Executions of earlier stretches made five calls each at most, and those of the latest
      stretch before the latest execution at most two. */
  ghost predicate InBudget(c: Course, me: RunId) {
    && c.s.x.callCount >= 0
    && c.a.earlier <= c.a.own <= c.a.earlier + MAX_RETRIES + 1
    && (me in c.s.waiting ==> c.s.waiting[me].attempts == c.a.own - c.a.earlier <= MAX_RETRIES)
    && (c.a.stretches == 0 ==> c.a.own == 0 && !c.a.joined && me !in c.s.waiting)
    && (c.a.stretches > 0 ==> c.a.earlier <= (c.a.stretches - 1) * BUDGET + MAX_TOOL_CALLS_PER_RUN - 1)
    && (c.a.joined ==> c.a.own - (c.a.stretches - 1) * BUDGET <= c.s.x.callCount)
  }

  lemma StartStaysInBudget(c: Course, run: RunId, tool: string, outcome: Outcome, me: RunId)
    requires CanOccur(c.s, Start(run, tool, outcome)) && InBudget(c, me)
    ensures InBudget(Advance(c, Start(run, tool, outcome), me), me)
  {
    assert c.a.stretches > 0 ==> (c.a.stretches - 1) * BUDGET + BUDGET == c.a.stretches * BUDGET;
  }

  lemma StepStaysInBudget(c: Course, e: Event, me: RunId)
    requires CanOccur(c.s, e) && InBudget(c, me)
    ensures InBudget(Advance(c, e, me), me)
  {
    match e
    case Start(run, tool, outcome) => StartStaysInBudget(c, run, tool, outcome, me);
    case _ =>
  }

  lemma {:induction false} EveryRunStaysInBudget(start: Exec, events: seq<Event>, me: RunId)
    requires start.callCount >= 0 && Possible(start, events, me)
    ensures InBudget(After(start, events, me), me)
  {
    if events != [] {
      EveryRunStaysInBudget(start, Init(events), me);
      StepStaysInBudget(After(start, Init(events), me), Last(events), me);
    }
  }

  /** However attempts, resets and other runs interleave: at most five calls for each stretch
      between resets in which an execution of the run got through.  So a run keeps its budget
      if no reset falls between two of its executions that get through, even if resets fall
      inside them. */
  lemma {:induction false} CallsPerStretch(start: Exec, events: seq<Event>, me: RunId)
    requires start.callCount >= 0 && Possible(start, events, me)
    ensures var a := After(start, events, me).a;
      && a.own <= a.stretches * BUDGET
      && (a.stretches <= 1 ==> a.own <= BUDGET)
  {
    EveryRunStaysInBudget(start, events, me);
    var a := After(start, events, me).a;
    assert a.stretches > 0 ==> (a.stretches - 1) * BUDGET + BUDGET == a.stretches * BUDGET;
  }

  // ---------------------------------------------------------------- the bound is reached

  /** Some run comes by here. */
  ghost predicate Reachable(start: Exec, me: RunId, c: Course) {
    exists events :: Possible(start, events, me) && After(start, events, me) == c
  }

  /** A set that no event leaves. */
  ghost predicate Closed(me: RunId, reached: Course -> bool) {
    forall c, e :: reached(c) && CanOccur(c.s, e) ==> reached(Advance(c, e, me))
  }

  lemma ReachableIsClosed(start: Exec, me: RunId)
    ensures Reachable(start, me, Opening(start)) && Closed(me, c => Reachable(start, me, c))
  {
    assert Possible(start, [], me) && After(start, [], me) == Opening(start);
    forall c, e | Reachable(start, me, c) && CanOccur(c.s, e) ensures Reachable(start, me, Advance(c, e, me)) {
      var events :| Possible(start, events, me) && After(start, events, me) == c;
      assert Init(events + [e]) == events && Last(events + [e]) == e;
      assert Possible(start, events + [e], me);
    }
  }

  /** The run is between executions, the tool can be called, and the counter stands here. */
  predicate Ready(c: Course, me: RunId, tool: string, count: int) {
    me !in c.s.waiting && Callable(c.s.x, tool) && c.s.x.callCount == count
  }

  lemma Resets(reached: Course -> bool, c: Course, me: RunId, tool: string) returns (c': Course)
    requires Closed(me, reached) && reached(c) && me !in c.s.waiting && Callable(c.s.x, tool)
    ensures reached(c') && Ready(c', me, tool, 0) && c'.a == c.a.(joined := false)
  {
    c' := Advance(c, Begin(me), me);
  }

  lemma CallsOnce(reached: Course -> bool, c: Course, me: RunId, tool: string, count: int) returns (c': Course)
    requires Closed(me, reached) && reached(c) && Ready(c, me, tool, count) && count < MAX_TOOL_CALLS_PER_RUN
    ensures reached(c') && Ready(c', me, tool, count + 1)
    ensures c'.a == Account(c.a.own + 1, c.a.own, c.a.stretches + if c.a.joined then 0 else 1, true)
  {
    c' := Advance(c, Start(me, tool, Success), me);
  }

  lemma CallsThrice(reached: Course -> bool, c: Course, me: RunId, tool: string, count: int) returns (c': Course)
    requires Closed(me, reached) && reached(c) && Ready(c, me, tool, count) && count < MAX_TOOL_CALLS_PER_RUN
    requires c.a.joined
    ensures reached(c') && Ready(c', me, tool, count + 3)
    ensures c'.a.own == c.a.own + 3 && c'.a.stretches == c.a.stretches
  {
    c' := Advance(c, Start(me, tool, ToolError(true)), me);
    c' := Advance(c', Retry(me, ToolError(true)), me);
    c' := Advance(c', Retry(me, ToolError(true)), me);
  }

  /** A stretch of five calls. */
  lemma FiveMore(reached: Course -> bool, c: Course, me: RunId, tool: string) returns (c': Course)
    requires Closed(me, reached) && reached(c) && me !in c.s.waiting && Callable(c.s.x, tool)
    ensures reached(c') && me !in c'.s.waiting && Callable(c'.s.x, tool)
    ensures c'.a.own == c.a.own + BUDGET && c'.a.stretches == c.a.stretches + 1
  {
    c' := Resets(reached, c, me, tool);
    c' := CallsOnce(reached, c', me, tool, 0);
    c' := CallsOnce(reached, c', me, tool, 1);
    c' := CallsThrice(reached, c', me, tool, 2);
  }

  lemma {:induction false} ManyStretches(reached: Course -> bool, start: Exec, me: RunId, tool: string, n: nat)
    returns (c: Course)
    requires Closed(me, reached) && reached(Opening(start)) && Callable(start, tool)
    ensures reached(c) && me !in c.s.waiting && Callable(c.s.x, tool)
    ensures c.a.own == n * BUDGET && c.a.stretches == n
  {
    c := Opening(start);
    if n > 0 {
      c := ManyStretches(reached, start, me, tool, n - 1);
      c := FiveMore(reached, c, me, tool);
      assert n * BUDGET == (n - 1) * BUDGET + BUDGET;
    }
  }

  /** The bound is reached for every number of stretches. */
  lemma StretchBoundIsReached(start: Exec, me: RunId, tool: string, n: nat)
    requires Callable(start, tool)
    ensures exists c :: Reachable(start, me, c) && c.a.stretches == n && c.a.own == n * BUDGET
  {
    ReachableIsClosed(start, me);
    var c := ManyStretches(c => Reachable(start, me, c), start, me, tool, n);
  }

  /** Five calls are guaranteed to runs of at most n stretches exactly when n is at most one. */
  lemma BudgetIsKeptIff(start: Exec, me: RunId, tool: string, n: nat)
    requires start.callCount >= 0 && Callable(start, tool)
    ensures (forall c :: Reachable(start, me, c) && c.a.stretches <= n ==> c.a.own <= BUDGET) <==> n <= 1
  {
    StretchBoundIsReached(start, me, tool, n);
    assert n >= 2 ==> n * BUDGET >= 2 * BUDGET;
    forall c | Reachable(start, me, c) && c.a.stretches <= 1 ensures c.a.own <= BUDGET {
      var events :| Possible(start, events, me) && After(start, events, me) == c;
      CallsPerStretch(start, events, me);
    }
  }

  // ---------------------------------------------------------------- which tools are called

  /** What waits was callable when its guards looked. */
  ghost predicate StartedCallable(s: Shared) {
    forall run :: run in s.waiting ==> Callable(s.waiting[run].seen, s.waiting[run].tool)
  }

  lemma {:induction false} FlightsStartedCallable(start: Exec, events: seq<Event>, me: RunId)
    requires Possible(start, events, me)
    ensures StartedCallable(After(start, events, me).s)
    ensures After(start, events, me).s.x.registry == start.registry
  {
    if events != [] { FlightsStartedCallable(start, Init(events), me); }
  }

  /** A call reaches a tool that is disabled at that moment only as a retry, and then the tool
      was callable when its execution began; and a retry is made although it is disabled. */
  lemma {:induction false} DisabledToolsAreOnlyRetried(start: Exec, events: seq<Event>, me: RunId, e: Event)
    requires Possible(start, events, me) && CanOccur(After(start, events, me).s, e)
    ensures var before := After(start, events, me).s; var after := Occur(before, e);
      && |before.x.executed| <= |after.x.executed| <= |before.x.executed| + 1
      && (e.Retry? ==> after.x.executed == before.x.executed + [before.waiting[e.run].tool]
                       && Callable(before.waiting[e.run].seen, before.waiting[e.run].tool))
      && (after.x.executed != before.x.executed && !Callable(before.x, Last(after.x.executed)) ==> e.Retry?)
  {
    FlightsStartedCallable(start, events, me);
  }

  /** The latest status given to a tool, or the one it started with. */
  function StatusIn(start: Exec, events: seq<Event>, tool: string): Option<ToolStatus> {
    if events == [] then (if tool in start.statuses then Some(start.statuses[tool]) else None)
    else if Last(events).SetStatus? && Last(events).tool == tool then Some(Last(events).status)
    else StatusIn(start, Init(events), tool)
  }

  /** A call gets through exactly when fewer than three calls were made since the last reset and
      the tool is registered and not disabled. */
  lemma {:induction false} GetsThroughExactlyWhen(start: Exec, events: seq<Event>, me: RunId, tool: string)
    requires start.callCount == 0 && Possible(start, events, me)
    ensures GetsThrough(After(start, events, me).s.x, tool) <==>
      CallsSinceReset(start, events, me) < 3 && tool in start.registry
      && StatusIn(start, events, tool) != Some(DISABLED)
  {
    CounterAndStatuses(start, events, me, tool);
  }

  /** Calls of any run since the last run began. */
  function CallsSinceReset(start: Exec, events: seq<Event>, me: RunId): int
    requires Possible(start, events, me)
  {
    if events == [] || Last(events).Begin? then 0
    else
      CallsSinceReset(start, Init(events), me)
      + |After(start, events, me).s.x.executed| - |After(start, Init(events), me).s.x.executed|
  }

  lemma {:induction false} CounterAndStatuses(start: Exec, events: seq<Event>, me: RunId, tool: string)
    requires start.callCount == 0 && Possible(start, events, me)
    ensures var x := After(start, events, me).s.x;
      && x.callCount == CallsSinceReset(start, events, me) && x.registry == start.registry
      && (tool in x.statuses <==> StatusIn(start, events, tool).Some?)
      && (tool in x.statuses ==> Some(x.statuses[tool]) == StatusIn(start, events, tool))
  {
    if events != [] { CounterAndStatuses(start, Init(events), me, tool); }
  }

  // ---------------------------------------------------------------- without interruption

  /** The remaining attempts of a waiting execution, nothing in between. */
  function Finish(s: Shared, run: RunId, outcome: nat -> Outcome): Shared
    decreases if run in s.waiting then MAX_RETRIES + 1 - s.waiting[run].attempts else 0
  {
    if run in s.waiting && s.waiting[run].attempts <= MAX_RETRIES
    then Finish(Occur(s, Retry(run, outcome(|s.x.executed|))), run, outcome) else s
  }

  lemma {:induction false} FinishIsAttempts(s: Shared, run: RunId, outcome: nat -> Outcome, attempt: nat)
    requires run in s.waiting && s.waiting[run].attempts == attempt <= MAX_RETRIES
    ensures var (made, _) := Attempts(outcome, |s.x.executed|, attempt);
      Finish(s, run, outcome) == Shared(
        s.x.(callCount := s.x.callCount + made, executed := s.x.executed + Repeat(s.waiting[run].tool, made)),
        s.waiting - {run})
    decreases MAX_RETRIES - attempt
  {
    var n, tool := |s.x.executed|, s.waiting[run].tool;
    var next := Occur(s, Retry(run, outcome(n)));
    assert Repeat(tool, 1) == [tool];
    if run in next.waiting {
      FinishIsAttempts(next, run, outcome, attempt + 1);
      var made := Attempts(outcome, n + 1, attempt + 1).0;
      assert [tool] + Repeat(tool, made) == Repeat(tool, made + 1);
    }
  }

  /** An execution that nothing interrupts does what the atomic execution does. */
  lemma {:induction false} UninterruptedIsExecuted(s: Shared, run: RunId, tool: string, outcome: nat -> Outcome)
    requires run !in s.waiting
    ensures Finish(Occur(s, Start(run, tool, outcome(|s.x.executed|))), run, outcome)
         == Shared(Executed(s.x, tool, outcome).0, s.waiting)
  {
    var n := |s.x.executed|;
    var started := Occur(s, Start(run, tool, outcome(n)));
    assert Repeat(tool, 1) == [tool];
    if run in started.waiting {
      FinishIsAttempts(started, run, outcome, 1);
      var made := Attempts(outcome, n + 1, 1).0;
      assert [tool] + Repeat(tool, made) == Repeat(tool, made + 1);
    }
  }
}

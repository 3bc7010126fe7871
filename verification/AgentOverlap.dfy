/**
  Agent runs that share one executor (agent/executor.py): the executions of one run among the
  executions and counter resets of other runs, while tools change their status.

  A schedule fixes who does what; what each tool call then does is left open.  Here nothing
  interrupts an execution; AgentAttempts takes executions apart into their attempts.
 */
module AgentOverlap {
  import opened Basics
  import opened AgentRun

  datatype Turn =
    | Own(tool: string)                              // this run executes a tool
    | Others(tool: string)                           // another run does
    | Reset                                          // another run begins
    | SetStatus(tool: string, status: ToolStatus)

  /** The executor, and the tool calls this run has made. */
  datatype Played = Played(x: Exec, own: seq<string>)

  function Take(p: Played, turn: Turn, outcome: nat -> Outcome): Played {
    match turn
    case Own(tool) =>
      var after := Executed(p.x, tool, outcome).0;
      Played(after, p.own + after.executed[|p.x.executed|..])
    case Others(tool) => p.(x := Executed(p.x, tool, outcome).0)
    case Reset => p.(x := p.x.(callCount := 0))
    case SetStatus(tool, status) =>
      if tool in p.x.registry then p.(x := p.x.(statuses := p.x.statuses[tool := status])) else p
  }

  function Play(start: Exec, turns: seq<Turn>, outcome: nat -> Outcome): Played {
    if turns == [] then Played(start, []) else Take(Play(start, Init(turns), outcome), Last(turns), outcome)
  }

  // ---------------------------------------------------------------- the schedule alone

  /** What a schedule decides by itself: the tools that can be called, the counter if every
      call ended at once, whether this run got to call a tool since the last reset, and in
      how many stretches between resets it did. */
  datatype Outline = Outline(x: Exec, least: int, entered: bool, stretches: nat)

  predicate GetsThrough(o: Outline, tool: string) {
    Callable(o.x, tool) && o.least < MAX_TOOL_CALLS_PER_RUN
  }

  function Follow(o: Outline, turn: Turn): Outline {
    match turn
    case Own(tool) =>
      if !GetsThrough(o, tool) then o
      else o.(least := o.least + 1, entered := true, stretches := o.stretches + if o.entered then 0 else 1)
    case Others(tool) => if GetsThrough(o, tool) then o.(least := o.least + 1) else o
    case Reset => o.(least := 0, entered := false)
    case SetStatus(tool, status) =>
      if tool in o.x.registry then o.(x := o.x.(statuses := o.x.statuses[tool := status])) else o
  }

  function OutlineOf(start: Exec, turns: seq<Turn>): Outline {
    if turns == [] then Outline(start, start.callCount, false, 0)
    else Follow(OutlineOf(start, Init(turns)), Last(turns))
  }

  predicate SameTools(x: Exec, y: Exec) {
    x.registry == y.registry && x.statuses == y.statuses
  }

  /** One execution: refused without effect, or one to three calls of the tool. */
  lemma ExecutedShape(x: Exec, tool: string, outcome: nat -> Outcome) returns (made: nat)
    ensures var after := Executed(x, tool, outcome).0;
      && SameTools(x, after)
      && (made > 0 <==> Callable(x, tool) && x.callCount < MAX_TOOL_CALLS_PER_RUN)
      && made <= MAX_RETRIES + 1 && after.callCount == x.callCount + made
      && after.executed == x.executed + Repeat(tool, made)
      && (made > 0 ==> made == Attempts(outcome, |x.executed|, 0).0)
  {
    AttemptsMeaning(outcome, |x.executed|);
    made := Executed(x, tool, outcome).0.callCount - x.callCount;
    assert Repeat(tool, 0) == [];
  }

  // ---------------------------------------------------------------- what every outcome keeps

  /** In each stretch the run's calls are bounded by the counter, which they raised. */
  ghost predicate Bounded(p: Played, o: Outline) {
    && SameTools(p.x, o.x) && p.x.callCount >= o.least && p.x.callCount >= 0
    && |p.own| <= o.stretches * (MAX_TOOL_CALLS_PER_RUN + MAX_RETRIES)
    && (o.entered ==>
          && o.stretches > 0
          && |p.own| <= (o.stretches - 1) * (MAX_TOOL_CALLS_PER_RUN + MAX_RETRIES) + p.x.callCount)
  }

  lemma TurnKeepsBounded(p: Played, o: Outline, turn: Turn, outcome: nat -> Outcome)
    requires Bounded(p, o)
    ensures Bounded(Take(p, turn, outcome), Follow(o, turn))
  {
    if turn.Own? || turn.Others? {
      var made := ExecutedShape(p.x, turn.tool, outcome);
      assert turn.Own? ==> |Take(p, turn, outcome).own| == |p.own| + made;
    }
  }

  lemma {:induction false} EveryOutcomeIsBounded(start: Exec, turns: seq<Turn>, outcome: nat -> Outcome)
    requires start.callCount >= 0
    ensures Bounded(Play(start, turns, outcome), OutlineOf(start, turns))
  {
    if turns != [] {
      EveryOutcomeIsBounded(start, Init(turns), outcome);
      TurnKeepsBounded(Play(start, Init(turns), outcome), OutlineOf(start, Init(turns)), Last(turns), outcome);
    }
  }

  /** However statuses change: a turn that adds calls of this run adds up to three calls of
      the tool it names, which is registered and not disabled at that moment. */
  lemma {:induction false} CallsReachCallableTools(start: Exec, turns: seq<Turn>, turn: Turn, outcome: nat -> Outcome)
    returns (made: nat)
    ensures var before, after := Play(start, turns, outcome), Play(start, turns + [turn], outcome);
      && (after.own == before.own ||
           (turn.Own? && 1 <= made <= MAX_RETRIES + 1 && after.own == before.own + Repeat(turn.tool, made)
            && Callable(before.x, turn.tool)))
      && SameTools(before.x, OutlineOf(start, turns).x)
  {
    made := 0;
    var before := Play(start, turns, outcome);
    assert Init(turns + [turn]) == turns;
    if turn.Own? {
      made := ExecutedShape(before.x, turn.tool, outcome);
      assert made == 0 ==> Take(before, turn, outcome).own == before.own;
    }
    ToolsFollowTheSchedule(start, turns, outcome);
  }

  lemma {:induction false} ToolsFollowTheSchedule(start: Exec, turns: seq<Turn>, outcome: nat -> Outcome)
    ensures SameTools(Play(start, turns, outcome).x, OutlineOf(start, turns).x)
  {
    if turns != [] {
      ToolsFollowTheSchedule(start, Init(turns), outcome);
      if Last(turns).Own? || Last(turns).Others? {
        var made := ExecutedShape(Play(start, Init(turns), outcome).x, Last(turns).tool, outcome);
      }
    }
  }

  // ---------------------------------------------------------------- the worst outcome

  predicate AgreeBelow(o: nat -> Outcome, p: nat -> Outcome, n: nat) {
    forall i: nat :: i < n ==> o(i) == p(i)
  }

  /** Outcomes of calls that have not been made do not matter. */
  lemma {:induction false} OnlyMadeCallsMatter(start: Exec, turns: seq<Turn>, o: nat -> Outcome, p: nat -> Outcome)
    requires AgreeBelow(o, p, |Play(start, turns, o).x.executed|)
    ensures Play(start, turns, p) == Play(start, turns, o)
  {
    if turns != [] {
      var before := Play(start, Init(turns), o);
      if Last(turns).Own? || Last(turns).Others? {
        var made := ExecutedShape(before.x, Last(turns).tool, o);
        OnlyMadeCallsMatter(start, Init(turns), o, p);
        if made > 0 { SameAttempts(o, p, |before.x.executed|); }
      } else {
        OnlyMadeCallsMatter(start, Init(turns), o, p);
      }
    }
  }

  lemma {:induction false} SameAttempts(o: nat -> Outcome, p: nat -> Outcome, n: nat)
    requires AgreeBelow(o, p, n + Attempts(o, n, 0).0)
    ensures Attempts(p, n, 0) == Attempts(o, n, 0)
  {
    assert Attempts(o, n + 2, 2).0 == 1 && Attempts(p, n + 2, 2).0 == 1;
    assert o(n) == p(n);
    if o(n) == ToolError(true) {
      assert Attempts(o, n, 0).0 == Attempts(o, n + 1, 1).0 + 1;
      assert o(n + 1) == p(n + 1);
      if o(n + 1) == ToolError(true) {
        assert Attempts(o, n + 1, 1).0 == 2;
        assert o(n + 2) == p(n + 2);
      }
    }
  }

  /** Three calls in every stretch in which the run gets to call a tool at all. */
  ghost predicate Worst(p: Played, o: Outline) {
    && SameTools(p.x, o.x) && (!o.entered ==> p.x.callCount == o.least)
    && |p.own| >= o.stretches * (MAX_RETRIES + 1)
  }

  /** This run's calls fail retriably, everything else succeeds at once. */
  function WorstOf(turn: Turn): Outcome {
    if turn.Own? then ToolError(true) else Success
  }

  lemma TurnKeepsWorst(p: Played, o: Outline, turn: Turn, outcome: nat -> Outcome)
    requires Worst(p, o) && forall n: nat :: n >= |p.x.executed| ==> outcome(n) == WorstOf(turn)
    ensures Worst(Take(p, turn, outcome), Follow(o, turn))
  {
    if turn.Own? || turn.Others? {
      var made := ExecutedShape(p.x, turn.tool, outcome);
      AttemptsMeaning(outcome, |p.x.executed|);
      assert turn.Own? ==> |Take(p, turn, outcome).own| == |p.own| + made;
    }
  }

  lemma {:induction false} WorstOutcome(start: Exec, turns: seq<Turn>) returns (outcome: nat -> Outcome)
    ensures Worst(Play(start, turns, outcome), OutlineOf(start, turns))
  {
    outcome := (n: nat) => Success;
    if turns != [] {
      var earlier := WorstOutcome(start, Init(turns));
      var made := |Play(start, Init(turns), earlier).x.executed|;
      outcome := (n: nat) => if n < made then earlier(n) else WorstOf(Last(turns));
      OnlyMadeCallsMatter(start, Init(turns), earlier, outcome);
      TurnKeepsWorst(Play(start, Init(turns), earlier), OutlineOf(start, Init(turns)), Last(turns), outcome);
    }
  }

  // ---------------------------------------------------------------- the budget under overlap

  /** Whatever the tools do, the run makes at most five tool calls. */
  ghost predicate StaysInBudget(start: Exec, turns: seq<Turn>) {
    forall outcome: nat -> Outcome ::
      |Play(start, turns, outcome).own| <= 5
  }

  /** The budget holds for every outcome exactly when no reset falls between two moments at
      which the run gets to call a tool. */
  lemma {:induction false} BudgetUnderOverlapIff(start: Exec, turns: seq<Turn>)
    requires start.callCount >= 0
    ensures StaysInBudget(start, turns) <==> OutlineOf(start, turns).stretches <= 1
  {
    forall outcome: nat -> Outcome | OutlineOf(start, turns).stretches <= 1
      ensures |Play(start, turns, outcome).own| <= MAX_TOOL_CALLS_PER_RUN + MAX_RETRIES
    {
      EveryOutcomeIsBounded(start, turns, outcome);
    }
    var outcome := WorstOutcome(start, turns);
    assert StaysInBudget(start, turns) ==>
      |Play(start, turns, outcome).own| <= MAX_TOOL_CALLS_PER_RUN + MAX_RETRIES;
  }

  predicate HasOwn(turns: seq<Turn>) {
    turns != [] && (Last(turns).Own? || HasOwn(Init(turns)))
  }

  /** A reset comes after some turn of the run. */
  predicate ResetAfterOwn(turns: seq<Turn>) {
    turns != [] && (ResetAfterOwn(Init(turns)) || (Last(turns).Reset? && HasOwn(Init(turns))))
  }

  /** No reset falls between two turns of the run. */
  predicate Undisturbed(turns: seq<Turn>) {
    turns != [] ==> Undisturbed(Init(turns)) && !(Last(turns).Own? && ResetAfterOwn(Init(turns)))
  }

  lemma {:induction false} UndisturbedIsOneStretch(start: Exec, turns: seq<Turn>)
    requires Undisturbed(turns)
    ensures var o := OutlineOf(start, turns);
      && o.stretches <= 1 && (!HasOwn(turns) ==> o.stretches == 0)
      && (o.stretches == 1 && !ResetAfterOwn(turns) ==> o.entered)
  {
    if turns != [] { UndisturbedIsOneStretch(start, Init(turns)); }
  }

  /** Runs whose own turns no reset disturbs keep the budget, whatever other runs call and
      whichever tools change their status meanwhile. */
  lemma {:induction false} UndisturbedRunsKeepTheBudget(start: Exec, turns: seq<Turn>)
    requires start.callCount >= 0 && Undisturbed(turns)
    ensures StaysInBudget(start, turns)
  {
    UndisturbedIsOneStretch(start, turns);
    BudgetUnderOverlapIff(start, turns);
  }

  /** Only the run's calls of tools that can be called, and resets. */
  predicate OwnAndResets(start: Exec, turns: seq<Turn>) {
    forall i :: 0 <= i < |turns| ==> turns[i].Reset? || (turns[i].Own? && Callable(start, turns[i].tool))
  }

  lemma {:induction false} DisturbedHasTwoStretches(start: Exec, turns: seq<Turn>)
    requires start.callCount == 0 && OwnAndResets(start, turns)
    ensures var o := OutlineOf(start, turns);
      && o.x == start && (!o.entered ==> o.least == 0)
      && (HasOwn(turns) ==> o.stretches >= 1)
      && (ResetAfterOwn(turns) ==> HasOwn(turns) && (o.entered ==> o.stretches >= 2))
      && (!Undisturbed(turns) ==> o.stretches >= 2)
  {
    if turns != [] {
      assert forall i :: 0 <= i < |turns| - 1 ==> Init(turns)[i] == turns[i];
      DisturbedHasTwoStretches(start, Init(turns));
      assert Last(turns) == turns[|turns| - 1];
    }
  }

  /** For a run that never stops calling, with other runs only resetting: the budget holds
      exactly when no reset falls between two of its calls. */
  lemma {:induction false} UndisturbedIff(start: Exec, turns: seq<Turn>)
    requires start.callCount == 0 && OwnAndResets(start, turns)
    ensures StaysInBudget(start, turns) <==> Undisturbed(turns)
  {
    DisturbedHasTwoStretches(start, turns);
    BudgetUnderOverlapIff(start, turns);
    if Undisturbed(turns) { UndisturbedRunsKeepTheBudget(start, turns); }
  }

  /** Otherwise they need not: a reset lets the run's calls go on. */
  lemma OverlappingRunsExceedTheBudget(start: Exec, tool: string)
    requires start.callCount == 0 && Callable(start, tool)
    ensures !StaysInBudget(start, [Own(tool), Reset, Own(tool)])
  {
    var turns := [Own(tool), Reset, Own(tool)];
    assert Init(turns) == [Own(tool), Reset] && Init([Own(tool), Reset]) == [Own(tool)] && Init([Own(tool)]) == [];
    assert OutlineOf(start, [Own(tool)]) == Outline(start, 1, true, 1);
    BudgetUnderOverlapIff(start, turns);
  }

  // ---------------------------------------------------------------- runs are schedules

  predicate AllOwn(turns: seq<Turn>) {
    forall i :: 0 <= i < |turns| ==> turns[i].Own?
  }

  /** Continuing the loop continues the schedule by at most one own turn per pass left. */
  lemma {:induction false} LoopIsASchedule(names: Names, w: World, start: Exec, turns: seq<Turn>, d: Decision,
                                           hops: seq<Hop>)
    returns (all: seq<Turn>)
    requires AllOwn(turns) && |turns| <= |hops| <= MAX_AGENT_STEPS
    ensures AllOwn(all) && |all| <= MAX_AGENT_STEPS
    ensures Loop(names, w, false, Play(start, turns, w.outcome).x, d, hops).x == Play(start, all, w.outcome).x
    decreases MAX_AGENT_STEPS - |hops|
  {
    all := turns;
    if WantsTool(d) && |hops| < MAX_AGENT_STEPS {
      all := turns + [Own(d.tool)];
      assert Init(all) == turns;
      var next := Decide(names, w, |hops| + 1);
      if next.Decided? {
        all := LoopIsASchedule(names, w, start, all, next.decision, hops + [HopAt(w, |hops|, d.tool)]);
      }
    }
  }

  /** A run that nothing interrupts is the schedule of its own turns. */
  lemma RunIsASchedule(names: Names, w: World, start: Exec) returns (turns: seq<Turn>)
    ensures AllOwn(turns) && |turns| <= MAX_AGENT_STEPS
    ensures RunFrom(names, w, false, start).x == Play(start, turns, w.outcome).x
  {
    turns := [];
    if Decide(names, w, 0).Decided? {
      turns := LoopIsASchedule(names, w, start, [], Decide(names, w, 0).decision, []);
    }
  }
}

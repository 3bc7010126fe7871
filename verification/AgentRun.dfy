/** The agent's reasoning loop (agent/agent.py), its tool budget (agent/executor.py) and the
    checks on model answers (agent/validator.py). */
module AgentRun {
  import opened Basics
  import opened Metrics

  const MAX_AGENT_STEPS := 5
  const MAX_TOOL_CALLS_PER_RUN := 3
  const MAX_RETRIES := 2

  // ---------------------------------------------------------------- tools

  datatype ToolStatus = ACTIVE | DEGRADED | DISABLED

  /** What one call of a tool may do. */
  datatype Outcome = Success | ToolError(retriable: bool) | Crash

  datatype Result = Done | LimitReached | UnknownTool | Disabled | Failed(retriable: bool) | Unexpected

  /** A value of the executor; `executed` lists the calls that reached a tool. */
  datatype Exec = Exec(
    registry: set<string>,
    statuses: map<string, ToolStatus>,
    callCount: int,
    executed: seq<string>
  )

  predicate Callable(x: Exec, tool: string) {
    tool in x.registry && (tool in x.statuses ==> x.statuses[tool] != DISABLED)
  }

  /** How many calls the retry loop makes from this attempt on, and how it ends. */
  function Attempts(outcome: nat -> Outcome, n: nat, attempt: nat): (nat, Result)
    requires attempt <= MAX_RETRIES
    decreases MAX_RETRIES - attempt
  {
    match outcome(n)
    case Success => (1, Done)
    case Crash => (1, Unexpected)
    case ToolError(retriable) =>
      if !retriable || attempt == MAX_RETRIES then (1, Failed(retriable))
      else
        var rest := Attempts(outcome, n + 1, attempt + 1);
        (rest.0 + 1, rest.1)
  }

  /** The calls are retriable errors up to the last one, which ends the loop: it is not a
      retriable error, or it is the third call. */
  lemma {:induction false} AttemptsMeaning(outcome: nat -> Outcome, n: nat)
    ensures var (made, result) := Attempts(outcome, n, 0);
      && 1 <= made <= 3
      && (forall i :: n <= i < n + made - 1 ==> outcome(i) == ToolError(true))
      && (made == 3 || outcome(n + made - 1) != ToolError(true))
      && result == match outcome(n + made - 1)
                   case Success => Done
                   case Crash => Unexpected
                   case ToolError(retriable) => Failed(retriable)
  {
    assert Attempts(outcome, n + 2, 2).0 == 1;
    assert Attempts(outcome, n + 1, 1)
        == if outcome(n + 1) == ToolError(true) then (2, Attempts(outcome, n + 2, 2).1)
           else (1, Attempts(outcome, n + 1, 1).1);
  }

  function Repeat(tool: string, k: nat): seq<string> {
    seq(k, i => tool)
  }

  /** execute: three guards, then the retry loop. */
  function Executed(x: Exec, tool: string, outcome: nat -> Outcome): (Exec, Result) {
    if x.callCount >= MAX_TOOL_CALLS_PER_RUN then (x, LimitReached)
    else if tool !in x.registry then (x, UnknownTool)
    else if !Callable(x, tool) then (x, Disabled)
    else
      var (made, result) := Attempts(outcome, |x.executed|, 0);
      (x.(callCount := x.callCount + made, executed := x.executed + Repeat(tool, made)), result)
  }

  /** What an execution answers: the first guard that fails, or the end of its attempts. */
  lemma ExecutedExactlyWhen(x: Exec, tool: string, outcome: nat -> Outcome)
    ensures var (after, result) := Executed(x, tool, outcome);
      && (result == LimitReached <==> x.callCount >= 3)
      && (result == UnknownTool <==> x.callCount < 3 && tool !in x.registry)
      && (result == Disabled <==>
            x.callCount < 3 && tool in x.registry && tool in x.statuses && x.statuses[tool] == DISABLED)
      && (result in {LimitReached, UnknownTool, Disabled} ==> after == x)
      && (result !in {LimitReached, UnknownTool, Disabled} ==>
            |after.executed| > |x.executed| && after.executed[..|x.executed|] == x.executed
            && forall i :: |x.executed| <= i < |after.executed| ==> after.executed[i] == tool)
  {
    AttemptsMeaning(outcome, |x.executed|);
  }

  class ToolExecutor {
    var registry: set<string>
    var statuses: map<string, ToolStatus>
    var callCount: int
    var executed: seq<string>

    constructor ()
      ensures State() == Exec({}, map[], 0, [])
    {
      registry, statuses, callCount, executed := {}, map[], 0, [];
    }

    function State(): Exec
      reads this
    {
      Exec(registry, statuses, callCount, executed)
    }

    /** Refused for a name already taken. */
    method Register(tool: string) returns (ok: bool)
      modifies `registry, `statuses
      ensures ok <==> tool !in old(registry)
      ensures State() == if ok then old(State()).(registry := old(registry) + {tool},
                                                  statuses := old(statuses)[tool := ACTIVE])
                         else old(State())
    {
      ok := tool !in registry;
      if ok {
        registry := registry + {tool};
        statuses := statuses[tool := ACTIVE];
      }
    }

    /** Refused for an unknown tool. */
    method SetToolStatus(tool: string, status: ToolStatus) returns (ok: bool)
      modifies `statuses
      ensures ok <==> tool in registry
      ensures statuses == if ok then old(statuses)[tool := status] else old(statuses)
    {
      ok := tool in registry;
      if ok { statuses := statuses[tool := status]; }
    }

    method ResetCallCount()
      modifies `callCount
      ensures callCount == 0
    {
      callCount := 0;
    }

    method Execute(tool: string, outcome: nat -> Outcome) returns (result: Result)
      modifies `callCount, `executed
      ensures (State(), result) == Executed(old(State()), tool, outcome)
    {
      if callCount >= MAX_TOOL_CALLS_PER_RUN { return LimitReached; }
      if tool !in registry { return UnknownTool; }
      if tool in statuses && statuses[tool] == DISABLED { return Disabled; }
      result := CallWithRetries(tool, outcome);
    }

    method CallWithRetries(tool: string, outcome: nat -> Outcome) returns (result: Result)
      modifies `callCount, `executed
      ensures var (made, end) := Attempts(outcome, |old(executed)|, 0);
        && result == end && callCount == old(callCount) + made
        && executed == old(executed) + Repeat(tool, made)
    {
      var attempt := 0;
      ghost var n, all := |executed|, Attempts(outcome, |executed|, 0);
      while true
        invariant attempt <= MAX_RETRIES && callCount == old(callCount) + attempt
        invariant executed == old(executed) + Repeat(tool, attempt)
        invariant var rest := Attempts(outcome, n + attempt, attempt);
          all == (rest.0 + attempt, rest.1)
        decreases MAX_RETRIES - attempt
      {
        var what := outcome(|executed|);
        callCount := callCount + 1;
        executed := executed + [tool];
        assert Repeat(tool, attempt) + [tool] == Repeat(tool, attempt + 1);
        if what == Success { return Done; }
        if what == Crash { return Unexpected; }
        if !what.retriable || attempt == MAX_RETRIES { return Failed(what.retriable); }
        attempt := attempt + 1;
      }
    }
  }

  // ---------------------------------------------------------------- answers

  datatype Action = Respond | ToolCall | Escalate | Suggest

  /** A field of the model's JSON object: absent, of another type, or a value. */
  datatype Field<+T> = Missing | WrongType | Is(value: T)

  datatype Data = Data(
    action: Field<string>,
    confidence: Field<real>,
    reasoning: Field<string>,
    message: Field<string>,
    tool: Field<string>,
    toolInput: Field<()>,
    otherFieldsFit: bool
  )

  datatype Raw = NotJson | NotAnObject | Object(data: Data)

  function ParseAction(s: string): Option<Action> {
    if s == "respond" then Some(Respond)
    else if s == "tool_call" then Some(ToolCall)
    else if s == "escalate" then Some(Escalate)
    else if s == "suggest" then Some(Suggest)
    else None
  }

  /** The name of an action in the model's answers. */
  function NameOf(a: Action): string {
    match a case Respond => "respond" case ToolCall => "tool_call" case Escalate => "escalate" case Suggest => "suggest"
  }

  /** Names and actions correspond, and nothing else is an action. */
  lemma ActionNames(s: string, a: Action)
    ensures ParseAction(NameOf(a)) == Some(a)
    ensures ParseAction(s) == Some(a) <==> s == NameOf(a)
  {
    assert "respond" != "tool_call" && "respond" != "escalate" && "respond" != "suggest";
    assert "tool_call" != "escalate" && "tool_call" != "suggest" && "escalate" != "suggest";
  }

  predicate Blank(s: string) {
    forall i :: 0 <= i < |s| ==> IsSpace(s[i])
  }

  /** The two name sets of the validator; each is skipped while empty. */
  datatype Names = Names(all: set<string>, active: set<string>)

  predicate NameAccepted(names: Names, tool: string) {
    && tool != ""
    && (names.all != {} ==> tool in names.all)
    && (names.active != {} ==> tool in names.active)
  }

  predicate Accepted(names: Names, d: Data) {
    && d.action.Is? && d.confidence.Is? && d.reasoning.Is? && d.message.Is?
    && ParseAction(d.action.value).Some?
    && 0.0 <= d.confidence.value <= 1.0
    && (ParseAction(d.action.value).value == ToolCall ==>
          d.tool.Is? && NameAccepted(names, d.tool.value) && !d.toolInput.WrongType?)
    && !Blank(d.message.value)
  }

  class AgentValidator {
    var all: set<string>
    var active: set<string>

    constructor (names: set<string>)
      ensures Sets() == Names(names, names)
    {
      all, active := names, names;
    }

    function Sets(): Names
      reads this
    {
      Names(all, active)
    }

    method UpdateToolNames(names: set<string>)
      modifies `all
      ensures all == names
    {
      all := names;
    }

    method UpdateActiveTools(names: set<string>)
      modifies `active
      ensures active == names
    {
      active := names;
    }

    method Validate(d: Data) returns (ok: bool)
      ensures ok <==> Accepted(Sets(), d)
    {
      if !d.action.Is? || !d.confidence.Is? || !d.reasoning.Is? || !d.message.Is? { return false; }
      var action := ParseAction(d.action.value);
      if action.None? { return false; }
      if !(0.0 <= d.confidence.value <= 1.0) { return false; }
      if action.value == ToolCall {
        if !d.tool.Is? || d.tool.value == "" { return false; }
        if all != {} && d.tool.value !in all { return false; }
        if active != {} && d.tool.value !in active { return false; }
        if d.toolInput.WrongType? { return false; }
      }
      ok := !Blank(d.message.value);
    }
  }

  /** A missing tool is the empty name. */
  datatype Decision = Decision(action: Action, tool: string, confidence: real)

  const FALLBACK := Decision(Escalate, "", 0.0)

  /** An exception that reaches the top of the run, or a decision. */
  datatype Parsed = Raised | Decided(decision: Decision)

  /** _parse_and_validate; what passes the checks can still not fit the decision's schema. */
  function ParseAndValidate(names: Names, raw: Raw): Parsed {
    match raw
    case NotJson => Decided(FALLBACK)
    case NotAnObject => Raised
    case Object(d) =>
      if !Accepted(names, d) then Decided(FALLBACK)
      else if d.tool.WrongType? || d.toolInput.WrongType? || !d.otherFieldsFit then Raised
      else
        var tool := if d.tool.Is? then d.tool.value else "";
        Decided(Decision(ParseAction(d.action.value).value, tool, d.confidence.value))
  }

  /** Some character of the text is not blank. */
  predicate SaysSomething(s: string) {
    exists i :: 0 <= i < |s| && !IsSpace(s[i])
  }

  /** The tool may be asked for: it has a name, and is in each name set that is not empty. */
  predicate MayAskFor(names: Names, tool: string) {
    tool != "" && (names.all == {} || tool in names.all) && (names.active == {} || tool in names.active)
  }

  /** An answer that states a decision. */
  function Stated(x: Decision, reasoning: string, message: string): Data {
    Data(Is(NameOf(x.action)), Is(x.confidence), Is(reasoning), Is(message),
         if x.tool == "" then Missing else Is(x.tool), Missing, true)
  }

  /** A stated decision is read back exactly when its confidence is a share, its message says
      something, and a tool call names a tool that may be asked for; otherwise the run escalates. */
  lemma StatedDecisionsAreRead(names: Names, x: Decision, reasoning: string, message: string)
    ensures var fits := 0.0 <= x.confidence && x.confidence <= 1.0 && SaysSomething(message)
                     && (x.action == ToolCall ==> MayAskFor(names, x.tool));
      ParseAndValidate(names, Object(Stated(x, reasoning, message)))
      == if fits then Decided(x) else Decided(Decision(Escalate, "", 0.0))
  {
    ActionNames(NameOf(x.action), x.action);
    SayingIsNotBlank(message);
  }

  lemma SayingIsNotBlank(s: string)
    ensures SaysSomething(s) <==> !Blank(s)
  {
  }

  /** The answer has every field, an action by name, a share of confidence, a message that says
      something, and for a tool call a tool that may be asked for. */
  ghost predicate SoundAnswer(names: Names, d: Data) {
    && d.action.Is? && d.confidence.Is? && d.reasoning.Is? && d.message.Is?
    && (exists a :: d.action.value == NameOf(a))
    && 0.0 <= d.confidence.value && d.confidence.value <= 1.0 && SaysSomething(d.message.value)
    && (d.action.value == "tool_call" ==>
          d.tool.Is? && MayAskFor(names, d.tool.value) && d.toolInput != WrongType)
  }

  /** What every answer comes to: an answer that is not sound escalates, one that is sound but
      does not fit the decision's schema raises, and any other is the decision it states. */
  lemma AnswersInFull(names: Names, raw: Raw)
    ensures var p := ParseAndValidate(names, raw);
      && (raw == NotJson || (raw.Object? && !SoundAnswer(names, raw.data)) ==>
            p == Decided(Decision(Escalate, "", 0.0)))
      && (raw == NotAnObject ==> p == Raised)
      && (raw.Object? && SoundAnswer(names, raw.data) ==>
            && (p == Raised <==>
                  raw.data.tool == WrongType || raw.data.toolInput == WrongType || !raw.data.otherFieldsFit)
            && (p.Decided? ==>
                  && raw.data.action.value == NameOf(p.decision.action)
                  && p.decision.confidence == raw.data.confidence.value
                  && p.decision.tool == (if raw.data.tool.Is? then raw.data.tool.value else "")))
  {
    if raw.Object? && raw.data.action.Is? && raw.data.message.Is? {
      var s := raw.data.action.value;
      forall a ensures ParseAction(s) == Some(a) <==> s == NameOf(a) { ActionNames(s, a); }
      ActionNames(s, ToolCall);
      SayingIsNotBlank(raw.data.message.value);
      if ParseAction(s).Some? { assert s == NameOf(ParseAction(s).value); }
    }
  }

  // ---------------------------------------------------------------- the loop

  datatype Times = Times(start: int, stop: int)

  datatype Answer = Unavailable | Reply(raw: Raw, tokens: int)

  /** Everything a run meets: the i-th model call, the n-th tool call, and the clock. */
  datatype World = World(
    answer: nat -> Answer,
    outcome: nat -> Outcome,
    llmTime: nat -> Times,
    toolTime: nat -> Times
  )

  /** A tool call and the model call that follows it. */
  datatype Hop = Hop(tool: string, toolMs: int, llmMs: int, tokens: int)

  function Decide(names: Names, w: World, i: nat): Parsed {
    match w.answer(i)
    case Unavailable => Raised
    case Reply(raw, tokens) => ParseAndValidate(names, raw)
  }

  function Tokens(a: Answer): int {
    if a.Reply? then a.tokens else 0
  }

  function HopAt(w: World, i: nat, tool: string): Hop {
    Hop(tool, w.toolTime(i).stop - w.toolTime(i).start, w.llmTime(i + 1).stop - w.llmTime(i + 1).start,
        Tokens(w.answer(i + 1)))
  }

  /** `llmCalls` counts the model calls made, failed ones included. */
  datatype Run =
    | Broken(x: Exec, llmCalls: nat)
    | Finished(x: Exec, llmCalls: nat, decision: Decision, hops: seq<Hop>, limitHit: bool)

  function Used(x: Exec, tool: string, w: World, dryRun: bool): Exec {
    if dryRun then x else Executed(x, tool, w.outcome).0
  }

  predicate WantsTool(d: Decision) {
    d.action == ToolCall && d.tool != ""
  }

  function Loop(names: Names, w: World, dryRun: bool, x: Exec, d: Decision, hops: seq<Hop>): Run
    decreases MAX_AGENT_STEPS - |hops|
  {
    if !WantsTool(d) then Finished(x, |hops| + 1, d, hops, false)
    else if |hops| >= MAX_AGENT_STEPS then Finished(x, |hops| + 1, FALLBACK, hops, true)
    else
      var after := Used(x, d.tool, w, dryRun);
      match Decide(names, w, |hops| + 1)
      case Raised => Broken(after, |hops| + 2)
      case Decided(next) => Loop(names, w, dryRun, after, next, hops + [HopAt(w, |hops|, d.tool)])
  }

  /** One pass of the loop. */
  lemma {:induction false} LoopGoesOn(names: Names, w: World, dryRun: bool, x: Exec, d: Decision, hops: seq<Hop>)
    requires WantsTool(d)
    ensures var after, next := Used(x, d.tool, w, dryRun), Decide(names, w, |hops| + 1);
      Loop(names, w, dryRun, x, d, hops)
      == if |hops| >= MAX_AGENT_STEPS then Finished(x, |hops| + 1, FALLBACK, hops, true)
         else if next.Raised? then Broken(after, |hops| + 2)
         else Loop(names, w, dryRun, after, next.decision, hops + [HopAt(w, |hops|, d.tool)])
  {
  }

  /** A run past the input guard, from a fresh call counter. */
  function RunFrom(names: Names, w: World, dryRun: bool, x: Exec): Run {
    match Decide(names, w, 0)
    case Raised => Broken(x, 1)
    case Decided(d) => Loop(names, w, dryRun, x, d, [])
  }

  /** run() turns every exception into the fallback. */
  function FinalDecision(r: Run): Decision {
    if r.Finished? then r.decision else FALLBACK
  }

  // ---------------------------------------------------------------- what every run keeps

  /** However the model answers, a run makes at most six model calls and ends in an action
      other than a tool call. */
  lemma {:induction false} LoopEnds(names: Names, w: World, dryRun: bool, x: Exec, d: Decision, hops: seq<Hop>)
    requires |hops| <= MAX_AGENT_STEPS && (d.action == ToolCall ==> WantsTool(d))
    ensures var r := Loop(names, w, dryRun, x, d, hops);
      && r.llmCalls <= MAX_AGENT_STEPS + 1
      && FinalDecision(r).action != ToolCall
      && (r.Finished? ==> r.llmCalls == |r.hops| + 1)
    decreases MAX_AGENT_STEPS - |hops|
  {
    if WantsTool(d) && |hops| < MAX_AGENT_STEPS && Decide(names, w, |hops| + 1).Decided? {
      var next := Decide(names, w, |hops| + 1).decision;
      LoopEnds(names, w, dryRun, Used(x, d.tool, w, dryRun), next, hops + [HopAt(w, |hops|, d.tool)]);
    }
  }

  /** The budget: the counter holds the calls made, and only a call below the limit adds some. */
  ghost predicate InBudget(start: Exec, x: Exec) {
    && x.registry == start.registry && x.statuses == start.statuses
    && start.executed <= x.executed
    && x.callCount == |x.executed| - |start.executed| <= MAX_TOOL_CALLS_PER_RUN + MAX_RETRIES
    && (forall i :: |start.executed| <= i < |x.executed| ==> Callable(start, x.executed[i]))
  }

  lemma ExecuteStaysInBudget(start: Exec, x: Exec, tool: string, outcome: nat -> Outcome)
    requires InBudget(start, x)
    ensures InBudget(start, Executed(x, tool, outcome).0)
  {
    AttemptsMeaning(outcome, |x.executed|);
  }

  lemma {:induction false} LoopStaysInBudget(names: Names, w: World, dryRun: bool, start: Exec, x: Exec, d: Decision,
                                             hops: seq<Hop>)
    requires InBudget(start, x)
    ensures InBudget(start, Loop(names, w, dryRun, x, d, hops).x)
    ensures dryRun ==> Loop(names, w, dryRun, x, d, hops).x == x
    decreases MAX_AGENT_STEPS - |hops|
  {
    if WantsTool(d) && |hops| < MAX_AGENT_STEPS {
      if !dryRun { ExecuteStaysInBudget(start, x, d.tool, w.outcome); }
      if Decide(names, w, |hops| + 1).Decided? {
        LoopStaysInBudget(names, w, dryRun, start, Used(x, d.tool, w, dryRun), Decide(names, w, |hops| + 1).decision,
                          hops + [HopAt(w, |hops|, d.tool)]);
      }
    }
  }

  /** Every run: at most six model calls, at most five calls of tools with retries, all of
      them registered and not disabled, none at all in a dry run, and a final action that is
      not a tool call. */
  lemma RunsAreBounded(names: Names, w: World, dryRun: bool, start: Exec)
    requires start.callCount == 0
    ensures var r := RunFrom(names, w, dryRun, start);
      && r.llmCalls <= 6
      && FinalDecision(r).action != ToolCall
      && |r.x.executed| - |start.executed| <= 5
      && (forall i :: |start.executed| <= i < |r.x.executed| ==> Callable(start, r.x.executed[i]))
      && (dryRun ==> r.x == start)
  {
    var first := Decide(names, w, 0);
    if first.Decided? {
      assert InBudget(start, start);
      LoopEnds(names, w, dryRun, start, first.decision, []);
      LoopStaysInBudget(names, w, dryRun, start, start, first.decision, []);
    }
  }

  /** The bound on tool calls is met: two calls that succeed, then one that needs two retries. */
  lemma FiveToolCallsHappen(start: Exec, tool: string)
    requires start.callCount == 0 && Callable(start, tool)
    ensures var n := |start.executed|;
      var outcome := (i: nat) => if i < n + 2 then Success else ToolError(true);
      var x := Executed(Executed(Executed(start, tool, outcome).0, tool, outcome).0, tool, outcome).0;
      |x.executed| - n == 5
  {
    var n := |start.executed|;
    var outcome := (i: nat) => if i < n + 2 then Success else ToolError(true);
    var x1 := Executed(start, tool, outcome).0;
    var x2 := Executed(x1, tool, outcome).0;
    assert |x1.executed| == n + 1 && |x2.executed| == n + 2;
    AttemptsMeaning(outcome, n + 2);
    assert outcome(n + 2) == ToolError(true) && outcome(n + 3) == ToolError(true);
  }

  // ---------------------------------------------------------------- what the answers decide

  predicate AsksForTool(names: Names, w: World, i: nat) {
    Decide(names, w, i).Decided? && WantsTool(Decide(names, w, i).decision)
  }

  /** The answers before the k-th all ask for a tool. */
  predicate ToolsUpTo(names: Names, w: World, k: nat) {
    forall i :: 0 <= i < k ==> AsksForTool(names, w, i)
  }

  /** The hops of the first k answers. */
  function HopsOf(names: Names, w: World, k: nat): seq<Hop>
    requires ToolsUpTo(names, w, k)
  {
    seq(k, i requires 0 <= i < k && AsksForTool(names, w, i) => HopAt(w, i, Decide(names, w, i).decision.tool))
  }

  /** The run read off the answers alone: the first answer that does not ask for a tool
      decides, and if the first six all ask for one the run escalates. */
  ghost predicate DecidedByAnswer(names: Names, w: World, r: Run, k: nat) {
    && k <= 6 && ToolsUpTo(names, w, k)
    && if k == 6 then
         r.Finished? && r.decision == FALLBACK && r.limitHit && r.hops == HopsOf(names, w, 5)
       else
         && !AsksForTool(names, w, k)
         && (match Decide(names, w, k)
             case Raised => r.Broken? && r.llmCalls == k + 1
             case Decided(d) => r.Finished? && r.decision == d && !r.limitHit && r.hops == HopsOf(names, w, k))
  }

  lemma {:induction false} LoopFollowsAnswers(names: Names, w: World, dryRun: bool, x: Exec, d: Decision, k: nat)
    returns (at: nat)
    requires k <= MAX_AGENT_STEPS && ToolsUpTo(names, w, k) && Decide(names, w, k) == Decided(d)
    ensures DecidedByAnswer(names, w, Loop(names, w, dryRun, x, d, HopsOf(names, w, k)), at)
    decreases MAX_AGENT_STEPS - k
  {
    at := k;
    if WantsTool(d) {
      assert AsksForTool(names, w, k) && ToolsUpTo(names, w, k + 1);
      at := k + 1;
      if k < MAX_AGENT_STEPS {
        assert HopsOf(names, w, k) + [HopAt(w, k, d.tool)] == HopsOf(names, w, k + 1);
        if Decide(names, w, k + 1).Decided? {
          var next := Decide(names, w, k + 1).decision;
          at := LoopFollowsAnswers(names, w, dryRun, Used(x, d.tool, w, dryRun), next, k + 1);
        }
      }
    }
  }

  lemma RunFollowsAnswers(names: Names, w: World, dryRun: bool, x: Exec) returns (at: nat)
    ensures DecidedByAnswer(names, w, RunFrom(names, w, dryRun, x), at)
  {
    at := 0;
    if Decide(names, w, 0).Decided? {
      assert HopsOf(names, w, 0) == [];
      at := LoopFollowsAnswers(names, w, dryRun, x, Decide(names, w, 0).decision, 0);
    }
  }

  /** The answer that decides is the only one that can. */
  lemma DecidingAnswerIsUnique(names: Names, w: World, r: Run, q: Run, j: nat, k: nat)
    requires DecidedByAnswer(names, w, r, j) && DecidedByAnswer(names, w, q, k)
    ensures j == k && FinalDecision(r) == FinalDecision(q) && (r.Finished? ==> q.Finished? && r.hops == q.hops)
  {
    assert j < k ==> AsksForTool(names, w, j);
    assert k < j ==> AsksForTool(names, w, k);
  }

  /** An answer asks for a tool exactly when its action is a tool call: a tool named beside
      another action is not called. */
  lemma AskingIsToolCall(names: Names, w: World, i: nat)
    ensures AsksForTool(names, w, i) <==>
      Decide(names, w, i).Decided? && Decide(names, w, i).decision.action == ToolCall
  {
    if Decide(names, w, i).Decided? { DecidedIsSound(names, w, i); }
  }

  /** Hop i holds the tool that answer i asked for, what its call took, and what the next model
      call took and used. */
  lemma {:induction false} HopsRecordTheirCalls(names: Names, w: World, dryRun: bool, x: Exec, i: nat)
    requires RunFrom(names, w, dryRun, x).Finished? && i < |RunFrom(names, w, dryRun, x).hops|
    ensures var hop := RunFrom(names, w, dryRun, x).hops[i];
      && Decide(names, w, i).Decided? && Decide(names, w, i).decision.tool == hop.tool
      && w.toolTime(i).start + hop.toolMs == w.toolTime(i).stop
      && w.llmTime(i + 1).start + hop.llmMs == w.llmTime(i + 1).stop
      && (w.answer(i + 1).Reply? ==> hop.tokens == w.answer(i + 1).tokens)
  {
    var k := RunFollowsAnswers(names, w, dryRun, x);
    assert AsksForTool(names, w, i);
  }

  /** An exception anywhere ends in the fallback, and so do six requests for tools. */
  lemma FallbackEscalates(r: Run)
    ensures r.Broken? ==> FinalDecision(r) == Decision(Escalate, "", 0.0)
    ensures FALLBACK == Decision(Escalate, "", 0.0)
  {
  }

  /** The decision may be carried out: a share of confidence, and a tool only if it may be asked for. */
  predicate IsSoundDecision(names: Names, d: Decision) {
    0.0 <= d.confidence && d.confidence <= 1.0 && (d.action == ToolCall ==> MayAskFor(names, d.tool))
  }

  lemma DecidedIsSound(names: Names, w: World, i: nat)
    requires Decide(names, w, i).Decided?
    ensures IsSoundDecision(names, Decide(names, w, i).decision)
  {
    if w.answer(i).Reply? {
      AnswersInFull(names, w.answer(i).raw);
      if w.answer(i).raw.Object? && w.answer(i).raw.data.action.Is? {
        ActionNames(w.answer(i).raw.data.action.value, ToolCall);
      }
    }
  }

  /** However the model answers, every tool a run turns to may be asked for, and its final
      decision is sound. */
  lemma {:induction false} RunsAreSound(names: Names, w: World, dryRun: bool, x: Exec)
    ensures var r := RunFrom(names, w, dryRun, x);
      && IsSoundDecision(names, FinalDecision(r))
      && (r.Finished? ==> forall i :: 0 <= i < |r.hops| ==> MayAskFor(names, r.hops[i].tool))
  {
    var k := RunFollowsAnswers(names, w, dryRun, x);
    var r := RunFrom(names, w, dryRun, x);
    forall i: nat | i < 7 && Decide(names, w, i).Decided?
      ensures IsSoundDecision(names, Decide(names, w, i).decision)
    {
      DecidedIsSound(names, w, i);
    }
    if r.Finished? {
      forall i | 0 <= i < |r.hops| ensures MayAskFor(names, r.hops[i].tool) {
        assert AsksForTool(names, w, i);
      }
    }
  }

  /** A dry run decides as the real one does on the same answers. */
  lemma DryRunDecidesAlike(names: Names, w: World, x: Exec, y: Exec)
    ensures FinalDecision(RunFrom(names, w, true, x)) == FinalDecision(RunFrom(names, w, false, y))
  {
    var j := RunFollowsAnswers(names, w, true, x);
    var k := RunFollowsAnswers(names, w, false, y);
    DecidingAnswerIsUnique(names, w, RunFrom(names, w, true, x), RunFrom(names, w, false, y), j, k);
  }
}

/** Emission of an agent run's metrics (agent/agent.py) and reconstruction of the run from the
    flat keys (observability/traces.py). Times are in hundredths of a millisecond. */
module AgentTrace {
  import opened Basics
  import opened Metrics
  import opened AgentRun

  // ---------------------------------------------------------------- what a run emits

  /** What a run past the input guard times and counts, before the output guard. */
  datatype Log = Log(
    guardMs: int,
    retrievalMs: Option<int>,
    memoryMs: Option<int>,
    contextMs: int,
    llmMs: int,
    tokens: int,
    hops: seq<Hop>
  )

  function Optional(key: string, ms: Option<int>): seq<Entry> {
    if ms.Some? then [Entry(key, ms.value)] else []
  }

  /** Timers appear in the order in which they stop. */
  function Opening(l: Log): seq<Entry> {
    [Entry(GUARD_INPUT, l.guardMs)] + Optional(RETRIEVAL, l.retrievalMs) + Optional(MEMORY_READ, l.memoryMs)
    + [Entry(CONTEXT_BUILD, l.contextMs), Entry(LlmKey(0), l.llmMs)]
  }

  function HopTimings(hops: seq<Hop>): seq<Entry> {
    if hops == [] then []
    else
      HopTimings(Init(hops))
      + [Entry(ToolKey(Last(hops).tool, |hops| - 1), Last(hops).toolMs), Entry(LlmKey(|hops|), Last(hops).llmMs)]
  }

  function Timings(l: Log): seq<Entry> {
    Opening(l) + HopTimings(l.hops)
  }

  function AllTimings(l: Log, outputMs: int): seq<Entry> {
    Timings(l) + [Entry(GUARD_OUTPUT, outputMs)]
  }

  ghost predicate HasTokens(flat: map<string, int>, step: nat, tokens: int) {
    TokensKey(step) in flat && flat[TokensKey(step)] == tokens
  }

  /** The token counts recorded per model call. */
  ghost predicate HoldsTokens(flat: map<string, int>, l: Log) {
    && LLM_TOKENS in flat && flat[LLM_TOKENS] == l.tokens
    && (forall i :: 0 <= i < |l.hops| ==> HasTokens(flat, i + 1, l.hops[i].tokens))
  }

  ghost predicate Holds(flat: map<string, int>, l: Log) {
    HoldsTokens(flat, l) && AGENT_STEPS in flat && flat[AGENT_STEPS] == |l.hops|
  }

  // ---------------------------------------------------------------- its keys are distinct

  ghost predicate OpeningKey(l: Log, key: string) {
    || key == GUARD_INPUT
    || (key == RETRIEVAL && l.retrievalMs.Some?)
    || (key == MEMORY_READ && l.memoryMs.Some?)
    || key == CONTEXT_BUILD
  }

  ghost predicate LlmKeyUpTo(n: nat, key: string) {
    exists j: nat :: j <= n && key == LlmKey(j)
  }

  ghost predicate ToolKeyOf(hops: seq<Hop>, key: string) {
    exists j: nat :: j < |hops| && key == ToolKey(hops[j].tool, j)
  }

  ghost predicate KnownKey(l: Log, key: string) {
    OpeningKey(l, key) || LlmKeyUpTo(|l.hops|, key) || ToolKeyOf(l.hops, key)
  }

  function Shorter(l: Log): Log
    requires l.hops != []
  {
    l.(hops := Init(l.hops))
  }

  lemma OneMoreHop(l: Log)
    requires l.hops != []
    ensures var n, hop := |l.hops|, Last(l.hops);
      Timings(l) == Timings(Shorter(l)) + [Entry(ToolKey(hop.tool, n - 1), hop.toolMs)] + [Entry(LlmKey(n), hop.llmMs)]
  {
  }

  lemma KnownKeysGrow(l: Log, key: string)
    requires l.hops != [] && KnownKey(Shorter(l), key)
    ensures KnownKey(l, key)
  {
    if ToolKeyOf(Init(l.hops), key) {
      var j: nat :| j < |l.hops| - 1 && key == ToolKey(Init(l.hops)[j].tool, j);
      assert l.hops[j] == Init(l.hops)[j];
    }
  }

  lemma {:induction false} KeysAreKnown(l: Log)
    ensures forall e :: e in Timings(l) ==> KnownKey(l, e.key)
    decreases |l.hops|
  {
    if l.hops == [] {
      assert LlmKeyUpTo(0, LlmKey(0));
    } else {
      KeysAreKnown(Shorter(l));
      OneMoreHop(l);
      var n := |l.hops|;
      assert LlmKeyUpTo(n, LlmKey(n)) && ToolKeyOf(l.hops, ToolKey(l.hops[n - 1].tool, n - 1));
      forall e | e in Timings(l) ensures KnownKey(l, e.key) {
        if e in Timings(Shorter(l)) { KnownKeysGrow(l, e.key); }
      }
    }
  }

  lemma OpeningKeyStarts(l: Log, key: string)
    ensures OpeningKey(l, key) ==> key != [] && key[0] != 't' && key[0] != 'l' && key != GUARD_OUTPUT
  {
    OtherKeysStart();
  }

  lemma LlmKeyUpToStarts(n: nat, key: string)
    ensures LlmKeyUpTo(n, key) ==> key != [] && key[0] == 'l'
  {
    if LlmKeyUpTo(n, key) {
      var j: nat :| j <= n && key == LlmKey(j);
      LlmKeyStarts(j);
    }
  }

  lemma ToolKeyOfStarts(hops: seq<Hop>, key: string)
    ensures ToolKeyOf(hops, key) ==> key != [] && key[0] == 't'
  {
    if ToolKeyOf(hops, key) {
      var j: nat :| j < |hops| && key == ToolKey(hops[j].tool, j);
      ToolKeyStarts(hops[j].tool, j);
    }
  }

  /** A known key that belongs to a tool step is that step's key. */
  lemma {:induction false} KnownToolKey(l: Log, key: string, i: nat)
    requires KnownKey(l, key) && StartsWith(key, TOOL_PREFIX) && EndsWith(key, "_" + Decimal(i))
    ensures i < |l.hops| && key == ToolKey(l.hops[i].tool, i)
  {
    ToolPrefixStarts(key);
    OpeningKeyStarts(l, key);
    LlmKeyUpToStarts(|l.hops|, key);
    var j: nat :| j < |l.hops| && key == ToolKey(l.hops[j].tool, j);
    ToolKeyEnds(l.hops[j].tool, j, i);
  }

  lemma NextToolKeyIsNew(l: Log, tool: string)
    ensures !HasKey(Timings(l), ToolKey(tool, |l.hops|))
  {
    var n, key := |l.hops|, ToolKey(tool, |l.hops|);
    KeysAreKnown(l);
    ToolKeyStarts(tool, n);
    ToolKeyEnds(tool, n, n);
    if KnownKey(l, key) { KnownToolKey(l, key, n); }
    assert forall i :: 0 <= i < |Timings(l)| ==> Timings(l)[i] in Timings(l);
  }

  lemma NextLlmKeyIsNew(l: Log, tool: string, ms: int)
    ensures !HasKey(Timings(l) + [Entry(ToolKey(tool, |l.hops|), ms)], LlmKey(|l.hops| + 1))
  {
    var n, key := |l.hops|, LlmKey(|l.hops| + 1);
    KeysAreKnown(l);
    LlmKeyStarts(n + 1);
    ToolKeyStarts(tool, n);
    if KnownKey(l, key) { LlmKeyIsNotKnown(l, n + 1); }
    assert forall i :: 0 <= i < |Timings(l)| ==> Timings(l)[i] in Timings(l);
  }

  lemma LlmKeyIsNotKnown(l: Log, m: nat)
    requires m > |l.hops|
    ensures !KnownKey(l, LlmKey(m))
  {
    var key := LlmKey(m);
    LlmKeyStarts(m);
    OpeningKeyStarts(l, key);
    ToolKeyOfStarts(l.hops, key);
    forall j: nat | j <= |l.hops| ensures key != LlmKey(j) {
      DecimalsAfterPrefix(LLM_PREFIX, m, j);
    }
  }

  lemma OutputKeyIsNew(l: Log)
    ensures !HasKey(Timings(l), GUARD_OUTPUT)
  {
    KeysAreKnown(l);
    OtherKeysStart();
    OpeningKeyStarts(l, GUARD_OUTPUT);
    LlmKeyUpToStarts(|l.hops|, GUARD_OUTPUT);
    ToolKeyOfStarts(l.hops, GUARD_OUTPUT);
    assert forall i :: 0 <= i < |Timings(l)| ==> Timings(l)[i] in Timings(l);
  }

  lemma OpeningIsDistinct(l: Log)
    ensures DistinctKeys(Opening(l))
  {
    OtherKeysStart();
    LlmKeyStarts(0);
  }

  lemma AppendKeepsDistinct(d: seq<Entry>, e: Entry)
    requires DistinctKeys(d) && !HasKey(d, e.key)
    ensures DistinctKeys(d + [e])
  {
  }

  lemma {:induction false} TimingsAreDistinct(l: Log)
    ensures DistinctKeys(Timings(l))
    decreases |l.hops|
  {
    if l.hops == [] {
      OpeningIsDistinct(l);
      assert Timings(l) == Opening(l);
    } else {
      var s, n, hop := Shorter(l), |l.hops|, Last(l.hops);
      TimingsAreDistinct(s);
      OneMoreHop(l);
      NextToolKeyIsNew(s, hop.tool);
      NextLlmKeyIsNew(s, hop.tool, hop.toolMs);
      AppendKeepsDistinct(Timings(s), Entry(ToolKey(hop.tool, n - 1), hop.toolMs));
      AppendKeepsDistinct(Timings(s) + [Entry(ToolKey(hop.tool, n - 1), hop.toolMs)], Entry(LlmKey(n), hop.llmMs));
    }
  }

  lemma AllTimingsAreDistinct(l: Log, outputMs: int)
    ensures DistinctKeys(AllTimings(l, outputMs))
  {
    TimingsAreDistinct(l);
    OutputKeyIsNew(l);
    AppendKeepsDistinct(Timings(l), Entry(GUARD_OUTPUT, outputMs));
  }

  lemma {:induction false} HopIsTimed(l: Log, i: nat)
    requires i < |l.hops|
    ensures Entry(ToolKey(l.hops[i].tool, i), l.hops[i].toolMs) in Timings(l)
    ensures Entry(LlmKey(i + 1), l.hops[i].llmMs) in Timings(l)
    decreases |l.hops|
  {
    OneMoreHop(l);
    if i < |l.hops| - 1 {
      HopIsTimed(Shorter(l), i);
      assert Shorter(l).hops[i] == l.hops[i];
    }
  }

  // ---------------------------------------------------------------- the run, timed and counted

  /** What the run meets outside the loop. */
  datatype Setup = Setup(
    safe: bool,
    guard: Times,
    context: Times,
    retrieval: Option<Times>,
    ragDocs: int,
    memory: Option<Times>,
    output: Times,
    outputSafe: bool
  )

  function Elapsed(t: Times): int {
    t.stop - t.start
  }

  function OptionalElapsed(t: Option<Times>): Option<int> {
    if t.Some? then Some(Elapsed(t.value)) else None
  }

  function LogOf(s: Setup, w: World, hops: seq<Hop>): Log {
    Log(Elapsed(s.guard), OptionalElapsed(s.retrieval), OptionalElapsed(s.memory), Elapsed(s.context),
        Elapsed(w.llmTime(0)), Tokens(w.answer(0)), hops)
  }

  /** The log holds how long everything took, from its start to its stop, and the tokens of the
      first answer. */
  lemma LogRecordsTheRun(s: Setup, w: World, hops: seq<Hop>)
    ensures var l := LogOf(s, w, hops);
      && s.guard.start + l.guardMs == s.guard.stop && s.context.start + l.contextMs == s.context.stop
      && (s.retrieval.Some? <==> l.retrievalMs.Some?) && (s.memory.Some? <==> l.memoryMs.Some?)
      && (s.retrieval.Some? ==> s.retrieval.value.start + l.retrievalMs.value == s.retrieval.value.stop)
      && (s.memory.Some? ==> s.memory.value.start + l.memoryMs.value == s.memory.value.stop)
      && w.llmTime(0).start + l.llmMs == w.llmTime(0).stop
      && (w.answer(0).Reply? ==> l.tokens == w.answer(0).tokens) && l.hops == hops
  {
  }

  /** The collector holds exactly what the log says. */
  ghost predicate Records(m: MetricsCollector, l: Log)
    reads m
  {
    m.durations == Timings(l) && HoldsTokens(m.values, l) && AGENT_STEPS !in m.values && AGENT_STEPS !in m.counters
  }

  method Parse(validator: AgentValidator, raw: Raw) returns (parsed: Parsed)
    ensures parsed == ParseAndValidate(validator.Sets(), raw)
  {
    if raw.NotJson? { return Decided(FALLBACK); }
    if raw.NotAnObject? { return Raised; }
    var d := raw.data;
    var ok := validator.Validate(d);
    if !ok { return Decided(FALLBACK); }
    if d.tool.WrongType? || d.toolInput.WrongType? || !d.otherFieldsFit { return Raised; }
    var tool := if d.tool.Is? then d.tool.value else "";
    parsed := Decided(Decision(ParseAction(d.action.value).value, tool, d.confidence.value));
  }

  lemma AbsentFromBoth(d: seq<Entry>, key: string, ms: Option<int>, other: string)
    requires !HasKey(d, other) && key != other
    ensures !HasKey(d + Optional(key, ms), other)
  {
  }

  lemma RecordHop(values: map<string, int>, l: Log, hop: Hop)
    requires HoldsTokens(values, l)
    ensures HoldsTokens(values[TokensKey(|l.hops| + 1) := hop.tokens], l.(hops := l.hops + [hop]))
  {
    var n := |l.hops|;
    TokensKeyIsLong(n + 1);
    var more, longer := values[TokensKey(n + 1) := hop.tokens], l.hops + [hop];
    assert |LLM_TOKENS| != |TokensKey(n + 1)|;
    forall i | 0 <= i < |longer| ensures HasTokens(more, i + 1, longer[i].tokens) {
      DecimalsAfterPrefix(TOKENS_PREFIX, i + 1, n + 1);
      if i < n { assert HasTokens(values, i + 1, l.hops[i].tokens); }
    }
  }

  /** Time one tool call, or its simulation. */
  method UseTool(executor: ToolExecutor, m: MetricsCollector, w: World, dryRun: bool, tool: string, step: nat)
    requires !HasKey(m.durations, ToolKey(tool, step))
    modifies executor`callCount, executor`executed, m`starts, m`durations, m`counters
    ensures executor.State() == Used(old(executor.State()), tool, w, dryRun)
    ensures m.durations == old(m.durations) + [Entry(ToolKey(tool, step), Elapsed(w.toolTime(step)))]
    ensures AGENT_STEPS !in old(m.counters) ==> AGENT_STEPS !in m.counters
  {
    var key := ToolKey(tool, step);
    m.Start(key, w.toolTime(step).start);
    if !dryRun { var _ := executor.Execute(tool, w.outcome); }
    PutNew(m.durations, key, Elapsed(w.toolTime(step)));
    var _ := m.Stop(key, w.toolTime(step).stop);
    KeysApart();
    m.Increment(TOOL_CALLS, 1);
  }

  /** Time one model call and record its tokens; nothing of it is kept if the model fails. */
  method Ask(validator: AgentValidator, m: MetricsCollector, w: World, i: nat, tokensKey: string)
    returns (parsed: Parsed)
    requires !HasKey(m.durations, LlmKey(i))
    modifies m`starts, m`durations, m`values
    ensures parsed == Decide(validator.Sets(), w, i)
    ensures w.answer(i).Reply? ==>
      && m.durations == old(m.durations) + [Entry(LlmKey(i), Elapsed(w.llmTime(i)))]
      && m.values == old(m.values)[tokensKey := Tokens(w.answer(i))]
  {
    var key := LlmKey(i);
    m.Start(key, w.llmTime(i).start);
    var answer := w.answer(i);
    if answer.Unavailable? { return Raised; }
    PutNew(m.durations, key, Elapsed(w.llmTime(i)));
    var _ := m.Stop(key, w.llmTime(i).stop);
    m.Record(tokensKey, answer.tokens);
    parsed := Parse(validator, answer.raw);
  }

  lemma HopExtends(l: Log, hop: Hop)
    ensures var n := |l.hops|;
      Timings(l.(hops := l.hops + [hop]))
      == Timings(l) + [Entry(ToolKey(hop.tool, n), hop.toolMs)] + [Entry(LlmKey(n + 1), hop.llmMs)]
  {
    var more := l.(hops := l.hops + [hop]);
    OneMoreHop(more);
    assert Init(more.hops) == l.hops && Shorter(more) == l;
  }

  /** One pass of the reasoning loop: call the tool, ask the model again. */
  method TakeHop(executor: ToolExecutor, validator: AgentValidator, m: MetricsCollector, w: World, dryRun: bool,
                 tool: string, ghost l: Log, step: nat)
    returns (parsed: Parsed, hop: Hop)
    requires Records(m, l) && step == |l.hops|
    modifies executor`callCount, executor`executed, m
    ensures executor.State() == Used(old(executor.State()), tool, w, dryRun)
    ensures parsed == Decide(validator.Sets(), w, step + 1) && hop == HopAt(w, step, tool)
    ensures parsed.Decided? ==> Records(m, l.(hops := l.hops + [hop]))
  {
    hop := HopAt(w, step, tool);
    NextToolKeyIsNew(l, tool);
    UseTool(executor, m, w, dryRun, tool, step);
    NextLlmKeyIsNew(l, tool, hop.toolMs);
    parsed := Ask(validator, m, w, step + 1, TokensKey(step + 1));
    HopExtends(l, hop);
    RecordHop(old(m.values), l, hop);
    TokensKeyIsLong(step + 1);
  }

  lemma KeysApart()
    ensures AGENT_STEPS != TOOL_CALLS && AGENT_STEPS != STEP_LIMIT_HIT && AGENT_STEPS != OUTPUT_VIOLATION
    ensures AGENT_STEPS != RAG_DOCS && AGENT_STEPS != LLM_TOKENS && LLM_TOKENS != RAG_DOCS
    ensures |LLM_TOKENS| <= 16 && |AGENT_STEPS| <= 16
  {
    assert AGENT_STEPS[0] == 'a' && TOOL_CALLS[0] == 't' && STEP_LIMIT_HIT[0] == 's';
    assert OUTPUT_VIOLATION[0] == 'o' && RAG_DOCS[0] == 'r' && LLM_TOKENS[0] == 'l';
  }

  method NoteStepLimit(m: MetricsCollector, ghost l: Log)
    requires Records(m, l)
    modifies m`counters
    ensures Records(m, l)
  {
    KeysApart();
    m.Increment(STEP_LIMIT_HIT, 1);
  }

  /** How a pass of the loop ends. */
  datatype Passed = GoOn(next: Decision, hop: Hop) | StepLimit | Gone

  /** The loop's remaining run after a pass that ended like this. */
  ghost predicate Follows(names: Names, w: World, dryRun: bool, run: Run, x: Exec, hops: seq<Hop>, pass: Passed) {
    match pass
    case GoOn(next, hop) => run == Loop(names, w, dryRun, x, next, hops + [hop])
    case StepLimit => run == Finished(x, |hops| + 1, FALLBACK, hops, true)
    case Gone => run.Broken? && run.x == x
  }

  /** The body of the loop. */
  method Pass(executor: ToolExecutor, validator: AgentValidator, m: MetricsCollector, w: World, dryRun: bool,
              decision: Decision, ghost l: Log, hops: seq<Hop>)
    returns (pass: Passed)
    requires Records(m, l) && l.hops == hops && WantsTool(decision)
    modifies executor`callCount, executor`executed, m
    ensures var run := Loop(validator.Sets(), w, dryRun, old(executor.State()), decision, hops);
      Follows(validator.Sets(), w, dryRun, run, executor.State(), hops, pass)
    ensures pass.GoOn? ==> |hops| < MAX_AGENT_STEPS && Records(m, l.(hops := hops + [pass.hop]))
    ensures pass.StepLimit? ==> Records(m, l)
  {
    LoopGoesOn(validator.Sets(), w, dryRun, executor.State(), decision, hops);
    if |hops| >= MAX_AGENT_STEPS {
      NoteStepLimit(m, l);
      return StepLimit;
    }
    var parsed, hop := TakeHop(executor, validator, m, w, dryRun, decision.tool, l, |hops|);
    pass := if parsed.Raised? then Gone else GoOn(parsed.decision, hop);
  }

  /** The reasoning loop. */
  method Reason(executor: ToolExecutor, validator: AgentValidator, m: MetricsCollector, w: World, dryRun: bool,
                first: Decision, ghost l: Log)
    returns (result: Parsed, hops: seq<Hop>)
    requires Records(m, l) && l.hops == []
    modifies executor`callCount, executor`executed, m
    ensures var r := Loop(validator.Sets(), w, dryRun, old(executor.State()), first, []);
      && executor.State() == r.x
      && (result.Decided? <==> r.Finished?)
      && (r.Finished? ==> result.decision == r.decision && hops == r.hops && Records(m, l.(hops := hops)))
  {
    ghost var names := validator.Sets();
    ghost var whole := Loop(names, w, dryRun, executor.State(), first, []);
    var decision := first;
    hops := [];
    while WantsTool(decision)
      invariant Records(m, l.(hops := hops))
      invariant Loop(names, w, dryRun, executor.State(), decision, hops) == whole
      decreases MAX_AGENT_STEPS - |hops|
    {
      var pass := Pass(executor, validator, m, w, dryRun, decision, l.(hops := hops), hops);
      if pass.Gone? { return Raised, hops; }
      if pass.StepLimit? { return Decided(FALLBACK), hops; }
      decision := pass.next;
      hops := hops + [pass.hop];
    }
    result := Decided(decision);
  }

  method TimeOptional(m: MetricsCollector, key: string, t: Option<Times>)
    requires !HasKey(m.durations, key)
    modifies m`starts, m`durations
    ensures m.durations == old(m.durations) + Optional(key, OptionalElapsed(t))
    ensures forall other :: other != key && other in old(m.starts) ==>
      other in m.starts && m.starts[other] == old(m.starts)[other]
  {
    if t.Some? {
      PutNew(m.durations, key, Elapsed(t.value));
      m.Time(key, t.value.start, t.value.stop);
    }
  }

  /** Timers of the context; each key is still unused. */
  method BuildContext(m: MetricsCollector, s: Setup, context: string, retrieval: string, memory: string)
    requires m.values == map[] && context != retrieval && context != memory && retrieval != memory
    requires !HasKey(m.durations, context) && !HasKey(m.durations, retrieval) && !HasKey(m.durations, memory)
    modifies m`starts, m`durations, m`values
    ensures m.durations == old(m.durations) + Optional(retrieval, OptionalElapsed(s.retrieval))
                           + Optional(memory, OptionalElapsed(s.memory)) + [Entry(context, Elapsed(s.context))]
    ensures m.values == if s.retrieval.Some? then map[RAG_DOCS := s.ragDocs] else map[]
  {
    ghost var d := m.durations;
    m.Start(context, s.context.start);
    TimeOptional(m, retrieval, s.retrieval);
    if s.retrieval.Some? { m.Record(RAG_DOCS, s.ragDocs); }
    AbsentFromBoth(d, retrieval, OptionalElapsed(s.retrieval), memory);
    AbsentFromBoth(d, retrieval, OptionalElapsed(s.retrieval), context);
    ghost var e := m.durations;
    TimeOptional(m, memory, s.memory);
    AbsentFromBoth(e, memory, OptionalElapsed(s.memory), context);
    PutNew(m.durations, context, Elapsed(s.context));
    var _ := m.Stop(context, s.context.stop);
  }

  lemma FirstRecord(s: Setup, w: World, values: map<string, int>)
    requires values == if s.retrieval.Some? then map[RAG_DOCS := s.ragDocs] else map[]
    ensures HoldsTokens(values[LLM_TOKENS := Tokens(w.answer(0))], LogOf(s, w, []))
    ensures AGENT_STEPS !in values[LLM_TOKENS := Tokens(w.answer(0))]
  {
    KeysApart();
  }

  /** The output guard and the emission. */
  method Finish(m: MetricsCollector, s: Setup, steps: nat, ghost l: Log) returns (payload: Payload)
    requires Records(m, l) && steps == |l.hops|
    modifies m
    ensures Emitted(payload, l, Elapsed(s.output))
  {
    m.Time(GUARD_OUTPUT, s.output.start, s.output.stop);
    OutputKeyIsNew(l);
    PutNew(Timings(l), GUARD_OUTPUT, Elapsed(s.output));
    KeysApart();
    if !s.outputSafe { m.Increment(OUTPUT_VIOLATION, 1); }
    payload := m.Emit(map[AGENT_STEPS := steps]);
    EmitHolds(map[AGENT_STEPS := steps], m.counters, m.values, l);
  }

  /** Everything before the reasoning loop; the collector starts empty. */
  method FirstDecision(validator: AgentValidator, m: MetricsCollector, w: World, s: Setup) returns (first: Parsed)
    requires m.durations == [] && m.values == map[] && m.counters == map[]
    modifies m`starts, m`durations, m`values
    ensures first == Decide(validator.Sets(), w, 0)
    ensures first.Decided? ==> Records(m, LogOf(s, w, []))
  {
    PutNew([], GUARD_INPUT, Elapsed(s.guard));
    m.Time(GUARD_INPUT, s.guard.start, s.guard.stop);
    ContextKeysAreNew(Elapsed(s.guard));
    BuildContext(m, s, CONTEXT_BUILD, RETRIEVAL, MEMORY_READ);
    FirstRecord(s, w, m.values);
    FirstLlmKeyIsNew(LogOf(s, w, []));
    first := Ask(validator, m, w, 0, LLM_TOKENS);
    OpeningIsAll(LogOf(s, w, []));
  }

  lemma ContextKeysAreNew(ms: int)
    ensures CONTEXT_BUILD != RETRIEVAL && CONTEXT_BUILD != MEMORY_READ && RETRIEVAL != MEMORY_READ
    ensures var d := [Entry(GUARD_INPUT, ms)];
      !HasKey(d, CONTEXT_BUILD) && !HasKey(d, RETRIEVAL) && !HasKey(d, MEMORY_READ)
  {
    OtherKeysStart();
  }

  /** The timings when the first model call starts. */
  function BeforeFirstCall(l: Log): seq<Entry> {
    [Entry(GUARD_INPUT, l.guardMs)] + Optional(RETRIEVAL, l.retrievalMs) + Optional(MEMORY_READ, l.memoryMs)
    + [Entry(CONTEXT_BUILD, l.contextMs)]
  }

  lemma FirstLlmKeyIsNew(l: Log)
    ensures !HasKey(BeforeFirstCall(l), LlmKey(0))
  {
    OtherKeysStart();
    LlmKeyStarts(0);
  }

  lemma OpeningIsAll(l: Log)
    requires l.hops == []
    ensures Timings(l) == BeforeFirstCall(l) + [Entry(LlmKey(0), l.llmMs)]
  {
  }

  /** run: every exception becomes the fallback, and only a finished run carries metrics. */
  method Run(executor: ToolExecutor, validator: AgentValidator, w: World, s: Setup, dryRun: bool)
    returns (decision: Decision, payload: Option<Payload>)
    modifies executor`callCount, executor`executed
    ensures !s.safe ==>
      decision == FALLBACK && payload == None && executor.State() == old(executor.State()).(callCount := 0)
    ensures s.safe ==>
      var r := RunFrom(validator.Sets(), w, dryRun, old(executor.State()).(callCount := 0));
      && executor.State() == r.x && decision == FinalDecision(r)
      && (payload.Some? <==> r.Finished?)
      && (r.Finished? ==> Emitted(payload.value, LogOf(s, w, r.hops), Elapsed(s.output)))
  {
    executor.ResetCallCount();
    if !s.safe { return FALLBACK, None; }
    var m := new MetricsCollector();
    var first := FirstDecision(validator, m, w, s);
    if first.Raised? { return FALLBACK, None; }
    var result, hops := Reason(executor, validator, m, w, dryRun, first.decision, LogOf(s, w, []));
    if result.Raised? { return FALLBACK, None; }
    decision := result.decision;
    assert LogOf(s, w, []).(hops := hops) == LogOf(s, w, hops);
    var emitted := Finish(m, s, |hops|, LogOf(s, w, hops));
    payload := Some(emitted);
  }

  ghost predicate Emitted(p: Payload, l: Log, outputMs: int) {
    p.timings == AllTimings(l, outputMs) && Holds(p.flat, l)
  }

  lemma EmitHolds(context: map<string, int>, counters: map<string, int>, values: map<string, int>, l: Log)
    requires HoldsTokens(values, l) && AGENT_STEPS !in values && AGENT_STEPS !in counters
    requires context == map[AGENT_STEPS := |l.hops|]
    ensures Holds(context + counters + values, l)
  {
    var flat := context + counters + values;
    forall i | 0 <= i < |l.hops| ensures HasTokens(flat, i + 1, l.hops[i].tokens) {
      assert HasTokens(values, i + 1, l.hops[i].tokens);
    }
  }

  // ---------------------------------------------------------------- reconstruction

  datatype StepType = Guard | Retrieval | LlmDecision | ToolCallStep | LlmFollowup

  datatype TraceStep = TraceStep(
    number: nat, kind: StepType, latency: int, tool: string, tokens: int, prompt: int, completion: int)

  /** int(total * 0.7), which truncates towards zero. */
  function PromptTokens(total: int): int {
    if total >= 0 then total * 7 / 10 else -(-total * 7 / 10)
  }

  /** Seven tenths, with the fraction cut off towards zero. */
  lemma PromptIsSevenTenths(total: int)
    ensures total >= 0 ==> 10 * PromptTokens(total) <= 7 * total < 10 * (PromptTokens(total) + 1)
    ensures PromptTokens(-total) == -PromptTokens(total)
  {
  }

  function Plain(number: nat, kind: StepType, latency: int): TraceStep {
    TraceStep(number, kind, latency, "", 0, 0, 0)
  }

  function LlmStep(number: nat, kind: StepType, latency: int, tokens: int): TraceStep {
    TraceStep(number, kind, latency, "", tokens, PromptTokens(tokens), tokens - PromptTokens(tokens))
  }

  function OrZero(v: Option<int>): int {
    if v.Some? then v.value else 0
  }

  function Flat(p: Payload, key: string): int {
    if key in p.flat then p.flat[key] else 0
  }

  /** The first key of a tool with this step at its end. */
  function FindToolKey(timings: seq<Entry>, step: nat): Option<string> {
    if timings == [] then None
    else if StartsWith(timings[0].key, TOOL_PREFIX) && EndsWith(timings[0].key, "_" + Decimal(step)) then
      Some(timings[0].key)
    else FindToolKey(timings[1..], step)
  }

  /** Python's rsplit("_", 1)[0] when there is an underscore, else the whole text. */
  function BeforeLastUnderscore(s: string): Option<string> {
    if s == [] then None
    else if Last(s) == '_' then Some(Init(s))
    else BeforeLastUnderscore(Init(s))
  }

  function ParseToolName(key: string): string {
    var rest := if |key| < |TOOL_PREFIX| then "" else key[|TOOL_PREFIX|..];
    var front := BeforeLastUnderscore(rest);
    if front.Some? then front.value else rest
  }

  function GuardInput(p: Payload): seq<TraceStep> {
    var ms := Get(p.timings, GUARD_INPUT);
    if ms.Some? then [Plain(0, Guard, ms.value)] else []
  }

  /** Zero latencies count as missing. */
  function RetrievalStep(p: Payload, number: nat): seq<TraceStep> {
    var built := OrZero(Get(p.timings, CONTEXT_BUILD));
    var retrieval := if built != 0 then built else OrZero(Get(p.timings, RETRIEVAL));
    var memory := OrZero(Get(p.timings, MEMORY_READ));
    if retrieval != 0 || memory != 0 then [Plain(number, Retrieval, retrieval + memory)] else []
  }

  function Head(p: Payload): seq<TraceStep> {
    var guard := GuardInput(p);
    var context := guard + RetrievalStep(p, |guard|);
    context + [LlmStep(|context|, LlmDecision, OrZero(Get(p.timings, LlmKey(0))), Flat(p, LLM_TOKENS))]
  }

  /** A payload that lacks the first model call's time or tokens shows none. */
  lemma MissingCountsAsNothing(p: Payload)
    ensures var first := Last(Head(p));
      && first.kind == LlmDecision && first.number == |Head(p)| - 1
      && (Get(p.timings, LlmKey(0)) == None ==> first.latency == 0)
      && ("llm_tokens" !in p.flat ==> first.tokens == first.prompt == first.completion == 0)
  {
  }

  /** The tool call of an agent step, counted from zero. */
  function ToolStepAt(p: Payload, step: nat, number: nat): seq<TraceStep> {
    var key := FindToolKey(p.timings, step);
    if key.Some? then
      [TraceStep(number, ToolCallStep, OrZero(Get(p.timings, key.value)), ParseToolName(key.value), 0, 0, 0)]
    else []
  }

  function FollowupAt(p: Payload, i: nat, number: nat): seq<TraceStep> {
    var ms := Get(p.timings, LlmKey(i));
    if ms.Some? then [LlmStep(number, LlmFollowup, ms.value, Flat(p, TokensKey(i)))] else []
  }

  /** The steps of one agent step with a given first number. */
  type Reading = (nat, nat) -> seq<TraceStep>

  function ToolSteps(p: Payload): Reading {
    (step: nat, number: nat) => ToolStepAt(p, step, number)
  }

  function Followups(p: Payload): Reading {
    (i: nat, number: nat) => FollowupAt(p, i, number)
  }

  /** Pass k of the loop: the tool call of step k - 1, then the model call after it. */
  function PassSteps(tool: Reading, followup: Reading, before: seq<TraceStep>, k: nat): seq<TraceStep>
    requires k > 0
  {
    var withTool := before + tool(k - 1, |before|);
    withTool + followup(k, |withTool|)
  }

  function StepsThrough(tool: Reading, followup: Reading, head: seq<TraceStep>, k: nat): seq<TraceStep> {
    if k == 0 then head else PassSteps(tool, followup, StepsThrough(tool, followup, head, k - 1), k)
  }

  function AgentSteps(p: Payload): nat {
    if Flat(p, AGENT_STEPS) < 0 then 0 else Flat(p, AGENT_STEPS)
  }

  function StepsOf(p: Payload): seq<TraceStep> {
    var steps := StepsThrough(ToolSteps(p), Followups(p), Head(p), AgentSteps(p));
    var ms := Get(p.timings, GUARD_OUTPUT);
    steps + (if ms.Some? then [Plain(|steps|, Guard, ms.value)] else [])
  }

  /** A payload without agent steps shows its head and the output guard only. */
  lemma {:induction false} NoStepsNoCalls(p: Payload)
    requires AGENT_STEPS in p.flat ==> p.flat[AGENT_STEPS] <= 0
    ensures Head(p) <= StepsOf(p) && |StepsOf(p)| == |Head(p)| + (if Get(p.timings, GUARD_OUTPUT).Some? then 1 else 0)
  {
  }

  method AddHop(p: Payload, i: nat, before: seq<TraceStep>, stepNum: nat) returns (steps: seq<TraceStep>, next: nat)
    requires i > 0 && stepNum == |before|
    ensures steps == PassSteps(ToolSteps(p), Followups(p), before, i) && next == |steps|
  {
    steps, next := before, stepNum;
    var toolKey := FindToolKey(p.timings, i - 1);
    if toolKey.Some? {
      var latency := OrZero(Get(p.timings, toolKey.value));
      steps := steps + [TraceStep(next, ToolCallStep, latency, ParseToolName(toolKey.value), 0, 0, 0)];
      next := next + 1;
    }
    var llm := Get(p.timings, LlmKey(i));
    if llm.Some? {
      steps := steps + [LlmStep(next, LlmFollowup, llm.value, Flat(p, TokensKey(i)))];
      next := next + 1;
    }
  }

  method BuildHead(p: Payload) returns (steps: seq<TraceStep>)
    ensures steps == Head(p)
  {
    steps := GuardInput(p);
    steps := steps + RetrievalStep(p, |steps|);
    steps := steps + [LlmStep(|steps|, LlmDecision, OrZero(Get(p.timings, LlmKey(0))), Flat(p, LLM_TOKENS))];
  }

  method BuildPasses(p: Payload, head: seq<TraceStep>, passes: nat) returns (steps: seq<TraceStep>)
    ensures steps == StepsThrough(ToolSteps(p), Followups(p), head, passes)
  {
    steps := head;
    var stepNum := |steps|;
    ghost var tool, followup := ToolSteps(p), Followups(p);
    for i := 1 to passes + 1
      invariant steps == StepsThrough(tool, followup, head, i - 1) && stepNum == |steps|
    {
      steps, stepNum := AddHop(p, i, steps, stepNum);
    }
  }

  method BuildSteps(p: Payload) returns (steps: seq<TraceStep>)
    ensures steps == StepsOf(p)
  {
    var head := BuildHead(p);
    steps := BuildPasses(p, head, AgentSteps(p));
    var out := Get(p.timings, GUARD_OUTPUT);
    if out.Some? { steps := steps + [Plain(|steps|, Guard, out.value)]; }
  }

  // ---------------------------------------------------------------- reconstruction undoes emission

  lemma {:induction false} CutsAtLastUnderscore(a: string, b: string)
    requires '_' !in b
    ensures BeforeLastUnderscore(a + ['_'] + b) == Some(a)
    decreases |b|
  {
    var s := a + ['_'] + b;
    if b == [] {
      assert s == a + ['_'] && Init(s) == a;
    } else {
      assert Last(s) == Last(b) && Last(b) in b && Init(s) == a + ['_'] + Init(b);
      CutsAtLastUnderscore(a, Init(b));
    }
  }

  /** The parser gives back the name that the printer was given, underscores and all. */
  lemma ParsingUndoesPrinting(tool: string, i: nat)
    ensures ParseToolName(ToolKey(tool, i)) == tool
  {
    ToolKeyStarts(tool, i);
    DecimalHasNoUnderscore(i);
    CutsAtLastUnderscore(tool, Decimal(i));
  }

  predicate IsToolKeyOf(key: string, step: nat) {
    StartsWith(key, TOOL_PREFIX) && EndsWith(key, "_" + Decimal(step))
  }

  lemma {:induction false} FindsTheOnlyKey(timings: seq<Entry>, step: nat, key: string)
    requires IsToolKeyOf(key, step) && HasKey(timings, key)
    requires forall e :: e in timings && IsToolKeyOf(e.key, step) ==> e.key == key
    ensures FindToolKey(timings, step) == Some(key)
  {
    if !IsToolKeyOf(timings[0].key, step) {
      var i :| 0 <= i < |timings| && timings[i].key == key;
      assert timings[1..][i - 1].key == key;
      FindsTheOnlyKey(timings[1..], step, key);
    }
  }

  lemma {:induction false} FindsToolKey(l: Log, outputMs: int, i: nat)
    requires i < |l.hops|
    ensures FindToolKey(AllTimings(l, outputMs), i) == Some(ToolKey(l.hops[i].tool, i))
  {
    var all, tool := AllTimings(l, outputMs), l.hops[i].tool;
    var key := ToolKey(tool, i);
    ToolKeyStarts(tool, i);
    ToolKeyEnds(tool, i, i);
    HopIsTimed(l, i);
    var at: nat :| at < |Timings(l)| && Timings(l)[at] == Entry(key, l.hops[i].toolMs);
    assert all[at].key == key;
    forall e | e in all && IsToolKeyOf(e.key, i) ensures e.key == key {
      ToolPrefixStarts(e.key);
      OtherKeysStart();
      if e in Timings(l) {
        KeysAreKnown(l);
        KnownToolKey(l, e.key, i);
      }
    }
    FindsTheOnlyKey(all, i, key);
  }

  /** The context build already covers the memory read, whose time is added once more. */
  function ExpectedRetrieval(l: Log): seq<TraceStep> {
    var retrieval := if l.contextMs != 0 then l.contextMs else OrZero(l.retrievalMs);
    var memory := OrZero(l.memoryMs);
    if retrieval != 0 || memory != 0 then [Plain(1, Retrieval, retrieval + memory)] else []
  }

  function ExpectedHead(l: Log): seq<TraceStep> {
    var context := [Plain(0, Guard, l.guardMs)] + ExpectedRetrieval(l);
    context + [LlmStep(|context|, LlmDecision, l.llmMs, l.tokens)]
  }

  function ToolStep(number: nat, hop: Hop): TraceStep {
    TraceStep(number, ToolCallStep, hop.toolMs, hop.tool, 0, 0, 0)
  }

  function FollowupStep(number: nat, hop: Hop): TraceStep {
    LlmStep(number, LlmFollowup, hop.llmMs, hop.tokens)
  }

  /** The run as it happened: a tool call and a model call for every hop. */
  function ExpectedThrough(head: seq<TraceStep>, hops: seq<Hop>): seq<TraceStep> {
    if hops == [] then head
    else
      var before := ExpectedThrough(head, Init(hops));
      before + [ToolStep(|before|, Last(hops))] + [FollowupStep(|before| + 1, Last(hops))]
  }

  function Expected(l: Log, outputMs: int): seq<TraceStep> {
    var steps := ExpectedThrough(ExpectedHead(l), l.hops);
    steps + [Plain(|steps|, Guard, outputMs)]
  }

  lemma OpeningIsTimed(l: Log, outputMs: int)
    ensures var all := AllTimings(l, outputMs);
      && Get(all, GUARD_INPUT) == Some(l.guardMs) && Get(all, CONTEXT_BUILD) == Some(l.contextMs)
      && Get(all, LlmKey(0)) == Some(l.llmMs) && Get(all, GUARD_OUTPUT) == Some(outputMs)
  {
    var all := AllTimings(l, outputMs);
    AllTimingsAreDistinct(l, outputMs);
    GetMember(all, Entry(GUARD_INPUT, l.guardMs));
    GetMember(all, Entry(CONTEXT_BUILD, l.contextMs));
    GetMember(all, Entry(LlmKey(0), l.llmMs));
    GetMember(all, Entry(GUARD_OUTPUT, outputMs));
  }

  lemma OptionIsTimed(l: Log, outputMs: int, key: string, ms: Option<int>)
    requires (key == RETRIEVAL && ms == l.retrievalMs) || (key == MEMORY_READ && ms == l.memoryMs)
    ensures Get(AllTimings(l, outputMs), key) == ms
  {
    var all := AllTimings(l, outputMs);
    OtherKeysStart();
    if ms.Some? {
      AllTimingsAreDistinct(l, outputMs);
      assert Optional(key, ms)[0] == Entry(key, ms.value);
      GetMember(all, Entry(key, ms.value));
    } else {
      KeysAreKnown(l);
      LlmKeyUpToStarts(|l.hops|, key);
      ToolKeyOfStarts(l.hops, key);
      assert !KnownKey(l, key);
      assert forall i :: 0 <= i < |Timings(l)| ==> all[i] in Timings(l);
      GetAbsent(all, key);
    }
  }

  /** The single timers of the run can be read back. */
  ghost predicate TimersFound(timings: seq<Entry>, l: Log, outputMs: int) {
    && Get(timings, GUARD_INPUT) == Some(l.guardMs) && Get(timings, CONTEXT_BUILD) == Some(l.contextMs)
    && Get(timings, RETRIEVAL) == l.retrievalMs && Get(timings, MEMORY_READ) == l.memoryMs
    && Get(timings, LlmKey(0)) == Some(l.llmMs) && Get(timings, GUARD_OUTPUT) == Some(outputMs)
  }

  lemma TimersAreFound(p: Payload, l: Log, outputMs: int)
    requires Emitted(p, l, outputMs)
    ensures TimersFound(p.timings, l, outputMs)
  {
    OpeningIsTimed(l, outputMs);
    OptionIsTimed(l, outputMs, RETRIEVAL, l.retrievalMs);
    OptionIsTimed(l, outputMs, MEMORY_READ, l.memoryMs);
  }

  lemma HeadIsRecovered(p: Payload, l: Log, outputMs: int)
    requires TimersFound(p.timings, l, outputMs) && Flat(p, LLM_TOKENS) == l.tokens
    ensures Head(p) == ExpectedHead(l)
  {
    assert GuardInput(p) == [Plain(0, Guard, l.guardMs)];
    assert RetrievalStep(p, 1) == ExpectedRetrieval(l);
  }

  lemma ToolIsRecovered(p: Payload, l: Log, outputMs: int, k: nat, number: nat)
    requires Emitted(p, l, outputMs) && 0 < k <= |l.hops|
    ensures var hop := l.hops[k - 1];
      ToolStepAt(p, k - 1, number) == [ToolStep(number, hop)]
  {
    var hop, all := l.hops[k - 1], AllTimings(l, outputMs);
    AllTimingsAreDistinct(l, outputMs);
    FindsToolKey(l, outputMs, k - 1);
    ParsingUndoesPrinting(hop.tool, k - 1);
    HopIsTimed(l, k - 1);
    GetMember(all, Entry(ToolKey(hop.tool, k - 1), hop.toolMs));
  }

  lemma FollowupIsRecovered(p: Payload, l: Log, outputMs: int, k: nat, number: nat)
    requires Emitted(p, l, outputMs) && 0 < k <= |l.hops|
    ensures var hop := l.hops[k - 1];
      FollowupAt(p, k, number) == [FollowupStep(number, hop)]
  {
    var hop, all := l.hops[k - 1], AllTimings(l, outputMs);
    AllTimingsAreDistinct(l, outputMs);
    HopIsTimed(l, k - 1);
    GetMember(all, Entry(LlmKey(k), hop.llmMs));
    assert HasTokens(p.flat, k - 1 + 1, hop.tokens);
  }

  /** Pass k + 1 of the loop finds the k-th hop. */
  ghost predicate Recovers(tool: Reading, followup: Reading, hops: seq<Hop>, k: nat, number: nat)
    requires k < |hops|
  {
    && tool(k, number) == [ToolStep(number, hops[k])]
    && followup(k + 1, number + 1) == [FollowupStep(number + 1, hops[k])]
  }

  ghost predicate RecoversAll(tool: Reading, followup: Reading, hops: seq<Hop>) {
    forall k: nat, number: nat :: k < |hops| ==> Recovers(tool, followup, hops, k, number)
  }

  lemma EmittedRecoversAll(p: Payload, l: Log, outputMs: int)
    requires Emitted(p, l, outputMs)
    ensures RecoversAll(ToolSteps(p), Followups(p), l.hops)
  {
    forall k: nat, number: nat | k < |l.hops| ensures Recovers(ToolSteps(p), Followups(p), l.hops, k, number) {
      ToolIsRecovered(p, l, outputMs, k + 1, number);
      FollowupIsRecovered(p, l, outputMs, k + 1, number + 1);
    }
  }

  lemma {:induction false} HopsAreRecovered(tool: Reading, followup: Reading, hops: seq<Hop>, head: seq<TraceStep>,
                                            k: nat)
    requires RecoversAll(tool, followup, hops) && k <= |hops|
    ensures StepsThrough(tool, followup, head, k) == ExpectedThrough(head, hops[..k])
  {
    if k > 0 {
      var before := ExpectedThrough(head, hops[..k - 1]);
      HopsAreRecovered(tool, followup, hops, head, k - 1);
      assert Recovers(tool, followup, hops, k - 1, |before|);
      assert |before + tool(k - 1, |before|)| == |before| + 1;
      assert Init(hops[..k]) == hops[..k - 1] && Last(hops[..k]) == hops[k - 1];
    }
  }

  lemma StepsAreRecovered(p: Payload, l: Log, outputMs: int)
    requires TimersFound(p.timings, l, outputMs) && RecoversAll(ToolSteps(p), Followups(p), l.hops) && Holds(p.flat, l)
    ensures StepsOf(p) == Expected(l, outputMs)
  {
    HeadIsRecovered(p, l, outputMs);
    HopsAreRecovered(ToolSteps(p), Followups(p), l.hops, Head(p), |l.hops|);
    assert l.hops[..|l.hops|] == l.hops;
  }

  /** From the flat keys the tracer recovers the run exactly. */
  lemma TraceUndoesEmission(p: Payload, l: Log, outputMs: int)
    requires Emitted(p, l, outputMs)
    ensures StepsOf(p) == Expected(l, outputMs)
  {
    TimersAreFound(p, l, outputMs);
    EmittedRecoversAll(p, l, outputMs);
    StepsAreRecovered(p, l, outputMs);
  }

  // ---------------------------------------------------------------- what the trace says

  function ToolNames(steps: seq<TraceStep>): seq<string> {
    if steps == [] then []
    else ToolNames(Init(steps)) + (if Last(steps).kind == ToolCallStep then [Last(steps).tool] else [])
  }

  predicate IsLlm(t: TraceStep) {
    t.kind == LlmDecision || t.kind == LlmFollowup
  }

  function LlmTokens(steps: seq<TraceStep>): seq<int> {
    if steps == [] then []
    else LlmTokens(Init(steps)) + (if IsLlm(Last(steps)) then [Last(steps).tokens] else [])
  }

  function Tools(hops: seq<Hop>): seq<string> {
    if hops == [] then [] else Tools(Init(hops)) + [Last(hops).tool]
  }

  function HopTokens(hops: seq<Hop>): seq<int> {
    if hops == [] then [] else HopTokens(Init(hops)) + [Last(hops).tokens]
  }

  lemma {:induction false} AppendStep(steps: seq<TraceStep>, t: TraceStep)
    ensures ToolNames(steps + [t]) == ToolNames(steps) + (if t.kind == ToolCallStep then [t.tool] else [])
    ensures LlmTokens(steps + [t]) == LlmTokens(steps) + (if IsLlm(t) then [t.tokens] else [])
  {
    assert Init(steps + [t]) == steps;
  }

  lemma {:induction false} ReadsThrough(head: seq<TraceStep>, hops: seq<Hop>)
    ensures ToolNames(ExpectedThrough(head, hops)) == ToolNames(head) + Tools(hops)
    ensures LlmTokens(ExpectedThrough(head, hops)) == LlmTokens(head) + HopTokens(hops)
  {
    if hops != [] {
      ReadsThrough(head, Init(hops));
      var before := ExpectedThrough(head, Init(hops));
      var t := ToolStep(|before|, Last(hops));
      AppendStep(before, t);
      AppendStep(before + [t], FollowupStep(|before| + 1, Last(hops)));
    }
  }

  function Sum(xs: seq<int>): int {
    if xs == [] then 0 else Sum(Init(xs)) + Last(xs)
  }

  /** The totals of build: sums over the model calls of the trace. */
  function TokensTotal(steps: seq<TraceStep>): int {
    Sum(LlmTokens(steps))
  }

  function PromptAndCompletion(steps: seq<TraceStep>): (int, int) {
    if steps == [] then (0, 0)
    else
      var (p, c) := PromptAndCompletion(Init(steps));
      if IsLlm(Last(steps)) then (p + Last(steps).prompt, c + Last(steps).completion) else (p, c)
  }

  /** Tokens of model calls are split, and nothing else uses any. */
  predicate Splits(t: TraceStep) {
    if IsLlm(t) then t.prompt + t.completion == t.tokens else t.tokens == t.prompt == t.completion == 0
  }

  predicate SplitRight(steps: seq<TraceStep>) {
    forall i :: 0 <= i < |steps| ==> Splits(steps[i])
  }

  lemma {:induction false} SplitAddsUp(steps: seq<TraceStep>)
    requires SplitRight(steps)
    ensures var (p, c) := PromptAndCompletion(steps);
      p + c == TokensTotal(steps)
  {
    if steps != [] {
      SplitAddsUp(Init(steps));
      assert steps[|steps| - 1] == Last(steps);
      var before := LlmTokens(Init(steps));
      assert before + [] == before && Init(before + [Last(steps).tokens]) == before;
    }
  }

  predicate Numbered(steps: seq<TraceStep>) {
    forall i :: 0 <= i < |steps| ==> steps[i].number == i
  }

  predicate WellFormed(steps: seq<TraceStep>) {
    Numbered(steps) && SplitRight(steps)
  }

  lemma StepKeepsWellFormed(steps: seq<TraceStep>, t: TraceStep)
    requires WellFormed(steps) && t.number == |steps| && Splits(t)
    ensures WellFormed(steps + [t])
  {
  }

  lemma {:induction false} OneMoreStep(steps: seq<TraceStep>, t: TraceStep)
    requires WellFormed(steps) && t.number == |steps| && Splits(t)
    requires t.kind != ToolCallStep
    ensures WellFormed(steps + [t]) && ToolNames(steps + [t]) == ToolNames(steps)
    ensures LlmTokens(steps + [t]) == LlmTokens(steps) + (if IsLlm(t) then [t.tokens] else [])
  {
    StepKeepsWellFormed(steps, t);
    AppendStep(steps, t);
  }

  lemma {:induction false} ReadsHead(l: Log)
    ensures WellFormed(ExpectedHead(l)) && ToolNames(ExpectedHead(l)) == [] && LlmTokens(ExpectedHead(l)) == [l.tokens]
  {
    var guard := [Plain(0, Guard, l.guardMs)];
    OneMoreStep([], guard[0]);
    assert [] + guard == guard;
    var retrieval := ExpectedRetrieval(l);
    if retrieval != [] { OneMoreStep(guard, retrieval[0]); }
    var context := guard + retrieval;
    assert context == if retrieval != [] then guard + [retrieval[0]] else guard;
    OneMoreStep(context, LlmStep(|context|, LlmDecision, l.llmMs, l.tokens));
  }

  lemma {:induction false} ExpectedIsWellFormed(head: seq<TraceStep>, hops: seq<Hop>)
    requires WellFormed(head)
    ensures WellFormed(ExpectedThrough(head, hops))
  {
    if hops != [] {
      ExpectedIsWellFormed(head, Init(hops));
      var before := ExpectedThrough(head, Init(hops));
      var t := ToolStep(|before|, Last(hops));
      StepKeepsWellFormed(before, t);
      StepKeepsWellFormed(before + [t], FollowupStep(|before| + 1, Last(hops)));
    }
  }

  /** The tools in the order called, the tokens of every model call, totals that add up, and
      steps numbered from zero. */
  ghost predicate Tells(steps: seq<TraceStep>, l: Log) {
    && ToolNames(steps) == Tools(l.hops)
    && LlmTokens(steps) == [l.tokens] + HopTokens(l.hops)
    && TokensTotal(steps) == PromptAndCompletion(steps).0 + PromptAndCompletion(steps).1
    && Numbered(steps)
  }

  lemma {:induction false} ExpectedTells(l: Log, head: seq<TraceStep>, outputMs: int)
    requires WellFormed(head) && ToolNames(head) == [] && LlmTokens(head) == [l.tokens]
    ensures var before := ExpectedThrough(head, l.hops);
      Tells(before + [Plain(|before|, Guard, outputMs)], l)
  {
    var before := ExpectedThrough(head, l.hops);
    ReadsThrough(head, l.hops);
    assert [] + Tools(l.hops) == Tools(l.hops);
    ExpectedIsWellFormed(head, l.hops);
    StepKeepsWellFormed(before, Plain(|before|, Guard, outputMs));
    AppendStep(before, Plain(|before|, Guard, outputMs));
    SplitAddsUp(before + [Plain(|before|, Guard, outputMs)]);
  }

  lemma ExpectedTellsTheRun(l: Log, outputMs: int)
    ensures Tells(Expected(l, outputMs), l)
  {
    ReadsHead(l);
    ExpectedTells(l, ExpectedHead(l), outputMs);
  }

  /** What a finished run leaves in its trace. */
  lemma TraceTellsTheRun(p: Payload, l: Log, outputMs: int)
    requires Emitted(p, l, outputMs)
    ensures Tells(StepsOf(p), l)
  {
    TraceUndoesEmission(p, l, outputMs);
    ExpectedTellsTheRun(l, outputMs);
  }
}

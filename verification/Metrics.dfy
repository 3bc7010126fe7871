/** Per-request metrics (observability/metrics.py) and the flat keys the agent records under. */
module Metrics {
  import opened Basics

  // ---------------------------------------------------------------- a Python dict of timings

  datatype Entry = Entry(key: string, ms: int)

  /** Position of a key, or the length. */
  function IndexOf(d: seq<Entry>, key: string): (i: nat)
    ensures i <= |d|
    ensures i < |d| ==> d[i].key == key
    ensures forall j :: 0 <= j < i ==> d[j].key != key
  {
    PositionOf(d, (x: Entry) => x.key, key)
  }

  /** Assignment keeps the place of a known key and appends a new one. */
  function Put(d: seq<Entry>, key: string, ms: int): seq<Entry> {
    var i := IndexOf(d, key);
    if i == |d| then d + [Entry(key, ms)] else d[i := Entry(key, ms)]
  }

  function Get(d: seq<Entry>, key: string): Option<int> {
    var i := IndexOf(d, key);
    if i == |d| then None else Some(d[i].ms)
  }

  predicate HasKey(d: seq<Entry>, key: string) {
    exists i :: 0 <= i < |d| && d[i].key == key
  }

  predicate DistinctKeys(d: seq<Entry>) {
    forall i, j :: 0 <= i < j < |d| ==> d[i].key != d[j].key
  }

  lemma GetMember(d: seq<Entry>, e: Entry)
    requires e in d && DistinctKeys(d)
    ensures Get(d, e.key) == Some(e.ms)
  {
  }

  lemma GetAbsent(d: seq<Entry>, key: string)
    ensures Get(d, key) == None <==> !HasKey(d, key)
  {
  }

  lemma PutNew(d: seq<Entry>, key: string, ms: int)
    requires !HasKey(d, key)
    ensures Put(d, key, ms) == d + [Entry(key, ms)]
  {
  }

  // ---------------------------------------------------------------- the collector

  /** The emitted record; context, counters and values share one flat namespace. */
  datatype Payload = Payload(timings: seq<Entry>, flat: map<string, int>)

  class MetricsCollector {
    var starts: map<string, int>
    var durations: seq<Entry>
    var counters: map<string, int>
    var values: map<string, int>

    constructor ()
      ensures starts == map[] && durations == [] && counters == map[] && values == map[]
    {
      starts, durations, counters, values := map[], [], map[], map[];
    }

    method Start(name: string, now: int)
      modifies `starts
      ensures starts == old(starts)[name := now]
    {
      starts := starts[name := now];
    }

    /** A timer that was never started leaves no trace. */
    method Stop(name: string, now: int) returns (elapsed: int)
      modifies `starts, `durations
      ensures starts == old(starts) - {name}
      ensures name in old(starts) ==>
        elapsed == now - old(starts)[name] && durations == Put(old(durations), name, elapsed)
      ensures name !in old(starts) ==> elapsed == 0 && durations == old(durations)
    {
      if name !in starts {
        return 0;
      }
      elapsed := now - starts[name];
      starts := starts - {name};
      durations := Put(durations, name, elapsed);
    }

    method Increment(name: string, amount: int)
      modifies `counters
      ensures counters == old(counters)[name := (if name in old(counters) then old(counters)[name] else 0) + amount]
    {
      counters := counters[name := (if name in counters then counters[name] else 0) + amount];
    }

    method Record(name: string, value: int)
      modifies `values
      ensures values == old(values)[name := value]
    {
      values := values[name := value];
    }

    method Emit(context: map<string, int>) returns (payload: Payload)
      ensures payload == Payload(durations, context + counters + values)
    {
      payload := Payload(durations, context + counters + values);
    }

    /** Start and stop with nothing in between. */
    method Time(name: string, start: int, stop: int)
      modifies `starts, `durations
      ensures durations == Put(old(durations), name, stop - start) && starts == old(starts) - {name}
    {
      Start(name, start);
      var _ := Stop(name, stop);
    }
  }

  // ---------------------------------------------------------------- flat keys

  const GUARD_INPUT := "guard_input"
  const GUARD_OUTPUT := "guard_output"
  const CONTEXT_BUILD := "context_build"
  const RETRIEVAL := "retrieval"
  const MEMORY_READ := "memory_read"
  const TOOL_PREFIX := "tool_"
  const LLM_PREFIX := "llm_step_"
  const LLM_TOKENS := "llm_tokens"
  const TOKENS_PREFIX := "llm_tokens_step_"
  const AGENT_STEPS := "agent_steps"
  const TOOL_CALLS := "tool_calls"
  const STEP_LIMIT_HIT := "step_limit_hit"
  const OUTPUT_VIOLATION := "output_violation"
  const RAG_DOCS := "rag_docs"

  function Decimal(n: nat): string {
    if n < 10 then [(48 + n) as char] else Decimal(n / 10) + [(48 + n % 10) as char]
  }

  function ToolKey(tool: string, step: nat): string {
    TOOL_PREFIX + tool + "_" + Decimal(step)
  }

  function LlmKey(step: nat): string {
    LLM_PREFIX + Decimal(step)
  }

  function TokensKey(step: nat): string {
    TOKENS_PREFIX + Decimal(step)
  }

  lemma {:induction false} DecimalHasNoUnderscore(n: nat)
    ensures Decimal(n) != [] && '_' !in Decimal(n)
  {
    if n >= 10 { DecimalHasNoUnderscore(n / 10); }
  }

  lemma {:induction false} DecimalIsInjective(m: nat, n: nat)
    requires Decimal(m) == Decimal(n)
    ensures m == n
  {
    DecimalHasNoUnderscore(m / 10);
    DecimalHasNoUnderscore(n / 10);
    assert Last(Decimal(m)) == (48 + m % 10) as char && Last(Decimal(n)) == (48 + n % 10) as char;
    assert m >= 10 <==> |Decimal(m)| >= 2;
    assert n >= 10 <==> |Decimal(n)| >= 2;
    if m >= 10 && n >= 10 {
      assert Init(Decimal(m)) == Decimal(m / 10) && Init(Decimal(n)) == Decimal(n / 10);
      DecimalIsInjective(m / 10, n / 10);
    }
  }

  /** The keys as they are printed, step numbers in decimal. */
  lemma KeysAsPrinted(tool: string, step: nat, d: nat)
    requires d < 10
    ensures ToolKey(tool, step) == "tool_" + tool + "_" + Decimal(step)
    ensures LlmKey(step) == "llm_step_" + Decimal(step) && TokensKey(step) == "llm_tokens_step_" + Decimal(step)
    ensures Decimal(d) == ["0123456789"[d]]
    ensures step > 0 ==> Decimal(10 * step + d) == Decimal(step) + Decimal(d)
  {
  }

  predicate StartsWith(s: string, p: string) {
    |p| <= |s| && s[..|p|] == p
  }

  predicate EndsWith(s: string, p: string) {
    |p| <= |s| && s[|s| - |p|..] == p
  }

  lemma {:induction false} DecimalsAfterPrefix(prefix: string, m: nat, n: nat)
    ensures prefix + Decimal(m) == prefix + Decimal(n) <==> m == n
  {
    if prefix + Decimal(m) == prefix + Decimal(n) {
      assert Decimal(m) == (prefix + Decimal(m))[|prefix|..] && Decimal(n) == (prefix + Decimal(n))[|prefix|..];
      DecimalIsInjective(m, n);
    }
  }

  /** The step is read off the end of a tool key, whatever the tool is called. */
  lemma {:induction false} ToolKeyEnds(tool: string, i: nat, j: nat)
    ensures EndsWith(ToolKey(tool, i), "_" + Decimal(j)) <==> i == j
  {
    var key, suffix := ToolKey(tool, i), "_" + Decimal(j);
    DecimalHasNoUnderscore(i);
    DecimalHasNoUnderscore(j);
    assert key == TOOL_PREFIX + tool + ['_'] + Decimal(i);
    if EndsWith(key, suffix) {
      var front := key[..|key| - |suffix|];
      assert key == front + ['_'] + Decimal(j);
      LastSeparator(TOOL_PREFIX + tool, Decimal(i), front, Decimal(j), '_');
      DecimalIsInjective(i, j);
    }
  }

  lemma {:induction false} ToolKeyStarts(tool: string, i: nat)
    ensures StartsWith(ToolKey(tool, i), TOOL_PREFIX) && ToolKey(tool, i)[|TOOL_PREFIX|..] == tool + ['_'] + Decimal(i)
    ensures ToolKey(tool, i)[0] == 't'
  {
    var key := ToolKey(tool, i);
    assert key == TOOL_PREFIX + (tool + ['_'] + Decimal(i));
  }

  lemma LlmKeyStarts(i: nat)
    ensures LlmKey(i) != [] && LlmKey(i)[0] == 'l'
  {
    assert LlmKey(i)[0] == LLM_PREFIX[0];
  }

  lemma OtherKeysStart()
    ensures GUARD_INPUT[0] == 'g' && GUARD_OUTPUT[0] == 'g' && CONTEXT_BUILD[0] == 'c'
    ensures RETRIEVAL[0] == 'r' && MEMORY_READ[0] == 'm'
    ensures |GUARD_INPUT| < |GUARD_OUTPUT|
  {
  }

  lemma ToolPrefixStarts(key: string)
    requires StartsWith(key, TOOL_PREFIX)
    ensures key != [] && key[0] == 't'
  {
    assert key[0] == key[..|TOOL_PREFIX|][0] == TOOL_PREFIX[0];
  }

  /** Token keys are longer than every other recorded name. */
  lemma TokensKeyIsLong(i: nat)
    ensures |TokensKey(i)| > 16
    ensures |LLM_TOKENS| <= 16 && |AGENT_STEPS| <= 16 && |TOOL_CALLS| <= 16
    ensures |STEP_LIMIT_HIT| <= 16 && |OUTPUT_VIOLATION| <= 16 && |RAG_DOCS| <= 16
  {
    DecimalHasNoUnderscore(i);
  }
}

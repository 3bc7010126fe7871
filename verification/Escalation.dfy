/** The pre-agent escalation gate (conversation/escalation_detector.py); scores in hundredths. */
module Escalation {
  import opened Basics
  import C = Conversation

  const ESCALATE_AT := 50
  const UNRESOLVED_THRESHOLD := 5
  const REPEAT_THRESHOLD := 3

  /** Contribution and label of each pattern, in table order. */
  const CRITICAL_TABLE := [(50, "legal_threat"), (45, "fraud_allegation"), (40, "public_threat")]
  const ANGER_TABLE := [(40, "extreme_anger"), (38, "extreme_frustration"), (30, "strong_negative"),
                        (28, "strong_complaint"), (25, "explicit_anger"), (15, "mild_frustration")]

  /** Which patterns the message matches: explicit human request, the tables, abuse. */
  datatype Matches = Matches(human: bool, critical: seq<bool>, anger: seq<bool>, abusive: bool)

  predicate Aligned(m: Matches) {
    |m.critical| == |CRITICAL_TABLE| && |m.anger| == |ANGER_TABLE|
  }

  predicate Plain(m: Matches) {
    !m.human && !m.abusive && true !in m.critical && true !in m.anger
  }

  /** The human-readable reasons. */
  datatype Trigger =
    | Label(text: string)
    | IntentRepeated(times: nat)
    | UnresolvedTurns(turns: nat)

  datatype Signal = Signal(escalate: bool, severity: C.Severity, triggers: seq<Trigger>, score: nat)

  const ABUSE := Label("abusive_language")

  function SeverityOf(score: nat): C.Severity {
    if score >= 70 then C.CRITICAL else if score >= 50 then C.ANGRY else if score >= 30 then C.FRUSTRATED else C.CALM
  }

  function CountOf(x: C.Intent, history: seq<C.Intent>): nat {
    if history == [] then 0 else CountOf(x, Init(history)) + (if Last(history) == x then 1 else 0)
  }

  function Recent(history: seq<C.Intent>, n: nat): seq<C.Intent> {
    if |history| > n then history[|history| - n..] else history
  }

  /** _count_intent_repeats. */
  function Repeats(intent: C.Intent, history: seq<C.Intent>): nat {
    CountOf(intent, Recent(history, 2 * REPEAT_THRESHOLD))
  }

  /** Score of the first n rows of a table, each addition cut at 100 or not at all. */
  function TableScore(table: seq<(nat, string)>, hits: seq<bool>, n: nat): nat
    requires n <= |table| == |hits|
  {
    if n == 0 then 0 else TableScore(table, hits, n - 1) + (if hits[n - 1] then table[n - 1].0 else 0)
  }

  function Labels(table: seq<(nat, string)>, hits: seq<bool>, n: nat): seq<Trigger>
    requires n <= |table| == |hits|
  {
    if n == 0 then []
    else Labels(table, hits, n - 1) + (if hits[n - 1] then [Label(table[n - 1].1)] else [])
  }

  function MessageScore(m: Matches): nat
    requires Aligned(m)
  {
    Min(100, Min(100, TableScore(CRITICAL_TABLE, m.critical, 3)) + Min(50, TableScore(ANGER_TABLE, m.anger, 6)))
  }

  function RepeatScore(repeats: nat): nat {
    if repeats >= REPEAT_THRESHOLD then Min(30, 10 * (repeats - REPEAT_THRESHOLD + 1)) else 0
  }

  function UnresolvedScore(unresolved: nat): nat {
    if unresolved >= UNRESOLVED_THRESHOLD then Min(20, 4 * (unresolved - UNRESOLVED_THRESHOLD + 1)) else 0
  }

  function Score(m: Matches, repeats: nat, unresolved: nat): nat
    requires Aligned(m)
  {
    Min(100, MessageScore(m) + RepeatScore(repeats) + UnresolvedScore(unresolved))
  }

  function Escalates(m: Matches, repeats: nat, unresolved: nat): bool
    requires Aligned(m)
  {
    m.human || m.abusive || Score(m, repeats, unresolved) >= ESCALATE_AT
  }

  function MessageLabels(m: Matches): seq<Trigger>
    requires Aligned(m)
  {
    Labels(CRITICAL_TABLE, m.critical, 3) + Labels(ANGER_TABLE, m.anger, 6)
  }

  function HistoryTriggers(repeats: nat, unresolved: nat): seq<Trigger> {
    (if repeats >= REPEAT_THRESHOLD then [IntentRepeated(repeats)] else [])
    + (if unresolved >= UNRESOLVED_THRESHOLD then [UnresolvedTurns(unresolved)] else [])
  }

  /** The keyword loops of _compute: the score is cut at 100 after every critical hit, the
      anger score is summed first and cut at 50. */
  method KeywordSignals(m: Matches) returns (score: nat, triggers: seq<Trigger>)
    requires Aligned(m)
    ensures score == MessageScore(m) && triggers == MessageLabels(m)
  {
    score, triggers := 0, [];
    for i := 0 to |CRITICAL_TABLE|
      invariant score == Min(100, TableScore(CRITICAL_TABLE, m.critical, i))
      invariant triggers == Labels(CRITICAL_TABLE, m.critical, i)
    {
      if m.critical[i] {
        score := Min(100, score + CRITICAL_TABLE[i].0);
        triggers := triggers + [Label(CRITICAL_TABLE[i].1)];
      }
    }
    var anger := 0;
    for i := 0 to |ANGER_TABLE|
      invariant anger == TableScore(ANGER_TABLE, m.anger, i)
      invariant triggers == Labels(CRITICAL_TABLE, m.critical, 3) + Labels(ANGER_TABLE, m.anger, i)
    {
      if m.anger[i] {
        anger := anger + ANGER_TABLE[i].0;
        triggers := triggers + [Label(ANGER_TABLE[i].1)];
      }
    }
    score := Min(100, score + Min(50, anger));
  }

  /** _compute: the running score, cut at 100 after every signal. */
  method Compute(m: Matches, state: C.State, intent: C.Intent) returns (signal: Signal)
    requires Aligned(m)
    ensures signal.escalate == Escalates(m, Repeats(intent, state.intents), state.unresolved)
    ensures !m.human ==> (signal.escalate <==> signal.severity == C.ANGRY || signal.severity == C.CRITICAL)
    ensures m.human ==> signal == Signal(true, C.CALM, [Label("explicit_human_request")], 100)
    ensures !m.human && m.abusive ==>
      signal == Signal(true, C.CRITICAL, MessageLabels(m) + [Label("abusive_language")], 100)
    ensures !m.human && !m.abusive ==>
      && signal.score == Score(m, Repeats(intent, state.intents), state.unresolved)
      && signal.severity == SeverityOf(signal.score)
      && signal.triggers == MessageLabels(m)
           + HistoryTriggers(Repeats(intent, state.intents), state.unresolved)
  {
    if m.human { return Signal(true, C.CALM, [Label("explicit_human_request")], 100); }
    var score, triggers := KeywordSignals(m);
    if m.abusive { return Signal(true, C.CRITICAL, triggers + [ABUSE], 100); }
    var repeats := Repeats(intent, state.intents);
    if repeats >= REPEAT_THRESHOLD {
      score := Min(100, score + Min(30, 10 * (repeats - REPEAT_THRESHOLD + 1)));
      triggers := triggers + [IntentRepeated(repeats)];
    }
    if state.unresolved >= UNRESOLVED_THRESHOLD {
      score := Min(100, score + Min(20, 4 * (state.unresolved - UNRESOLVED_THRESHOLD + 1)));
      triggers := triggers + [UnresolvedTurns(state.unresolved)];
    }
    return Signal(score >= ESCALATE_AT, SeverityOf(score), triggers, score);
  }

  // ---------------------------------------------------------------- what the signals mean

  /** Hits at one row of n. */
  function Only(i: nat, n: nat): seq<bool> {
    seq(n, j => j == i)
  }

  /** A message that matches one critical pattern and no other. */
  function OneCritical(i: nat): Matches {
    Matches(false, Only(i, 3), Only(6, 6), false)
  }

  function OneAnger(i: nat): Matches {
    Matches(false, Only(3, 3), Only(i, 6), false)
  }

  /** Every matched row adds its own contribution, whatever else is matched. */
  lemma {:induction false} RowsAddUp(table: seq<(nat, string)>, hits: seq<bool>, i: nat, n: nat)
    requires n <= |table| == |hits| && i < |hits| && !hits[i]
    ensures TableScore(table, hits[i := true], n) == TableScore(table, hits, n) + if i < n then table[i].0 else 0
  {
    if n > 0 { RowsAddUp(table, hits, i, n - 1); }
  }

  /** The matched rows among the first n. */
  function HitRows(hits: seq<bool>, n: nat): set<nat>
    requires n <= |hits|
  {
    set j: nat | j < n && hits[j]
  }

  /** The labels of the matched rows, in table order: each row's label stands behind those of
      the rows before it. */
  lemma {:induction false} LabelsInOrder(table: seq<(nat, string)>, hits: seq<bool>, i: nat, n: nat)
    requires i < n <= |table| == |hits|
    ensures Labels(table, hits, i) <= Labels(table, hits, n)
    ensures hits[i] ==>
      |Labels(table, hits, i)| < |Labels(table, hits, n)|
      && Labels(table, hits, n)[|Labels(table, hits, i)|] == Label(table[i].1)
    ensures |Labels(table, hits, n)| == |HitRows(hits, n)|
  {
    if i < n - 1 {
      LabelsInOrder(table, hits, i, n - 1);
    }
    LabelsCount(table, hits, n);
  }

  lemma {:induction false} LabelsCount(table: seq<(nat, string)>, hits: seq<bool>, n: nat)
    requires n <= |table| == |hits|
    ensures |Labels(table, hits, n)| == |HitRows(hits, n)|
  {
    if n > 0 {
      LabelsCount(table, hits, n - 1);
      assert HitRows(hits, n) == HitRows(hits, n - 1) + (if hits[n - 1] then {n - 1} else {});
    }
  }

  lemma {:induction false} OneRow(table: seq<(nat, string)>, i: nat, n: nat)
    requires n <= |table|
    ensures TableScore(table, Only(i, |table|), n) == if i < n then table[i].0 else 0
    ensures Labels(table, Only(i, |table|), n) == if i < n then [Label(table[i].1)] else []
  {
    if n > 0 { OneRow(table, i, n - 1); }
  }

  lemma {:induction false} CriticalAlone(i: nat)
    requires i < 3
    ensures MessageScore(OneCritical(i)) == Score(OneCritical(i), 0, 0) == CRITICAL_TABLE[i].0
    ensures MessageLabels(OneCritical(i)) == [Label(CRITICAL_TABLE[i].1)]
  {
    OneRow(CRITICAL_TABLE, i, 3);
    OneRow(ANGER_TABLE, 6, 6);
  }

  lemma {:induction false} AngerAlone(i: nat)
    requires i < 6
    ensures MessageScore(OneAnger(i)) == Score(OneAnger(i), 0, 0) == ANGER_TABLE[i].0
    ensures MessageLabels(OneAnger(i)) == [Label(ANGER_TABLE[i].1)]
  {
    OneRow(CRITICAL_TABLE, 3, 3);
    OneRow(ANGER_TABLE, i, 6);
  }

  /** What one critical pattern alone is worth; only a legal threat escalates by itself. */
  lemma {:induction false} OneCriticalPattern(i: nat)
    requires i < 3
    ensures MessageScore(OneCritical(i)) == [50, 45, 40][i]
    ensures MessageLabels(OneCritical(i)) == [Label(["legal_threat", "fraud_allegation", "public_threat"][i])]
    ensures Escalates(OneCritical(i), 0, 0) <==> i == 0
  {
    CriticalAlone(i);
  }

  /** What one angry pattern alone is worth; none escalates by itself. */
  lemma {:induction false} OneAngerPattern(i: nat)
    requires i < 6
    ensures MessageScore(OneAnger(i)) == [40, 38, 30, 28, 25, 15][i]
    ensures MessageLabels(OneAnger(i)) ==
      [Label(["extreme_anger", "extreme_frustration", "strong_negative", "strong_complaint", "explicit_anger",
              "mild_frustration"][i])]
    ensures !Escalates(OneAnger(i), 0, 0)
  {
    AngerAlone(i);
  }

  /** Anger counts for fifty at most, and nothing for more than a hundred. */
  lemma ScoresAreCut(m: Matches, repeats: nat, unresolved: nat)
    requires Aligned(m)
    ensures var critical, anger := TableScore(CRITICAL_TABLE, m.critical, 3), TableScore(ANGER_TABLE, m.anger, 6);
      var sum := critical + (if anger > 50 then 50 else anger) + RepeatScore(repeats) + UnresolvedScore(unresolved);
      Score(m, repeats, unresolved) == if sum > 100 then 100 else sum
  {
  }

  /** What the history adds: ten points from the third repetition on, thirty at most, and four
      from the fifth unresolved turn on, twenty at most. */
  lemma HistoryPoints(n: nat)
    ensures RepeatScore(n) == if n < 3 then 0 else if n == 3 then 10 else if n == 4 then 20 else 30
    ensures UnresolvedScore(n) == if n < 5 then 0 else if n >= 9 then 20 else 4 * (n - 4)
    ensures RepeatScore(n) > 0 <==> exists u :: IntentRepeated(n) in HistoryTriggers(n, u)
  {
    if n >= 3 { assert HistoryTriggers(n, 0)[0] == IntentRepeated(n); }
  }

  /** The history's reasons: the repetitions first, each with its number. */
  lemma HistoryReasons(repeats: nat, unresolved: nat)
    ensures forall t :: t in HistoryTriggers(repeats, unresolved) <==>
      (t == IntentRepeated(repeats) && repeats > 2) || (t == UnresolvedTurns(unresolved) && unresolved > 4)
    ensures repeats > 2 && unresolved > 4 ==>
      HistoryTriggers(repeats, unresolved) == [IntentRepeated(repeats), UnresolvedTurns(unresolved)]
    ensures |HistoryTriggers(repeats, unresolved)| <= 2
  {
  }

  /** Severity in bands of the score; the upper two are those that escalate. */
  lemma SeverityBands(score: nat)
    ensures SeverityOf(score) == C.CRITICAL <==> score > 69
    ensures SeverityOf(score) == C.ANGRY <==> 49 < score < 70
    ensures SeverityOf(score) == C.FRUSTRATED <==> 29 < score < 50
    ensures SeverityOf(score) == C.CALM <==> score < 30
  {
  }

  /** Where an intent stands in a history, from some position on. */
  function Places(x: C.Intent, history: seq<C.Intent>, from: nat): set<nat> {
    set i: nat | from <= i < |history| && history[i] == x
  }

  /** The repeats are the current intent's places among the latest six intents. */
  lemma {:induction false} RepeatsAreCounted(intent: C.Intent, history: seq<C.Intent>)
    ensures Repeats(intent, history) == |Places(intent, history, if |history| > 6 then |history| - 6 else 0)|
  {
    var from := if |history| > 6 then |history| - 6 else 0;
    assert Recent(history, 6) == history[from..];
    CountIsNumber(intent, history, from);
  }

  lemma OneMorePlace(x: C.Intent, history: seq<C.Intent>, from: nat)
    requires from < |history|
    ensures Places(x, history, from) ==
      Places(x, Init(history), from) + (if Last(history) == x then {|history| - 1} else {})
    ensures |history| - 1 !in Places(x, Init(history), from)
  {
  }

  lemma {:induction false} CountIsNumber(x: C.Intent, history: seq<C.Intent>, from: nat)
    requires from <= |history|
    ensures CountOf(x, history[from..]) == |Places(x, history, from)|
    decreases |history|
  {
    if from < |history| {
      CountIsNumber(x, Init(history), from);
      assert Init(history[from..]) == Init(history)[from..] && Last(history[from..]) == Last(history);
      OneMorePlace(x, history, from);
    }
  }

  // ---------------------------------------------------------------- a bounded wait

  lemma {:induction false} PlainTablesScoreNothing(table: seq<(nat, string)>, hits: seq<bool>, n: nat)
    requires n <= |table| == |hits| && true !in hits
    ensures TableScore(table, hits, n) == 0
  {
    if n > 0 { PlainTablesScoreNothing(table, hits, n - 1); }
  }

  /** The history cap never changes a verdict: it keeps more than the window looks at. */
  lemma CapIsInvisible(history: seq<C.Intent>, intent: C.Intent)
    ensures Repeats(intent, C.Capped(history)) == Repeats(intent, history)
  {
    assert Recent(C.Capped(history), 6) == Recent(history, 6);
  }

  /** What the two history signals can reach together. */
  lemma HistoryScores(m: Matches, repeats: nat, unresolved: nat)
    requires Aligned(m)
    ensures repeats >= 5 && unresolved >= 9 ==> Escalates(m, repeats, unresolved)
    ensures Plain(m) ==> (Escalates(m, repeats, unresolved) <==> repeats >= 5 && unresolved >= 9)
  {
    if Plain(m) {
      PlainTablesScoreNothing(CRITICAL_TABLE, m.critical, 3);
      PlainTablesScoreNothing(ANGER_TABLE, m.anger, 6);
    }
  }

  /** After any conversation whose last nine turns or more brought no response and whose
      last six intents include the current one five times, the next message escalates
      whatever it says; and a message that matches no pattern escalates only then. */
  lemma {:induction false} HumansWaitAtMostSoLong(turns: seq<C.Turn>, m: Matches, intent: C.Intent)
    requires Aligned(m)
    ensures var s := C.After(turns);
      var stuck := C.NoRespond(turns, 9) && Repeats(intent, C.Intents(turns)) >= 5;
      && (stuck ==> Escalates(m, Repeats(intent, s.intents), s.unresolved))
      && (Plain(m) ==> (Escalates(m, Repeats(intent, s.intents), s.unresolved) <==> stuck))
  {
    C.HistoriesAreCapped(turns);
    C.UnresolvedIsTheTrailingRun(turns, 9);
    CapIsInvisible(C.Intents(turns), intent);
    HistoryScores(m, Repeats(intent, C.After(turns).intents), C.After(turns).unresolved);
  }
}

/** Conversation state across turns (conversation/conversation_state.py). */
module Conversation {
  import opened Basics

  const MAX_HISTORY := 20

  datatype Stage = OPENING | GATHERING | INVESTIGATING | RESOLVING | CLOSING

  function Rank(s: Stage): nat {
    match s case OPENING => 0 case GATHERING => 1 case INVESTIGATING => 2 case RESOLVING => 3 case CLOSING => 4
  }

  /** The detector's business intents, the agent's actions and the severity labels. */
  datatype Intent =
    | COMPLAINT | REFUND_REQUEST | BILLING | TECHNICAL_SUPPORT | STATUS_CHECK
    | CANCELLATION | INFO_REQUEST | COMPLIMENT | GENERAL

  datatype Action = RESPOND | TOOL_CALL | ESCALATE | SUGGEST

  datatype Severity = CALM | FRUSTRATED | ANGRY | CRITICAL

  type Entities = map<string, seq<string>>

  /** A state snapshot; the timestamp is left out. */
  datatype State = State(
    stage: Stage, turnCount: nat, intents: seq<Intent>, entities: Entities,
    severities: seq<Severity>, unresolved: nat)

  const DEFAULT := State(OPENING, 0, [], map[], [], 0)

  /** One turn; `found` is the extractor's dictionary in iteration order. */
  datatype Turn = Turn(intent: Intent, found: seq<(string, seq<string>)>, severity: Severity, action: Action)

  function Capped<T>(history: seq<T>): seq<T> {
    if |history| > MAX_HISTORY then history[|history| - MAX_HISTORY..] else history
  }

  function AddNew(existing: seq<string>, values: seq<string>): seq<string>
    decreases |values|
  {
    if values == [] then existing
    else AddNew(if values[0] in existing then existing else existing + [values[0]], values[1..])
  }

  function Lookup(entities: Entities, kind: string): seq<string> {
    if kind in entities then entities[kind] else []
  }

  function Merge(entities: Entities, found: seq<(string, seq<string>)>): Entities
    decreases |found|
  {
    if found == [] then entities
    else Merge(entities[found[0].0 := AddNew(Lookup(entities, found[0].0), found[0].1)], found[1..])
  }

  predicate Actionable(i: Intent) {
    i.REFUND_REQUEST? || i.BILLING? || i.TECHNICAL_SUPPORT? || i.STATUS_CHECK? || i.CANCELLATION? || i.COMPLAINT?
  }

  /** _advance_stage, on the counters already updated for this turn. */
  function AdvanceStage(current: Stage, turn: nat, intent: Intent, hasEntities: bool,
                        action: Action, unresolved: nat): Stage {
    match current
    case OPENING => if turn >= 2 then GATHERING else OPENING
    case GATHERING => if hasEntities || Actionable(intent) then INVESTIGATING else GATHERING
    case INVESTIGATING =>
      if (action == TOOL_CALL || action == RESPOND) && unresolved == 0 then RESOLVING else INVESTIGATING
    case RESOLVING => if (intent == COMPLIMENT || intent == GENERAL) && turn >= 3 then CLOSING else RESOLVING
    case CLOSING => CLOSING
  }

  function ApplyTurn(s: State, t: Turn): State {
    var unresolved := if t.action == RESPOND then 0 else s.unresolved + 1;
    State(AdvanceStage(s.stage, s.turnCount + 1, t.intent, t.found != [], t.action, unresolved),
          s.turnCount + 1,
          Capped(s.intents + [t.intent]),
          Merge(s.entities, t.found),
          Capped(s.severities + [t.severity]),
          unresolved)
  }

  /** The state object, updated in place. */
  class ConversationState {
    var stage: Stage
    var turnCount: nat
    var intents: seq<Intent>
    var entities: Entities
    var severities: seq<Severity>
    var unresolved: nat

    function Snapshot(): State
      reads this
    {
      State(stage, turnCount, intents, entities, severities, unresolved)
    }

    constructor ()
      ensures Snapshot() == DEFAULT
    {
      stage, turnCount, intents, entities, severities, unresolved := OPENING, 0, [], map[], [], 0;
    }

    method MergeEntities(found: seq<(string, seq<string>)>)
      modifies this`entities
      ensures entities == Merge(old(entities), found)
    {
      for i := 0 to |found|
        invariant Merge(entities, found[i..]) == Merge(old(entities), found)
      {
        var (kind, values) := found[i];
        var existing := Lookup(entities, kind);
        for j := 0 to |values|
          invariant AddNew(existing, values[j..]) == AddNew(Lookup(entities, kind), values)
        {
          assert values[j..][1..] == values[j + 1..];
          if values[j] !in existing { existing := existing + [values[j]]; }
        }
        assert found[i..][1..] == found[i + 1..];
        entities := entities[kind := existing];
      }
    }

    method RecordIntent(intent: Intent)
      modifies this`turnCount, this`intents
      ensures turnCount == old(turnCount) + 1 && intents == Capped(old(intents) + [intent])
    {
      turnCount := turnCount + 1;
      intents := intents + [intent];
      if |intents| > MAX_HISTORY { intents := intents[|intents| - MAX_HISTORY..]; }
    }

    method RecordSeverity(severity: Severity)
      modifies this`severities
      ensures severities == Capped(old(severities) + [severity])
    {
      severities := severities + [severity];
      if |severities| > MAX_HISTORY { severities := severities[|severities| - MAX_HISTORY..]; }
    }

    /** _apply_turn. */
    method TakeTurn(t: Turn)
      modifies this
      ensures Snapshot() == ApplyTurn(old(Snapshot()), t)
    {
      RecordIntent(t.intent);
      MergeEntities(t.found);
      RecordSeverity(t.severity);
      if t.action == RESPOND { unresolved := 0; } else { unresolved := unresolved + 1; }
      stage := AdvanceStage(stage, turnCount, t.intent, t.found != [], t.action, unresolved);
    }
  }

  // ---------------------------------------------------------------- whole conversations

  function After(turns: seq<Turn>): State {
    if turns == [] then DEFAULT else ApplyTurn(After(Init(turns)), Last(turns))
  }

  function Intents(turns: seq<Turn>): seq<Intent> {
    seq(|turns|, i requires 0 <= i < |turns| => turns[i].intent)
  }

  function Severities(turns: seq<Turn>): seq<Severity> {
    seq(|turns|, i requires 0 <= i < |turns| => turns[i].severity)
  }

  /** The latest n turns exist and none of them responded. */
  predicate NoRespond(turns: seq<Turn>, n: nat) {
    n <= |turns| && forall i :: |turns| - n <= i < |turns| ==> turns[i].action != RESPOND
  }

  lemma CappedGrows<T>(history: seq<T>, x: T)
    ensures Capped(Capped(history) + [x]) == Capped(history + [x])
  {
  }

  lemma NoRespondStep(turns: seq<Turn>, n: nat)
    requires turns != []
    ensures NoRespond(turns, n + 1) <==> Last(turns).action != RESPOND && NoRespond(Init(turns), n)
  {
    var before := Init(turns);
    if NoRespond(turns, n + 1) {
      assert turns[|turns| - 1].action != RESPOND;
      forall i | |before| - n <= i < |before| ensures before[i].action != RESPOND {
        assert turns[i].action != RESPOND;
      }
    }
  }

  /** Histories are the latest twenty entries of the whole conversation. */
  lemma {:induction false} HistoriesAreTheLatestTurns(turns: seq<Turn>)
    ensures After(turns).turnCount == |turns|
    ensures |turns| <= 20 ==> After(turns).intents == Intents(turns) && After(turns).severities == Severities(turns)
    ensures |turns| > 20 ==>
      && After(turns).intents == Intents(turns)[|turns| - 20..]
      && After(turns).severities == Severities(turns)[|turns| - 20..]
  {
    HistoriesAreCapped(turns);
  }

  lemma {:induction false} HistoriesAreCapped(turns: seq<Turn>)
    ensures After(turns).turnCount == |turns|
    ensures After(turns).intents == Capped(Intents(turns))
    ensures After(turns).severities == Capped(Severities(turns))
  {
    if turns != [] {
      var before, t := Init(turns), Last(turns);
      HistoriesAreCapped(before);
      assert Intents(turns) == Intents(before) + [t.intent];
      assert Severities(turns) == Severities(before) + [t.severity];
      CappedGrows(Intents(before), t.intent);
      CappedGrows(Severities(before), t.severity);
    }
  }

  /** The unresolved counter is the length of the run of turns without "respond" at the end. */
  lemma {:induction false} UnresolvedIsTheTrailingRun(turns: seq<Turn>, n: nat)
    ensures n <= After(turns).unresolved <==> NoRespond(turns, n)
  {
    if turns != [] && n > 0 {
      UnresolvedIsTheTrailingRun(Init(turns), n - 1);
      NoRespondStep(turns, n - 1);
    }
  }

  /** Stages never fall, rise by at most one a turn, and lag the turn count; a conversation
      starts resolving only in a turn that responds. */
  lemma {:induction false} StagesClimbSlowly(turns: seq<Turn>)
    ensures turns != [] ==>
      var was, now := After(Init(turns)).stage, After(turns).stage;
      && Rank(was) <= Rank(now) <= Rank(was) + 1
      && Rank(now) <= |turns| - 1
      && (was != RESOLVING && now == RESOLVING ==> Last(turns).action == RESPOND)
    ensures After(turns).stage == CLOSING ==> |turns| >= 5
  {
    if turns != [] {
      StagesClimbSlowly(Init(turns));
      HistoriesAreTheLatestTurns(Init(turns));
    }
  }

  /** Intents that call for work. */
  predicate CallsForWork(i: Intent) {
    i in {REFUND_REQUEST, BILLING, TECHNICAL_SUPPORT, STATUS_CHECK, CANCELLATION, COMPLAINT}
  }

  /** Turn i, the third or later, named an entity or called for work. */
  predicate TakesUp(turns: seq<Turn>, i: int) {
    2 <= i < |turns| && (turns[i].found != [] || CallsForWork(turns[i].intent))
  }

  predicate Responds(turns: seq<Turn>, j: int) {
    0 <= j < |turns| && turns[j].action == RESPOND
  }

  predicate WindsDown(turns: seq<Turn>, k: int) {
    0 <= k < |turns| && turns[k].intent in {COMPLIMENT, GENERAL}
  }

  /** The second turn is over; one of the later turns took something up; a still later one
      responded; and after that one wound down. */
  ghost predicate HasInvestigated(turns: seq<Turn>) {
    exists i :: TakesUp(turns, i)
  }

  ghost predicate HasResolved(turns: seq<Turn>) {
    exists i, j :: i < j && TakesUp(turns, i) && Responds(turns, j)
  }

  ghost predicate HasClosed(turns: seq<Turn>) {
    exists i, j, k :: i < j < k && TakesUp(turns, i) && Responds(turns, j) && WindsDown(turns, k)
  }

  lemma TakesUpStep(turns: seq<Turn>, i: int)
    requires turns != []
    ensures TakesUp(turns, i) <==> TakesUp(Init(turns), i) || (i == |turns| - 1 && TakesUp(turns, i))
    ensures Responds(turns, i) <==> Responds(Init(turns), i) || (i == |turns| - 1 && Responds(turns, i))
    ensures WindsDown(turns, i) <==> WindsDown(Init(turns), i) || (i == |turns| - 1 && WindsDown(turns, i))
  {
    assert 0 <= i < |turns| - 1 ==> Init(turns)[i] == turns[i];
  }

  lemma InvestigatedStep(turns: seq<Turn>)
    requires turns != []
    ensures HasInvestigated(turns) <==> HasInvestigated(Init(turns)) || TakesUp(turns, |turns| - 1)
  {
    forall i ensures TakesUp(turns, i) <==> TakesUp(Init(turns), i) || (i == |turns| - 1 && TakesUp(turns, i)) {
      TakesUpStep(turns, i);
    }
  }

  lemma ResolvedStep(turns: seq<Turn>)
    requires turns != []
    ensures HasResolved(turns) <==>
      HasResolved(Init(turns)) || (HasInvestigated(Init(turns)) && Last(turns).action == RESPOND)
  {
    var before, n := Init(turns), |turns| - 1;
    if HasResolved(turns) {
      var i, j :| i < j && TakesUp(turns, i) && Responds(turns, j);
      TakesUpStep(turns, i);
      TakesUpStep(turns, j);
    }
    if HasResolved(before) {
      var i, j :| i < j && TakesUp(before, i) && Responds(before, j);
      TakesUpStep(turns, i);
      TakesUpStep(turns, j);
    } else if HasInvestigated(before) && Last(turns).action == RESPOND {
      var i :| TakesUp(before, i);
      TakesUpStep(turns, i);
      assert i < n && Responds(turns, n);
    }
  }

  lemma ClosedStep(turns: seq<Turn>)
    requires turns != []
    ensures HasClosed(turns) <==>
      HasClosed(Init(turns)) || (HasResolved(Init(turns)) && Last(turns).intent in {COMPLIMENT, GENERAL})
  {
    var before, n := Init(turns), |turns| - 1;
    if HasClosed(turns) {
      var i, j, k :| i < j < k && TakesUp(turns, i) && Responds(turns, j) && WindsDown(turns, k);
      TakesUpStep(turns, i);
      TakesUpStep(turns, j);
      TakesUpStep(turns, k);
    }
    if HasClosed(before) {
      var i, j, k :| i < j < k && TakesUp(before, i) && Responds(before, j) && WindsDown(before, k);
      TakesUpStep(turns, i);
      TakesUpStep(turns, j);
      TakesUpStep(turns, k);
    } else if HasResolved(before) && Last(turns).intent in {COMPLIMENT, GENERAL} {
      var i, j :| i < j && TakesUp(before, i) && Responds(before, j);
      TakesUpStep(turns, i);
      TakesUpStep(turns, j);
      assert j < n && WindsDown(turns, n);
    }
  }

  /** The stage read off the conversation: gathering from the second turn on, investigating once
      a later turn took something up, resolving once a turn after that responded, closing once
      a turn after that wound down. */
  lemma {:induction false} StageExactlyWhen(turns: seq<Turn>)
    ensures var stage := After(turns).stage;
      && (stage == CLOSING <==> HasClosed(turns))
      && (stage == RESOLVING <==> HasResolved(turns) && !HasClosed(turns))
      && (stage == INVESTIGATING <==> HasInvestigated(turns) && !HasResolved(turns))
      && (stage == GATHERING <==> |turns| >= 2 && !HasInvestigated(turns))
      && (stage == OPENING <==> |turns| < 2)
  {
    if turns != [] {
      StageExactlyWhen(Init(turns));
      HistoriesAreCapped(Init(turns));
      InvestigatedStep(turns);
      ResolvedStep(turns);
      ClosedStep(turns);
      LaterStagesImplyEarlier(Init(turns));
    }
  }

  lemma LaterStagesImplyEarlier(turns: seq<Turn>)
    ensures HasClosed(turns) ==> HasResolved(turns)
    ensures HasResolved(turns) ==> HasInvestigated(turns)
    ensures HasInvestigated(turns) ==> |turns| >= 3
  {
    if HasClosed(turns) {
      var i, j, k :| i < j < k && TakesUp(turns, i) && Responds(turns, j) && WindsDown(turns, k);
    }
    if HasResolved(turns) {
      var i, j :| i < j && TakesUp(turns, i) && Responds(turns, j);
    }
  }

  // ---------------------------------------------------------------- entities

  /** All values of one kind in a turn's dictionary, and in a conversation, as they came. */
  function ValuesIn(found: seq<(string, seq<string>)>, kind: string): seq<string> {
    if found == [] then []
    else (if found[0].0 == kind then found[0].1 else []) + ValuesIn(found[1..], kind)
  }

  function AllValues(turns: seq<Turn>, kind: string): seq<string> {
    if turns == [] then [] else AllValues(Init(turns), kind) + ValuesIn(Last(turns).found, kind)
  }

  /** First occurrences, in order. */
  function Dedup(values: seq<string>): seq<string> {
    if values == [] then []
    else if Last(values) in Init(values) then Dedup(Init(values))
    else Dedup(Init(values)) + [Last(values)]
  }

  lemma {:induction false} DedupSound(values: seq<string>)
    ensures Distinct(Dedup(values))
    ensures forall v :: v in Dedup(values) <==> v in values
  {
    if values != [] {
      DedupSound(Init(values));
      assert forall v :: v in values <==> v in Init(values) || v == Last(values);
    }
  }

  lemma {:induction false} AddNewContinuesDedup(seen: seq<string>, values: seq<string>)
    ensures AddNew(Dedup(seen), values) == Dedup(seen + values)
    decreases |values|
  {
    if values == [] {
      assert seen + values == seen;
    } else {
      DedupSound(seen);
      assert Init(seen + [values[0]]) == seen;
      AddNewContinuesDedup(seen + [values[0]], values[1..]);
      assert seen + [values[0]] + values[1..] == seen + values;
    }
  }

  lemma {:induction false} AddNewOfBoth(existing: seq<string>, a: seq<string>, b: seq<string>)
    ensures AddNew(AddNew(existing, a), b) == AddNew(existing, a + b)
    decreases |a|
  {
    if a == [] {
      assert a + b == b;
    } else {
      assert (a + b)[1..] == a[1..] + b;
      AddNewOfBoth(if a[0] in existing then existing else existing + [a[0]], a[1..], b);
    }
  }

  /** Merging a dictionary is adding, per kind, its values in order. */
  lemma {:induction false} MergeAddsPerKind(entities: Entities, found: seq<(string, seq<string>)>, kind: string)
    ensures Lookup(Merge(entities, found), kind) == AddNew(Lookup(entities, kind), ValuesIn(found, kind))
    decreases |found|
  {
    if found != [] {
      var (k, values) := found[0];
      var rest := ValuesIn(found[1..], kind);
      MergeAddsPerKind(entities[k := AddNew(Lookup(entities, k), values)], found[1..], kind);
      if k == kind {
        AddNewOfBoth(Lookup(entities, kind), values, rest);
      } else {
        assert [] + rest == rest;
      }
    }
  }

  /** An entity list is the conversation's values of its kind without repetitions, in order
      of first mention. */
  lemma {:induction false} EntitiesAreFirstMentions(turns: seq<Turn>, kind: string)
    ensures Lookup(After(turns).entities, kind) == Dedup(AllValues(turns, kind))
  {
    if turns != [] {
      EntitiesAreFirstMentions(Init(turns), kind);
      MergeAddsPerKind(After(Init(turns)).entities, Last(turns).found, kind);
      AddNewContinuesDedup(AllValues(Init(turns), kind), ValuesIn(Last(turns).found, kind));
    }
  }

  lemma {:induction false} DedupGrows(a: seq<string>, b: seq<string>)
    ensures Dedup(a) <= Dedup(a + b)
    decreases |b|
  {
    if b == [] {
      assert a + b == a;
    } else {
      DedupGrows(a, Init(b));
      assert Init(a + b) == a + Init(b);
    }
  }

  /** So lists stay free of duplicates and only ever grow at the end. */
  lemma {:induction false} EntitiesOnlyGrow(turns: seq<Turn>, t: Turn, kind: string)
    ensures Distinct(Lookup(After(turns).entities, kind))
    ensures Lookup(After(turns).entities, kind) <= Lookup(After(turns + [t]).entities, kind)
  {
    assert Init(turns + [t]) == turns;
    EntitiesAreFirstMentions(turns, kind);
    EntitiesAreFirstMentions(turns + [t], kind);
    DedupSound(AllValues(turns, kind));
    DedupGrows(AllValues(turns, kind), ValuesIn(t.found, kind));
  }
}

/** Confidence scoring and action choice (ai.automation.decision.js), in hundredths. */
module AutomationDecision {
  import opened Basics
  import opened AutomationGuards

  datatype Priority = LOW | MEDIUM | HIGH | URGENT

  datatype Context = Context(
    responseLength: nat, hasProblematicKeywords: bool, isFollowUp: bool, priority: Priority,
    ticketAge: int, commentCount: nat, hasAttachments: bool, descriptionLength: nat)

  const HOUR := 3_600_000
  const DAY := 86_400_000

  /** The eight factors, each on its own. */
  function LengthFactor(c: Context): int {
    if 100 < c.responseLength < 500 then 15 else if c.responseLength > 500 then 5 else 0
  }
  function KeywordFactor(c: Context): int { if c.hasProblematicKeywords then -20 else 0 }
  function FollowUpFactor(c: Context): int { if c.isFollowUp then -10 else 5 }
  function PriorityFactor(c: Context): int {
    match c.priority case LOW => 10 case MEDIUM => 0 case HIGH => -10 case URGENT => -20
  }
  function AgeFactor(c: Context): int {
    if c.ticketAge != 0 && c.ticketAge < HOUR then 10
    else if c.ticketAge != 0 && c.ticketAge > DAY then -10 else 0
  }
  function HistoryFactor(c: Context): int {
    if c.commentCount > 5 then 5 else if c.commentCount == 1 then 8 else 0
  }
  function AttachmentFactor(c: Context): int { if c.hasAttachments then -5 else 3 }
  function DescriptionFactor(c: Context): int { if c.descriptionLength > 200 then 8 else 0 }

  function Clamp(x: int): int { if x < 0 then 0 else if x > 100 then 100 else x }

  function Confidence(c: Context): int {
    Clamp(50 + LengthFactor(c) + KeywordFactor(c) + FollowUpFactor(c) + PriorityFactor(c)
          + AgeFactor(c) + HistoryFactor(c) + AttachmentFactor(c) + DescriptionFactor(c))
  }

  /** calculateConfidence: a running score, clamped at the end. */
  method CalculateConfidence(c: Context) returns (score: int)
    ensures score == Confidence(c) && 0 <= score <= 100
  {
    score := 50;
    if c.responseLength > 100 && c.responseLength < 500 {
      score := score + 15;
    } else if c.responseLength > 500 {
      score := score + 5;
    }
    assert score == 50 + LengthFactor(c);
    if c.hasProblematicKeywords { score := score - 20; }
    ghost var s2 := score;
    assert s2 == 50 + LengthFactor(c) + KeywordFactor(c);
    if c.isFollowUp { score := score - 10; } else { score := score + 5; }
    assert score == s2 + FollowUpFactor(c);
    if c.priority == LOW {
      score := score + 10;
    } else if c.priority == URGENT {
      score := score - 20;
    } else if c.priority == HIGH {
      score := score - 10;
    }
    ghost var s4 := score;
    assert s4 == s2 + FollowUpFactor(c) + PriorityFactor(c);
    if c.ticketAge != 0 && c.ticketAge < HOUR {
      score := score + 10;
    } else if c.ticketAge != 0 && c.ticketAge > DAY {
      score := score - 10;
    }
    assert score == s4 + AgeFactor(c);
    if c.commentCount != 0 && c.commentCount > 5 {
      score := score + 5;
    } else if c.commentCount == 1 {
      score := score + 8;
    }
    ghost var s6 := score;
    assert s6 == s4 + AgeFactor(c) + HistoryFactor(c);
    if c.hasAttachments { score := score - 5; } else { score := score + 3; }
    if c.descriptionLength > 200 { score := score + 8; }
    score := if score < 0 then 0 else if score > 100 then 100 else score;
  }

  datatype Action = AutoResolve | SmartAssign | Suggest | StoreAndWait

  datatype Thresholds = Thresholds(
    enableAutoResolve: bool, enableSmartAssign: bool, autoResolve: int, smartAssign: int, suggest: int)

  const DEFAULTS := Thresholds(true, true, 85, 65, 50)

  function DecideAction(confidence: int, canAssign: bool, t: Thresholds): Action {
    if t.enableAutoResolve && confidence >= t.autoResolve then AutoResolve
    else if t.enableSmartAssign && confidence >= t.smartAssign && canAssign then SmartAssign
    else if confidence >= t.suggest then Suggest
    else StoreAndWait
  }

  /** A message that scores 43: of medium priority, with nothing else about it but that it is a
      follow-up without attachments. */
  const BASE := Context(0, false, true, MEDIUM, 0, 0, false, 0)

  /** What each fact by itself does to that score. */
  lemma OneFactAtATime(n: nat, age: int)
    ensures Confidence(BASE) == 43
    ensures Confidence(BASE.(responseLength := n)) == if 100 < n < 500 then 58 else if n > 500 then 48 else 43
    ensures Confidence(BASE.(hasProblematicKeywords := true)) == 23
    ensures Confidence(BASE.(isFollowUp := false)) == 58
    ensures Confidence(BASE.(priority := LOW)) == 53
    ensures Confidence(BASE.(priority := HIGH)) == 33 && Confidence(BASE.(priority := URGENT)) == 23
    ensures Confidence(BASE.(ticketAge := age)) ==
      if age == 0 then 43 else if age < 3_600_000 then 53 else if age > 86_400_000 then 33 else 43
    ensures Confidence(BASE.(commentCount := n)) == if n == 1 then 51 else if n > 5 then 48 else 43
    ensures Confidence(BASE.(hasAttachments := true)) == 35
    ensures Confidence(BASE.(descriptionLength := n)) == if n > 200 then 51 else 43
  {
  }

  /** How far one fact moves the score from there. */
  function Shift(c: Context): int {
    Confidence(c) - Confidence(BASE)
  }

  lemma ShiftsOfMessage(c: Context)
    ensures Shift(BASE.(responseLength := c.responseLength)) == LengthFactor(c)
    ensures Shift(BASE.(hasProblematicKeywords := c.hasProblematicKeywords)) == KeywordFactor(c)
    ensures Shift(BASE.(isFollowUp := c.isFollowUp)) == FollowUpFactor(c) + 10
    ensures Shift(BASE.(priority := c.priority)) == PriorityFactor(c)
  {
  }

  lemma ShiftsOfTicket(c: Context)
    ensures Shift(BASE.(ticketAge := c.ticketAge)) == AgeFactor(c)
    ensures Shift(BASE.(commentCount := c.commentCount)) == HistoryFactor(c)
    ensures Shift(BASE.(hasAttachments := c.hasAttachments)) == AttachmentFactor(c) - 3
    ensures Shift(BASE.(descriptionLength := c.descriptionLength)) == DescriptionFactor(c)
  {
  }

  /** All facts together move it by the sum of what each moves it, kept between 0 and 100. */
  lemma FactsAddUp(c: Context)
    ensures var sum := 43
      + Shift(BASE.(responseLength := c.responseLength))
      + Shift(BASE.(hasProblematicKeywords := c.hasProblematicKeywords))
      + Shift(BASE.(isFollowUp := c.isFollowUp)) + Shift(BASE.(priority := c.priority))
      + Shift(BASE.(ticketAge := c.ticketAge)) + Shift(BASE.(commentCount := c.commentCount))
      + Shift(BASE.(hasAttachments := c.hasAttachments)) + Shift(BASE.(descriptionLength := c.descriptionLength));
      Confidence(c) == if sum < 0 then 0 else if sum > 100 then 100 else sum
  {
    ShiftsOfMessage(c);
    ShiftsOfTicket(c);
  }

  /** Which action is taken, from the boldest down; by default from 85, 65 and 50. */
  lemma ActionExactlyWhen(confidence: int, canAssign: bool, t: Thresholds)
    ensures var a := DecideAction(confidence, canAssign, t);
      && (a == AutoResolve <==> t.enableAutoResolve && t.autoResolve <= confidence)
      && (a == SmartAssign <==>
            a != AutoResolve && t.enableSmartAssign && canAssign && t.smartAssign <= confidence)
      && (a == Suggest <==> a != AutoResolve && a != SmartAssign && t.suggest <= confidence)
      && (a == StoreAndWait <==> a != AutoResolve && a != SmartAssign && confidence < t.suggest)
    ensures DecideAction(confidence, true, DEFAULTS) ==
      if confidence < 50 then StoreAndWait else if confidence < 65 then Suggest
      else if confidence < 85 then SmartAssign else AutoResolve
    ensures DecideAction(confidence, false, DEFAULTS) ==
      if confidence < 50 then StoreAndWait else if confidence < 85 then Suggest else AutoResolve
  {
  }

  /** The most confidence a ticket of this priority can get. */
  function Ceiling(p: Priority): int {
    match p case LOW => 100 case MEDIUM => 99 case HIGH => 89 case URGENT => 79
  }

  lemma CeilingIsReached(p: Priority)
    ensures forall c: Context :: c.priority == p ==> Confidence(c) <= Ceiling(p)
    ensures exists c: Context :: c.priority == p && Confidence(c) == Ceiling(p)
  {
    assert Confidence(Context(101, false, false, p, 1, 1, false, 201)) == Ceiling(p);
  }

  predicate CanAutoResolve(p: Priority, t: Thresholds) {
    t.enableAutoResolve && t.autoResolve <= Ceiling(p)
  }

  /** Under any thresholds: some ticket of a priority gets resolved automatically exactly when
      that is enabled with a threshold within the priority's reach.  The default threshold is
      out of reach for URGENT only. */
  lemma AutoResolvableIff(p: Priority, t: Thresholds)
    ensures (exists c: Context, canAssign ::
               c.priority == p && DecideAction(Confidence(c), canAssign, t) == AutoResolve)
        <==> CanAutoResolve(p, t)
    ensures CanAutoResolve(p, DEFAULTS) <==> p != URGENT
  {
    CeilingIsReached(p);
    var best: Context :| best.priority == p && Confidence(best) == Ceiling(p);
    assert CanAutoResolve(p, t) ==> DecideAction(Confidence(best), true, t) == AutoResolve;
  }

  /** From waiting for a person to closing the ticket. */
  function Boldness(a: Action): nat {
    match a case StoreAndWait => 0 case Suggest => 1 case SmartAssign => 2 case AutoResolve => 3
  }

  /** Under any thresholds, more confidence never means a more timid action, and a free
      ticket is never treated more timidly than an assigned one. */
  lemma MoreConfidenceNeverActsLess(low: int, high: int, wasFree: bool, isFree: bool, t: Thresholds)
    requires low <= high && (wasFree ==> isFree)
    ensures Boldness(DecideAction(low, wasFree, t)) <= Boldness(DecideAction(high, isFree, t))
    ensures !isFree ==> DecideAction(high, isFree, t) != SmartAssign
  {
  }

  function CountAi(comments: seq<Comment>): nat {
    if comments == [] then 0 else CountAi(Init(comments)) + (if Last(comments).author == Ai then 1 else 0)
  }

  /** Where the AI comments stand. */
  function AiPlaces(comments: seq<Comment>): set<nat> {
    set i: nat | i < |comments| && comments[i].author == Ai
  }

  /** The AI comments of a ticket, counted. */
  lemma {:induction false} CountAiIsNumber(comments: seq<Comment>)
    ensures CountAi(comments) == |AiPlaces(comments)|
  {
    if comments != [] {
      CountAiIsNumber(Init(comments));
      assert AiPlaces(comments) ==
        AiPlaces(Init(comments)) + (if Last(comments).author == Ai then {|comments| - 1} else {});
    }
  }

  /** What an update writes: one message more, and AI off after resolving or with the fifth AI
      comment; the ticket is resolved by resolving only. */
  lemma UpdateMeans(ticket: Ticket, action: Action)
    requires ticket.fields.aiActive
    ensures var f := TicketUpdate(ticket, action);
      && f.aiMessageCount == ticket.fields.aiMessageCount + 1
      && (f.aiActive <==> action != AutoResolve && CountAi(ticket.comments) < 4)
      && f.status == (if action == AutoResolve then RESOLVED else ticket.fields.status)
      && f.hasAssignee == ticket.fields.hasAssignee
  {
  }

  /** buildTicketUpdate: the columns to write after a response. */
  function TicketUpdate(ticket: Ticket, action: Action): Fields {
    var counted := ticket.fields.(aiMessageCount := ticket.fields.aiMessageCount + 1);
    var acted := if action == AutoResolve then counted.(status := RESOLVED, aiActive := false) else counted;
    if CountAi(ticket.comments) + 1 >= MAX_MESSAGES then acted.(aiActive := false) else acted
  }
}

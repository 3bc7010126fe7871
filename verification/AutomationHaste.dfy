/** When a ticket can be answered again before the cooldown after an answer is over. */
module AutomationHaste {
  import opened Basics
  import opened AutomationGuards
  import opened AutomationProtocol
  import opened AutomationCooldown
  import opened AutomationContinuations
  import opened AutomationFinality

  /** Some continuation answers some comment of the ticket no later than this moment. */
  ghost predicate TicketCanBeAnswered(rules: Rules, s: State, t: TicketId, until: int) {
    exists c :: CanAnswer(rules, s, c, t, until)
  }

  /** Let in by the guard, or holding a copy whose cooldown is over by then. */
  predicate CanHurry(rules: Rules, me: Worker, until: int) {
    match me.phase
    case Loaded(snapshot) =>
      Passable(snapshot, me.comment) && CooledBy(snapshot.comments, until) && CooledInTime(rules, me, snapshot.comments)
    case Cleared => true
    case _ => false
  }

  ghost predicate SomeoneCanHurry(rules: Rules, s: State, t: TicketId, until: int) {
    exists w :: w in s.workers && s.workers[w].ticket == t && CanHurry(rules, s.workers[w], until)
  }

  // ---------------------------------------------------------------- nobody hurries

  /** The ticket shows an answer whose cooldown lasts beyond `until`, and nobody is left who
      read the ticket without it. */
  ghost predicate Calm(rules: Rules, s: State, t: TicketId, at: int, until: int) {
    && TicketsSound(s) && Admits(rules, s) && until < at + COOLDOWN
    && t in s.tickets && HasAiCommentAt(s.tickets[t], at)
    && (s.now <= until ==> !SomeoneCanHurry(rules, s, t, until))
  }

  lemma ShownStaysUncooled(row: Ticket, at: int, until: int)
    requires Chronological(row.comments) && HasAiCommentAt(row, at) && until < at + COOLDOWN
    ensures !CooledBy(row.comments, until)
  {
    var c :| c in row.comments && c.author == Ai && c.createdAt == at;
    HoldsAiComment(row.comments, c);
  }

  lemma AnswerStaysShown(cfg: Settings, s: State, step: Step, t: TicketId, at: int)
    requires Enabled(s, step) && t in s.tickets && HasAiCommentAt(s.tickets[t], at)
    ensures var s' := Next(cfg, s, step); t in s'.tickets && HasAiCommentAt(s'.tickets[t], at)
  {
    StepGrowsTables(cfg, s, step);
    var s' := Next(cfg, s, step);
    var c :| c in s.tickets[t].comments && c.author == Ai && c.createdAt == at;
    var i :| 0 <= i < |s.tickets[t].comments| && s.tickets[t].comments[i] == c;
    assert s'.tickets[t].comments[i] == c;
  }

  /** While the answer's cooldown lasts, reading the ticket and asking the guard let nobody by. */
  lemma ActionStaysSlow(rules: Rules, s: State, w: WorkerId, a: Action, at: int, until: int)
    requires CanAct(s, w, a) && !CanHurry(rules, s.workers[w], until) && s.now <= until
    requires Calm(rules, s, s.workers[w].ticket, at, until)
    ensures !CanHurry(rules, Myself(s, w, a), until)
  {
    var t := s.workers[w].ticket;
    match a
    case Load =>
      assert TicketSound(s, t, s.tickets[t]);
      ShownStaysUncooled(s.tickets[t], at, until);
    case Guard(_) => assert Holds(s, w);
    case _ =>
  }

  lemma StaysCalm(rules: Rules, s: State, step: Step, t: TicketId, at: int, until: int)
    requires Enabled(s, step) && Calm(rules, s, t, at, until) && Admits(rules, Next(rules.cfg, s, step))
    ensures Calm(rules, Next(rules.cfg, s, step), t, at, until)
  {
    var s' := Next(rules.cfg, s, step);
    StepGrowsTables(rules.cfg, s, step);
    StepKeepsTicketsSound(rules.cfg, s, step);
    AnswerStaysShown(rules.cfg, s, step, t, at);
    if s'.now <= until {
      forall w | w in s'.workers && s'.workers[w].ticket == t ensures !CanHurry(rules, s'.workers[w], until) {
        WorkerAfter(rules.cfg, s, step, w);
        if step.Work? && w == step.w { ActionStaysSlow(rules, s, w, step.a, at, until); }
      }
    }
  }

  lemma CalmStepsDoNotAnswer(rules: Rules, s: State, step: Step, t: TicketId, at: int, until: int)
    requires Enabled(s, step) && Calm(rules, s, t, at, until)
    ensures forall i, c :: |s.responses| <= i < |Next(rules.cfg, s, step).responses| ==>
      !Answers(Next(rules.cfg, s, step).responses[i], c, t, until)
  {
    NewResponse(rules.cfg, s, step);
  }

  lemma {:induction false} ContinuationStaysCalm(rules: Rules, s: State, more: seq<Step>, t: TicketId, at: int,
                                                 until: int)
    requires Calm(rules, s, t, at, until) && Continue(rules, s, more).Some?
    ensures Calm(rules, Continue(rules, s, more).value, t, at, until)
    ensures forall c :: !Answered(s, Continue(rules, s, more).value, c, t, until)
    ensures |s.responses| <= |Continue(rules, s, more).value.responses|
  {
    if more != [] {
      var before := Continue(rules, s, Init(more)).value;
      ContinuationStaysCalm(rules, s, Init(more), t, at, until);
      StaysCalm(rules, before, Last(more), t, at, until);
      CalmStepsDoNotAnswer(rules, before, Last(more), t, at, until);
      StepGrowsTables(rules.cfg, before, Last(more));
      var after := Next(rules.cfg, before, Last(more));
      forall i, c | |s.responses| <= i < |after.responses| ensures !Answers(after.responses[i], c, t, until) {
        if i < |before.responses| {
          assert after.responses[i] == before.responses[i];
          assert !Answered(s, before, c, t, until);
        }
      }
    }
  }

  // ---------------------------------------------------------------- somebody hurries

  lemma HurriesUndisturbed(rules: Rules, s: State, w: WorkerId, c: CommentId, t: TicketId, until: int)
    requires Undisturbed(rules, s, w, c, t) && CanHurry(rules, s.workers[w], until) && s.now <= until
    ensures CanAnswer(rules, s, c, t, until)
  {
    var me := s.workers[w];
    assert Holds(s, w);
    if me.phase.Cleared? {
      ClearedAnswers(rules, s, w, c, t);
      LaterIsFine(rules, s, c, t, s.now, until);
    } else {
      var moment := FirstMoment(me.phase.snapshot.comments, s.now);
      LoadedAnswers(rules, s, w, c, t, moment);
      LaterIsFine(rules, s, c, t, moment, until);
    }
  }

  lemma WhoCanHurryAnswers(rules: Rules, s: State, w: WorkerId, c: CommentId, t: TicketId, until: int)
    requires TicketsSound(s) && Admits(rules, s) && WorksOn(s, w, c, t)
    requires CanHurry(rules, s.workers[w], until) && s.now <= until
    ensures CanAnswer(rules, s, c, t, until)
  {
    var s' := OthersCrash(rules, s, w, c, t, s.workers.Keys - {w});
    HurriesUndisturbed(rules, s', w, c, t, until);
  }

  /** The cooldown after an answer can be broken exactly when some worker of the ticket has been
      let in by the guard already, or holds a passable copy whose own cooldown ends before.
      This holds for all runs, and also when runs and continuations must be punctual. */
  lemma {:induction false} CooldownIsBrokenIff(rules: Rules, steps: seq<Step>, r: Response)
    requires IsRun(rules, steps) && r in After(rules.cfg, steps).responses
    requires After(rules.cfg, steps).now < r.at + COOLDOWN
    ensures var s, until := After(rules.cfg, steps), r.at + COOLDOWN - 1;
      TicketCanBeAnswered(rules, s, r.ticket, until) <==> SomeoneCanHurry(rules, s, r.ticket, until)
  {
    var s, until := After(rules.cfg, steps), r.at + COOLDOWN - 1;
    EveryRunReadsSoundly(rules.cfg, steps);
    assert Shown(s, r);
    if SomeoneCanHurry(rules, s, r.ticket, until) {
      var w :| w in s.workers && s.workers[w].ticket == r.ticket && CanHurry(rules, s.workers[w], until);
      WhoCanHurryAnswers(rules, s, w, s.workers[w].comment, r.ticket, until);
    } else {
      forall c, more | Continue(rules, s, more).Some?
        ensures !Answered(s, Continue(rules, s, more).value, c, r.ticket, until)
      {
        ContinuationStaysCalm(rules, s, more, r.ticket, r.at, until);
      }
    }
  }
}

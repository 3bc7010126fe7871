/** When a comment with a live processed mark can still be answered again. */
module AutomationFinality {
  import opened Basics
  import opened AutomationGuards
  import opened AutomationProtocol
  import opened AutomationCooldown
  import opened AutomationContinuations

  /** Some continuation answers the comment no later than this moment. */
  ghost predicate CanBeAnswered(rules: Rules, s: State, c: CommentId, until: int) {
    exists t :: CanAnswer(rules, s, c, t, until)
  }

  ghost predicate SomeoneStillAnswers(rules: Rules, s: State, c: CommentId) {
    exists w :: w in s.workers && s.workers[w].comment == c && StillAnswers(rules, s, s.workers[w])
  }

  // ---------------------------------------------------------------- staying out

  /** The mark stands until m, and until then nobody is left who could answer. */
  ghost predicate Quiet(rules: Rules, s: State, c: CommentId, m: int) {
    && TicketsSound(s) && Admits(rules, s)
    && c in s.marks && m <= s.marks[c] && m <= s.now + rules.cfg.markTtl
    && (s.now <= m ==> !SomeoneStillAnswers(rules, s, c))
  }

  lemma StaysUnanswerable(cfg: Settings, s: State, step: Step, t: TicketId, c: CommentId)
    requires Enabled(s, step) && !Answerable(s, t, c)
    ensures !Answerable(Next(cfg, s, step), t, c)
  {
    var s' := Next(cfg, s, step);
    StepGrowsTables(cfg, s, step);
    if t in s'.tickets {
      var before := CommentsOf(s, t);
      assert Appended(s, s', t, before);
      assert forall x :: x in before && x.id == c ==> x.author != User;
      forall x | x in s'.tickets[t].comments && x.id == c ensures x.author != User {
        var i :| 0 <= i < |s'.tickets[t].comments| && s'.tickets[t].comments[i] == x;
        assert i < |before| ==> x == before[i] && x in before;
      }
    }
  }

  /** Later AI comments only lengthen the cooldown. */
  lemma StaysUncooled(rules: Rules, s: State, step: Step, me: Worker)
    requires Enabled(s, step) && TicketsSound(s) && !CooledInTime(rules, me, CommentsOf(s, me.ticket))
    ensures !CooledInTime(rules, me, CommentsOf(Next(rules.cfg, s, step), me.ticket))
  {
    var s' := Next(rules.cfg, s, step);
    StepGrowsTables(rules.cfg, s, step);
    StepKeepsTicketsSound(rules.cfg, s, step);
    assert TicketSound(s', me.ticket, s'.tickets[me.ticket]);
    LaterCommentsCoolLater(CommentsOf(s, me.ticket), s'.tickets[me.ticket].comments,
                           me.lockedAt + rules.cfg.lockTtl);
  }

  lemma LaterCommentsCoolLater(before: seq<Comment>, after: seq<Comment>, moment: int)
    requires before <= after && Chronological(after) && !CooledBy(before, moment)
    ensures !CooledBy(after, moment)
  {
    LastAiIsIn(before);
    HoldsAiComment(after, LastAi(before).value);
  }

  /** The last AI comment of a chronological list is no earlier than any other. */
  lemma {:induction false} HoldsAiComment(comments: seq<Comment>, c: Comment)
    requires Chronological(comments) && c in comments && c.author == Ai
    ensures LastAi(comments).Some? && c.createdAt <= LastAi(comments).value.createdAt
  {
    if LastAi(comments).None? {
      ReadyKeepsDistance(comments, c.createdAt);
    } else {
      ReadyKeepsDistance(comments, LastAi(comments).value.createdAt + COOLDOWN);
    }
  }

  /** With a live mark, a worker's action does not let it back in. */
  lemma ActionStaysOut(rules: Rules, s: State, w: WorkerId, a: Action)
    requires CanAct(s, w, a) && TicketsSound(s) && Admits(rules, s) && !StillAnswers(rules, s, s.workers[w])
    requires s.workers[w].comment in s.marks && Alive(s.marks[s.workers[w].comment], s.now)
    ensures !StillAnswers(rules, Next(rules.cfg, s, Work(w, a)), Myself(s, w, a))
  {
    var me := s.workers[w];
    match a
    case Acquire => StaysUnanswerable(rules.cfg, s, Work(w, a), me.ticket, me.comment);
    case Guard(_) => assert Holds(s, w);
    case _ =>
  }

  lemma OthersStayOut(rules: Rules, s: State, step: Step, me: Worker)
    requires Enabled(s, step) && TicketsSound(s) && !StillAnswers(rules, s, me)
    ensures !StillAnswers(rules, Next(rules.cfg, s, step), me)
  {
    if (me.phase.Checked? || me.phase.Locked?) && !Answerable(s, me.ticket, me.comment) {
      StaysUnanswerable(rules.cfg, s, step, me.ticket, me.comment);
    } else if me.phase.Locked? {
      StaysUncooled(rules, s, step, me);
    }
  }

  lemma MarkStands(rules: Rules, s: State, step: Step, c: CommentId, m: int)
    requires Enabled(s, step) && Quiet(rules, s, c, m)
    ensures var s' := Next(rules.cfg, s, step);
      c in s'.marks && m <= s'.marks[c] && m <= s'.now + rules.cfg.markTtl
  {
    if step.Env? { EnvLeavesKeys(rules.cfg, s, step.e); } else { ActMovesKeys(rules.cfg, s, step.w, step.a); }
  }

  lemma StaysQuiet(rules: Rules, s: State, step: Step, c: CommentId, m: int)
    requires Enabled(s, step) && Quiet(rules, s, c, m) && Admits(rules, Next(rules.cfg, s, step))
    ensures Quiet(rules, Next(rules.cfg, s, step), c, m)
  {
    var s' := Next(rules.cfg, s, step);
    StepGrowsTables(rules.cfg, s, step);
    StepKeepsTicketsSound(rules.cfg, s, step);
    MarkStands(rules, s, step, c, m);
    if s'.now <= m {
      forall w | w in s'.workers && s'.workers[w].comment == c ensures !StillAnswers(rules, s', s'.workers[w]) {
        WorkerAfter(rules.cfg, s, step, w);
        if step.Work? && w == step.w {
          ActionStaysOut(rules, s, w, step.a);
        } else if w in s.workers {
          OthersStayOut(rules, s, step, s.workers[w]);
        }
      }
    }
  }

  lemma QuietStepsDoNotAnswer(rules: Rules, s: State, step: Step, c: CommentId, m: int)
    requires Enabled(s, step) && Quiet(rules, s, c, m)
    ensures forall i, t :: |s.responses| <= i < |Next(rules.cfg, s, step).responses| ==>
      !Answers(Next(rules.cfg, s, step).responses[i], c, t, m)
  {
    NewResponse(rules.cfg, s, step);
  }

  lemma {:induction false} ContinuationStaysQuiet(rules: Rules, s: State, more: seq<Step>, c: CommentId, m: int)
    requires Quiet(rules, s, c, m) && Continue(rules, s, more).Some?
    ensures Quiet(rules, Continue(rules, s, more).value, c, m)
    ensures forall t :: !Answered(s, Continue(rules, s, more).value, c, t, m)
    ensures |s.responses| <= |Continue(rules, s, more).value.responses|
  {
    if more != [] {
      var before := Continue(rules, s, Init(more)).value;
      ContinuationStaysQuiet(rules, s, Init(more), c, m);
      StaysQuiet(rules, before, Last(more), c, m);
      QuietStepsDoNotAnswer(rules, before, Last(more), c, m);
      StepGrowsTables(rules.cfg, before, Last(more));
      var after := Next(rules.cfg, before, Last(more));
      forall i, t | |s.responses| <= i < |after.responses| ensures !Answers(after.responses[i], c, t, m) {
        if i < |before.responses| {
          assert after.responses[i] == before.responses[i];
          assert !Answered(s, before, c, t, m);
        }
      }
    }
  }

  // ---------------------------------------------------------------- every run

  /** No key outlives the time its last writer gave it. */
  ghost predicate Bounded(keys: map<CommentId, int>, now: int, ttl: nat) {
    forall c :: c in keys ==> keys[c] <= now + ttl
  }

  ghost predicate KeysBounded(cfg: Settings, s: State) {
    Bounded(s.locks, s.now, cfg.lockTtl) && Bounded(s.marks, s.now, cfg.markTtl)
  }

  lemma StepKeepsKeysBounded(cfg: Settings, s: State, step: Step)
    requires Enabled(s, step) && KeysBounded(cfg, s)
    ensures KeysBounded(cfg, Next(cfg, s, step))
  {
    if step.Env? { EnvLeavesKeys(cfg, s, step.e); } else { ActMovesKeys(cfg, s, step.w, step.a); }
  }

  lemma {:induction false} KeysStayBounded(cfg: Settings, steps: seq<Step>)
    requires Possible(cfg, steps)
    ensures KeysBounded(cfg, After(cfg, steps))
  {
    if steps != [] {
      KeysStayBounded(cfg, Init(steps));
      StepKeepsKeysBounded(cfg, After(cfg, Init(steps)), Last(steps));
    }
  }

  /** A live mark is final once nobody who overlooked it can still answer: whatever happens
      next, the comment gets no response while the mark lives. */
  lemma {:induction false} LiveMarksAreFinal(rules: Rules, steps: seq<Step>, c: CommentId)
    requires IsRun(rules, steps) && c in After(rules.cfg, steps).marks
    requires !SomeoneStillAnswers(rules, After(rules.cfg, steps), c)
    ensures !CanBeAnswered(rules, After(rules.cfg, steps), c, After(rules.cfg, steps).marks[c])
  {
    var s := After(rules.cfg, steps);
    EveryRunReadsSoundly(rules.cfg, steps);
    KeysStayBounded(rules.cfg, steps);
    forall t, more | Continue(rules, s, more).Some?
      ensures !Answered(s, Continue(rules, s, more).value, c, t, s.marks[c])
    {
      ContinuationStaysQuiet(rules, s, more, c, s.marks[c]);
    }
  }

  /** A comment whose mark outlives a lock and a cooldown can be answered again under that mark
      exactly when some worker past the processed check may still answer it.  This holds for
      all runs, and also when runs and continuations must be punctual: a worker inside its
      lock must then find the cooldown over before the lock ends. */
  lemma {:induction false} AnsweredAgainIff(rules: Rules, steps: seq<Step>, c: CommentId)
    requires IsRun(rules, steps) && c in After(rules.cfg, steps).marks
    requires After(rules.cfg, steps).now + rules.cfg.lockTtl + COOLDOWN < After(rules.cfg, steps).marks[c]
    ensures var s := After(rules.cfg, steps);
      CanBeAnswered(rules, s, c, s.marks[c]) <==> SomeoneStillAnswers(rules, s, c)
  {
    var s := After(rules.cfg, steps);
    EveryRunReadsSoundly(rules.cfg, steps);
    KeysStayBounded(rules.cfg, steps);
    if SomeoneStillAnswers(rules, s, c) {
      var w :| w in s.workers && s.workers[w].comment == c && StillAnswers(rules, s, s.workers[w]);
      var t := s.workers[w].ticket;
      WhoStillAnswersCan(rules, s, w, c, t);
      LaterIsFine(rules, s, c, t, s.now + rules.cfg.lockTtl + 1 + COOLDOWN, s.marks[c]);
    } else {
      LiveMarksAreFinal(rules, steps, c);
    }
  }
}

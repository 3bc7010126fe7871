/** Processed marks of the comment automation: what a worker's check saw, and when a live mark
    keeps a comment from being answered again. */
module AutomationMarks {
  import opened Basics
  import opened AutomationGuards
  import opened AutomationProtocol
  import opened AutomationCooldown

  ghost predicate PastCheck(s: State, w: WorkerId) {
    w in s.workers && !s.workers[w].phase.Arrived? && !s.workers[w].phase.Finished?
  }

  /** A check made at this moment overlooked no live mark. */
  ghost predicate CheckedHonestly(cfg: Settings, s: State, comment: CommentId, checkedStep: nat, checkedAt: int) {
    && checkedStep < s.step
    && (forall m :: m in s.markings && m.comment == comment && m.step < checkedStep
          ==> m.at + cfg.markTtl < checkedAt)
  }

  ghost predicate MarksRecorded(cfg: Settings, s: State) {
    forall m :: m in s.markings ==>
      (m.step < s.step && m.at <= s.now && m.comment in s.marks && m.at + cfg.markTtl <= s.marks[m.comment])
  }

  ghost predicate MarksSound(cfg: Settings, s: State) {
    && MarksRecorded(cfg, s)
    && (forall w :: PastCheck(s, w) ==>
          CheckedHonestly(cfg, s, s.workers[w].comment, s.workers[w].checkedStep, s.workers[w].checkedAt))
    && (forall r :: r in s.responses ==> CheckedHonestly(cfg, s, r.comment, r.checkedStep, r.checkedAt))
  }

  /** Marks appear only by marking, and time never runs backwards. */
  ghost predicate MarksMove(cfg: Settings, s: State, s': State, step: Step)
    requires Enabled(s, step)
  {
    && s'.now >= s.now
    && (if step.Work? && step.a == Mark(true)
        then (var c := s.workers[step.w].comment;
              && s'.marks == s.marks[c := s.now + cfg.markTtl]
              && s'.markings == s.markings + [Marking(c, s.now, s.step)])
        else s'.marks == s.marks && s'.markings == s.markings)
  }

  lemma EnvMovesMarks(cfg: Settings, s: State, e: Outside)
    requires CanHappen(s, e)
    ensures MarksMove(cfg, s, Happen(s, e), Env(e))
  {
  }

  lemma ActMovesMarks(cfg: Settings, s: State, w: WorkerId, a: Action)
    requires CanAct(s, w, a)
    ensures MarksMove(cfg, s, Act(cfg, s, w, a), Work(w, a))
  {
    match a
    case Mark(_) => case Respond(_) => case Update(_) => case Acquire => case _ =>
  }

  lemma StoresOfMarks(cfg: Settings, s: State, step: Step)
    requires Enabled(s, step)
    ensures MarksMove(cfg, s, Next(cfg, s, step), step) && Next(cfg, s, step).step == s.step + 1
  {
    match step
    case Env(e) => EnvMovesMarks(cfg, s, e);
    case Work(w, a) => ActMovesMarks(cfg, s, w, a);
  }

  lemma HonestyLasts(cfg: Settings, s: State, step: Step, comment: CommentId, checkedStep: nat, checkedAt: int)
    requires Enabled(s, step) && CheckedHonestly(cfg, s, comment, checkedStep, checkedAt)
    ensures CheckedHonestly(cfg, Next(cfg, s, step), comment, checkedStep, checkedAt)
  {
    StoresOfMarks(cfg, s, step);
  }

  lemma StepKeepsMarksRecorded(cfg: Settings, s: State, step: Step)
    requires Enabled(s, step) && MarksRecorded(cfg, s)
    ensures MarksRecorded(cfg, Next(cfg, s, step))
  {
    StoresOfMarks(cfg, s, step);
  }

  lemma PastCheckOnlyByChecking(s: State, w: WorkerId, a: Action)
    requires CanAct(s, w, a) && a != Check && Myself(s, w, a).phase != Finished
    ensures PastCheck(s, w)
    ensures var now, before := Myself(s, w, a), s.workers[w];
      now.comment == before.comment && now.checkedStep == before.checkedStep
      && now.checkedAt == before.checkedAt
  {
  }

  lemma CheckIsHonest(cfg: Settings, s: State, w: WorkerId)
    requires CanAct(s, w, Check) && MarksRecorded(cfg, s) && Myself(s, w, Check).phase == Checked
    ensures CheckedHonestly(cfg, Next(cfg, s, Work(w, Check)), s.workers[w].comment, s.step, s.now)
  {
    StoresOfMarks(cfg, s, Work(w, Check));
  }

  lemma StepKeepsChecksHonest(cfg: Settings, s: State, step: Step, v: WorkerId)
    requires Enabled(s, step) && MarksSound(cfg, s) && PastCheck(Next(cfg, s, step), v)
    ensures var me := Next(cfg, s, step).workers[v];
      CheckedHonestly(cfg, Next(cfg, s, step), me.comment, me.checkedStep, me.checkedAt)
  {
    if step.Work? && v == step.w {
      if step.a == Check {
        CheckIsHonest(cfg, s, v);
      } else {
        PastCheckOnlyByChecking(s, v, step.a);
        HonestyLasts(cfg, s, step, s.workers[v].comment, s.workers[v].checkedStep, s.workers[v].checkedAt);
      }
    } else {
      assert PastCheck(s, v) && Next(cfg, s, step).workers[v] == s.workers[v];
      HonestyLasts(cfg, s, step, s.workers[v].comment, s.workers[v].checkedStep, s.workers[v].checkedAt);
    }
  }

  lemma NewResponsesAreHonest(cfg: Settings, s: State, step: Step, r: Response)
    requires Enabled(s, step) && MarksSound(cfg, s) && r in Next(cfg, s, step).responses
    ensures CheckedHonestly(cfg, s, r.comment, r.checkedStep, r.checkedAt)
  {
    if r !in s.responses {
      assert step.Work?;
      StoresExtend(cfg, s, step.w, step.a);
      assert step.a.Respond? && PastCheck(s, step.w);
    }
  }

  lemma StepKeepsMarks(cfg: Settings, s: State, step: Step)
    requires Enabled(s, step) && MarksSound(cfg, s)
    ensures MarksSound(cfg, Next(cfg, s, step))
  {
    var s' := Next(cfg, s, step);
    StepKeepsMarksRecorded(cfg, s, step);
    forall v | PastCheck(s', v)
      ensures CheckedHonestly(cfg, s', s'.workers[v].comment, s'.workers[v].checkedStep, s'.workers[v].checkedAt)
    {
      StepKeepsChecksHonest(cfg, s, step, v);
    }
    forall r | r in s'.responses ensures CheckedHonestly(cfg, s', r.comment, r.checkedStep, r.checkedAt) {
      NewResponsesAreHonest(cfg, s, step, r);
      HonestyLasts(cfg, s, step, r.comment, r.checkedStep, r.checkedAt);
    }
  }

  lemma {:induction false} MarksStaySound(cfg: Settings, steps: seq<Step>)
    requires Possible(cfg, steps)
    ensures MarksSound(cfg, After(cfg, steps))
  {
    if steps != [] {
      MarksStaySound(cfg, Init(steps));
      StepKeepsMarks(cfg, After(cfg, Init(steps)), Last(steps));
    }
  }

  /** No worker that looked after a mark was written, while the mark lived, ever responds. */
  lemma {:induction false} MarkedCommentsStayAnswered(cfg: Settings, steps: seq<Step>)
    requires Possible(cfg, steps)
    ensures forall r, m :: r in After(cfg, steps).responses && m in After(cfg, steps).markings
              && m.comment == r.comment && m.step < r.checkedStep
              ==> m.at + cfg.markTtl < r.checkedAt
  {
    MarksStaySound(cfg, steps);
    var s := After(cfg, steps);
    forall r, m | r in s.responses && m in s.markings && m.comment == r.comment && m.step < r.checkedStep
      ensures m.at + cfg.markTtl < r.checkedAt
    {
      assert CheckedHonestly(cfg, s, r.comment, r.checkedStep, r.checkedAt);
    }
  }

  // ---------------------------------------------------------------- marks follow answers

  /** The comment was answered before this step. */
  ghost predicate AnsweredBefore(s: State, c: CommentId, k: nat) {
    exists i :: 0 <= i < |s.responses| && s.responses[i].comment == c && s.responses[i].step < k
  }

  /** Who has stored its response has one in the history, and so has every mark. */
  ghost predicate MarksFollow(s: State) {
    && (forall m :: m in s.markings ==> AnsweredBefore(s, m.comment, m.step))
    && (forall w :: w in s.workers && (s.workers[w].phase.Responded? || s.workers[w].phase.Updated?) ==>
          AnsweredBefore(s, s.workers[w].comment, s.step))
  }

  lemma AnsweredStays(s: State, s': State, c: CommentId, k: nat, l: nat)
    requires AnsweredBefore(s, c, k) && s.responses <= s'.responses && k <= l
    ensures AnsweredBefore(s', c, l)
  {
    var i :| 0 <= i < |s.responses| && s.responses[i].comment == c && s.responses[i].step < k;
    assert s'.responses[i] == s.responses[i];
  }

  /** What a worker that has responded, or just did, leaves behind. */
  lemma ActionFollows(cfg: Settings, s: State, w: WorkerId, a: Action)
    requires CanAct(s, w, a) && MarksFollow(s)
    requires Myself(s, w, a).phase.Responded? || Myself(s, w, a).phase.Updated?
    ensures AnsweredBefore(Next(cfg, s, Work(w, a)), s.workers[w].comment, s.step + 1)
  {
    var s', step := Next(cfg, s, Work(w, a)), Work(w, a);
    NewResponse(cfg, s, step);
    if a.Respond? {
      assert s'.responses[|s.responses|] == ResponseOf(s, s.workers[w]);
    } else {
      AnsweredStays(s, s', s.workers[w].comment, s.step, s.step + 1);
    }
  }

  lemma StepKeepsMarksFollow(cfg: Settings, s: State, step: Step)
    requires Enabled(s, step) && MarksFollow(s)
    ensures MarksFollow(Next(cfg, s, step))
  {
    var s' := Next(cfg, s, step);
    StoresOfMarks(cfg, s, step);
    StepGrowsTables(cfg, s, step);
    forall w | w in s'.workers && (s'.workers[w].phase.Responded? || s'.workers[w].phase.Updated?)
      ensures AnsweredBefore(s', s'.workers[w].comment, s'.step)
    {
      WorkerAfter(cfg, s, step, w);
      if step.Work? && w == step.w {
        ActionFollows(cfg, s, w, step.a);
      } else {
        AnsweredStays(s, s', s.workers[w].comment, s.step, s'.step);
      }
    }
    forall m | m in s'.markings ensures AnsweredBefore(s', m.comment, m.step) {
      if m in s.markings {
        AnsweredStays(s, s', m.comment, m.step, m.step);
      } else {
        AnsweredStays(s, s', s.workers[step.w].comment, s.step, s.step);
      }
    }
  }

  /** A comment is marked only after it was answered. */
  lemma {:induction false} OnlyAnsweredCommentsAreMarked(cfg: Settings, steps: seq<Step>)
    requires Possible(cfg, steps)
    ensures MarksFollow(After(cfg, steps))
    ensures forall m :: m in After(cfg, steps).markings ==>
      exists r :: r in After(cfg, steps).responses && r.comment == m.comment && r.step < m.step
  {
    if steps != [] {
      OnlyAnsweredCommentsAreMarked(cfg, Init(steps));
      StepKeepsMarksFollow(cfg, After(cfg, Init(steps)), Last(steps));
    }
    var s := After(cfg, steps);
    forall m | m in s.markings ensures exists r :: r in s.responses && r.comment == m.comment && r.step < m.step {
      assert AnsweredBefore(s, m.comment, m.step);
      var i :| 0 <= i < |s.responses| && s.responses[i].comment == m.comment && s.responses[i].step < m.step;
      assert s.responses[i] in s.responses;
    }
  }
}

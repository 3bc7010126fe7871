/** Runs of the comment automation that show what it does not guarantee. */
module AutomationScenarios {
  import opened Basics
  import opened AutomationGuards
  import opened AutomationProtocol

  /** Some run in which no lock outlives its time ends here. */
  ghost predicate Reachable(cfg: Settings, s: State) {
    exists steps :: Possible(cfg, steps) && Punctual(cfg, steps) && After(cfg, steps) == s
  }

  lemma ReachableIsClosed(cfg: Settings)
    ensures Reachable(cfg, EMPTY)
    ensures Closed(cfg, s => Reachable(cfg, s))
  {
    assert Possible(cfg, []) && Punctual(cfg, []) && After(cfg, []) == EMPTY;
    forall s, step | Reachable(cfg, s) && Enabled(s, step) && Prompt(cfg, Next(cfg, s, step))
      ensures Reachable(cfg, Next(cfg, s, step))
    {
      var steps :| Possible(cfg, steps) && Punctual(cfg, steps) && After(cfg, steps) == s;
      assert Init(steps + [step]) == steps && Last(steps + [step]) == step;
      assert After(cfg, steps + [step]) == Next(cfg, s, step);
    }
  }

  /** A set of states that no punctual step leaves; the scenarios below hold for any such set. */
  ghost predicate Closed(cfg: Settings, reached: State -> bool) {
    forall s, step :: reached(s) && Enabled(s, step) && Prompt(cfg, Next(cfg, s, step))
      ==> reached(Next(cfg, s, step))
  }

  lemma Advance(cfg: Settings, reached: State -> bool, s: State, step: Step) returns (s': State)
    requires Closed(cfg, reached) && reached(s) && Enabled(s, step) && Prompt(cfg, Next(cfg, s, step))
    ensures s' == Next(cfg, s, step) && reached(s')
  {
    s' := Next(cfg, s, step);
  }

  // One step at a time, each with its effect spelled out.

  function Counted(s: State): State {
    s.(step := s.step + 1)
  }

  function Moved(s: State, w: WorkerId, me: Worker): State {
    Counted(s.(workers := s.workers[w := me]))
  }

  lemma DoArrive(cfg: Settings, reached: State -> bool, s: State, w: WorkerId, c: CommentId, t: TicketId)
    returns (s': State)
    requires Closed(cfg, reached) && reached(s) && w !in s.workers && Prompt(cfg, s)
    ensures reached(s') && Prompt(cfg, s') && s' == Moved(s, w, Newcomer(c, t))
  {
    s' := Advance(cfg, reached, s, Env(Arrive(w, c, t)));
  }

  lemma DoCheck(cfg: Settings, reached: State -> bool, s: State, w: WorkerId) returns (s': State)
    requires Closed(cfg, reached) && reached(s) && w in s.workers && s.workers[w].phase.Arrived? && Prompt(cfg, s)
    requires s.workers[w].comment !in s.marks
    ensures reached(s') && Prompt(cfg, s')
    ensures s' == Moved(s, w, s.workers[w].(phase := Checked, checkedAt := s.now, checkedStep := s.step))
  {
    s' := Advance(cfg, reached, s, Work(w, Check));
  }

  lemma DoAddComment(cfg: Settings, reached: State -> bool, s: State, t: TicketId, id: CommentId) returns (s': State)
    requires Closed(cfg, reached) && reached(s) && t in s.tickets && id !in s.home && Prompt(cfg, s)
    ensures reached(s') && Prompt(cfg, s') && s' == Counted(WithComment(s, t, id, User))
  {
    s' := Advance(cfg, reached, s, Env(AddComment(t, id, User)));
  }

  lemma DoTick(cfg: Settings, reached: State -> bool, s: State, ms: nat) returns (s': State)
    requires Closed(cfg, reached) && reached(s) && Prompt(cfg, s.(now := s.now + ms))
    ensures reached(s') && Prompt(cfg, s') && s' == Counted(s.(now := s.now + ms))
  {
    s' := Advance(cfg, reached, s, Env(Tick(ms)));
  }

  predicate MayEnter(s: State, w: WorkerId)
  {
    && w in s.workers && s.workers[w].phase.Checked?
    && s.workers[w].comment !in s.locks
    && s.workers[w].ticket in s.tickets
    && IsUserComment(s.tickets[s.workers[w].ticket], s.workers[w].comment)
    && ShouldProcess(s.tickets[s.workers[w].ticket], None, s.now) == Ready
  }

  lemma DoAcquire(cfg: Settings, reached: State -> bool, s: State, w: WorkerId) returns (s': State)
    requires Closed(cfg, reached) && reached(s) && MayEnter(s, w) && Prompt(cfg, s)
    ensures reached(s') && Prompt(cfg, s')
    ensures s' == Moved(s, w, s.workers[w].(phase := Locked, lockedAt := s.now))
                  .(locks := s.locks[s.workers[w].comment := s.now + cfg.lockTtl])
  {
    s' := Advance(cfg, reached, s, Work(w, Acquire));
  }

  lemma DoLoad(cfg: Settings, reached: State -> bool, s: State, w: WorkerId) returns (s': State)
    requires Closed(cfg, reached) && reached(s) && w in s.workers && s.workers[w].phase.Locked? && Prompt(cfg, s)
    requires s.workers[w].ticket in s.tickets
    ensures reached(s') && Prompt(cfg, s')
    ensures s' == Moved(s, w, s.workers[w].(phase := Loaded(s.tickets[s.workers[w].ticket]), loadedStep := s.step))
  {
    s' := Advance(cfg, reached, s, Work(w, Load));
  }

  lemma DoGuard(cfg: Settings, reached: State -> bool, s: State, w: WorkerId) returns (s': State)
    requires Closed(cfg, reached) && reached(s) && w in s.workers && s.workers[w].phase.Loaded? && Prompt(cfg, s)
    requires GuardPasses(s.workers[w], None, s.now)
    ensures reached(s') && Prompt(cfg, s') && s' == Moved(s, w, s.workers[w].(phase := Cleared))
  {
    s' := Advance(cfg, reached, s, Work(w, Guard(None)));
  }

  lemma DoRespond(cfg: Settings, reached: State -> bool, s: State, w: WorkerId, id: CommentId) returns (s': State)
    requires Closed(cfg, reached) && reached(s) && w in s.workers && s.workers[w].phase.Cleared? && Prompt(cfg, s)
    requires s.workers[w].ticket in s.tickets && id !in s.home
    ensures reached(s') && Prompt(cfg, s')
    ensures var me := s.workers[w];
      s' == Moved(WithComment(s, me.ticket, id, Ai), w, me.(phase := Responded))
            .(responses := s.responses + [ResponseOf(s, me)])
  {
    s' := Advance(cfg, reached, s, Work(w, Respond(id)));
  }

  /** The stores that a worker leaves alone while it enters and answers. */
  predicate SameHistory(s: State, s': State) {
    s'.now == s.now && s.step <= s'.step && s'.marks == s.marks && s'.markings == s.markings
  }

  /** From the lock to the guard's consent, undisturbed. */
  lemma Enter(cfg: Settings, reached: State -> bool, s: State, w: WorkerId) returns (s': State)
    requires Closed(cfg, reached) && reached(s) && MayEnter(s, w) && Prompt(cfg, s)
    ensures reached(s') && Prompt(cfg, s') && SameHistory(s, s')
    ensures s'.tickets == s.tickets && s'.home == s.home && s'.responses == s.responses
    ensures s'.locks == s.locks[s.workers[w].comment := s.now + cfg.lockTtl]
    ensures s'.workers ==
      s.workers[w := s.workers[w].(phase := Cleared, lockedAt := s.now, loadedStep := s.step + 1)]
  {
    s' := DoAcquire(cfg, reached, s, w);
    s' := DoLoad(cfg, reached, s', w);
    s' := DoGuard(cfg, reached, s', w);
  }

  /** From the lock to a stored response, undisturbed. */
  lemma Answer(cfg: Settings, reached: State -> bool, s: State, w: WorkerId, id: CommentId) returns (s': State)
    requires Closed(cfg, reached) && reached(s) && MayEnter(s, w) && id !in s.home && Prompt(cfg, s)
    ensures reached(s') && Prompt(cfg, s') && SameHistory(s, s')
    ensures s'.tickets == WithComment(s, s.workers[w].ticket, id, Ai).tickets
    ensures s'.home == s.home[id := s.workers[w].ticket]
    ensures s'.locks == s.locks[s.workers[w].comment := s.now + cfg.lockTtl]
    ensures s'.workers ==
      s.workers[w := s.workers[w].(phase := Responded, lockedAt := s.now, loadedStep := s.step + 1)]
    ensures |s'.responses| == |s.responses| + 1 && s.responses <= s'.responses
    ensures var r := Last(s'.responses);
      && r.comment == s.workers[w].comment && r.checkedStep == s.workers[w].checkedStep
      && r.at == s.now && s.step <= r.step < s'.step
  {
    var s1 := Enter(cfg, reached, s, w);
    s' := DoRespond(cfg, reached, s1, w, id);
  }

  /** What a worker leaves behind that finishes properly: its mark, and no lock. */
  predicate Marked(cfg: Settings, s: State, s': State, c: CommentId) {
    && s'.now == s.now && s'.tickets == s.tickets && s'.home == s.home && s'.responses == s.responses
    && s'.locks == s.locks - {c}
    && s'.marks == s.marks[c := s.now + cfg.markTtl]
    && |s'.markings| == |s.markings| + 1 && s.markings <= s'.markings
    && Last(s'.markings).comment == c && Last(s'.markings).at == s.now && s.step <= Last(s'.markings).step < s'.step
  }

  lemma MarkAndRelease(cfg: Settings, reached: State -> bool, s: State, w: WorkerId) returns (s': State)
    requires Closed(cfg, reached) && reached(s) && w in s.workers && s.workers[w].phase.Updated? && Prompt(cfg, s)
    ensures reached(s') && Prompt(cfg, s') && Marked(cfg, s, s', s.workers[w].comment)
    ensures s'.workers == s.workers[w := s.workers[w].(phase := Finished)]
  {
    var s1 := Advance(cfg, reached, s, Work(w, Mark(true)));
    s' := Advance(cfg, reached, s1, Work(w, Release(true)));
  }

  lemma Finish(cfg: Settings, reached: State -> bool, s: State, w: WorkerId) returns (s': State)
    requires Closed(cfg, reached) && reached(s) && w in s.workers && s.workers[w].phase.Responded? && Prompt(cfg, s)
    requires s.workers[w].ticket in s.tickets
    ensures reached(s') && Prompt(cfg, s') && Marked(cfg, s, s', s.workers[w].comment)
    ensures s'.workers == s.workers[w := s.workers[w].(phase := Finished)]
  {
    var t := s.workers[w].ticket;
    assert s.tickets[t := s.tickets[t]] == s.tickets;
    var s1 := Advance(cfg, reached, s, Work(w, Update(s.tickets[t].fields)));
    assert s1 == Moved(s, w, s.workers[w].(phase := Updated));
    s' := MarkAndRelease(cfg, reached, s1, w);
  }

  const ASKED := NEW_TICKET.(comments := [Comment(10, User, 0), Comment(11, User, 0)])

  /** Two user comments on a fresh ticket, and two workers past the processed check. */
  lemma TwoWorkersChecked(cfg: Settings, reached: State -> bool, second: CommentId) returns (s: State)
    requires Closed(cfg, reached) && reached(EMPTY)
    requires second == 10 || second == 11
    ensures reached(s) && Prompt(cfg, s) && s.now == 0 && s.locks == map[] && s.responses == [] && s.markings == []
    ensures s.tickets == map[0 := ASKED] && s.home == map[10 := 0, 11 := 0]
    ensures s.workers.Keys == {1, 2}
    ensures s.workers[1].comment == 10 && s.workers[1].phase == Checked && s.workers[1].ticket == 0
    ensures s.workers[2].comment == second && s.workers[2].phase == Checked && s.workers[2].ticket == 0
    ensures s.workers[2].checkedStep < s.step
  {
    s := OneTicket(cfg, reached);
    s := DoArrive(cfg, reached, s, 1, 10, 0);
    s := DoArrive(cfg, reached, s, 2, second, 0);
    s := DoCheck(cfg, reached, s, 1);
    s := DoCheck(cfg, reached, s, 2);
  }

  lemma OneTicket(cfg: Settings, reached: State -> bool) returns (s: State)
    requires Closed(cfg, reached) && reached(EMPTY)
    ensures reached(s) && Prompt(cfg, s)
    ensures s == EMPTY.(
      step := 3, home := map[10 := 0, 11 := 0],
      tickets := map[0 := ASKED])
  {
    s := Advance(cfg, reached, EMPTY, Env(OpenTicket(0, NEW_TICKET)));
    assert s == EMPTY.(step := 1, tickets := map[0 := NEW_TICKET]);
    s := DoAddComment(cfg, reached, s, 0, 10);
    s := DoAddComment(cfg, reached, s, 0, 11);
    assert [] + [Comment(10, User, 0)] + [Comment(11, User, 0)] == [Comment(10, User, 0), Comment(11, User, 0)];
  }

  lemma UsersAskedFor(id: CommentId)
    requires id == 10 || id == 11
    ensures IsUserComment(ASKED, id) && IsUserComment(ASKED.(comments := ASKED.comments + [Comment(20, Ai, 0)]), id)
    ensures LastAi(ASKED.comments) == None
  {
    var comments := ASKED.comments + [Comment(20, Ai, 0)];
    assert ASKED.comments[id - 10] in ASKED.comments && comments[id - 10] in comments;
    assert Init(ASKED.comments) == [Comment(10, User, 0)];
  }

  /** The first worker has answered and marked the comment that the second has checked before. */
  predicate FirstIsDone(cfg: Settings, s: State) {
    && |s.responses| == 1 && |s.markings| == 1 && s.markings[0].at == 0
    && s.responses[0].comment == s.markings[0].comment == 10 && s.responses[0].step < s.markings[0].step
    && s.workers.Keys == {1, 2}
    && s.workers[2].comment == 10 && s.workers[2].phase == Checked && s.workers[2].ticket == 0
    && s.workers[2].checkedStep < s.markings[0].step < s.step
  }

  lemma FirstAnswerDone(cfg: Settings, reached: State -> bool) returns (s: State)
    requires Closed(cfg, reached) && reached(EMPTY)
    ensures reached(s) && Prompt(cfg, s) && FirstIsDone(cfg, s) && s.now == 0
    ensures s.tickets == map[0 := ASKED.(comments := ASKED.comments + [Comment(20, Ai, 0)])]
    ensures s.locks == map[] && s.home == map[10 := 0, 11 := 0, 20 := 0]
    ensures !Holds(s, 1)
  {
    s := TwoWorkersChecked(cfg, reached, 10);
    UsersAskedFor(10);
    s := Answer(cfg, reached, s, 1, 20);
    s := Finish(cfg, reached, s, 1);
  }

  /** The second worker finds its comment answered `COOLDOWN` ago, and the lock free. */
  lemma FirstAnswerOld(cfg: Settings, reached: State -> bool) returns (s: State)
    requires Closed(cfg, reached) && reached(EMPTY)
    ensures reached(s) && Prompt(cfg, s) && FirstIsDone(cfg, s) && s.now == COOLDOWN
    ensures MayEnter(s, 2) && 21 !in s.home
  {
    s := FirstAnswerDone(cfg, reached);
    s := DoTick(cfg, reached, s, COOLDOWN);
    UsersAskedFor(10);
    assert LastAi(s.tickets[0].comments) == Some(Comment(20, Ai, 0));
  }

  /** The second response came from a check before the mark, and while the mark lived. */
  predicate AnsweredUnderMark(cfg: Settings, s: State, m: Marking) {
    && |s.responses| == 2 && s.responses[0].comment == s.responses[1].comment == m.comment
    && s.responses[0].step < m.step < s.responses[1].step
    && s.responses[1].checkedStep < m.step && s.responses[1].at <= m.at + cfg.markTtl
  }

  lemma AnswerTwice(cfg: Settings, reached: State -> bool) returns (s: State)
    requires Closed(cfg, reached) && reached(EMPTY) && cfg.markTtl >= COOLDOWN
    ensures reached(s) && |s.markings| == 1 && AnsweredUnderMark(cfg, s, s.markings[0])
  {
    s := FirstAnswerOld(cfg, reached);
    s := Answer(cfg, reached, s, 2, 21);
  }

  /** A comment can be answered twice although the first answer was marked, the mark still
      lives and no lock lapsed: the second worker had looked for the mark before there was
      one, and nobody looks again under the lock. */
  lemma CommentsCanBeAnsweredTwice(cfg: Settings)
    requires cfg.markTtl >= COOLDOWN
    ensures exists s, m :: Reachable(cfg, s) && m in s.markings && AnsweredUnderMark(cfg, s, m)
  {
    ReachableIsClosed(cfg);
    var s := AnswerTwice(cfg, s => Reachable(cfg, s));
    assert s.markings[0] in s.markings;
  }

  /** One worker is about to answer, the other may enter for another comment of the ticket. */
  lemma FirstAnswerPending(cfg: Settings, reached: State -> bool) returns (s: State)
    requires Closed(cfg, reached) && reached(EMPTY)
    ensures reached(s) && Prompt(cfg, s) && MayEnter(s, 2)
    ensures s.home == map[10 := 0, 11 := 0] && s.responses == []
    ensures 1 in s.workers && s.workers[1].phase == Cleared
    ensures s.workers[1].comment == 10 && s.workers[2].comment == 11
    ensures s.workers[1].ticket == s.workers[2].ticket == 0
  {
    s := TwoWorkersChecked(cfg, reached, 11);
    UsersAskedFor(10);
    UsersAskedFor(11);
    s := Enter(cfg, reached, s, 1);
  }

  lemma AnswerTogether(cfg: Settings, reached: State -> bool) returns (s: State)
    requires Closed(cfg, reached) && reached(EMPTY)
    ensures reached(s) && |s.responses| == 2 && s.responses[0].at == s.responses[1].at
    ensures s.responses[0].comment in s.home && s.responses[1].comment in s.home
    ensures s.home[s.responses[0].comment] == s.home[s.responses[1].comment]
  {
    s := FirstAnswerPending(cfg, reached);
    s := Answer(cfg, reached, s, 2, 21);
    s := DoRespond(cfg, reached, s, 1, 20);
  }

  /** The cooldown is kept per comment only: two comments of one ticket can be answered
      at the same instant. */
  lemma TicketsCanBeAnsweredWithoutCooldown(cfg: Settings)
    ensures exists s ::
      && Reachable(cfg, s) && |s.responses| == 2
      && s.responses[0].comment in s.home && s.responses[1].comment in s.home
      && s.home[s.responses[0].comment] == s.home[s.responses[1].comment]
      && s.responses[0].at == s.responses[1].at
  {
    ReachableIsClosed(cfg);
    var s := AnswerTogether(cfg, s => Reachable(cfg, s));
  }

  lemma HoldTooLong(cfg: Settings, reached: State -> bool) returns (s: State)
    requires Closed(cfg, reached) && reached(EMPTY)
    ensures reached(s)
    ensures var late := Next(cfg, s, Env(Tick(cfg.lockTtl + 1)));
      Enabled(late, Work(2, Acquire)) && !MutuallyExclusive(Next(cfg, late, Work(2, Acquire)))
  {
    s := TwoWorkersChecked(cfg, reached, 10);
    s := DoAcquire(cfg, reached, s, 1);
    var late := Next(cfg, s, Env(Tick(cfg.lockTtl + 1)));
    var both := Next(cfg, late, Work(2, Acquire));
    assert Holds(both, 1) && Holds(both, 2);
  }

  /** Punctuality is needed: one millisecond past the lock's time a second worker gets in. */
  lemma LapsedLocksLetOthersIn(cfg: Settings)
    ensures exists s ::
      && Reachable(cfg, s)
      && Enabled(Next(cfg, s, Env(Tick(cfg.lockTtl + 1))), Work(2, Acquire))
      && !MutuallyExclusive(Next(cfg, Next(cfg, s, Env(Tick(cfg.lockTtl + 1))), Work(2, Acquire)))
  {
    ReachableIsClosed(cfg);
    var s := HoldTooLong(cfg, s => Reachable(cfg, s));
  }
}

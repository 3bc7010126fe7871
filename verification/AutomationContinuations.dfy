/** What can still happen to the comment automation from a state on, and how a worker past the
    processed check gets to its answer. */
module AutomationContinuations {
  import opened Basics
  import opened AutomationGuards
  import opened AutomationProtocol
  import opened AutomationCooldown

  // ---------------------------------------------------------------- continuations

  /** Continuations may have to be punctual: no lock is then held past its time. */
  datatype Rules = Rules(cfg: Settings, punctual: bool)

  ghost predicate Admits(rules: Rules, s: State) {
    rules.punctual ==> Prompt(rules.cfg, s)
  }

  /** The state after some more steps, if they are possible. */
  ghost function Continue(rules: Rules, s: State, more: seq<Step>): Option<State> {
    if more == [] then Some(s)
    else
      var before := Continue(rules, s, Init(more));
      if before.Some? && Enabled(before.value, Last(more)) && Admits(rules, Next(rules.cfg, before.value, Last(more)))
      then Some(Next(rules.cfg, before.value, Last(more))) else None
  }

  ghost predicate IsRun(rules: Rules, steps: seq<Step>) {
    Possible(rules.cfg, steps) && (rules.punctual ==> Punctual(rules.cfg, steps))
  }

  /** A continuation of a run's last state is a longer run, and the other way round. */
  lemma {:induction false} ContinuationsAreRuns(rules: Rules, steps: seq<Step>, more: seq<Step>)
    requires IsRun(rules, steps)
    ensures IsRun(rules, steps + more) <==> Continue(rules, After(rules.cfg, steps), more).Some?
    ensures IsRun(rules, steps + more) ==>
      Continue(rules, After(rules.cfg, steps), more) == Some(After(rules.cfg, steps + more))
    decreases |more|
  {
    if more == [] {
      assert steps + more == steps;
    } else {
      assert Init(steps + more) == steps + Init(more) && Last(steps + more) == Last(more);
      ContinuationsAreRuns(rules, steps, Init(more));
    }
  }

  lemma {:induction false} StepFirst(rules: Rules, s: State, step: Step, more: seq<Step>)
    requires Enabled(s, step) && Admits(rules, Next(rules.cfg, s, step))
    ensures Continue(rules, s, [step] + more) == Continue(rules, Next(rules.cfg, s, step), more)
  {
    if more == [] {
      assert [step] + more == [step] && Init([step]) == [];
    } else {
      assert Init([step] + more) == [step] + Init(more) && Last([step] + more) == Last(more);
      StepFirst(rules, s, step, Init(more));
    }
  }

  /** Between the two states somebody answered this comment of this ticket, no later than
      this moment. */
  ghost predicate Answered(s: State, s': State, c: CommentId, t: TicketId, until: int) {
    exists i :: |s.responses| <= i < |s'.responses| && Answers(s'.responses[i], c, t, until)
  }

  predicate Answers(r: Response, c: CommentId, t: TicketId, until: int) {
    r.comment == c && r.ticket == t && r.at <= until
  }

  ghost predicate CanAnswer(rules: Rules, s: State, c: CommentId, t: TicketId, until: int) {
    exists more :: Continue(rules, s, more).Some? && Answered(s, Continue(rules, s, more).value, c, t, until)
  }

  lemma StepBack(rules: Rules, s: State, step: Step, c: CommentId, t: TicketId, until: int)
    requires Enabled(s, step) && Admits(rules, Next(rules.cfg, s, step))
    requires CanAnswer(rules, Next(rules.cfg, s, step), c, t, until)
    ensures CanAnswer(rules, s, c, t, until)
  {
    var s' := Next(rules.cfg, s, step);
    var more :| Continue(rules, s', more).Some? && Answered(s', Continue(rules, s', more).value, c, t, until);
    StepFirst(rules, s, step, more);
    StepGrowsTables(rules.cfg, s, step);
    assert Answered(s, Continue(rules, s, [step] + more).value, c, t, until);
  }

  lemma AnsweredByStep(rules: Rules, s: State, step: Step, c: CommentId, t: TicketId)
    requires Enabled(s, step) && Admits(rules, Next(rules.cfg, s, step))
    requires |s.responses| < |Next(rules.cfg, s, step).responses|
    requires Answers(Next(rules.cfg, s, step).responses[|s.responses|], c, t, s.now)
    ensures CanAnswer(rules, s, c, t, s.now)
  {
    StepFirst(rules, s, step, []);
    assert [step] + [] == [step];
    assert Answered(s, Continue(rules, s, [step]).value, c, t, s.now);
  }

  lemma LaterIsFine(rules: Rules, s: State, c: CommentId, t: TicketId, early: int, late: int)
    requires CanAnswer(rules, s, c, t, early) && early <= late
    ensures CanAnswer(rules, s, c, t, late)
  {
    var more :| Continue(rules, s, more).Some? && Answered(s, Continue(rules, s, more).value, c, t, early);
    var s' := Continue(rules, s, more).value;
    var i :| |s.responses| <= i < |s'.responses| && Answers(s'.responses[i], c, t, early);
    assert Answers(s'.responses[i], c, t, late);
    assert Answered(s, s', c, t, late);
  }

  // ---------------------------------------------------------------- who can still answer

  /** The comment is a user's comment of the ticket, or does not exist yet. */
  predicate Answerable(s: State, t: TicketId, c: CommentId) {
    c !in s.home || (t in s.tickets && IsUserComment(s.tickets[t], c))
  }

  /** Given time and a generous organisation the guard lets this copy pass. */
  predicate Passable(snapshot: Ticket, c: CommentId) {
    && IsUserComment(snapshot, c)
    && snapshot.fields.aiActive && !(snapshot.fields.hasAssignee && snapshot.fields.status == IN_PROGRESS)
  }

  /** The cooldown after the last AI comment is over by then. */
  predicate CooledBy(comments: seq<Comment>, moment: int) {
    LastAi(comments).Some? ==> LastAi(comments).value.createdAt + COOLDOWN <= moment
  }

  /** The cooldown ends while the worker may hold its lock, if that matters. */
  predicate CooledInTime(rules: Rules, me: Worker, comments: seq<Comment>) {
    rules.punctual ==> CooledBy(comments, me.lockedAt + rules.cfg.lockTtl)
  }

  /** Past the processed check and not yet turned away. */
  predicate StillAnswers(rules: Rules, s: State, me: Worker) {
    match me.phase
    case Checked => Answerable(s, me.ticket, me.comment)
    case Locked => Answerable(s, me.ticket, me.comment) && CooledInTime(rules, me, CommentsOf(s, me.ticket))
    case Loaded(snapshot) => Passable(snapshot, me.comment) && CooledInTime(rules, me, snapshot.comments)
    case Cleared => true
    case _ => false
  }

  // ---------------------------------------------------------------- keys

  lemma EnvLeavesKeys(cfg: Settings, s: State, e: Outside)
    requires CanHappen(s, e)
    ensures var s' := Next(cfg, s, Env(e));
      s'.locks == s.locks && s'.marks == s.marks && s.now <= s'.now
  {
  }

  /** A worker writes a key with its full lifetime, deletes it, or leaves it. */
  lemma ActMovesKeys(cfg: Settings, s: State, w: WorkerId, a: Action)
    requires CanAct(s, w, a)
    ensures var s', c := Next(cfg, s, Work(w, a)), s.workers[w].comment;
      && s'.now == s.now
      && (s'.locks == s.locks || s'.locks == s.locks - {c} || s'.locks == s.locks[c := s.now + cfg.lockTtl])
      && (s'.marks == s.marks || s'.marks == s.marks[c := s.now + cfg.markTtl])
  {
    match a case Respond(_) => case Update(_) => case _ =>
  }

  // ---------------------------------------------------------------- one worker undisturbed

  /** Nobody else is inside a lock, if that matters. */
  ghost predicate Alone(rules: Rules, s: State, w: WorkerId) {
    rules.punctual ==> Prompt(rules.cfg, s) && forall v :: Holds(s, v) ==> v == w
  }

  /** The worker's own steps, and what the rest of the system does but for waiting. */
  predicate Instant(step: Step, w: WorkerId) {
    match step
    case Env(e) => !e.Tick? && !e.Arrive?
    case Work(v, _) => v == w
  }

  lemma EnvStaysAlone(rules: Rules, s: State, e: Outside, w: WorkerId)
    requires CanHappen(s, e) && Instant(Env(e), w) && Alone(rules, s, w)
    ensures Alone(rules, Next(rules.cfg, s, Env(e)), w)
  {
    var s' := Next(rules.cfg, s, Env(e));
    assert s'.workers == s.workers && s'.now == s.now;
    assert forall v :: Holds(s', v) == Holds(s, v);
  }

  lemma ActStaysAlone(rules: Rules, s: State, w: WorkerId, a: Action)
    requires CanAct(s, w, a) && Alone(rules, s, w)
    ensures Alone(rules, Next(rules.cfg, s, Work(w, a)), w)
  {
    var s' := Next(rules.cfg, s, Work(w, a));
    ActMovesKeys(rules.cfg, s, w, a);
    if !a.Acquire? && !a.Release? { QuietActions(rules.cfg, s, w, a); }
    forall v | Holds(s', v) && v != w ensures Holds(s, v) {
      WorkerAfter(rules.cfg, s, Work(w, a), v);
    }
    assert s'.workers[w] == Myself(s, w, a);
  }

  lemma InstantStaysAlone(rules: Rules, s: State, step: Step, w: WorkerId)
    requires Enabled(s, step) && Instant(step, w) && Alone(rules, s, w)
    ensures Alone(rules, Next(rules.cfg, s, step), w) && Admits(rules, Next(rules.cfg, s, step))
  {
    if step.Env? { EnvStaysAlone(rules, s, step.e, w); } else { ActStaysAlone(rules, s, w, step.a); }
  }

  /** Waiting is fine while the lock lives. */
  lemma WaitStaysAlone(rules: Rules, s: State, ms: nat, w: WorkerId)
    requires Alone(rules, s, w)
    requires rules.punctual && Holds(s, w) ==> Alive(s.workers[w].lockedAt + rules.cfg.lockTtl, s.now + ms)
    ensures var s' := Next(rules.cfg, s, Env(Tick(ms))); Alone(rules, s', w) && Admits(rules, s')
  {
    assert forall v :: Holds(Next(rules.cfg, s, Env(Tick(ms))), v) == Holds(s, v);
  }

  // ---------------------------------------------------------------- the way to an answer

  predicate WorksOn(s: State, w: WorkerId, c: CommentId, t: TicketId) {
    w in s.workers && s.workers[w].comment == c && s.workers[w].ticket == t
  }

  ghost predicate Undisturbed(rules: Rules, s: State, w: WorkerId, c: CommentId, t: TicketId) {
    TicketsSound(s) && WorksOn(s, w, c, t) && Alone(rules, s, w)
  }

  /** A step that leaves the worker undisturbed takes it no further from its answer. */
  lemma Through(rules: Rules, s: State, step: Step, w: WorkerId, c: CommentId, t: TicketId)
    requires Undisturbed(rules, s, w, c, t) && Enabled(s, step) && Instant(step, w)
    ensures Undisturbed(rules, Next(rules.cfg, s, step), w, c, t)
    ensures forall until :: CanAnswer(rules, Next(rules.cfg, s, step), c, t, until) ==> CanAnswer(rules, s, c, t, until)
  {
    StepKeepsTicketsSound(rules.cfg, s, step);
    InstantStaysAlone(rules, s, step, w);
    WorkerAfter(rules.cfg, s, step, w);
    forall until | CanAnswer(rules, Next(rules.cfg, s, step), c, t, until) ensures CanAnswer(rules, s, c, t, until) {
      StepBack(rules, s, step, c, t, until);
    }
  }

  lemma ThroughWait(rules: Rules, s: State, ms: nat, w: WorkerId, c: CommentId, t: TicketId)
    requires Undisturbed(rules, s, w, c, t)
    requires rules.punctual && Holds(s, w) ==> Alive(s.workers[w].lockedAt + rules.cfg.lockTtl, s.now + ms)
    ensures var s' := Next(rules.cfg, s, Env(Tick(ms)));
      && Undisturbed(rules, s', w, c, t)
      && forall until :: CanAnswer(rules, s', c, t, until) ==> CanAnswer(rules, s, c, t, until)
  {
    var wait := Env(Tick(ms));
    StepKeepsTicketsSound(rules.cfg, s, wait);
    WaitStaysAlone(rules, s, ms, w);
    forall until | CanAnswer(rules, Next(rules.cfg, s, wait), c, t, until) ensures CanAnswer(rules, s, c, t, until) {
      StepBack(rules, s, wait, c, t, until);
    }
  }

  lemma {:induction false} SomeIdIsFree(ids: set<CommentId>) returns (id: CommentId)
    ensures forall x :: x in ids ==> x < id
  {
    if ids == {} {
      id := 0;
    } else {
      var x :| x in ids;
      var bound := SomeIdIsFree(ids - {x});
      id := if bound > x then bound else x + 1;
      assert forall y :: y in ids ==> y == x || y in ids - {x};
    }
  }

  lemma StoresAnswer(rules: Rules, s: State, w: WorkerId, c: CommentId, t: TicketId)
    requires Undisturbed(rules, s, w, c, t) && s.workers[w].phase.Cleared? && t in s.tickets
    ensures CanAnswer(rules, s, c, t, s.now)
  {
    var id := SomeIdIsFree(s.home.Keys);
    NewResponse(rules.cfg, s, Work(w, Respond(id)));
    InstantStaysAlone(rules, s, Work(w, Respond(id)), w);
    AnsweredByStep(rules, s, Work(w, Respond(id)), c, t);
  }

  lemma ClearedAnswers(rules: Rules, s: State, w: WorkerId, c: CommentId, t: TicketId)
    requires Undisturbed(rules, s, w, c, t) && s.workers[w].phase.Cleared?
    ensures CanAnswer(rules, s, c, t, s.now)
  {
    if t in s.tickets {
      StoresAnswer(rules, s, w, c, t);
    } else {
      var open := Env(OpenTicket(t, NEW_TICKET));
      Through(rules, s, open, w, c, t);
      StoresAnswer(rules, Next(rules.cfg, s, open), w, c, t);
    }
  }

  /** After the cooldown an organisation that allows one more message lets the worker pass. */
  lemma GuardAnswers(rules: Rules, s: State, w: WorkerId, c: CommentId, t: TicketId)
    requires Undisturbed(rules, s, w, c, t)
    requires s.workers[w].phase.Loaded? && Passable(s.workers[w].phase.snapshot, c)
    requires CooledBy(s.workers[w].phase.snapshot.comments, s.now)
    ensures CanAnswer(rules, s, c, t, s.now)
  {
    var snapshot := s.workers[w].phase.snapshot;
    var ask := Work(w, Guard(Some(OrgConfig(true, snapshot.fields.aiMessageCount + 1))));
    WorkerAfter(rules.cfg, s, ask, w);
    Through(rules, s, ask, w, c, t);
    ClearedAnswers(rules, Next(rules.cfg, s, ask), w, c, t);
  }

  /** At this moment the worker's copy has cooled and its lock, if that matters, still lives. */
  lemma LoadedAnswers(rules: Rules, s: State, w: WorkerId, c: CommentId, t: TicketId, moment: int)
    requires Undisturbed(rules, s, w, c, t) && s.now <= moment
    requires s.workers[w].phase.Loaded? && Passable(s.workers[w].phase.snapshot, c)
    requires CooledBy(s.workers[w].phase.snapshot.comments, moment)
    requires rules.punctual ==> Alive(s.workers[w].lockedAt + rules.cfg.lockTtl, moment)
    ensures CanAnswer(rules, s, c, t, moment)
  {
    ThroughWait(rules, s, moment - s.now, w, c, t);
    GuardAnswers(rules, Next(rules.cfg, s, Env(Tick(moment - s.now))), w, c, t);
  }

  ghost predicate LockedIn(rules: Rules, s: State, w: WorkerId, c: CommentId, t: TicketId, moment: int) {
    && Undisturbed(rules, s, w, c, t) && s.now <= moment
    && s.workers[w].phase.Locked? && CooledBy(CommentsOf(s, t), moment)
    && (rules.punctual ==> Alive(s.workers[w].lockedAt + rules.cfg.lockTtl, moment))
  }

  lemma ReaderAnswers(rules: Rules, s: State, w: WorkerId, c: CommentId, t: TicketId, moment: int)
    requires LockedIn(rules, s, w, c, t, moment) && t in s.tickets && Passable(s.tickets[t], c)
    ensures CanAnswer(rules, s, c, t, moment)
  {
    Through(rules, s, Work(w, Load), w, c, t);
    WorkerAfter(rules.cfg, s, Work(w, Load), w);
    LoadedAnswers(rules, Next(rules.cfg, s, Work(w, Load)), w, c, t, moment);
  }

  lemma LockedAnswersUser(rules: Rules, s: State, w: WorkerId, c: CommentId, t: TicketId, moment: int)
    requires LockedIn(rules, s, w, c, t, moment) && t in s.tickets && IsUserComment(s.tickets[t], c)
    ensures CanAnswer(rules, s, c, t, moment)
  {
    var edit := Env(EditTicket(t, NEW_TICKET.fields));
    Through(rules, s, edit, w, c, t);
    ReaderAnswers(rules, Next(rules.cfg, s, edit), w, c, t, moment);
  }

  lemma LockedAnswersNew(rules: Rules, s: State, w: WorkerId, c: CommentId, t: TicketId, moment: int)
    requires LockedIn(rules, s, w, c, t, moment) && t in s.tickets && c !in s.home
    ensures CanAnswer(rules, s, c, t, moment)
  {
    var add := Env(AddComment(t, c, User));
    Through(rules, s, add, w, c, t);
    var s' := Next(rules.cfg, s, add);
    assert Init(s'.tickets[t].comments) == s.tickets[t].comments;
    assert Last(s'.tickets[t].comments) == Comment(c, User, s.now);
    LockedAnswersUser(rules, s', w, c, t, moment);
  }

  lemma LockedAnswers(rules: Rules, s: State, w: WorkerId, c: CommentId, t: TicketId, moment: int)
    requires LockedIn(rules, s, w, c, t, moment) && Answerable(s, t, c)
    ensures CanAnswer(rules, s, c, t, moment)
  {
    if c in s.home {
      LockedAnswersUser(rules, s, w, c, t, moment);
    } else if t in s.tickets {
      LockedAnswersNew(rules, s, w, c, t, moment);
    } else {
      var open := Env(OpenTicket(t, NEW_TICKET));
      Through(rules, s, open, w, c, t);
      LockedAnswersNew(rules, Next(rules.cfg, s, open), w, c, t, moment);
    }
  }

  lemma EntrantAnswers(rules: Rules, s: State, w: WorkerId, c: CommentId, t: TicketId)
    requires Undisturbed(rules, s, w, c, t) && s.workers[w].phase.Checked? && Answerable(s, t, c)
    requires (c in s.locks ==> s.locks[c] < s.now) && CooledBy(CommentsOf(s, t), s.now)
    ensures CanAnswer(rules, s, c, t, s.now)
  {
    Through(rules, s, Work(w, Acquire), w, c, t);
    WorkerAfter(rules.cfg, s, Work(w, Acquire), w);
    LockedAnswers(rules, Next(rules.cfg, s, Work(w, Acquire)), w, c, t, s.now);
  }

  /** No comment of a sound ticket is from the future, so the cooldown is over after it. */
  lemma CooldownPasses(s: State, t: TicketId)
    requires TicketsSound(s)
    ensures CooledBy(CommentsOf(s, t), s.now + COOLDOWN)
  {
    if LastAi(CommentsOf(s, t)).Some? {
      LastAiIsIn(CommentsOf(s, t));
      assert TicketSound(s, t, s.tickets[t]);
    }
  }

  lemma CheckedAnswers(rules: Rules, s: State, w: WorkerId, c: CommentId, t: TicketId)
    requires Undisturbed(rules, s, w, c, t) && s.workers[w].phase.Checked? && Answerable(s, t, c)
    requires c in s.locks ==> s.locks[c] <= s.now + rules.cfg.lockTtl
    ensures CanAnswer(rules, s, c, t, s.now + rules.cfg.lockTtl + 1 + COOLDOWN)
  {
    CooldownPasses(s, t);
    ThroughWait(rules, s, rules.cfg.lockTtl + 1 + COOLDOWN, w, c, t);
    EntrantAnswers(rules, Next(rules.cfg, s, Env(Tick(rules.cfg.lockTtl + 1 + COOLDOWN))), w, c, t);
  }

  /** The first moment from now on at which these comments let an answer pass. */
  function FirstMoment(comments: seq<Comment>, now: int): (moment: int)
    ensures now <= moment && CooledBy(comments, moment)
    ensures forall later :: now <= later && CooledBy(comments, later) ==> moment <= later
  {
    if CooledBy(comments, now) then now else LastAi(comments).value.createdAt + COOLDOWN
  }

  /** An undisturbed worker that may still answer can do so soon. */
  lemma UndisturbedAnswers(rules: Rules, s: State, w: WorkerId, c: CommentId, t: TicketId)
    requires Undisturbed(rules, s, w, c, t) && StillAnswers(rules, s, s.workers[w])
    requires c in s.locks ==> s.locks[c] <= s.now + rules.cfg.lockTtl
    ensures CanAnswer(rules, s, c, t, s.now + rules.cfg.lockTtl + 1 + COOLDOWN)
  {
    var me, end := s.workers[w], s.now + rules.cfg.lockTtl + 1 + COOLDOWN;
    if me.phase.Checked? {
      CheckedAnswers(rules, s, w, c, t);
    } else if me.phase.Locked? {
      var moment := FirstMoment(CommentsOf(s, t), s.now);
      CooldownPasses(s, t);
      assert Holds(s, w);
      LockedAnswers(rules, s, w, c, t, moment);
      LaterIsFine(rules, s, c, t, moment, end);
    } else if me.phase.Loaded? {
      var moment := FirstMoment(me.phase.snapshot.comments, s.now);
      CopyCools(s, t, me.phase.snapshot);
      assert Holds(s, w);
      LoadedAnswers(rules, s, w, c, t, moment);
      LaterIsFine(rules, s, c, t, moment, end);
    } else {
      ClearedAnswers(rules, s, w, c, t);
      LaterIsFine(rules, s, c, t, s.now, end);
    }
  }

  lemma CopyCools(s: State, t: TicketId, snapshot: Ticket)
    requires TicketSound(s, t, snapshot)
    ensures CooledBy(snapshot.comments, s.now + COOLDOWN)
  {
    if LastAi(snapshot.comments).Some? { LastAiIsIn(snapshot.comments); }
  }

  // ---------------------------------------------------------------- clearing the way

  /** As far as this worker can tell, nothing has happened. */
  predicate SameFor(s: State, s': State, w: WorkerId) {
    && s'.now == s.now && s'.tickets == s.tickets && s'.home == s.home && s'.locks == s.locks
    && w in s.workers && w in s'.workers && s'.workers[w] == s.workers[w]
  }

  lemma CrashIsAdmitted(rules: Rules, s: State, v: WorkerId)
    requires v in s.workers && Admits(rules, s)
    ensures Admits(rules, Next(rules.cfg, s, Work(v, Crash)))
    ensures forall u :: Holds(Next(rules.cfg, s, Work(v, Crash)), u) <==> Holds(s, u) && u != v
  {
    var s' := Next(rules.cfg, s, Work(v, Crash));
    forall u ensures Holds(s', u) <==> Holds(s, u) && u != v {
      if u != v { OthersStand(rules.cfg, s, v, Crash, u); }
    }
    forall u | Holds(s', u) ensures s'.workers[u] == s.workers[u] {
      OthersStand(rules.cfg, s, v, Crash, u);
    }
  }

  /** The other workers inside a lock may all crash at once. */
  lemma {:induction false} OthersCrash(rules: Rules, s: State, w: WorkerId, c: CommentId, t: TicketId,
                                       others: set<WorkerId>)
    returns (s': State)
    requires TicketsSound(s) && WorksOn(s, w, c, t) && Admits(rules, s) && w !in others && others <= s.workers.Keys
    requires forall v :: Holds(s, v) ==> v == w || v in others
    ensures Undisturbed(rules, s', w, c, t) && SameFor(s, s', w)
    ensures forall until :: CanAnswer(rules, s', c, t, until) ==> CanAnswer(rules, s, c, t, until)
    decreases others
  {
    s' := s;
    if others != {} {
      var v :| v in others;
      var crash := Work(v, Crash);
      var s1 := Next(rules.cfg, s, crash);
      CrashIsAdmitted(rules, s, v);
      StepKeepsTicketsSound(rules.cfg, s, crash);
      s' := OthersCrash(rules, s1, w, c, t, others - {v});
      forall until | CanAnswer(rules, s1, c, t, until) ensures CanAnswer(rules, s, c, t, until) {
        StepBack(rules, s, crash, c, t, until);
      }
    }
  }

  /** Who may still answer can: the others may be out of the way. */
  lemma WhoStillAnswersCan(rules: Rules, s: State, w: WorkerId, c: CommentId, t: TicketId)
    requires TicketsSound(s) && WorksOn(s, w, c, t) && Admits(rules, s) && StillAnswers(rules, s, s.workers[w])
    requires c in s.locks ==> s.locks[c] <= s.now + rules.cfg.lockTtl
    ensures CanAnswer(rules, s, c, t, s.now + rules.cfg.lockTtl + 1 + COOLDOWN)
  {
    var s' := OthersCrash(rules, s, w, c, t, s.workers.Keys - {w});
    UndisturbedAnswers(rules, s', w, c, t);
  }
}

/** The cooldown of the comment automation seen ticket by ticket: nothing here assumes that
    locks work. */
module AutomationCooldown {
  import opened Basics
  import opened AutomationGuards
  import opened AutomationProtocol

  // ---------------------------------------------------------------- tables and snapshots

  /** Tickets and the copies that workers hold are in order and not from the future. */
  ghost predicate TicketsSound(s: State) {
    && (forall t :: t in s.tickets ==> TicketSound(s, t, s.tickets[t]))
    && (forall w :: w in s.workers && s.workers[w].phase.Loaded? ==>
          TicketSound(s, s.workers[w].ticket, s.workers[w].phase.snapshot))
  }

  predicate Shown(s: State, r: Response) {
    r.step < s.step && r.ticket in s.tickets && HasAiCommentAt(s.tickets[r.ticket], r.at)
  }

  ghost predicate ResponsesShown(s: State) {
    forall r :: r in s.responses ==> Shown(s, r)
  }

  /** The response was stored before this worker read the ticket. */
  predicate SeenBy(r: Response, me: Worker) {
    r.ticket == me.ticket && r.step < me.loadedStep
  }

  /** What a worker has read, and what the guard concluded from it. */
  ghost predicate ReadSound(s: State, me: Worker) {
    && me.loadedStep <= s.step
    && (me.phase.Loaded? ==> forall r :: r in s.responses && SeenBy(r, me) ==> HasAiCommentAt(me.phase.snapshot, r.at))
    && (me.phase.Cleared? ==> forall r :: r in s.responses && SeenBy(r, me) ==> r.at + COOLDOWN <= s.now)
  }

  ghost predicate ReadsSound(s: State) {
    forall w :: w in s.workers ==> ReadSound(s, s.workers[w])
  }

  /** The later answer's worker had read the ticket with the earlier answer in it. */
  predicate Saw(later: Response, earlier: Response) {
    later.ticket == earlier.ticket && earlier.step < later.loadedStep
  }

  ghost predicate SeenAnswersSpaced(responses: seq<Response>) {
    forall i, j :: 0 <= i < j < |responses| && Saw(responses[j], responses[i]) ==>
      responses[i].at + COOLDOWN <= responses[j].at
  }

  // ---------------------------------------------------------------- steps

  /** How one step changes the tables. */
  ghost predicate TablesGrow(s: State, s': State) {
    && s.now <= s'.now
    && (forall id :: id in s.home ==> id in s'.home && s'.home[id] == s.home[id])
    && (forall t :: t in s.tickets ==> t in s'.tickets && s.tickets[t].comments <= s'.tickets[t].comments)
    && s.responses <= s'.responses
  }

  /** What a step appends to the comments of a ticket is new, dated now and the ticket's. */
  ghost predicate Appended(s: State, s': State, t: TicketId, before: seq<Comment>)
    requires t in s'.tickets
  {
    && before <= s'.tickets[t].comments
    && (forall i :: |before| <= i < |s'.tickets[t].comments| ==>
          var c := s'.tickets[t].comments[i];
          c.createdAt == s'.now && c.id !in s.home && c.id in s'.home && s'.home[c.id] == t)
  }

  function CommentsOf(s: State, t: TicketId): seq<Comment> {
    if t in s.tickets then s.tickets[t].comments else []
  }

  lemma EnvGrowsTables(s: State, e: Outside)
    requires CanHappen(s, e)
    ensures TablesGrow(s, Happen(s, e))
    ensures forall t :: t in Happen(s, e).tickets ==> Appended(s, Happen(s, e), t, CommentsOf(s, t))
  {
  }

  lemma RespondGrowsTables(cfg: Settings, s: State, w: WorkerId, id: CommentId)
    requires CanAct(s, w, Respond(id))
    ensures var s' := Act(cfg, s, w, Respond(id));
      && TablesGrow(s, s')
      && forall t :: t in s'.tickets ==> Appended(s, s', t, CommentsOf(s, t))
  {
  }

  lemma OthersGrowTables(cfg: Settings, s: State, w: WorkerId, a: Action)
    requires CanAct(s, w, a) && !a.Respond?
    ensures var s' := Act(cfg, s, w, a);
      && TablesGrow(s, s')
      && s'.responses == s.responses
      && forall t :: t in s'.tickets ==> s'.tickets[t].comments == CommentsOf(s, t)
  {
    match a case Update(_) => case _ =>
  }

  lemma ActGrowsTables(cfg: Settings, s: State, w: WorkerId, a: Action)
    requires CanAct(s, w, a)
    ensures var s' := Act(cfg, s, w, a);
      && TablesGrow(s, s')
      && forall t :: t in s'.tickets ==> Appended(s, s', t, CommentsOf(s, t))
  {
    if a.Respond? { RespondGrowsTables(cfg, s, w, a.id); } else { OthersGrowTables(cfg, s, w, a); }
  }

  lemma StepGrowsTables(cfg: Settings, s: State, step: Step)
    requires Enabled(s, step)
    ensures var s' := Next(cfg, s, step);
      && TablesGrow(s, s') && s'.step == s.step + 1
      && forall t :: t in s'.tickets ==> Appended(s, s', t, CommentsOf(s, t))
  {
    if step.Env? { EnvGrowsTables(s, step.e); } else { ActGrowsTables(cfg, s, step.w, step.a); }
    var s' := Next(cfg, s, step);
    var applied := Applied(cfg, s, step);
    forall t | t in s'.tickets ensures Appended(s, s', t, CommentsOf(s, t)) {
      assert Appended(s, applied, t, CommentsOf(s, t));
    }
  }

  lemma CopyLasts(s: State, s': State, t: TicketId, row: Ticket)
    requires TicketSound(s, t, row) && TablesGrow(s, s')
    ensures TicketSound(s', t, row)
  {
  }

  lemma TicketStaysSound(s: State, s': State, t: TicketId)
    requires TablesGrow(s, s') && t in s'.tickets && Appended(s, s', t, CommentsOf(s, t))
    requires t in s.tickets ==> TicketSound(s, t, s.tickets[t])
    ensures TicketSound(s', t, s'.tickets[t])
  {
    var comments, before := s'.tickets[t].comments, CommentsOf(s, t);
    forall i, j | 0 <= i < j < |comments| ensures comments[i].createdAt <= comments[j].createdAt {
      if j < |before| { assert before[i] == comments[i] && before[j] == comments[j]; }
      if i < |before| <= j { assert before[i] == comments[i] && before[i] in before; }
    }
    forall c | c in comments ensures c.createdAt <= s'.now && c.id in s'.home && s'.home[c.id] == t {
      var i :| 0 <= i < |comments| && comments[i] == c;
      if i < |before| { assert before[i] == c; }
    }
  }

  lemma ShownLasts(s: State, s': State, r: Response)
    requires Shown(s, r) && TablesGrow(s, s') && s.step <= s'.step
    ensures Shown(s', r)
  {
    var c :| c in s.tickets[r.ticket].comments && c.author == Ai && c.createdAt == r.at;
    var i :| 0 <= i < |s.tickets[r.ticket].comments| && s.tickets[r.ticket].comments[i] == c;
    assert s'.tickets[r.ticket].comments[i] == c;
  }

  /** The response that a step adds, if it adds one. */
  lemma NewResponse(cfg: Settings, s: State, step: Step)
    requires Enabled(s, step)
    ensures var s' := Next(cfg, s, step);
      if step.Work? && step.a.Respond? && s.workers[step.w].ticket in s.tickets
      then var me := s.workers[step.w];
        && me.phase.Cleared? && s'.responses == s.responses + [ResponseOf(s, me)]
        && me.ticket in s'.tickets
        && s'.tickets[me.ticket].comments == s.tickets[me.ticket].comments + [Comment(step.a.id, Ai, s.now)]
      else s'.responses == s.responses
  {
    if step.Work? && !step.a.Respond? { OthersGrowTables(cfg, s, step.w, step.a); }
  }

  lemma ResponsesStayShown(cfg: Settings, s: State, step: Step)
    requires Enabled(s, step) && ResponsesShown(s)
    ensures ResponsesShown(Next(cfg, s, step))
  {
    var s' := Next(cfg, s, step);
    StepGrowsTables(cfg, s, step);
    NewResponse(cfg, s, step);
    forall r | r in s'.responses ensures Shown(s', r) {
      if r in s.responses {
        ShownLasts(s, s', r);
      } else {
        var comments := s'.tickets[r.ticket].comments;
        assert comments[|comments| - 1].author == Ai && comments[|comments| - 1].createdAt == r.at;
      }
    }
  }

  /** What a step does to one worker. */
  lemma WorkerAfter(cfg: Settings, s: State, step: Step, v: WorkerId)
    requires Enabled(s, step) && v in Next(cfg, s, step).workers
    ensures var me := Next(cfg, s, step).workers[v];
      if step.Work? && v == step.w then me == Myself(s, v, step.a)
      else if v in s.workers then me == s.workers[v]
      else step.Env? && step.e.Arrive? && me == Newcomer(step.e.comment, step.e.ticket)
  {
  }

  lemma StepKeepsTicketsSound(cfg: Settings, s: State, step: Step)
    requires Enabled(s, step) && TicketsSound(s)
    ensures TicketsSound(Next(cfg, s, step))
  {
    var s' := Next(cfg, s, step);
    StepGrowsTables(cfg, s, step);
    forall t | t in s'.tickets ensures TicketSound(s', t, s'.tickets[t]) {
      TicketStaysSound(s, s', t);
    }
    forall v | v in s'.workers && s'.workers[v].phase.Loaded?
      ensures TicketSound(s', s'.workers[v].ticket, s'.workers[v].phase.snapshot)
    {
      WorkerAfter(cfg, s, step, v);
      CopyLasts(s, s', s'.workers[v].ticket, s'.workers[v].phase.snapshot);
    }
  }

  /** Reading and clearing leave true knowledge. */
  lemma ActionReadsSoundly(s: State, w: WorkerId, a: Action)
    requires CanAct(s, w, a) && TicketsSound(s) && ResponsesShown(s) && ReadsSound(s)
    ensures ReadSound(s, Myself(s, w, a))
  {
    var me := s.workers[w];
    assert ReadSound(s, me);
    if a.Load? {
      forall r | r in s.responses && r.ticket == me.ticket && me.ticket in s.tickets
        ensures HasAiCommentAt(s.tickets[me.ticket], r.at)
      {
        assert Shown(s, r);
      }
    } else if a.Guard? {
      if GuardPasses(me, a.org, s.now) {
        ReadyKeepsDistance(me.phase.snapshot.comments, s.now);
        forall r | r in s.responses && SeenBy(r, me) ensures r.at + COOLDOWN <= s.now {
          assert HasAiCommentAt(me.phase.snapshot, r.at);
        }
      }
    }
  }

  lemma ReadingLasts(s: State, s': State, me: Worker)
    requires ReadSound(s, me) && TablesGrow(s, s') && s.step <= s'.step
    requires forall r :: r in s'.responses ==> r in s.responses || r.step == s.step
    ensures ReadSound(s', me)
  {
  }

  lemma StepKeepsReadsSound(cfg: Settings, s: State, step: Step)
    requires Enabled(s, step) && TicketsSound(s) && ResponsesShown(s) && ReadsSound(s)
    ensures ReadsSound(Next(cfg, s, step))
  {
    var s' := Next(cfg, s, step);
    StepGrowsTables(cfg, s, step);
    NewResponse(cfg, s, step);
    forall v | v in s'.workers ensures ReadSound(s', s'.workers[v]) {
      WorkerAfter(cfg, s, step, v);
      if step.Work? && v == step.w { ActionReadsSoundly(s, v, step.a); }
      if v in s.workers { ReadingLasts(s, s', s'.workers[v]); }
    }
  }

  lemma StepKeepsSeenSpaced(cfg: Settings, s: State, step: Step)
    requires Enabled(s, step) && ReadsSound(s) && SeenAnswersSpaced(s.responses)
    ensures SeenAnswersSpaced(Next(cfg, s, step).responses)
  {
    NewResponse(cfg, s, step);
    if step.Work? { assert ReadSound(s, s.workers[step.w]); }
  }

  // ---------------------------------------------------------------- every run

  ghost predicate ReadInv(s: State) {
    TicketsSound(s) && ResponsesShown(s) && ReadsSound(s) && SeenAnswersSpaced(s.responses)
  }

  lemma {:induction false} EveryRunReadsSoundly(cfg: Settings, steps: seq<Step>)
    requires Possible(cfg, steps)
    ensures ReadInv(After(cfg, steps))
  {
    if steps != [] {
      EveryRunReadsSoundly(cfg, Init(steps));
      var s := After(cfg, Init(steps));
      StepKeepsTicketsSound(cfg, s, Last(steps));
      ResponsesStayShown(cfg, s, Last(steps));
      StepKeepsReadsSound(cfg, s, Last(steps));
      StepKeepsSeenSpaced(cfg, s, Last(steps));
    }
  }

  /** In every run, whatever happens to locks: if the worker of a later answer read the ticket
      after an earlier answer was stored, the two answers are at least thirty seconds apart,
      whichever comments of the ticket they answer. */
  lemma {:induction false} AnswersSeenKeepTheCooldown(cfg: Settings, steps: seq<Step>, i: nat, j: nat)
    requires Possible(cfg, steps) && i < j < |After(cfg, steps).responses|
    requires Saw(After(cfg, steps).responses[j], After(cfg, steps).responses[i])
    ensures After(cfg, steps).responses[i].at + COOLDOWN <= After(cfg, steps).responses[j].at
  {
    EveryRunReadsSoundly(cfg, steps);
  }
}

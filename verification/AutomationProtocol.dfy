/**
  The comment automation as a protocol (ai.automation.service.js, handleCommentAdded).

  Any number of workers take events for any comments.  Each goes through: look for the
  processed mark, take the comment's lock, read the ticket, pass the guard, store the
  response, update the ticket, write the mark, release the lock.  Between two such steps
  of one worker anything may happen: steps of other workers, new comments, edits, time.
 */
module AutomationProtocol {
  import opened Basics
  import opened AutomationGuards

  type WorkerId = nat
  type CommentId = nat
  type TicketId = nat

  datatype Phase =
    | Arrived                     // before the processed check
    | Checked                     // found no live mark
    | Locked                      // owns the lock
    | Loaded(snapshot: Ticket)    // has read the ticket
    | Cleared                     // the guard said yes
    | Responded                   // stored the AI comment
    | Updated                     // updated the ticket
    | Releasing                   // in the finally block
    | Finished

  /** The moments of a worker's check, lock and read are history. */
  datatype Worker = Worker(
    comment: CommentId, ticket: TicketId, phase: Phase,
    checkedAt: int, checkedStep: nat, lockedAt: int, loadedStep: nat)

  /** A worker that has just taken its event. */
  function Newcomer(comment: CommentId, ticket: TicketId): Worker {
    Worker(comment, ticket, Arrived, 0, 0, 0, 0)
  }

  /** One AI comment stored by a worker, with the moments of that worker's check and read. */
  datatype Response = Response(
    comment: CommentId, ticket: TicketId, at: int, step: nat,
    checkedAt: int, checkedStep: nat, loadedStep: nat)

  /** What the worker stores now. */
  function ResponseOf(s: State, me: Worker): Response {
    Response(me.comment, me.ticket, s.now, s.step, me.checkedAt, me.checkedStep, me.loadedStep)
  }

  /** One processed mark written. */
  datatype Marking = Marking(comment: CommentId, at: int, step: nat)

  datatype Settings = Settings(lockTtl: nat, markTtl: nat)

  /** Clock, Redis keys (comment to expiry), database, workers, and the history of interest. */
  datatype State = State(
    now: int, step: nat,
    locks: map<CommentId, int>, marks: map<CommentId, int>,
    tickets: map<TicketId, Ticket>, home: map<CommentId, TicketId>,
    workers: map<WorkerId, Worker>,
    responses: seq<Response>, markings: seq<Marking>)

  const EMPTY := State(0, 0, map[], map[], map[], map[], map[], [], [])

  /** What the rest of the system does. */
  datatype Outside =
    | Tick(ms: nat)
    | OpenTicket(ticket: TicketId, row: Ticket)
    | AddComment(ticket: TicketId, id: CommentId, author: Author)
    | EditTicket(ticket: TicketId, fields: Fields)
    | Arrive(worker: WorkerId, comment: CommentId, ticket: TicketId)

  /** What one worker does. */
  datatype Action =
    | Check
    | Acquire
    | Load
    | Guard(org: Option<OrgConfig>)
    | Respond(id: CommentId)
    | Update(fields: Fields)
    | Mark(reached: bool)       // a failed write of the mark goes unnoticed
    | Throw                     // any exception inside the try block
    | Release(reached: bool)    // so does a failed delete of the lock
    | Crash

  datatype Step = Env(e: Outside) | Work(w: WorkerId, a: Action)

  predicate InCritical(p: Phase) {
    !p.Arrived? && !p.Checked? && !p.Finished?
  }

  predicate GuardPasses(w: Worker, org: Option<OrgConfig>, now: int)
    requires w.phase.Loaded?
  {
    MayAnswer(w.phase.snapshot, w.comment, org, now)
  }

  /** The program point from which an action is taken. */
  predicate Fits(p: Phase, a: Action) {
    match a
    case Check => p.Arrived?
    case Acquire => p.Checked?
    case Load => p.Locked?
    case Guard(_) => p.Loaded?
    case Respond(_) => p.Cleared?
    case Update(_) => p.Responded?
    case Mark(_) => p.Updated?
    case Throw => InCritical(p)
    case Release(_) => p.Releasing?
    case Crash => true
  }

  /** The program, point by point: one way on, or an exception inside the try block, or a crash. */
  lemma WaysOn(p: Phase, a: Action)
    ensures Fits(p, a) <==> a.Crash? || match p
      case Arrived => a.Check?
      case Checked => a.Acquire?
      case Locked => a.Load? || a.Throw?
      case Loaded(_) => a.Guard? || a.Throw?
      case Cleared => a.Respond? || a.Throw?
      case Responded => a.Update? || a.Throw?
      case Updated => a.Mark? || a.Throw?
      case Releasing => a.Release? || a.Throw?
      case Finished => false
  {
  }

  predicate CanHappen(s: State, e: Outside) {
    match e
    case Tick(_) => true
    case OpenTicket(t, row) => t !in s.tickets && row.comments == []
    case AddComment(t, id, _) => t in s.tickets && id !in s.home
    case EditTicket(t, _) => t in s.tickets
    case Arrive(w, _, _) => w !in s.workers
  }

  predicate CanAct(s: State, w: WorkerId, a: Action) {
    w in s.workers && Fits(s.workers[w].phase, a) && (a.Respond? ==> a.id !in s.home)
  }

  predicate Enabled(s: State, step: Step) {
    match step
    case Env(e) => CanHappen(s, e)
    case Work(w, a) => CanAct(s, w, a)
  }

  function WithComment(s: State, t: TicketId, id: CommentId, author: Author): State
    requires t in s.tickets
  {
    var row := s.tickets[t];
    s.(tickets := s.tickets[t := row.(comments := row.comments + [Comment(id, author, s.now)])],
       home := s.home[id := t])
  }

  function WithFields(s: State, t: TicketId, fields: Fields): State
    requires t in s.tickets
  {
    s.(tickets := s.tickets[t := s.tickets[t].(fields := fields)])
  }

  function Happen(s: State, e: Outside): State
    requires CanHappen(s, e)
  {
    match e
    case Tick(ms) => s.(now := s.now + ms)
    case OpenTicket(t, row) => s.(tickets := s.tickets[t := row])
    case AddComment(t, id, author) => WithComment(s, t, id, author)
    case EditTicket(t, fields) => WithFields(s, t, fields)
    case Arrive(w, comment, ticket) =>
      s.(workers := s.workers[w := Newcomer(comment, ticket)])
  }

  /** The worker's own record after an action. */
  function Myself(s: State, w: WorkerId, a: Action): Worker
    requires CanAct(s, w, a)
  {
    var me := s.workers[w];
    match a
    case Check =>
      var marked := me.comment in s.marks && Alive(s.marks[me.comment], s.now);
      me.(phase := if marked then Finished else Checked, checkedAt := s.now, checkedStep := s.step)
    case Acquire =>
      if me.comment in s.locks && Alive(s.locks[me.comment], s.now) then me.(phase := Finished)
      else me.(phase := Locked, lockedAt := s.now)
    case Load =>
      me.(phase := if me.ticket in s.tickets then Loaded(s.tickets[me.ticket]) else Releasing, loadedStep := s.step)
    case Guard(org) => me.(phase := if GuardPasses(me, org, s.now) then Cleared else Releasing)
    case Respond(_) => me.(phase := if me.ticket in s.tickets then Responded else Releasing)
    case Update(_) => me.(phase := if me.ticket in s.tickets then Updated else Releasing)
    case Mark(_) => me.(phase := Releasing)
    case Throw => me.(phase := Releasing)
    case Release(_) => me.(phase := Finished)
    case Crash => me.(phase := Finished)
  }

  /** Where an action leads: a live mark or lock sends the worker away, a missing ticket, a guard
      that says no and an exception send it to the finally block. */
  lemma PhaseAfter(s: State, w: WorkerId, a: Action)
    requires CanAct(s, w, a)
    ensures var me, p := s.workers[w], Myself(s, w, a).phase;
      match a
      case Check => p == if me.comment in s.marks && s.now <= s.marks[me.comment] then Finished else Checked
      case Acquire => p == if me.comment in s.locks && s.now <= s.locks[me.comment] then Finished else Locked
      case Load => p == if me.ticket in s.tickets then Loaded(s.tickets[me.ticket]) else Releasing
      case Guard(org) => p == if MayAnswer(me.phase.snapshot, me.comment, org, s.now) then Cleared else Releasing
      case Respond(_) => p == if me.ticket in s.tickets then Responded else Releasing
      case Update(_) => p == if me.ticket in s.tickets then Updated else Releasing
      case Mark(_) => p == Releasing
      case Throw => p == Releasing
      case Release(_) => p == Finished
      case Crash => p == Finished
  {
  }

  /** What an action does to the stores, and the history it leaves. */
  function Stores(cfg: Settings, s: State, w: WorkerId, a: Action): State
    requires CanAct(s, w, a)
  {
    var me := s.workers[w];
    match a
    case Acquire =>
      if Myself(s, w, a).phase.Locked? then s.(locks := s.locks[me.comment := s.now + cfg.lockTtl]) else s
    case Respond(id) =>
      if me.ticket !in s.tickets then s
      else WithComment(s, me.ticket, id, Ai)
           .(responses := s.responses + [ResponseOf(s, me)])
    case Update(fields) => if me.ticket !in s.tickets then s else WithFields(s, me.ticket, fields)
    case Mark(reached) =>
      if !reached then s
      else s.(marks := s.marks[me.comment := s.now + cfg.markTtl],
              markings := s.markings + [Marking(me.comment, s.now, s.step)])
    case Release(reached) => if reached then s.(locks := s.locks - {me.comment}) else s
    case _ => s
  }

  function Act(cfg: Settings, s: State, w: WorkerId, a: Action): State
    requires CanAct(s, w, a)
  {
    Stores(cfg, s, w, a).(workers := s.workers[w := Myself(s, w, a)])
  }

  function Applied(cfg: Settings, s: State, step: Step): State
    requires Enabled(s, step)
  {
    match step case Env(e) => Happen(s, e) case Work(w, a) => Act(cfg, s, w, a)
  }

  function AtStep(s: State, k: nat): State {
    s.(step := k)
  }

  function Next(cfg: Settings, s: State, step: Step): State
    requires Enabled(s, step)
  {
    AtStep(Applied(cfg, s, step), s.step + 1)
  }

  // ---------------------------------------------------------------- runs

  predicate Possible(cfg: Settings, steps: seq<Step>)
    decreases |steps|, 0
  {
    steps == [] || (Possible(cfg, Init(steps)) && Enabled(After(cfg, Init(steps)), Last(steps)))
  }

  function After(cfg: Settings, steps: seq<Step>): State
    requires Possible(cfg, steps)
    decreases |steps|, 1
  {
    if steps == [] then EMPTY else Next(cfg, After(cfg, Init(steps)), Last(steps))
  }

  predicate Holds(s: State, w: WorkerId) {
    w in s.workers && InCritical(s.workers[w].phase)
  }

  /** No lock is held past its time to live in this state. */
  ghost predicate Prompt(cfg: Settings, s: State) {
    forall w :: Holds(s, w) ==> Alive(s.workers[w].lockedAt + cfg.lockTtl, s.now)
  }

  /** ... nor in any state on the way here. */
  ghost predicate Punctual(cfg: Settings, steps: seq<Step>)
    requires Possible(cfg, steps)
  {
    Prompt(cfg, After(cfg, steps)) && (steps != [] ==> Punctual(cfg, Init(steps)))
  }

  // ---------------------------------------------------------------- locks

  /** The lock of the worker's comment carries the expiry it wrote. */
  predicate OwnsLock(cfg: Settings, s: State, me: Worker) {
    me.comment in s.locks && s.locks[me.comment] == me.lockedAt + cfg.lockTtl
  }

  ghost predicate LocksOwned(cfg: Settings, s: State) {
    && (forall w :: Holds(s, w) ==> OwnsLock(cfg, s, s.workers[w]))
    && MutuallyExclusive(s)
  }

  /** No two workers are inside the critical section for one comment. */
  ghost predicate MutuallyExclusive(s: State) {
    forall v, w :: Holds(s, v) && Holds(s, w) && v != w ==> s.workers[v].comment != s.workers[w].comment
  }

  /** Apart from `w`, the workers are the same. */
  lemma OthersStand(cfg: Settings, s: State, w: WorkerId, a: Action, v: WorkerId)
    requires CanAct(s, w, a) && v != w
    ensures Holds(Act(cfg, s, w, a), v) == Holds(s, v)
    ensures v in s.workers ==> Act(cfg, s, w, a).workers[v] == s.workers[v]
  {
  }

  lemma AcquireKeepsLocks(cfg: Settings, s: State, w: WorkerId)
    requires CanAct(s, w, Acquire) && LocksOwned(cfg, s) && Prompt(cfg, s)
    ensures LocksOwned(cfg, Act(cfg, s, w, Acquire))
  {
    var s' := Act(cfg, s, w, Acquire);
    forall v | Holds(s', v) && v != w ensures Holds(s, v) && s'.workers[v] == s.workers[v] {
      OthersStand(cfg, s, w, Acquire, v);
    }
  }

  lemma ReleaseKeepsLocks(cfg: Settings, s: State, w: WorkerId, reached: bool)
    requires CanAct(s, w, Release(reached)) && LocksOwned(cfg, s)
    ensures LocksOwned(cfg, Act(cfg, s, w, Release(reached)))
  {
    var s' := Act(cfg, s, w, Release(reached));
    forall v | Holds(s', v)
      ensures Holds(s, v) && s'.workers[v] == s.workers[v] && s.workers[v].comment != s.workers[w].comment
    {
      if v != w { OthersStand(cfg, s, w, Release(reached), v); }
      assert Holds(s, w);
    }
  }

  /** The other actions leave the locks alone and let nobody in. */
  lemma QuietActions(cfg: Settings, s: State, w: WorkerId, a: Action)
    requires CanAct(s, w, a) && !a.Acquire? && !a.Release?
    ensures Stores(cfg, s, w, a).locks == s.locks
    ensures InCritical(Myself(s, w, a).phase) ==> Holds(s, w)
    ensures Myself(s, w, a).comment == s.workers[w].comment
    ensures Myself(s, w, a).lockedAt == s.workers[w].lockedAt
  {
  }

  /** The lock works: a worker enters only when no other is inside for its comment. */
  lemma ActKeepsLocks(cfg: Settings, s: State, w: WorkerId, a: Action)
    requires CanAct(s, w, a) && LocksOwned(cfg, s) && Prompt(cfg, s)
    ensures LocksOwned(cfg, Act(cfg, s, w, a))
  {
    if a.Acquire? {
      AcquireKeepsLocks(cfg, s, w);
    } else if a.Release? {
      ReleaseKeepsLocks(cfg, s, w, a.reached);
    } else {
      var s' := Act(cfg, s, w, a);
      QuietActions(cfg, s, w, a);
      forall v | Holds(s', v)
        ensures Holds(s, v) && s'.workers[v].comment == s.workers[v].comment
             && s'.workers[v].lockedAt == s.workers[v].lockedAt
      {
        if v != w { OthersStand(cfg, s, w, a, v); }
      }
    }
  }

  lemma ArrivalKeepsLocks(cfg: Settings, s: State, w: WorkerId, newcomer: Worker)
    requires LocksOwned(cfg, s) && w !in s.workers && newcomer.phase == Arrived
    ensures LocksOwned(cfg, s.(workers := s.workers[w := newcomer]))
  {
    var s' := s.(workers := s.workers[w := newcomer]);
    forall v | Holds(s', v) ensures Holds(s, v) && s'.workers[v] == s.workers[v] {}
  }

  lemma SameLocks(cfg: Settings, s: State, s': State)
    requires LocksOwned(cfg, s) && s'.workers == s.workers && s'.locks == s.locks
    ensures LocksOwned(cfg, s')
  {
    forall v ensures Holds(s', v) == Holds(s, v) {}
  }

  lemma EnvKeepsLocks(cfg: Settings, s: State, e: Outside)
    requires CanHappen(s, e) && LocksOwned(cfg, s)
    ensures LocksOwned(cfg, Happen(s, e))
  {
    if e.Arrive? {
      ArrivalKeepsLocks(cfg, s, e.worker, Newcomer(e.comment, e.ticket));
    } else {
      SameLocks(cfg, s, Happen(s, e));
    }
  }

  // ---------------------------------------------------------------- the database

  predicate TicketSound(s: State, t: TicketId, row: Ticket) {
    && Chronological(row.comments)
    && (forall c :: c in row.comments ==> c.createdAt <= s.now && c.id in s.home && s.home[c.id] == t)
  }

  predicate HasAiCommentAt(row: Ticket, at: int) {
    exists c :: c in row.comments && c.author == Ai && c.createdAt == at
  }

  /** Every response so far to comment `id` shows in this copy of its ticket. */
  ghost predicate ShowsResponses(s: State, row: Ticket, id: CommentId) {
    forall r :: r in s.responses && r.comment == id ==> HasAiCommentAt(row, r.at)
  }

  ghost predicate RowsSound(s: State) {
    && (forall t :: t in s.tickets ==> TicketSound(s, t, s.tickets[t]))
    && (forall id :: id in s.home ==> s.home[id] in s.tickets)
    && (forall r :: r in s.responses ==> r.at <= s.now && r.comment in s.home)
    && (forall id :: id in s.home ==> ShowsResponses(s, s.tickets[s.home[id]], id))
  }

  /** What a worker inside the critical section knows about its own comment. */
  ghost predicate WorkerSound(s: State, me: Worker) {
    && (me.phase.Loaded? ==>
          && TicketSound(s, me.ticket, me.phase.snapshot)
          && (me.comment in s.home && s.home[me.comment] == me.ticket ==>
                ShowsResponses(s, me.phase.snapshot, me.comment)))
    && (me.phase.Cleared? ==>
          && me.comment in s.home && s.home[me.comment] == me.ticket
          && (forall r :: r in s.responses && r.comment == me.comment ==> r.at + COOLDOWN <= s.now))
  }

  ghost predicate WorkersSound(s: State) {
    forall w :: w in s.workers ==> WorkerSound(s, s.workers[w])
  }

  ghost predicate Spaced(responses: seq<Response>) {
    forall i, j :: 0 <= i < j < |responses| && responses[i].comment == responses[j].comment
      ==> responses[i].at + COOLDOWN <= responses[j].at
  }

  ghost predicate Inv(cfg: Settings, s: State) {
    LocksOwned(cfg, s) && RowsSound(s) && WorkersSound(s) && Spaced(s.responses)
  }

  // Rows: only new rows, new comments and edits touch the tables.

  lemma RowsFrame(s: State, s': State)
    requires RowsSound(s) && s.now <= s'.now
    requires s'.tickets == s.tickets && s'.home == s.home && s'.responses == s.responses
    ensures RowsSound(s')
  {
    forall t | t in s'.tickets ensures TicketSound(s', t, s'.tickets[t]) {
      assert TicketSound(s, t, s.tickets[t]);
    }
    forall id | id in s'.home ensures ShowsResponses(s', s'.tickets[s'.home[id]], id) {
      assert ShowsResponses(s, s.tickets[s.home[id]], id);
    }
  }

  lemma CommentKeepsRows(s: State, t: TicketId, id: CommentId, author: Author)
    requires RowsSound(s) && t in s.tickets && id !in s.home
    ensures RowsSound(WithComment(s, t, id, author))
  {
    var s' := WithComment(s, t, id, author);
    forall u | u in s'.tickets ensures TicketSound(s', u, s'.tickets[u]) {
      assert TicketSound(s, u, s.tickets[u]);
    }
    forall x | x in s'.home ensures ShowsResponses(s', s'.tickets[s'.home[x]], x) {
      if x != id { CommentKeepsShown(s, t, id, author, x); }
    }
  }

  lemma CommentKeepsShown(s: State, t: TicketId, id: CommentId, author: Author, x: CommentId)
    requires RowsSound(s) && t in s.tickets && id !in s.home && x in s.home
    ensures var s' := WithComment(s, t, id, author);
      ShowsResponses(s', s'.tickets[s'.home[x]], x)
  {
    assert ShowsResponses(s, s.tickets[s.home[x]], x);
  }

  lemma ResponseKeepsRows(s: State, r: Response)
    requires RowsSound(s) && r.at == s.now && r.comment in s.home
    requires HasAiCommentAt(s.tickets[s.home[r.comment]], r.at)
    ensures RowsSound(s.(responses := s.responses + [r]))
  {
    var s' := s.(responses := s.responses + [r]);
    forall id | id in s'.home ensures ShowsResponses(s', s'.tickets[s'.home[id]], id) {
      assert ShowsResponses(s, s.tickets[s.home[id]], id);
    }
    forall t | t in s'.tickets ensures TicketSound(s', t, s'.tickets[t]) {
      assert TicketSound(s, t, s.tickets[t]);
    }
  }

  lemma RespondKeepsRows(cfg: Settings, s: State, w: WorkerId, id: CommentId)
    requires CanAct(s, w, Respond(id)) && RowsSound(s) && WorkersSound(s)
    ensures RowsSound(Stores(cfg, s, w, Respond(id)))
  {
    var me := s.workers[w];
    assert WorkerSound(s, me);
    CommentKeepsRows(s, me.ticket, id, Ai);
    var stored := WithComment(s, me.ticket, id, Ai);
    assert Last(stored.tickets[me.ticket].comments) == Comment(id, Ai, s.now);
    ResponseKeepsRows(stored, ResponseOf(s, me));
  }

  lemma EditKeepsRows(s: State, t: TicketId, fields: Fields)
    requires RowsSound(s) && t in s.tickets
    ensures RowsSound(WithFields(s, t, fields))
  {
    var s' := WithFields(s, t, fields);
    forall u | u in s'.tickets ensures TicketSound(s', u, s'.tickets[u]) {
      assert TicketSound(s, u, s.tickets[u]);
    }
    forall id | id in s'.home ensures ShowsResponses(s', s'.tickets[s'.home[id]], id) {
      assert ShowsResponses(s, s.tickets[s.home[id]], id);
    }
  }

  lemma OpenKeepsRows(s: State, t: TicketId, row: Ticket)
    requires RowsSound(s) && t !in s.tickets && row.comments == []
    ensures RowsSound(s.(tickets := s.tickets[t := row]))
  {
    var s' := s.(tickets := s.tickets[t := row]);
    forall u | u in s'.tickets ensures TicketSound(s', u, s'.tickets[u]) {
      if u != t { assert TicketSound(s, u, s.tickets[u]); }
    }
    forall id | id in s'.home ensures ShowsResponses(s', s'.tickets[s'.home[id]], id) {
      assert ShowsResponses(s, s.tickets[s.home[id]], id);
    }
  }

  lemma EnvKeepsRows(s: State, e: Outside)
    requires CanHappen(s, e) && RowsSound(s)
    ensures RowsSound(Happen(s, e))
  {
    match e
    case OpenTicket(t, row) => OpenKeepsRows(s, t, row);
    case AddComment(t, id, author) => CommentKeepsRows(s, t, id, author);
    case EditTicket(t, fields) => EditKeepsRows(s, t, fields);
    case _ => RowsFrame(s, Happen(s, e));
  }

  lemma StoresKeepRows(cfg: Settings, s: State, w: WorkerId, a: Action)
    requires CanAct(s, w, a) && RowsSound(s) && WorkersSound(s)
    ensures RowsSound(Stores(cfg, s, w, a))
  {
    match a
    case Respond(id) => RespondKeepsRows(cfg, s, w, id);
    case Update(fields) =>
      if s.workers[w].ticket in s.tickets { EditKeepsRows(s, s.workers[w].ticket, fields); }
    case _ => RowsFrame(s, Stores(cfg, s, w, a));
  }

  lemma ActKeepsRows(cfg: Settings, s: State, w: WorkerId, a: Action)
    requires CanAct(s, w, a) && RowsSound(s) && WorkersSound(s)
    ensures RowsSound(Act(cfg, s, w, a))
  {
    StoresKeepRows(cfg, s, w, a);
    RowsFrame(Stores(cfg, s, w, a), Act(cfg, s, w, a));
  }

  // Workers: what one of them knows survives the steps of the others.

  lemma KnowledgeLasts(s: State, s': State, me: Worker)
    requires RowsSound(s) && WorkerSound(s, me) && s.now <= s'.now
    requires forall id :: id in s.home ==> id in s'.home && s'.home[id] == s.home[id]
    requires forall r :: r in s'.responses && r.comment == me.comment ==> r in s.responses
    ensures WorkerSound(s', me)
  {
  }

  lemma GuardTeaches(s: State, me: Worker, org: Option<OrgConfig>)
    requires WorkerSound(s, me) && me.phase.Loaded? && GuardPasses(me, org, s.now)
    ensures WorkerSound(s, me.(phase := Cleared))
  {
    var row := me.phase.snapshot;
    ReadyKeepsDistance(row.comments, s.now);
    forall r | r in s.responses && r.comment == me.comment ensures r.at + COOLDOWN <= s.now {
      assert HasAiCommentAt(row, r.at);
    }
  }

  /** A worker's own action leaves it with knowledge that is true. */
  lemma ActionTeaches(s: State, w: WorkerId, a: Action)
    requires CanAct(s, w, a) && RowsSound(s) && WorkersSound(s)
    ensures WorkerSound(s, Myself(s, w, a))
  {
    var me := s.workers[w];
    if a.Load? {
      if me.ticket in s.tickets { assert TicketSound(s, me.ticket, s.tickets[me.ticket]); }
      if me.comment in s.home { assert ShowsResponses(s, s.tickets[s.home[me.comment]], me.comment); }
    } else if a.Guard? {
      assert WorkerSound(s, me);
      if GuardPasses(me, a.org, s.now) { GuardTeaches(s, me, a.org); }
    }
  }

  /** Stores only grow in the ways that keep such knowledge true. */
  lemma StoresExtend(cfg: Settings, s: State, w: WorkerId, a: Action)
    requires CanAct(s, w, a)
    ensures var s' := Stores(cfg, s, w, a);
      && s'.now == s.now
      && (forall id :: id in s.home ==> id in s'.home && s'.home[id] == s.home[id])
      && (!a.Respond? ==> s'.responses == s.responses)
      && (forall r :: r in s'.responses && r.comment != s.workers[w].comment ==> r in s.responses)
  {
  }

  lemma ActKeepsWorkers(cfg: Settings, s: State, w: WorkerId, a: Action)
    requires CanAct(s, w, a) && Inv(cfg, s)
    ensures WorkersSound(Act(cfg, s, w, a))
  {
    var s' := Act(cfg, s, w, a);
    StoresExtend(cfg, s, w, a);
    forall v | v in s'.workers ensures WorkerSound(s', s'.workers[v]) {
      if v == w {
        ActionTeaches(s, w, a);
        if !a.Respond? { KnowledgeLasts(s, s', Myself(s, w, a)); }
      } else if Holds(s, v) {
        assert WorkerSound(s, s.workers[v]);
        assert a.Respond? ==> Holds(s, w);
        KnowledgeLasts(s, s', s.workers[v]);
      }
    }
  }

  lemma EnvKeepsWorkers(s: State, e: Outside)
    requires CanHappen(s, e) && RowsSound(s) && WorkersSound(s)
    ensures WorkersSound(Happen(s, e))
  {
    var s' := Happen(s, e);
    forall v | v in s'.workers ensures WorkerSound(s', s'.workers[v]) {
      if v in s.workers { KnowledgeLasts(s, s', s.workers[v]); }
    }
  }

  lemma ActKeepsSpacing(cfg: Settings, s: State, w: WorkerId, a: Action)
    requires CanAct(s, w, a) && WorkersSound(s) && Spaced(s.responses)
    ensures Spaced(Act(cfg, s, w, a).responses)
  {
    if a.Respond? {
      assert WorkerSound(s, s.workers[w]);
    } else {
      StoresExtend(cfg, s, w, a);
    }
  }

  lemma CountingKeepsInv(cfg: Settings, s: State, k: nat)
    requires Inv(cfg, s)
    ensures Inv(cfg, AtStep(s, k))
  {
    var s' := AtStep(s, k);
    forall v ensures Holds(s', v) == Holds(s, v) {}
    RowsFrame(s, s');
    forall v | v in s'.workers ensures WorkerSound(s', s'.workers[v]) {
      KnowledgeLasts(s, s', s.workers[v]);
    }
  }

  lemma AppliedKeepsInv(cfg: Settings, s: State, step: Step)
    requires Enabled(s, step) && Inv(cfg, s) && Prompt(cfg, s)
    ensures Inv(cfg, Applied(cfg, s, step))
  {
    match step
    case Env(e) =>
      EnvKeepsLocks(cfg, s, e);
      EnvKeepsRows(s, e);
      EnvKeepsWorkers(s, e);
    case Work(w, a) =>
      ActKeepsLocks(cfg, s, w, a);
      ActKeepsRows(cfg, s, w, a);
      ActKeepsWorkers(cfg, s, w, a);
      ActKeepsSpacing(cfg, s, w, a);
  }

  lemma NextIsCounted(cfg: Settings, s: State, step: Step)
    requires Enabled(s, step)
    ensures Next(cfg, s, step) == AtStep(Applied(cfg, s, step), s.step + 1)
  {
  }

  lemma StepKeepsInv(cfg: Settings, s: State, step: Step)
    requires Enabled(s, step) && Inv(cfg, s) && Prompt(cfg, s)
    ensures Inv(cfg, Next(cfg, s, step))
  {
    var s' := Applied(cfg, s, step);
    assert Inv(cfg, s') by { AppliedKeepsInv(cfg, s, step); }
    NextIsCounted(cfg, s, step);
    CountingKeepsInv(cfg, s', s.step + 1);
  }

  lemma {:induction false} PunctualRunsKeepInv(cfg: Settings, steps: seq<Step>)
    requires Possible(cfg, steps) && Punctual(cfg, steps)
    ensures Inv(cfg, After(cfg, steps))
  {
    if steps == [] {
      assert forall v :: !Holds(EMPTY, v);
    } else {
      PunctualRunsKeepInv(cfg, Init(steps));
      StepKeepsInv(cfg, After(cfg, Init(steps)), Last(steps));
    }
  }

  // ---------------------------------------------------------------- what every run guarantees

  /** While no lock outlives its time: one worker at a time per comment, and any two
      responses to one comment keep the cooldown. */
  lemma {:induction false} CommentsAreAnsweredOneAtATime(cfg: Settings, steps: seq<Step>)
    requires Possible(cfg, steps) && Punctual(cfg, steps)
    ensures MutuallyExclusive(After(cfg, steps)) && Spaced(After(cfg, steps).responses)
  {
    PunctualRunsKeepInv(cfg, steps);
  }
}

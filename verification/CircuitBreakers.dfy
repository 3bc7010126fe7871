/**
  The chatbot circuit breaker (chatbot.circuit.js), the bridge worker's reaction to it
  (chatbot.bridge.worker.js) and the database breaker (database.config.js).

  Calls overlap: a call may begin in one state and complete in another.  A run is
  therefore a sequence of separate events, with no pairing between them.
 */
module CircuitBreakers {
  import opened Basics

  datatype Mode = Closed | Open | HalfOpen

  /** The options of one breaker. */
  datatype Config = Config(failureThreshold: nat, successThreshold: nat, recoveryTimeout: int)

  datatype Event = Begin(now: int) | Succeed(now: int) | Fail(now: int)

  predicate Sensible(cfg: Config) {
    cfg.failureThreshold >= 1 && cfg.successThreshold >= 1
  }

  // ---------------------------------------------------------------- the chatbot breaker

  datatype Breaker = Breaker(mode: Mode, failures: nat, successes: nat, lastFailure: int)

  const FRESH := Breaker(Closed, 0, 0, 0)

  function RemainingOpenMs(cfg: Config, b: Breaker, now: int): int {
    if b.mode != Open then 0
    else if cfg.recoveryTimeout - (now - b.lastFailure) > 0 then cfg.recoveryTimeout - (now - b.lastFailure)
    else 0
  }

  predicate Rejects(cfg: Config, b: Breaker, now: int) {
    RemainingOpenMs(cfg, b, now) > 0
  }

  function Step(cfg: Config, b: Breaker, e: Event): Breaker {
    match e
    case Begin(now) =>
      if b.mode == Open && !Rejects(cfg, b, now) then b.(mode := HalfOpen, successes := 0) else b
    case Succeed(_) =>
      if b.mode != HalfOpen then b.(failures := 0)
      else if b.successes + 1 >= cfg.successThreshold then Breaker(Closed, 0, 0, b.lastFailure)
      else b.(failures := 0, successes := b.successes + 1)
    case Fail(now) =>
      if b.mode == HalfOpen then Breaker(Open, b.failures, 0, now)
      else Breaker(if b.failures + 1 >= cfg.failureThreshold then Open else b.mode,
                   b.failures + 1, b.successes, now)
  }

  function Run(cfg: Config, events: seq<Event>): Breaker {
    if events == [] then FRESH else Step(cfg, Run(cfg, Init(events)), Last(events))
  }

  /** The breaker object; `fire` is split where it awaits the protected call. */
  class CircuitBreaker {
    const cfg: Config
    var mode: Mode
    var failures: nat
    var successes: nat
    var lastFailureTime: int

    function Value(): Breaker
      reads this
    {
      Breaker(mode, failures, successes, lastFailureTime)
    }

    constructor (cfg: Config)
      ensures this.cfg == cfg && Value() == FRESH
    {
      this.cfg := cfg;
      mode, failures, successes, lastFailureTime := Closed, 0, 0, 0;
    }

    /** Entry of fire: a rejection carries the remaining time and changes nothing. */
    method BeginFire(now: int) returns (rejection: Option<int>)
      modifies this
      ensures Value() == Step(cfg, old(Value()), Begin(now))
      ensures rejection == if Rejects(cfg, old(Value()), now)
                           then Some(RemainingOpenMs(cfg, old(Value()), now)) else None
      ensures rejection.Some? ==> Value() == old(Value())
    {
      if mode == Open {
        var remaining := cfg.recoveryTimeout - (now - lastFailureTime);
        if remaining > 0 { return Some(remaining); }
        mode, successes := HalfOpen, 0;
      }
      return None;
    }

    method OnSuccess(ghost now: int)
      modifies this
      ensures Value() == Step(cfg, old(Value()), Succeed(now))
    {
      failures := 0;
      if mode == HalfOpen {
        successes := successes + 1;
        if successes >= cfg.successThreshold {
          mode, successes := Closed, 0;
        }
      }
    }

    method OnFailure(now: int)
      modifies this
      ensures Value() == Step(cfg, old(Value()), Fail(now))
    {
      lastFailureTime := now;
      if mode == HalfOpen {
        mode, successes := Open, 0;
        return;
      }
      failures := failures + 1;
      if failures >= cfg.failureThreshold { mode := Open; }
    }
  }

  // ---------------------------------------------------------------- what every run keeps

  predicate InOrder(events: seq<Event>) {
    forall i, j :: 0 <= i < j < |events| ==> events[i].now <= events[j].now
  }

  function LastFailTime(events: seq<Event>): int {
    if events == [] then 0
    else if Last(events).Fail? then Last(events).now
    else LastFailTime(Init(events))
  }

  /** Outcomes of the completed calls, oldest first. */
  function Completions(events: seq<Event>): seq<bool> {
    if events == [] then []
    else if Last(events).Begin? then Completions(Init(events))
    else Completions(Init(events)) + [Last(events).Succeed?]
  }

  /** There are at least k completions and the latest k all failed. */
  predicate LatestFailed(outcomes: seq<bool>, k: nat) {
    |outcomes| >= k && forall i :: |outcomes| - k <= i < |outcomes| ==> !outcomes[i]
  }

  /** Length of the run of failures at the end. */
  function TrailingFailures(outcomes: seq<bool>): nat {
    if outcomes == [] || Last(outcomes) then 0 else 1 + TrailingFailures(Init(outcomes))
  }

  lemma {:induction false} TrailingFailuresMeans(outcomes: seq<bool>, k: nat)
    ensures TrailingFailures(outcomes) >= k <==> LatestFailed(outcomes, k)
  {
    if k > 0 && outcomes != [] && !Last(outcomes) {
      TrailingFailuresMeans(Init(outcomes), k - 1);
      assert LatestFailed(Init(outcomes), k - 1) ==> LatestFailed(outcomes, k);
      assert LatestFailed(outcomes, k) ==> LatestFailed(Init(outcomes), k - 1) by {
        if LatestFailed(outcomes, k) {
          forall i | |outcomes| - k <= i < |outcomes| - 1 ensures !Init(outcomes)[i] {
            assert !outcomes[i];
          }
        }
      }
    } else if k > 0 && outcomes != [] {
      assert outcomes[|outcomes| - 1];
    }
  }

  lemma {:induction false} OneMoreEvent(before: seq<Event>, e: Event)
    ensures Completions(before + [e]) == Completions(before) + (if e.Begin? then [] else [e.Succeed?])
    ensures LastFailTime(before + [e]) == if e.Fail? then e.now else LastFailTime(before)
  {
    assert Init(before + [e]) == before;
  }

  lemma {:induction false} TrailingStep(outcomes: seq<bool>, ok: bool)
    ensures TrailingFailures(outcomes + [ok]) == if ok then 0 else 1 + TrailingFailures(outcomes)
  {
    assert Init(outcomes + [ok]) == outcomes;
  }

  ghost predicate SomeFailed(events: seq<Event>) {
    exists i :: 0 <= i < |events| && events[i].Fail?
  }

  lemma SomeFailedStep(before: seq<Event>, e: Event)
    requires SomeFailed(before) || e.Fail?
    ensures SomeFailed(before + [e])
  {
    if e.Fail? {
      assert (before + [e])[|before|].Fail?;
    } else {
      var i :| 0 <= i < |before| && before[i].Fail?;
      assert (before + [e])[i].Fail?;
    }
  }

  /** What a state says about the calls completed so far. */
  ghost predicate Sound(cfg: Config, b: Breaker, outcomes: seq<bool>, lastFail: int) {
    && (b.mode == Closed ==> b.failures < cfg.failureThreshold && b.failures == TrailingFailures(outcomes))
    && b.failures <= TrailingFailures(outcomes)
    && (b.successes > 0 ==> b.mode == HalfOpen && b.successes < cfg.successThreshold)
    && b.lastFailure == lastFail
  }

  /** Every reachable state, however calls overlap. */
  lemma {:induction false} ReachableStates(cfg: Config, events: seq<Event>)
    requires Sensible(cfg)
    ensures Sound(cfg, Run(cfg, events), Completions(events), LastFailTime(events))
    ensures Run(cfg, events).mode != Closed ==> SomeFailed(events)
  {
    if events != [] {
      var before, e := Init(events), Last(events);
      assert before + [e] == events;
      ReachableStates(cfg, before);
      OneMoreEvent(before, e);
      TrailingStep(Completions(before), e.Succeed?);
      if SomeFailed(before) || e.Fail? { SomeFailedStep(before, e); }
    }
  }

  /** A closed breaker opens at an event exactly when the latest `failureThreshold`
      completions, this one included, all failed. */
  lemma {:induction false} OpensExactlyWhen(cfg: Config, events: seq<Event>, e: Event)
    requires Sensible(cfg) && Run(cfg, events).mode == Closed
    ensures Run(cfg, events + [e]).mode == Open
        <==> LatestFailed(Completions(events + [e]), cfg.failureThreshold)
    ensures Run(cfg, events + [e]).mode != HalfOpen
  {
    assert Init(events + [e]) == events && Last(events + [e]) == e;
    ReachableStates(cfg, events);
    TrailingFailuresMeans(Completions(events + [e]), cfg.failureThreshold);
    if !e.Begin? {
      assert Init(Completions(events + [e])) == Completions(events);
    }
  }

  lemma {:induction false} LastFailIsLatest(events: seq<Event>)
    requires InOrder(events)
    ensures forall i :: 0 <= i < |events| && events[i].Fail? ==> events[i].now <= LastFailTime(events)
    ensures (exists i :: 0 <= i < |events| && events[i].Fail?) ==>
            exists i :: 0 <= i < |events| && events[i] == Fail(LastFailTime(events))
  {
    if events != [] {
      var before := Init(events);
      LastFailIsLatest(before);
      if Last(events).Fail? {
        assert events[|events| - 1] == Fail(LastFailTime(events));
      } else if exists i :: 0 <= i < |events| && events[i].Fail? {
        var i :| 0 <= i < |events| && events[i].Fail?;
        assert before[i].Fail?;
        var j :| 0 <= j < |before| && before[j] == Fail(LastFailTime(before));
        assert events[j] == Fail(LastFailTime(events));
      }
    }
  }

  /** A call is rejected exactly when the breaker is open and some failure, whichever state
      it landed in, is younger than the recovery timeout. */
  lemma {:induction false} RejectsExactlyWhen(cfg: Config, events: seq<Event>, now: int)
    requires Sensible(cfg) && InOrder(events)
    ensures Rejects(cfg, Run(cfg, events), now) <==>
      Run(cfg, events).mode == Open &&
      exists i :: 0 <= i < |events| && events[i].Fail? && now < events[i].now + cfg.recoveryTimeout
  {
    ReachableStates(cfg, events);
    LastFailIsLatest(events);
  }

  /** Successes that came in since the last turn to half open. */
  function ProbeSuccesses(cfg: Config, events: seq<Event>): nat {
    if events == [] || Run(cfg, Init(events)).mode != HalfOpen then 0
    else ProbeSuccesses(cfg, Init(events)) + if Last(events).Succeed? then 1 else 0
  }

  function Successes(events: seq<Event>): nat {
    if events == [] then 0 else Successes(Init(events)) + if Last(events).Succeed? then 1 else 0
  }

  /** Which events turn an open breaker half open: a begin after the recovery timeout. */
  lemma {:induction false} WakesExactlyWhen(cfg: Config, events: seq<Event>, e: Event)
    requires Sensible(cfg) && InOrder(events) && Run(cfg, events).mode == Open
    ensures Run(cfg, events + [e]).mode == HalfOpen <==>
      e.Begin? && forall i :: 0 <= i < |events| && events[i].Fail? ==> events[i].now + cfg.recoveryTimeout <= e.now
    ensures Run(cfg, events + [e]).mode != Closed
  {
    RunOneMore(cfg, events, e);
    RejectsExactlyWhen(cfg, events, e.now);
  }

  lemma {:induction false} RunOneMore(cfg: Config, before: seq<Event>, e: Event)
    ensures Run(cfg, before + [e]) == Step(cfg, Run(cfg, before), e)
  {
    assert Init(before + [e]) == before;
  }

  /** While half open the counter holds the probe successes; it starts at none. */
  lemma {:induction false} HalfOpenCounts(cfg: Config, events: seq<Event>)
    requires Sensible(cfg)
    ensures Run(cfg, events).mode == HalfOpen ==> Run(cfg, events).successes == ProbeSuccesses(cfg, events)
    ensures Run(cfg, events).mode == HalfOpen ==> ProbeSuccesses(cfg, events) < cfg.successThreshold
  {
    if events != [] {
      HalfOpenCounts(cfg, Init(events));
      ReachableStates(cfg, Init(events));
    }
  }

  /** From half open, while nothing fails: closed exactly when the probe successes, those before
      and those to come, reach the threshold, and half open until then. */
  lemma {:induction false} ClosesExactlyWhen(cfg: Config, events: seq<Event>, later: seq<Event>)
    requires Sensible(cfg) && Run(cfg, events).mode == HalfOpen
    requires forall i :: 0 <= i < |later| ==> !later[i].Fail?
    ensures var enough := ProbeSuccesses(cfg, events) + Successes(later) >= cfg.successThreshold;
      Run(cfg, events + later).mode == if enough then Closed else HalfOpen
    ensures Run(cfg, events + later).mode == HalfOpen ==>
      ProbeSuccesses(cfg, events + later) == ProbeSuccesses(cfg, events) + Successes(later)
    decreases |later|
  {
    if later == [] {
      assert events + later == events;
      HalfOpenCounts(cfg, events);
    } else {
      var before, e := events + Init(later), Last(later);
      assert events + later == before + [e] && Init(before + [e]) == before;
      ClosesExactlyWhen(cfg, events, Init(later));
      HalfOpenCounts(cfg, before);
    }
  }

  /** A failure while half open opens the breaker at once, whatever succeeded before. */
  lemma {:induction false} ProbeFailureReopens(cfg: Config, events: seq<Event>, now: int)
    requires Sensible(cfg) && Run(cfg, events).mode == HalfOpen
    ensures Run(cfg, events + [Fail(now)]).mode == Open
  {
    RunOneMore(cfg, events, Fail(now));
  }

  /** The remaining time that a rejection carries ends with the recovery timeout of the latest
      failure. */
  lemma {:induction false} RemainingEndsTheTimeout(cfg: Config, events: seq<Event>, now: int)
    requires Sensible(cfg) && InOrder(events) && Rejects(cfg, Run(cfg, events), now)
    ensures var until := now + RemainingOpenMs(cfg, Run(cfg, events), now) - cfg.recoveryTimeout;
      && (exists i :: 0 <= i < |events| && events[i] == Fail(until))
      && (forall i :: 0 <= i < |events| && events[i].Fail? ==> events[i].now <= until)
  {
    ReachableStates(cfg, events);
    LastFailIsLatest(events);
  }

  // ---------------------------------------------------------------- delayed jobs

  const WAKE_MARGIN := 5_000

  /** The instant to which the bridge worker moves a rejected job. */
  function WakeTime(now: int, remaining: int): int {
    now + (remaining + WAKE_MARGIN)
  }

  /** The job wakes up five seconds after the recovery timeout of the latest failure so far, to
      a breaker that rejects it only if a call failed since. */
  lemma {:induction false} WakesAfterTheTimeout(cfg: Config, events: seq<Event>, now: int)
    requires Sensible(cfg) && InOrder(events) && Rejects(cfg, Run(cfg, events), now)
    ensures var wake := WakeTime(now, RemainingOpenMs(cfg, Run(cfg, events), now));
      && (exists i :: 0 <= i < |events| && events[i] == Fail(wake - 5_000 - cfg.recoveryTimeout))
      && (forall i :: 0 <= i < |events| && events[i].Fail? ==> events[i].now + cfg.recoveryTimeout + 5_000 <= wake)
  {
    RemainingEndsTheTimeout(cfg, events, now);
  }

  lemma {:induction false} NoFailureLeavesLastFail(earlier: seq<Event>, later: seq<Event>)
    requires forall i :: 0 <= i < |later| ==> !later[i].Fail?
    ensures LastFailTime(earlier + later) == LastFailTime(earlier)
  {
    if later == [] {
      assert earlier + later == earlier;
    } else {
      assert Init(earlier + later) == earlier + Init(later);
      NoFailureLeavesLastFail(earlier, Init(later));
    }
  }

  /** A delayed job that wakes up to a breaker still rejecting calls proves that a call
      failed after the job was turned away. */
  lemma {:induction false} WakingToABlockedCircuit(cfg: Config, earlier: seq<Event>, later: seq<Event>,
                                                   now: int, wake: int)
    requires Sensible(cfg)
    requires Rejects(cfg, Run(cfg, earlier), now)
    requires wake >= WakeTime(now, RemainingOpenMs(cfg, Run(cfg, earlier), now))
    requires Rejects(cfg, Run(cfg, earlier + later), wake)
    ensures exists i :: 0 <= i < |later| && later[i].Fail?
  {
    ReachableStates(cfg, earlier);
    ReachableStates(cfg, earlier + later);
    if forall i :: 0 <= i < |later| ==> !later[i].Fail? {
      NoFailureLeavesLastFail(earlier, later);
    }
  }

  // ---------------------------------------------------------------- the database breaker

  datatype DbBreaker = DbBreaker(mode: Mode, failures: nat, lastFailure: int)

  datatype DbEvent = Query(now: int) | Answer | Error(infrastructure: bool, now: int)

  const DB_FRESH := DbBreaker(Closed, 0, 0)

  predicate CanExecute(cfg: Config, b: DbBreaker, now: int) {
    b.mode != Open || now - b.lastFailure >= cfg.recoveryTimeout
  }

  function DbStep(cfg: Config, b: DbBreaker, e: DbEvent): DbBreaker {
    match e
    case Query(now) => if b.mode == Open && CanExecute(cfg, b, now) then b.(mode := HalfOpen) else b
    case Answer => DbBreaker(Closed, 0, b.lastFailure)
    case Error(infrastructure, now) =>
      if !infrastructure then b
      else DbBreaker(if b.failures + 1 >= cfg.failureThreshold then Open else b.mode, b.failures + 1, now)
  }

  function DbRun(cfg: Config, events: seq<DbEvent>): DbBreaker {
    if events == [] then DB_FRESH else DbStep(cfg, DbRun(cfg, Init(events)), Last(events))
  }

  /** The closure made by createCircuitBreaker. */
  class DatabaseBreaker {
    const cfg: Config
    var state: Mode
    var failures: nat
    var lastFailureTime: int

    function Value(): DbBreaker
      reads this
    {
      DbBreaker(state, failures, lastFailureTime)
    }

    constructor (cfg: Config)
      ensures this.cfg == cfg && Value() == DB_FRESH
    {
      this.cfg := cfg;
      state, failures, lastFailureTime := Closed, 0, 0;
    }

    method TryExecute(now: int) returns (ok: bool)
      modifies this`state
      ensures ok == CanExecute(cfg, old(Value()), now)
      ensures Value() == DbStep(cfg, old(Value()), Query(now))
    {
      if state == Closed { return true; }
      if state == Open && now - lastFailureTime >= cfg.recoveryTimeout {
        state := HalfOpen;
        return true;
      }
      return state == HalfOpen;
    }

    method RecordSuccess()
      modifies this
      ensures Value() == DbStep(cfg, old(Value()), Answer)
    {
      failures := 0;
      state := Closed;
    }

    method RecordFailure(infrastructure: bool, now: int)
      modifies this
      ensures Value() == DbStep(cfg, old(Value()), Error(infrastructure, now))
    {
      if !infrastructure { return; }
      failures := failures + 1;
      lastFailureTime := now;
      if failures >= cfg.failureThreshold && state != Open { state := Open; }
    }
  }

  /** However queries overlap and whatever fails, closed means few failures and back. */
  lemma {:induction false} DatabaseClosedIff(cfg: Config, events: seq<DbEvent>)
    requires Sensible(cfg)
    ensures DbRun(cfg, events).mode == Closed <==> DbRun(cfg, events).failures < cfg.failureThreshold
  {
    if events != [] { DatabaseClosedIff(cfg, Init(events)); }
  }

  /** Errors that are not the infrastructure's leave no trace at all. */
  function Infrastructural(events: seq<DbEvent>): seq<DbEvent> {
    if events == [] then []
    else
      var before := Infrastructural(Init(events));
      if Last(events).Error? && !Last(events).infrastructure then before else before + [Last(events)]
  }

  lemma {:induction false} OtherErrorsDoNotCount(cfg: Config, events: seq<DbEvent>)
    ensures DbRun(cfg, Infrastructural(events)) == DbRun(cfg, events)
  {
    if events != [] {
      OtherErrorsDoNotCount(cfg, Init(events));
      var before := Infrastructural(Init(events));
      assert Init(before + [Last(events)]) == before;
    }
  }

  /** The failures since the last answer are counted. */
  lemma {:induction false} DatabaseCountsFailures(cfg: Config, earlier: seq<DbEvent>, later: seq<DbEvent>)
    requires Sensible(cfg) && (earlier == [] || Last(earlier).Answer?)
    requires forall i :: 0 <= i < |later| ==> !later[i].Answer?
    ensures DbRun(cfg, earlier + later).failures == Errors(later)
    ensures DbRun(cfg, earlier + later).mode == Closed <==> Errors(later) < cfg.failureThreshold
    decreases |later|
  {
    if later == [] {
      assert earlier + later == earlier;
    } else {
      assert Init(earlier + later) == earlier + Init(later) && Last(earlier + later) == Last(later);
      DatabaseCountsFailures(cfg, earlier, Init(later));
    }
    DatabaseClosedIff(cfg, earlier + later);
  }

  function Errors(events: seq<DbEvent>): nat {
    if events == [] then 0
    else Errors(Init(events)) + if Last(events).Error? && Last(events).infrastructure then 1 else 0
  }

  // ---------------------------------------------------------------- the two compared

  /** One complete call: nothing else happens between its start and its finish. */
  datatype Call = Call(start: int, finish: int, ok: bool)

  /** What a caller can see: admission, and the mode while and after the call. */
  datatype Observation = Observation(admitted: bool, during: Mode, after: Mode)

  function ChatCall(cfg: Config, b: Breaker, call: Call): (Breaker, Observation) {
    var begun := Step(cfg, b, Begin(call.start));
    if Rejects(cfg, b, call.start) then (begun, Observation(false, begun.mode, begun.mode))
    else
      var ended := Step(cfg, begun, if call.ok then Succeed(call.finish) else Fail(call.finish));
      (ended, Observation(true, begun.mode, ended.mode))
  }

  function DbCall(cfg: Config, b: DbBreaker, call: Call): (DbBreaker, Observation) {
    var begun := DbStep(cfg, b, Query(call.start));
    if !CanExecute(cfg, b, call.start) then (begun, Observation(false, begun.mode, begun.mode))
    else
      var ended := DbStep(cfg, begun, if call.ok then Answer else Error(true, call.finish));
      (ended, Observation(true, begun.mode, ended.mode))
  }

  function ChatCalls(cfg: Config, b: Breaker, calls: seq<Call>): seq<Observation>
    decreases |calls|
  {
    if calls == [] then []
    else
      var (b', o) := ChatCall(cfg, b, calls[0]);
      [o] + ChatCalls(cfg, b', calls[1..])
  }

  function DbCalls(cfg: Config, b: DbBreaker, calls: seq<Call>): seq<Observation>
    decreases |calls|
  {
    if calls == [] then []
    else
      var (b', o) := DbCall(cfg, b, calls[0]);
      [o] + DbCalls(cfg, b', calls[1..])
  }

  predicate Related(cfg: Config, c: Breaker, d: DbBreaker) {
    && c.mode == d.mode && c.lastFailure == d.lastFailure && c.successes == 0
    && (c.mode == Closed ==> c.failures == d.failures < cfg.failureThreshold)
    && (c.mode != Closed ==> d.failures >= cfg.failureThreshold)
  }

  lemma {:induction false} RelatedBreakersAgree(cfg: Config, c: Breaker, d: DbBreaker, calls: seq<Call>)
    requires Sensible(cfg) && cfg.successThreshold == 1 && Related(cfg, c, d)
    ensures ChatCalls(cfg, c, calls) == DbCalls(cfg, d, calls)
    decreases |calls|
  {
    if calls != [] {
      RelatedBreakersAgree(cfg, ChatCall(cfg, c, calls[0]).0, DbCall(cfg, d, calls[0]).0, calls[1..]);
    }
  }

  /** With one probe success enough to close, serial calls cannot tell the two apart. */
  lemma {:induction false} SerialCallsCannotTell(cfg: Config, calls: seq<Call>)
    requires Sensible(cfg) && cfg.successThreshold == 1
    ensures ChatCalls(cfg, FRESH, calls) == DbCalls(cfg, DB_FRESH, calls)
  {
    RelatedBreakersAgree(cfg, FRESH, DB_FRESH, calls);
  }

  // With calls that overlap, the events come unpaired.

  /** The same event at the database breaker; every failure is an infrastructure error. */
  function AsDb(e: Event): DbEvent {
    match e case Begin(now) => Query(now) case Succeed(_) => Answer case Fail(now) => Error(true, now)
  }

  function DbEvents(events: seq<Event>): (r: seq<DbEvent>)
    ensures |r| == |events|
  {
    if events == [] then [] else DbEvents(Init(events)) + [AsDb(Last(events))]
  }

  /** Both breakers are in the same mode, and were after every earlier event. */
  predicate AgreeThroughout(cfg: Config, events: seq<Event>) {
    && Run(cfg, events).mode == DbRun(cfg, DbEvents(events)).mode
    && (events != [] ==> AgreeThroughout(cfg, Init(events)))
  }

  /** A success in this mode leaves the chatbot breaker closed, as it does the other. */
  predicate SuccessCloses(cfg: Config, mode: Mode) {
    mode == Closed || (mode == HalfOpen && cfg.successThreshold == 1)
  }

  predicate SuccessesClose(cfg: Config, events: seq<Event>) {
    events != [] ==>
      && (Last(events).Succeed? ==> SuccessCloses(cfg, Run(cfg, Init(events)).mode))
      && SuccessesClose(cfg, Init(events))
  }

  lemma OneEventApart(cfg: Config, c: Breaker, d: DbBreaker, e: Event)
    requires Sensible(cfg) && Related(cfg, c, d)
    ensures if e.Succeed? && !SuccessCloses(cfg, c.mode)
            then Step(cfg, c, e).mode != DbStep(cfg, d, AsDb(e)).mode
            else Related(cfg, Step(cfg, c, e), DbStep(cfg, d, AsDb(e)))
  {
  }

  /** However calls overlap, the two stay in step exactly as long as every success closes
      the chatbot breaker or finds it closed: with one probe success enough to close, as
      long as none comes in while the breaker is open. */
  lemma {:induction false} OverlappingCallsCannotTellIff(cfg: Config, events: seq<Event>)
    requires Sensible(cfg)
    ensures AgreeThroughout(cfg, events) <==> SuccessesClose(cfg, events)
    ensures AgreeThroughout(cfg, events) ==> Related(cfg, Run(cfg, events), DbRun(cfg, DbEvents(events)))
    ensures AgreeThroughout(cfg, events) ==> forall now ::
      Rejects(cfg, Run(cfg, events), now) <==> !CanExecute(cfg, DbRun(cfg, DbEvents(events)), now)
  {
    if events != [] {
      var before := Init(events);
      OverlappingCallsCannotTellIff(cfg, before);
      assert DbRun(cfg, DbEvents(events)) == DbStep(cfg, DbRun(cfg, DbEvents(before)), AsDb(Last(events))) by {
        assert Init(DbEvents(events)) == DbEvents(before);
      }
      if AgreeThroughout(cfg, before) {
        OneEventApart(cfg, Run(cfg, before), DbRun(cfg, DbEvents(before)), Last(events));
      }
    }
  }

  /** A success that comes in while the breaker is open sets them apart. */
  lemma {:induction false} LateSuccessTells(cfg: Config, events: seq<Event>, now: int)
    requires Sensible(cfg) && Run(cfg, events).mode == Open
    ensures !AgreeThroughout(cfg, events + [Succeed(now)])
  {
    assert Init(events + [Succeed(now)]) == events;
    OverlappingCallsCannotTellIff(cfg, events + [Succeed(now)]);
  }

  const OVERLAPPING := [Begin(0), Begin(0)]

  lemma FailedOverlapOpens(recoveryTimeout: int)
    ensures Run(Config(1, 1, recoveryTimeout), OVERLAPPING + [Fail(1)]).mode == Open
  {
    var cfg := Config(1, 1, recoveryTimeout);
    assert Init(OVERLAPPING) == [Begin(0)] && Init([Begin(0)]) == [];
    assert Run(cfg, [Begin(0)]) == FRESH;
    assert Run(cfg, OVERLAPPING) == FRESH;
    RunOneMore(cfg, OVERLAPPING, Fail(1));
  }

  /** Two overlapping calls are enough for that. */
  lemma OverlappingCallsCanTell(recoveryTimeout: int)
    ensures !AgreeThroughout(Config(1, 1, recoveryTimeout), OVERLAPPING + [Fail(1)] + [Succeed(2)])
  {
    FailedOverlapOpens(recoveryTimeout);
    LateSuccessTells(Config(1, 1, recoveryTimeout), OVERLAPPING + [Fail(1)], 2);
  }

  /** Nothing limits the probes: a half-open breaker admits every call and stays half open. */
  lemma {:induction false} HalfOpenAdmitsAll(cfg: Config, events: seq<Event>, calls: seq<Event>)
    requires Run(cfg, events).mode == HalfOpen && forall i :: 0 <= i < |calls| ==> calls[i].Begin?
    ensures Run(cfg, events + calls) == Run(cfg, events)
    ensures forall now :: !Rejects(cfg, Run(cfg, events + calls), now)
    decreases |calls|
  {
    if calls == [] {
      assert events + calls == events;
    } else {
      assert Init(events + calls) == events + Init(calls) && Last(events + calls) == Last(calls);
      HalfOpenAdmitsAll(cfg, events, Init(calls));
    }
  }
}

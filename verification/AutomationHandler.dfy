/**
  One event at a time (ai.automation.service.js): what handling comments one after the
  other, without failures, does to a ticket, and how many AI messages it can get.
 */
module AutomationHandler {
  import opened Basics
  import opened AutomationGuards
  import opened AutomationDecision

  /** What a ticket's scoring needs besides its row. */
  datatype Facts = Facts(priority: Priority, createdAt: int, descriptionLength: nat, hasAttachments: bool)

  datatype Org = Org(config: OrgConfig, thresholds: Thresholds)

  /** One event together with the answers of the outside world: the clock, the language
      model, the availability of an agent, and the identity given to the stored comment. */
  datatype Handling = Handling(
    commentId: nat, now: int, org: Option<Org>, responseLength: nat, problematic: bool,
    agentAvailable: bool, newId: nat)

  function ConfigOf(org: Option<Org>): Option<OrgConfig> {
    match org case None => None case Some(o) => Some(o.config)
  }

  function ThresholdsOf(org: Option<Org>): Thresholds {
    match org case None => DEFAULTS case Some(o) => o.thresholds
  }

  predicate Responds(ticket: Ticket, h: Handling) {
    MayAnswer(ticket, h.commentId, ConfigOf(h.org), h.now)
  }

  function ContextOf(ticket: Ticket, facts: Facts, h: Handling): Context {
    Context(h.responseLength, h.problematic, |ticket.comments| > 3, facts.priority,
            h.now - facts.createdAt, |ticket.comments|, facts.hasAttachments, facts.descriptionLength)
  }

  function ActionFor(ticket: Ticket, facts: Facts, h: Handling): Action {
    DecideAction(Confidence(ContextOf(ticket, facts, h)), !ticket.fields.hasAssignee, ThresholdsOf(h.org))
  }

  /** What the score is read from: the copy of the ticket without the new answer, and the moment. */
  lemma ScoreReadsTheCopy(ticket: Ticket, facts: Facts, h: Handling)
    ensures var c := ContextOf(ticket, facts, h);
      && (c.isFollowUp <==> 4 <= |ticket.comments|) && c.commentCount == |ticket.comments|
      && facts.createdAt + c.ticketAge == h.now
      && (c.responseLength, c.hasProblematicKeywords) == (h.responseLength, h.problematic)
      && (c.priority, c.hasAttachments, c.descriptionLength)
         == (facts.priority, facts.hasAttachments, facts.descriptionLength)
    ensures ActionFor(ticket, facts, h) == SmartAssign ==> !ticket.fields.hasAssignee
  {
  }

  /** The ticket after one event that got a response.  The final update writes the count
      and, for some outcomes, status and activity: an assignment made in between stays. */
  function Answered(ticket: Ticket, facts: Facts, h: Handling): Ticket {
    var action := ActionFor(ticket, facts, h);
    var update := TicketUpdate(ticket, action);
    var fields := if action == SmartAssign && h.agentAvailable
                  then update.(hasAssignee := true, status := IN_PROGRESS) else update;
    Ticket(fields, ticket.comments + [Comment(h.newId, Ai, h.now)])
  }

  function Handled(ticket: Ticket, facts: Facts, h: Handling): Ticket {
    if Responds(ticket, h) then Answered(ticket, facts, h) else ticket
  }

  /** The stores that one ticket's automation touches. */
  class Automation {
    const facts: Facts
    var ticket: Ticket
    var processed: set<nat>
    var locks: set<nat>

    constructor (facts: Facts, ticket: Ticket)
      ensures this.facts == facts && this.ticket == ticket && processed == {} && locks == {}
    {
      this.facts, this.ticket, processed, locks := facts, ticket, {}, {};
    }

    /** handleCommentAdded, uninterrupted. */
    method HandleCommentAdded(h: Handling) returns (responded: bool)
      modifies this
      ensures locks == old(locks)
      ensures responded == (h.commentId !in old(processed) && h.commentId !in old(locks)
                            && Responds(old(ticket), h))
      ensures ticket == if responded then Handled(old(ticket), facts, h) else old(ticket)
      ensures processed == if responded then old(processed) + {h.commentId} else old(processed)
    {
      if h.commentId in processed { return false; }
      if h.commentId in locks { return false; }
      locks := locks + {h.commentId};
      responded := false;
      var snapshot := ticket;
      if (h.org.Some? ==> h.org.value.config.aiEnabled)
         && IsUserComment(snapshot, h.commentId)
         && ShouldProcess(snapshot, ConfigOf(h.org), h.now) == Ready
      {
        GenerateAndStore(snapshot, h);
        processed := processed + {h.commentId};
        responded := true;
      }
      locks := locks - {h.commentId};
    }

    /** generateAndStoreAIResponse: comment, assignment, then the update of the snapshot's row. */
    method GenerateAndStore(snapshot: Ticket, h: Handling)
      requires ticket == snapshot
      modifies this`ticket
      ensures ticket == Answered(snapshot, facts, h)
    {
      var confidence := CalculateConfidence(ContextOf(snapshot, facts, h));
      var action := DecideAction(confidence, !snapshot.fields.hasAssignee, ThresholdsOf(h.org));
      ticket := ticket.(comments := ticket.comments + [Comment(h.newId, Ai, h.now)]);
      var update := TicketUpdate(snapshot, action);
      if action == SmartAssign && h.agentAvailable {
        ticket := ticket.(fields := ticket.fields.(hasAssignee := true, status := IN_PROGRESS));
      }
      var fields := ticket.fields.(aiMessageCount := update.aiMessageCount, aiActive := update.aiActive);
      if action == AutoResolve { fields := fields.(status := RESOLVED); }
      ticket := ticket.(fields := fields);
    }
  }

  // ---------------------------------------------------------------- a ticket's life

  /** What else happens to the ticket: people write comments, assign it, move its status,
      and turn AI off and on. */
  datatype Event =
    | Handle(h: Handling)
    | Write(id: nat, author: Author, at: int)
    | Manage(hasAssignee: bool, status: Status)
    | DisableAi
    | EnableAi

  function Apply(ticket: Ticket, facts: Facts, e: Event): Ticket {
    match e
    case Handle(h) => Handled(ticket, facts, h)
    case Write(id, author, at) => ticket.(comments := ticket.comments + [Comment(id, author, at)])
    case Manage(hasAssignee, status) =>
      ticket.(fields := ticket.fields.(hasAssignee := hasAssignee, status := status))
    case DisableAi => ticket.(fields := ticket.fields.(aiActive := false))
    case EnableAi => ticket.(fields := ticket.fields.(aiActive := true))
  }

  /** What people's edits do, and that they do nothing else. */
  lemma EditsAreExact(ticket: Ticket, facts: Facts, e: Event)
    requires !e.Handle?
    ensures var after := Apply(ticket, facts, e);
      && after.comments == (if e.Write? then ticket.comments + [Comment(e.id, e.author, e.at)] else ticket.comments)
      && (after.fields.aiActive <==> e.EnableAi? || (ticket.fields.aiActive && !e.DisableAi?))
      && after.fields.aiMessageCount == ticket.fields.aiMessageCount
      && (after.fields.hasAssignee, after.fields.status)
         == if e.Manage? then (e.hasAssignee, e.status) else (ticket.fields.hasAssignee, ticket.fields.status)
  {
  }

  function Life(facts: Facts, events: seq<Event>): Ticket {
    if events == [] then NEW_TICKET else Apply(Life(facts, Init(events)), facts, Last(events))
  }

  function Enables(events: seq<Event>): nat {
    if events == [] then 0 else Enables(Init(events)) + (if Last(events).EnableAi? then 1 else 0)
  }

  /** The organisation's setting is this limit; without a configuration row it is five. */
  predicate HasLimit(org: Option<Org>, limit: int) {
    match org case Some(o) => o.config.maxAIResponses == limit case None => limit == 5
  }

  /** Nobody but the automation writes AI comments, and the organisation's limit is fixed. */
  predicate Ordinary(events: seq<Event>, limit: nat) {
    forall i :: 0 <= i < |events| ==>
      && (events[i].Write? ==> events[i].author != Ai)
      && (events[i].Handle? ==> HasLimit(events[i].h.org, limit))
  }

  lemma {:induction false} CountAiOneMore(comments: seq<Comment>, c: Comment)
    ensures CountAi(comments + [c]) == CountAi(comments) + (if c.author == Ai then 1 else 0)
  {
    assert Init(comments + [c]) == comments;
  }

  /** The counter is right and within both limits. */
  predicate WithinBudget(ticket: Ticket, limit: nat, enables: nat) {
    && ticket.fields.aiMessageCount == CountAi(ticket.comments)
    && ticket.fields.aiMessageCount <= limit
    && ticket.fields.aiMessageCount <= 5 + enables
    && (ticket.fields.aiActive ==> ticket.fields.aiMessageCount < 5 + enables)
  }

  lemma HandlingStaysInBudget(ticket: Ticket, facts: Facts, h: Handling, limit: nat, enables: nat)
    requires WithinBudget(ticket, limit, enables) && HasLimit(h.org, limit)
    ensures WithinBudget(Handled(ticket, facts, h), limit, enables)
  {
    if Responds(ticket, h) { CountAiOneMore(ticket.comments, Comment(h.newId, Ai, h.now)); }
  }

  /** The counter tells the number of AI comments.  It never passes the organisation's
      limit, nor five plus the number of times somebody turned AI back on. */
  lemma {:induction false} MessageBudget(facts: Facts, events: seq<Event>, limit: nat)
    requires Ordinary(events, limit)
    ensures WithinBudget(Life(facts, events), limit, Enables(events))
  {
    if events != [] {
      MessageBudget(facts, Init(events), limit);
      var before := Life(facts, Init(events));
      match Last(events)
      case Handle(h) =>
        assert events[|events| - 1].Handle?;
        HandlingStaysInBudget(before, facts, h, limit, Enables(Init(events)));
      case Write(id, author, at) =>
        assert events[|events| - 1].Write?;
        CountAiOneMore(before.comments, Comment(id, author, at));
      case _ =>
    }
  }

  /** No event resolves a ticket by itself while the organisation's thresholds keep tickets of
      its priority from it: the only change of status is an assignment.  For an organisation
      without a configuration row these are the urgent tickets. */
  lemma TicketsStayUnresolved(ticket: Ticket, facts: Facts, h: Handling)
    requires !CanAutoResolve(facts.priority, ThresholdsOf(h.org))
    ensures Handled(ticket, facts, h).fields.status in {ticket.fields.status, IN_PROGRESS}
    ensures Handled(ticket, facts, h).fields.status != ticket.fields.status
        ==> !ticket.fields.hasAssignee && Handled(ticket, facts, h).fields.hasAssignee
  {
    AutoResolvableIff(facts.priority, ThresholdsOf(h.org));
  }
}

/** Tickets as the AI automation reads them, and its guard layer (ai.automation.guards.js). */
module AutomationGuards {
  import opened Basics

  datatype Author = User | Ai | System

  datatype Comment = Comment(id: nat, author: Author, createdAt: int)

  datatype Status = OPEN | IN_PROGRESS | RESOLVED | CLOSED

  /** The columns of a ticket row that the automation reads or writes. */
  datatype Fields = Fields(aiActive: bool, aiMessageCount: nat, hasAssignee: bool, status: Status)

  /** A ticket row with its comments, oldest first. */
  datatype Ticket = Ticket(fields: Fields, comments: seq<Comment>)

  const NEW_TICKET := Ticket(Fields(true, 0, false, OPEN), [])

  datatype OrgConfig = OrgConfig(aiEnabled: bool, maxAIResponses: nat)

  const MAX_MESSAGES := 5
  const COOLDOWN := 30_000

  datatype Verdict = Ready | AiDisabled | MaxMessagesReached | CooldownActive | AlreadyInProgress

  function MaxMessages(org: Option<OrgConfig>): nat {
    match org
    case Some(config) => config.maxAIResponses
    case None => MAX_MESSAGES
  }

  /** The AI comment nearest the end of the list. */
  function LastAi(comments: seq<Comment>): Option<Comment> {
    if comments == [] then None
    else if Last(comments).author == Ai then Some(Last(comments))
    else LastAi(Init(comments))
  }

  function ShouldProcess(ticket: Ticket, org: Option<OrgConfig>, now: int): Verdict {
    if !ticket.fields.aiActive then AiDisabled
    else if ticket.fields.aiMessageCount >= MaxMessages(org) then MaxMessagesReached
    else if LastAi(ticket.comments).Some?
            && COOLDOWN - (now - LastAi(ticket.comments).value.createdAt) > 0 then CooldownActive
    else if ticket.fields.hasAssignee && ticket.fields.status == IN_PROGRESS then AlreadyInProgress
    else Ready
  }

  predicate IsUserComment(ticket: Ticket, id: nat) {
    exists c :: c in ticket.comments && c.id == id && c.author == User
  }

  /** Everything between reading the ticket and answering the comment. */
  predicate MayAnswer(ticket: Ticket, id: nat, org: Option<OrgConfig>, now: int) {
    && (org.Some? ==> org.value.aiEnabled)
    && IsUserComment(ticket, id)
    && ShouldProcess(ticket, org, now) == Ready
  }

  predicate Chronological(comments: seq<Comment>) {
    forall i, j :: 0 <= i < j < |comments| ==> comments[i].createdAt <= comments[j].createdAt
  }

  /** A ready verdict keeps its distance from every AI comment, not only from the last. */
  lemma {:induction false} ReadyKeepsDistance(comments: seq<Comment>, now: int)
    requires Chronological(comments)
    requires LastAi(comments).Some? ==> COOLDOWN - (now - LastAi(comments).value.createdAt) <= 0
    ensures forall c :: c in comments && c.author == Ai ==> c.createdAt + COOLDOWN <= now
  {
    if comments != [] {
      if Last(comments).author != Ai {
        ReadyKeepsDistance(Init(comments), now);
        forall c | c in comments && c.author == Ai ensures c in Init(comments) {}
      } else {
        forall c | c in comments && c.author == Ai ensures c.createdAt + COOLDOWN <= now {
          var i :| 0 <= i < |comments| && comments[i] == c;
          assert i < |comments| - 1 ==> comments[i].createdAt <= comments[|comments| - 1].createdAt;
        }
      }
    }
  }

  lemma {:induction false} LastAiIsIn(comments: seq<Comment>)
    requires LastAi(comments).Some?
    ensures LastAi(comments).value in comments && LastAi(comments).value.author == Ai
  {
    if Last(comments).author != Ai { LastAiIsIn(Init(comments)); }
  }

  /** The AI messages an organisation allows on a ticket: its own setting, or five. */
  predicate Allows(org: Option<OrgConfig>, n: int) {
    match org
    case Some(config) => n < config.maxAIResponses
    case None => n < 5
  }

  /** No AI comment is younger than thirty seconds. */
  ghost predicate Rested(comments: seq<Comment>, now: int) {
    forall c :: c in comments && c.author == Ai ==> c.createdAt + 30_000 <= now
  }

  lemma {:induction false} RestedMeans(comments: seq<Comment>, now: int)
    requires Chronological(comments)
    ensures Rested(comments, now) <==>
      (LastAi(comments).Some? ==> COOLDOWN - (now - LastAi(comments).value.createdAt) <= 0)
  {
    if LastAi(comments).Some? { LastAiIsIn(comments); }
    if LastAi(comments).Some? ==> COOLDOWN - (now - LastAi(comments).value.createdAt) <= 0 {
      ReadyKeepsDistance(comments, now);
    }
  }

  /** The guard layer in full: a comment is answered exactly when the organisation has AI on and
      allows one more message, the comment is a user's, AI is on for the ticket, every AI
      comment has rested, and no agent is working on it. */
  lemma {:induction false} AnsweredExactlyWhen(ticket: Ticket, id: nat, org: Option<OrgConfig>, now: int)
    requires Chronological(ticket.comments)
    ensures MayAnswer(ticket, id, org, now) <==>
      && (org.Some? ==> org.value.aiEnabled)
      && Allows(org, ticket.fields.aiMessageCount)
      && (exists i :: 0 <= i < |ticket.comments| && ticket.comments[i].id == id && ticket.comments[i].author == User)
      && ticket.fields.aiActive
      && Rested(ticket.comments, now)
      && !(ticket.fields.hasAssignee && ticket.fields.status == IN_PROGRESS)
  {
    RestedMeans(ticket.comments, now);
    if IsUserComment(ticket, id) {
      var c :| c in ticket.comments && c.id == id && c.author == User;
    } else {
      forall i | 0 <= i < |ticket.comments| && ticket.comments[i].id == id
        ensures ticket.comments[i].author != User
      {
        assert ticket.comments[i] in ticket.comments;
      }
    }
  }

  /** Which reason is given: the first that applies, in the order of the guards. */
  lemma {:induction false} VerdictIsFirstReason(ticket: Ticket, org: Option<OrgConfig>, now: int)
    requires Chronological(ticket.comments)
    ensures var v, f := ShouldProcess(ticket, org, now), ticket.fields;
      && (v == AiDisabled <==> !f.aiActive)
      && (v == MaxMessagesReached <==> f.aiActive && !Allows(org, f.aiMessageCount))
      && (v == CooldownActive <==>
            f.aiActive && Allows(org, f.aiMessageCount) && !Rested(ticket.comments, now))
      && (v == AlreadyInProgress <==>
            f.aiActive && Allows(org, f.aiMessageCount) && Rested(ticket.comments, now)
            && f.hasAssignee && f.status == IN_PROGRESS)
  {
    RestedMeans(ticket.comments, now);
  }
}

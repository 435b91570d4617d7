// The request handling of backend-node/routes/candidatePipelineRoutes.js:
// how the talent-pool query string becomes the service's filters, the guard
// of the bulk status update, the message-type dispatch and the status a
// message leaves behind, the per-candidate loop of the bulk message route and
// the fallback texts used when the AI call fails. The AI reply is a
// parameter (`None` when the call throws); the database writes a route
// performs are returned as a list of `Write`s, and a write that throws is
// described by a `Fault`.

module PipelineRoutes {
  import opened Common
  import opened Js
  import DatabaseService

  // ---------------------------------------------------------------------
  // GET /talent-pool
  // ---------------------------------------------------------------------

  /** `x ? parseInt(x) : undefined`. */
  function OptionalInt(v: Value): (r: Value)
    ensures !Truthy(v) ==> r == Undefined
    ensures Truthy(v) ==> r == ParseIntValue(v) && r != Undefined
  {
    if Truthy(v) then ParseIntValue(v) else Undefined
  }

  /** The filters the talent-pool route hands to `getTalentPool`, in the order it lists them. */
  function TalentPoolFilterEntries(query: Value): (entries: seq<(string, Value)>)
    ensures |entries| == 7
  {
    [ ("tier", Get(query, "tier")),
      ("position", Get(query, "position")),
      ("minScore", OptionalInt(Get(query, "minScore"))),
      ("maxScore", OptionalInt(Get(query, "maxScore"))),
      ("status", Get(query, "status")),
      ("sortBy", Or(Get(query, "sortBy"), Str("score"))),
      ("sortOrder", Or(Get(query, "sortOrder"), Str("desc"))) ]
  }

  function TalentPoolFilters(query: Value): (filters: Value)
    ensures filters.Obj?
  {
    Obj(TalentPoolFilterEntries(query))
  }

  /** Score bounds reach the service only when supplied, as integers or `NaN`. */
  lemma TalentPoolScoreBounds(query: Value)
    ensures !Truthy(Get(query, "minScore")) <==> Get(TalentPoolFilters(query), "minScore") == Undefined
    ensures !Truthy(Get(query, "maxScore")) <==> Get(TalentPoolFilters(query), "maxScore") == Undefined
    ensures Truthy(Get(query, "minScore")) ==> Get(TalentPoolFilters(query), "minScore") == ParseIntValue(Get(query, "minScore"))
  {
    var e := TalentPoolFilterEntries(query);
    LookupAt(e, "minScore", 2);
    LookupAt(e, "maxScore", 3);
  }

  /**
   * A missing sort key means the score and a missing order means
   * descending, so by default the pool is ordered by tier score, highest
   * first.
   */
  lemma TalentPoolDefaultSort(query: Value)
    requires !Truthy(Get(query, "sortBy")) && !Truthy(Get(query, "sortOrder"))
    ensures Get(TalentPoolFilters(query), "sortBy") == Str("score")
    ensures Get(TalentPoolFilters(query), "sortOrder") == Str("desc")
    ensures DatabaseService.TalentPoolSortField(Get(TalentPoolFilters(query), "sortBy")) == "cp.tier_score"
    ensures DatabaseService.TalentPoolSortOrder(Get(TalentPoolFilters(query), "sortOrder")) == "DESC"
  {
    var e := TalentPoolFilterEntries(query);
    LookupAt(e, "sortBy", 5);
    LookupAt(e, "sortOrder", 6);
  }

  /** The route never forwards a job filter, so the service's `job_id` test never applies. */
  lemma TalentPoolIgnoresJob(query: Value)
    ensures Get(TalentPoolFilters(query), "job_id") == Undefined
    ensures !DatabaseService.TalentPoolTests(TalentPoolFilters(query))[1].0
  {
    LookupMissing(TalentPoolFilterEntries(query), "job_id");
  }

  /** `GET /talent-pool`: the query the route makes. */
  method TalentPoolRoute(query: Value) returns (q: DatabaseService.Query)
    ensures var applied := DatabaseService.Selected(DatabaseService.TalentPoolTests(TalentPoolFilters(query)));
      q.params == DatabaseService.ValuesOf(applied)
      && q.text == DatabaseService.TalentPoolBase + DatabaseService.FilterClauses(applied, 1)
                   + " ORDER BY " + DatabaseService.TalentPoolSortField(Get(TalentPoolFilters(query), "sortBy"))
                   + " " + DatabaseService.TalentPoolSortOrder(Get(TalentPoolFilters(query), "sortOrder"))
  {
    q := DatabaseService.TalentPoolQuery(TalentPoolFilters(query));
  }

  // ---------------------------------------------------------------------
  // POST /bulk-update
  // ---------------------------------------------------------------------

  datatype BulkUpdateReply = BadRequest(message: string) | Updated(query: DatabaseService.Query)

  /** `!Array.isArray(ids) || ids.length === 0`. */
  predicate NonEmptyArray(v: Value)
  {
    v.Arr? && |v.items| > 0
  }

  /** `POST /bulk-update`: 400 without touching the database unless the ids are a non-empty array. */
  function BulkUpdateRoute(body: Value): (r: BulkUpdateReply)
    ensures r.BadRequest? <==> !NonEmptyArray(Get(body, "candidatePipelineIds"))
    ensures r.BadRequest? ==> r.message == "candidatePipelineIds must be a non-empty array"
    ensures r.Updated? ==> r.query.params == [Get(body, "status")] + Get(body, "candidatePipelineIds").items
  {
    var ids := Get(body, "candidatePipelineIds");
    if !NonEmptyArray(ids) then BadRequest("candidatePipelineIds must be a non-empty array")
    else Updated(DatabaseService.BulkUpdateStatusQuery(ids.items, Get(body, "status")))
  }

  // ---------------------------------------------------------------------
  // Messages
  // ---------------------------------------------------------------------

  datatype MessageKind = RejectionEmail | Sms | Email

  /** The three message types the routes know, by exact string. */
  function MessageKindOf(messageType: Value): (k: Option<MessageKind>)
    ensures k == Some(RejectionEmail) <==> messageType == Str("rejection_email")
    ensures k == Some(Sms) <==> messageType == Str("sms")
    ensures k == Some(Email) <==> messageType == Str("email")
  {
    if messageType == Str("rejection_email") then Some(RejectionEmail)
    else if messageType == Str("sms") then Some(Sms)
    else if messageType == Str("email") then Some(Email)
    else None
  }

  const SmsOpening := "Hi! We found your resume for our "
  const SmsLinkLead := ". Interested? Schedule an interview: "

  /** `generateOutreachSMS`'s text when the AI call fails. */
  function FallbackSms(jobTitle: Value, jobLocation: Value, schedulingLink: Value): (text: string)
  {
    SmsOpening + ToText(jobTitle) + " position in " + ToText(jobLocation)
    + SmsLinkLead + ToText(Or(schedulingLink, Str("[link]")))
  }

  /**
   * The fallback SMS names the job title right after its fixed opening and
   * ends with the scheduling link, or `[link]` when none is given.
   */
  lemma FallbackSmsMentions(jobTitle: Value, jobLocation: Value, schedulingLink: Value)
    ensures var text := FallbackSms(jobTitle, jobLocation, schedulingLink);
      OccursAt(text, ToText(jobTitle), |SmsOpening|)
      && EndsWith(text, if Truthy(schedulingLink) then ToText(schedulingLink) else "[link]")
  {
    var title := ToText(jobTitle);
    var link := ToText(Or(schedulingLink, Str("[link]")));
    var tail := " position in " + ToText(jobLocation) + SmsLinkLead;
    var text := FallbackSms(jobTitle, jobLocation, schedulingLink);
    assert text == SmsOpening + title + (tail + link);
    OccursBetween(SmsOpening, title, tail + link);
    assert text == (SmsOpening + title + tail) + link;
    EndsWithLast(SmsOpening + title + tail, link);
  }

  const EmailGreeting := "\n\nDear Candidate,\n\nWe came across your resume and believe you could be a great fit for our "
  const EmailLinkLead := ".\n\nWe'd love to discuss this opportunity with you. Please use the following link to schedule an interview at your convenience: "
  const EmailClosing := "\n\nLooking forward to speaking with you soon!\n\nBest regards,\nThe Hiring Team"

  /** `generateOutreachEmail`'s text when the AI call fails. */
  function FallbackEmail(jobTitle: Value, jobLocation: Value, schedulingLink: Value): (text: string)
    ensures StartsWith(text, "Subject: Opportunity: " + ToText(jobTitle))
  {
    var subject := "Subject: Opportunity: " + ToText(jobTitle);
    var rest := " - " + ToText(jobLocation) + EmailGreeting + ToText(jobTitle) + " position in " + ToText(jobLocation)
                + EmailLinkLead + ToText(Or(schedulingLink, Str("[Scheduling link]"))) + EmailClosing;
    assert (subject + rest)[..|subject|] == subject;
    subject + rest
  }

  const RejectionThanks := "\n\nDear Candidate,\n\nThank you for your interest in the "
  const RejectionClosing := " position and for taking the time to submit your application.\n\nAfter careful consideration, we have decided to move forward with other candidates whose qualifications more closely match our current needs. We appreciate your interest in joining our team and encourage you to apply for future opportunities that align with your skills and experience.\n\nWe wish you the best in your job search.\n\nBest regards,\nThe Hiring Team"

  /** `generateRejectionEmail`'s text when the AI call fails. */
  function FallbackRejection(jobTitle: Value): (text: string)
    ensures StartsWith(text, "Subject: Update on Your Application for " + ToText(jobTitle))
  {
    var subject := "Subject: Update on Your Application for " + ToText(jobTitle);
    var rest := RejectionThanks + ToText(jobTitle) + RejectionClosing;
    assert (subject + rest)[..|subject|] == subject;
    subject + rest
  }

  /** The AI's reply, trimmed, or the kind's fallback text when the call fails. */
  function GenerateMessage(kind: MessageKind, body: Value, ai: Option<string>): (text: string)
    ensures ai.Some? ==> text == Trim(ai.value)
    ensures ai.None? && kind == Sms ==>
              text == FallbackSms(Get(body, "jobTitle"), Get(body, "jobLocation"), Get(body, "schedulingLink"))
    ensures ai.None? && kind == Email ==>
              text == FallbackEmail(Get(body, "jobTitle"), Get(body, "jobLocation"), Get(body, "schedulingLink"))
    ensures ai.None? && kind == RejectionEmail ==> text == FallbackRejection(Get(body, "jobTitle"))
  {
    match ai
    case Some(t) => Trim(t)
    case None =>
      match kind
      case RejectionEmail => FallbackRejection(Get(body, "jobTitle"))
      case Sms => FallbackSms(Get(body, "jobTitle"), Get(body, "jobLocation"), Get(body, "schedulingLink"))
      case Email => FallbackEmail(Get(body, "jobTitle"), Get(body, "jobLocation"), Get(body, "schedulingLink"))
  }

  /** A database write a message route performs. */
  datatype Write =
    | Logged(pipelineId: Value, communicationType: Value, content: Value)
    | StatusSet(pipelineId: Value, status: string)

  /** Where a message's writes stop: all of them go through, or the first `completed` do and the next throws. */
  datatype Fault = NoFault | Fault(completed: nat, message: string)

  /** The status the route itself writes after logging: `rejected` only for a rejection email. */
  function RouteStatus(messageType: Value): (status: string)
    ensures status == "rejected" <==> messageType == Str("rejection_email")
    ensures status == "rejected" || status == "contacted"
  {
    if messageType != Str("rejection_email") then "contacted" else "rejected"
  }

  /**
   * The writes for one message: the log row, the status `logCommunication`
   * sets (the routes pass no category, so `contacted`), then the route's own
   * status.
   */
  function MessageWrites(pipelineId: Value, messageType: Value, content: Value): (ws: seq<Write>)
    ensures |ws| == 3
  {
    [ Logged(pipelineId, messageType, content),
      StatusSet(pipelineId, DatabaseService.StatusAfterMessage(Undefined)),
      StatusSet(pipelineId, RouteStatus(messageType)) ]
  }

  /** The writes that go through under a fault. */
  function WritesDone(ws: seq<Write>, fault: Fault): (done: seq<Write>)
    ensures fault.NoFault? ==> done == ws
    ensures fault.Fault? ==> |done| < |ws| || |ws| == 0
    ensures done <= ws
  {
    if fault.NoFault? then ws
    else if fault.completed < |ws| then ws[..fault.completed]
    else if ws == [] then []
    else ws[..|ws| - 1]
  }

  /** The status the last status write leaves for a pipeline row, if any. */
  function LastStatus(ws: seq<Write>, pipelineId: Value): (r: Option<string>)
  {
    if ws == [] then None
    else if ws[|ws| - 1].StatusSet? && ws[|ws| - 1].pipelineId == pipelineId then Some(ws[|ws| - 1].status)
    else LastStatus(ws[..|ws| - 1], pipelineId)
  }

  /**
   * After a message goes through, the row is `rejected` iff the type was
   * `rejection_email` and `contacted` otherwise, although
   * `logCommunication` itself always writes `contacted` first.
   */
  lemma MessageFinalStatus(pipelineId: Value, messageType: Value, content: Value)
    ensures DatabaseService.StatusAfterMessage(Undefined) == "contacted"
    ensures LastStatus(MessageWrites(pipelineId, messageType, content), pipelineId)
            == Some(if messageType == Str("rejection_email") then "rejected" else "contacted")
  {
  }

  datatype MessageReply =
    | InvalidType
    | ServerError(message: string)
    | MessageSent(message: string, writes: seq<Write>)

  function MessageStatusCode(r: MessageReply): int
  {
    match r
    case InvalidType => 400
    case ServerError(_) => 500
    case MessageSent(_, _) => 200
  }

  /**
   * `POST /:id/message`. An unknown type is refused with 400 before
   * anything is generated or written; a write that throws ends in 500 with
   * the writes before it kept.
   */
  method SendMessage(id: string, body: Value, ai: Option<string>, fault: Fault)
    returns (reply: MessageReply, writes: seq<Write>)
    ensures MessageKindOf(Get(body, "messageType")).None? <==> reply == InvalidType
    ensures reply == InvalidType ==> writes == []
    ensures reply.ServerError? <==> MessageKindOf(Get(body, "messageType")).Some? && fault.Fault?
    ensures reply.ServerError? ==> reply.message == "Failed to send message"
    ensures MessageKindOf(Get(body, "messageType")).Some? ==>
              var kind := MessageKindOf(Get(body, "messageType")).value;
              var text := GenerateMessage(kind, body, ai);
              writes == WritesDone(MessageWrites(ParseIntValue(Str(id)), Get(body, "messageType"), Str(text)), fault)
    ensures reply.MessageSent? ==> reply.writes == writes
                                   && reply.message == GenerateMessage(MessageKindOf(Get(body, "messageType")).value, body, ai)
  {
    var pipelineId := ParseIntValue(Str(id));
    var messageType := Get(body, "messageType");
    var kind := MessageKindOf(messageType);
    if kind.None? {
      return InvalidType, [];
    }
    var content := GenerateMessage(kind.value, body, ai);
    writes := WritesDone(MessageWrites(pipelineId, messageType, Str(content)), fault);
    if fault.Fault? {
      return ServerError("Failed to send message"), writes;
    }
    reply := MessageSent(content, writes);
  }

  // ---------------------------------------------------------------------
  // POST /bulk-message
  // ---------------------------------------------------------------------

  /** One candidate's entry in the bulk reply. */
  datatype MessageResult =
    | Delivered(pipelineId: Value, message: Value)
    | NotDelivered(pipelineId: Value, error: string)

  /** What happens for one id: the AI's reply and where the writes stop. */
  datatype Attempt = Attempt(ai: Option<string>, fault: Fault)

  /**
   * The content one bulk message logs. Unlike the single route, the bulk
   * route does not refuse an unknown type; its content stays `undefined`.
   */
  function BulkContent(body: Value, ai: Option<string>): (content: Value)
    ensures MessageKindOf(Get(body, "messageType")).None? <==> content == Undefined
  {
    match MessageKindOf(Get(body, "messageType"))
    case None => Undefined
    case Some(kind) => Str(GenerateMessage(kind, body, ai))
  }

  /** The result and the writes for one id of the bulk route. */
  function BulkStep(body: Value, pipelineId: Value, a: Attempt): (r: (MessageResult, seq<Write>))
    ensures r.0.Delivered? <==> a.fault.NoFault?
    ensures r.0.pipelineId == pipelineId
    ensures r.1 == WritesDone(MessageWrites(pipelineId, Get(body, "messageType"), BulkContent(body, a.ai)), a.fault)
  {
    var content := BulkContent(body, a.ai);
    var ws := WritesDone(MessageWrites(pipelineId, Get(body, "messageType"), content), a.fault);
    match a.fault
    case NoFault => (Delivered(pipelineId, content), ws)
    case Fault(_, message) => (NotDelivered(pipelineId, message), ws)
  }

  /** The step of the bulk route for the request `body`. */
  function BulkStepper(body: Value): (Value, Attempt) -> (MessageResult, seq<Write>)
  {
    (pipelineId, a) => BulkStep(body, pipelineId, a)
  }

  /** The results of the bulk loop, one per id, in order. */
  function BulkResults(step: (Value, Attempt) -> (MessageResult, seq<Write>), ids: seq<Value>, attempts: seq<Attempt>)
    : (rs: seq<MessageResult>)
    requires |attempts| == |ids|
    ensures |rs| == |ids|
    ensures forall i :: 0 <= i < |ids| ==> rs[i] == step(ids[i], attempts[i]).0
  {
    if ids == [] then []
    else BulkResults(step, ids[..|ids| - 1], attempts[..|ids| - 1]) + [step(ids[|ids| - 1], attempts[|ids| - 1]).0]
  }

  /** The writes of the bulk loop, id after id. */
  function BulkWrites(step: (Value, Attempt) -> (MessageResult, seq<Write>), ids: seq<Value>, attempts: seq<Attempt>)
    : (ws: seq<Write>)
    requires |attempts| == |ids|
  {
    if ids == [] then []
    else BulkWrites(step, ids[..|ids| - 1], attempts[..|ids| - 1]) + step(ids[|ids| - 1], attempts[|ids| - 1]).1
  }

  /** The bulk loop over one more id appends that id's result and writes. */
  lemma BulkOneMore(step: (Value, Attempt) -> (MessageResult, seq<Write>), ids: seq<Value>, attempts: seq<Attempt>,
                    i: nat)
    requires |attempts| == |ids| && i < |ids|
    ensures BulkResults(step, ids[..i + 1], attempts[..i + 1])
            == BulkResults(step, ids[..i], attempts[..i]) + [step(ids[i], attempts[i]).0]
    ensures BulkWrites(step, ids[..i + 1], attempts[..i + 1])
            == BulkWrites(step, ids[..i], attempts[..i]) + step(ids[i], attempts[i]).1
  {
    assert ids[..i + 1][..i] == ids[..i] && attempts[..i + 1][..i] == attempts[..i];
  }

  function CountDelivered(rs: seq<MessageResult>): (n: nat)
    ensures n <= |rs|
  {
    if rs == [] then 0 else CountDelivered(rs[..|rs| - 1]) + (if rs[|rs| - 1].Delivered? then 1 else 0)
  }

  function CountNotDelivered(rs: seq<MessageResult>): (n: nat)
    ensures n <= |rs|
  {
    if rs == [] then 0 else CountNotDelivered(rs[..|rs| - 1]) + (if rs[|rs| - 1].NotDelivered? then 1 else 0)
  }

  /** Every result is counted exactly once: `successful + failed == totalProcessed`. */
  lemma {:induction false} CountsPartition(rs: seq<MessageResult>)
    ensures CountDelivered(rs) + CountNotDelivered(rs) == |rs|
  {
    if rs != [] {
      CountsPartition(rs[..|rs| - 1]);
    }
  }

  datatype BulkMessageReply =
    | BulkBadRequest(message: string)
    | BulkDone(totalProcessed: nat, successful: nat, failed: nat, results: seq<MessageResult>)

  /**
   * `POST /bulk-message`: every id is tried, a failure is recorded and the
   * loop goes on, and the counts add up to the number of ids.
   */
  method BulkMessage(body: Value, attempts: seq<Attempt>) returns (reply: BulkMessageReply, writes: seq<Write>)
    requires Get(body, "candidatePipelineIds").Arr? ==> |attempts| == |Get(body, "candidatePipelineIds").items|
    ensures reply.BulkBadRequest? <==> !NonEmptyArray(Get(body, "candidatePipelineIds"))
    ensures reply.BulkBadRequest? ==> writes == []
    ensures reply.BulkDone? ==>
              var ids := Get(body, "candidatePipelineIds").items;
              reply.results == BulkResults(BulkStepper(body), ids, attempts)
              && writes == BulkWrites(BulkStepper(body), ids, attempts)
              && reply.totalProcessed == |ids|
              && reply.successful == CountDelivered(reply.results)
              && reply.failed == CountNotDelivered(reply.results)
              && reply.successful + reply.failed == reply.totalProcessed
  {
    var idsValue := Get(body, "candidatePipelineIds");
    if !NonEmptyArray(idsValue) {
      return BulkBadRequest("candidatePipelineIds must be a non-empty array"), [];
    }
    var ids := idsValue.items;
    var results: seq<MessageResult> := [];
    writes := [];
    var i := 0;
    while i < |ids|
      invariant 0 <= i <= |ids|
      invariant results == BulkResults(BulkStepper(body), ids[..i], attempts[..i])
      invariant writes == BulkWrites(BulkStepper(body), ids[..i], attempts[..i])
    {
      var step := BulkStep(body, ids[i], attempts[i]);
      BulkOneMore(BulkStepper(body), ids, attempts, i);
      results := results + [step.0];
      writes := writes + step.1;
      i := i + 1;
    }
    assert ids[..i] == ids && attempts[..i] == attempts;
    CountsPartition(results);
    reply := BulkDone(|results|, CountDelivered(results), CountNotDelivered(results), results);
  }

  /**
   * With an unknown type the bulk route still logs each message, with
   * `undefined` content, and marks the candidate contacted.
   */
  lemma BulkUnknownTypeStillContacts(body: Value, pipelineId: Value, ai: Option<string>)
    requires MessageKindOf(Get(body, "messageType")).None?
    ensures BulkStep(body, pipelineId, Attempt(ai, NoFault)).1
            == [ Logged(pipelineId, Get(body, "messageType"), Undefined),
                 StatusSet(pipelineId, "contacted"), StatusSet(pipelineId, "contacted") ]
  {
  }
}

// frontend/src/components/ContactRejectionModal.tsx: the dialog that contacts
// or rejects a candidate. Its settings pick a template from the fixed table;
// `handleSend` either rejects silently, or validates and posts the rendered
// message. The requests are parameters: each send is given how its request
// ends, and the method returns what it would post.

module ContactRejectionModal {
  import opened Common
  import opened MessageTemplates
  import opened TemplateHelpers

  const RejectFailed := "Failed to reject candidate"
  const RecipientMissing := "Please enter a recipient email address"
  const NoTemplate := "No template found for the selected options"
  const SendFailed := "Failed to send message"

  /** How a request ended: it threw with a message, it came back not ok with the body's message if any, or it was ok. */
  datatype Reply = Threw(reason: string) | NotOk(message: Option<string>) | Done

  /** The JSON body posted to `/api/pipeline/:id/message`. */
  datatype MessageBody = MessageBody(
    communicationType: Channel,
    messageContent: string,
    messageSubject: Option<string>,
    category: Category,
    templateType: Option<InterviewType>,
    templateTone: Tone,
    isNudge: bool,
    schedulingLink: string,
    candidateName: string,
    jobTitle: string,
    recipientEmail: Option<string>)

  /** A request `handleSend` makes: the silent reject, or the message. */
  datatype Request = Reject(pipelineId: int) | Send(body: MessageBody)

  /** The lookup the dialog makes: the interview type is passed in contact mode only. */
  function QueryFor(mode: Category, tone: Tone, isNudge: bool, interviewType: InterviewType, channel: Channel): (q: Query)
    ensures q.interviewType.Some? <==> mode == Contact
    ensures q.category == mode && q.tone == tone && q.isNudge == isNudge && q.channel == Some(channel)
  {
    Query(mode, tone, isNudge, if mode == Contact then Some(interviewType) else None, Some(channel))
  }

  /**
   * Every combination of settings finds a template in contact mode, and in
   * rejection mode exactly when it is not a nudge; in rejection mode the
   * interview type makes no difference.
   */
  lemma TemplateAvailability(mode: Category, tone: Tone, isNudge: bool, interviewType: InterviewType, channel: Channel)
    ensures GetTemplate(QueryFor(mode, tone, isNudge, interviewType, channel)).Some? <==> mode == Contact || !isNudge
    ensures mode == Rejection ==> forall t :: GetTemplate(QueryFor(mode, tone, isNudge, t, channel))
                                        == GetTemplate(QueryFor(mode, tone, isNudge, interviewType, channel))
  {
    if mode == Contact {
      GetContactTemplate(channel, interviewType, tone, isNudge);
    } else if isNudge {
      NoRejectionNudge(tone, None, Some(channel));
    } else {
      GetRejectionTemplate(channel, tone, None);
    }
  }

  /** The send button's label. */
  function SendLabel(sending: bool, mode: Category, silentRejection: bool): (text: string)
  {
    if sending then "Sending..."
    else if mode == Rejection then (if silentRejection then "Reject Candidate" else "Send Rejection")
    else "Send Message"
  }

  /**
   * The label reads `Sending...` exactly while a send is under way; then
   * `Reject Candidate` exactly for a silent rejection, `Send Rejection` for
   * any other rejection and `Send Message` in contact mode, where the silent
   * flag plays no part.
   */
  lemma SendLabelCases(sending: bool, mode: Category, silentRejection: bool)
    ensures SendLabel(sending, mode, silentRejection) == "Sending..." <==> sending
    ensures !sending ==> (SendLabel(sending, mode, silentRejection) == "Reject Candidate" <==> mode == Rejection && silentRejection)
    ensures !sending && mode == Rejection && !silentRejection ==> SendLabel(sending, mode, silentRejection) == "Send Rejection"
    ensures !sending && mode == Contact ==> SendLabel(sending, mode, silentRejection) == SendLabel(sending, mode, !silentRejection)
  {
    assert "Reject Candidate"[0] != "Sending..."[0];
    assert "Send Rejection"[5] != "Sending..."[5];
    assert "Send Message"[5] != "Sending..."[5];
    assert "Send Rejection"[0] != "Reject Candidate"[0];
    assert "Send Message"[0] != "Reject Candidate"[0];
  }

  /** The characters of one SMS. */
  const SmsLength := 160

  /** `Math.ceil(length / 160)`. */
  function SmsParts(length: nat): (k: nat)
  {
    (length + SmsLength - 1) / SmsLength
  }

  /** The part count is the least number of 160-character messages that hold the body. */
  lemma SmsPartsIsCeiling(length: nat)
    ensures SmsParts(length) * SmsLength >= length
    ensures length > 0 ==> (SmsParts(length) - 1) * SmsLength < length
    ensures length > SmsLength ==> SmsParts(length) >= 2
  {
    var k := SmsParts(length);
    assert k * SmsLength <= length + SmsLength - 1 < (k + 1) * SmsLength;
  }

  /** The preview's part notice: shown for an SMS body over 160 characters, with the part count. */
  function SmsNotice(channel: Channel, body: string): (r: Option<nat>)
    ensures r.Some? <==> channel == Sms && |body| > SmsLength
    ensures r.Some? ==> r.value >= 2 && r.value * SmsLength >= |body| && (r.value - 1) * SmsLength < |body|
  {
    if channel == Sms && |body| > SmsLength then
      SmsPartsIsCeiling(|body|);
      Some(SmsParts(|body|))
    else None
  }

  /** The dialog's state for one candidate. */
  class Dialog {
    const pipelineId: int
    const candidateName: string
    const position: string
    var mode: Category
    var channel: Channel
    var interviewType: InterviewType
    var tone: Tone
    var isNudge: bool
    var schedulingLink: string
    var silentRejection: bool
    var recipientEmail: string
    var sending: bool
    var error: Option<string>
    var closed: bool

    /** The dialog as it opens: a video interview, a friendly tone, no nudge, no silent rejection. */
    constructor (pipelineId: int, candidateName: string, position: string, mode: Category, channel: Channel,
                 defaultLink: Option<string>)
      ensures this.pipelineId == pipelineId && this.candidateName == candidateName && this.position == position
      ensures this.mode == mode && this.channel == channel && interviewType == Video && tone == Friendly
      ensures !isNudge && !silentRejection && recipientEmail == "" && !sending && error.None? && !closed
      ensures schedulingLink == if defaultLink.Some? && defaultLink.value != "" then defaultLink.value else LinkPlaceholder
    {
      this.pipelineId := pipelineId;
      this.candidateName := candidateName;
      this.position := position;
      this.mode := mode;
      this.channel := channel;
      interviewType := Video;
      tone := Friendly;
      isNudge := false;
      schedulingLink := if defaultLink.Some? && defaultLink.value != "" then defaultLink.value else LinkPlaceholder;
      silentRejection := false;
      recipientEmail := "";
      sending := false;
      error := None;
      closed := false;
    }

    /** The mode buttons: every other setting, the nudge box included, is kept. */
    method SetMode(m: Category)
      modifies `mode
      ensures mode == m
    {
      mode := m;
    }

    /** The nudge box. */
    method SetNudge(b: bool)
      modifies `isNudge
      ensures isNudge == b
    {
      isNudge := b;
    }

    /** The silent-rejection box. */
    method SetSilentRejection(b: bool)
      modifies `silentRejection
      ensures silentRejection == b
    {
      silentRejection := b;
    }

    /** The recipient field. */
    method SetRecipient(email: string)
      modifies `recipientEmail
      ensures recipientEmail == email
    {
      recipientEmail := email;
    }

    /** The lookup for the current settings. */
    function CurrentQuery(): Query
      reads `mode, `tone, `isNudge, `interviewType, `channel
    {
      QueryFor(mode, tone, isNudge, interviewType, channel)
    }

    /** The message body for a template, with the current settings. */
    function BodyFor(rendered: Rendered): (b: MessageBody)
      reads `mode, `tone, `isNudge, `interviewType, `channel, `schedulingLink, `recipientEmail
      ensures b.templateType.Some? <==> mode == Contact
      ensures b.recipientEmail.Some? <==> channel == Email
      ensures b.messageContent == rendered.body && b.messageSubject == rendered.subject
    {
      MessageBody(channel, rendered.body, rendered.subject, mode,
                  if mode == Contact then Some(interviewType) else None,
                  tone, isNudge, schedulingLink, candidateName, position,
                  if channel == Email then Some(recipientEmail) else None)
    }

    /**
     * What `handleSend` decides before any request: the silent reject
     * whatever the template and recipient; otherwise the email check, then
     * the template check, then the message built from the rendered template.
     */
    function Plan(template: Option<MessageTemplate>): (r: Result<Request>)
      reads `mode, `tone, `isNudge, `interviewType, `channel, `schedulingLink, `recipientEmail, `silentRejection
      ensures r.Ok? && r.value.Reject? <==> mode == Rejection && silentRejection
      ensures r.Ok? && r.value.Reject? ==> r.value.pipelineId == pipelineId
      ensures r == Err(RecipientMissing) <==> !(mode == Rejection && silentRejection) && channel == Email && recipientEmail == ""
      ensures r == Err(NoTemplate) <==> !(mode == Rejection && silentRejection) && !(channel == Email && recipientEmail == "") && template.None?
      ensures r.Ok? && r.value.Send? <==> !(mode == Rejection && silentRejection) && !(channel == Email && recipientEmail == "") && template.Some?
      ensures r.Ok? && r.value.Send? ==>
        r.value.body.messageContent == RenderTemplate(template.value, candidateName, position, Some(schedulingLink)).body
        && r.value.body.messageSubject == RenderTemplate(template.value, candidateName, position, Some(schedulingLink)).subject
        && (r.value.body.templateType.Some? <==> mode == Contact)
        && (r.value.body.recipientEmail.Some? <==> channel == Email)
        && r.value.body.candidateName == candidateName && r.value.body.jobTitle == position
    {
      if mode == Rejection && silentRejection then Ok(Reject(pipelineId))
      else if channel == Email && recipientEmail == "" then Err(RecipientMissing)
      else if template.None? then Err(NoTemplate)
      else Ok(Send(BodyFor(RenderTemplate(template.value, candidateName, position, Some(schedulingLink)))))
    }

    /**
     * `handleSend`, given the template the dialog shows for its current
     * settings and how the request ends. Nothing is posted when the plan is
     * an error, and its message is shown. A reply that is not ok, or a thrown
     * error, leaves its message and the dialog open; success calls
     * `onSuccess` and `onClose`. `sending` is false at the end either way.
     */
    method HandleSend(template: Option<MessageTemplate>, reply: Reply) returns (request: Option<Request>)
      modifies `error, `closed, `sending
      ensures request == if Plan(template).Ok? then Some(Plan(template).value) else None
      ensures error == if Plan(template).Err? then Some(Plan(template).error) else ReplyFailure(Plan(template).value, reply)
      ensures closed <==> old(closed) || error.None?
      ensures !sending
    {
      sending := true;
      error := None;
      var plan := Plan(template);
      if plan.Err? {
        request := None;
        error := Some(plan.error);
      } else {
        request := Some(plan.value);
        error := ReplyFailure(plan.value, reply);
        if error.None? {
          closed := true;
        }
      }
      sending := false;
    }
  }

  /**
   * In contact mode a message is always sent once the recipient is given:
   * every combination of channel, interview type, tone and nudge has a
   * template.
   */
  lemma ContactAlwaysPlans(d: Dialog)
    requires d.mode == Contact && (d.channel == Sms || d.recipientEmail != "")
    ensures d.Plan(GetTemplate(d.CurrentQuery())).Ok?
    ensures d.Plan(GetTemplate(d.CurrentQuery())).value.Send?
  {
    TemplateAvailability(d.mode, d.tone, d.isNudge, d.interviewType, d.channel);
  }

  /**
   * The nudge box is shown in contact mode only, but switching to rejection
   * keeps it ticked: a rejection sent after that finds no template, while a
   * silent rejection still goes through.
   */
  lemma StaleNudgeBlocksRejection(d: Dialog)
    requires d.mode == Rejection && d.isNudge && (d.channel == Sms || d.recipientEmail != "")
    ensures !d.silentRejection ==> d.Plan(GetTemplate(d.CurrentQuery())) == Err(NoTemplate)
    ensures d.silentRejection ==> d.Plan(GetTemplate(d.CurrentQuery())) == Ok(Reject(d.pipelineId))
  {
    TemplateAvailability(d.mode, d.tone, d.isNudge, d.interviewType, d.channel);
  }

  /**
   * The message a finished request leaves: a thrown error's own, the fixed
   * one for a refused rejection, the server's (or the fixed one) for a
   * refused message; none on success.
   */
  function ReplyFailure(request: Request, reply: Reply): (r: Option<string>)
    ensures r.None? <==> reply.Done?
    ensures reply.Threw? ==> r == Some(reply.reason)
    ensures reply.NotOk? && request.Reject? ==> r == Some(RejectFailed)
    ensures reply.NotOk? && request.Send? ==> r == Some(TextOr(reply.message, SendFailed))
  {
    match reply
    case Threw(reason) => Some(reason)
    case NotOk(message) => if request.Reject? then Some(RejectFailed) else Some(TextOr(message, SendFailed))
    case Done => None
  }
}

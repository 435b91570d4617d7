// frontend/src/constants/messageTemplates.ts: the fixed table of outreach
// messages. Each template is keyed by category (contact or rejection),
// channel (email or SMS), interview type (contact only), tone and whether it
// is a follow-up nudge. A subject or body is a sequence of segments: a piece
// of literal wording, or one of the three placeholders `__` (the candidate's
// name), `"Position"` (the job title) and `[link]` (the scheduling link).
// The wording is kept once, phrase by phrase, in `Phrase`; `Spell` gives back
// a template's text exactly as the table writes it.

module MessageTemplates {
  import opened Common

  datatype Category = Contact | Rejection
  datatype Channel = Email | Sms
  datatype InterviewType = Video | Phone | InPerson
  datatype Tone = Conversational | Friendly | Professional

  /** A piece of a subject or body: a phrase of literal wording, or a placeholder. */
  datatype Segment = Text(phrase: nat) | CandidateName | PositionName | SchedulingLink

  /**
   * `MessageTemplate`: `type` is present on contact templates only. The `id`
   * of every entry is spelled from its key, so it is derived (`Id`) rather
   * than stored.
   */
  datatype MessageTemplate = MessageTemplate(
    category: Category,
    channel: Channel,
    interviewType: Option<InterviewType>,
    tone: Tone,
    isNudge: bool,
    subject: Option<seq<Segment>>,
    body: seq<Segment>)

  const NamePlaceholder: string := "__"
  const PositionPlaceholder: string := "\"Position\""
  const LinkPlaceholder: string := "[link]"

  /** The literal wording between the placeholders, numbered in order of first use. */
  function Phrase(k: nat): string
  {
    if k == 0 then "Quick video chat about the "
    else if k == 1 then "Hi "
    else if k == 2 then ",\nThanks for applying to the "
    else if k == 3 then " position. I checked out your resume and I'd love to hop on a quick video chat to learn more about you and the role.\nPick a time that works for you here: "
    else if k == 4 then "\nTalk soon!"
    else if k == 5 then "Quick phone call about the "
    else if k == 6 then ",\nAppreciate you applying to the "
    else if k == 7 then " position. After looking over your resume, I'd like to set up a quick phone call so we can chat more about the role and your background.\nGrab a time here: "
    else if k == 8 then "\nLooking forward to it!"
    else if k == 9 then "Let's meet about the "
    else if k == 10 then " position. Your background looks great, and I'd love for us to meet in person and chat more about the opportunity.\nChoose a time here: "
    else if k == 11 then "\nExcited to meet you!"
    else if k == 12 then "Video interview for the "
    else if k == 13 then " position. After reviewing your resume, I'd love to set up a short video interview to learn more about your experience and interest in the role.\nPlease select a time that works best for you here: "
    else if k == 14 then "\nLooking forward to speaking with you!"
    else if k == 15 then "Phone call about the "
    else if k == 16 then ",\nThank you for applying to the "
    else if k == 17 then " position. After looking through your resume, I'd love to schedule a quick phone call to talk more about the role and your background.\nFeel free to pick a time here: "
    else if k == 18 then "In-person interview for the "
    else if k == 19 then " position. Your experience stood out, and I'd love to bring you in for an in-person interview to discuss the role in more detail.\nYou can choose a time here: "
    else if k == 20 then "\nLooking forward to meeting you!"
    else if k == 21 then "Video interview invitation - "
    else if k == 22 then "Hello "
    else if k == 23 then ",\nThank you for your application for the "
    else if k == 24 then " position. After reviewing your qualifications, I would like to schedule a brief video interview to discuss your background and alignment with the role.\nPlease select a convenient time using this link: "
    else if k == 25 then "\nI look forward to speaking with you."
    else if k == 26 then "Phone interview - "
    else if k == 27 then " position. Based on your resume, I would like to move forward with a phone call to discuss your experience further.\nYou may choose an available time here: "
    else if k == 28 then "\nThank you, and I look forward to our conversation."
    else if k == 29 then "In-person interview invitation - "
    else if k == 30 then ",\nThank you for your interest in the "
    else if k == 31 then " position. After reviewing your resume, I would like to invite you to an in-person interview to explore your qualifications further.\nPlease select a suitable time here: "
    else if k == 32 then "\nI look forward to meeting you in person."
    else if k == 33 then "Following up - video chat about "
    else if k == 34 then ",\nJust checking in! I wanted to see if you had a chance to pick a time for our video chat about the "
    else if k == 35 then " position.\nHere's the link again: "
    else if k == 36 then "\nLooking forward to talking with you!"
    else if k == 37 then "Following up - phone call about "
    else if k == 38 then ",\nI wanted to follow up to see if you had a chance to schedule your phone interview about the "
    else if k == 39 then " position.\nGrab a time here: "
    else if k == 40 then "\nHope to connect soon!"
    else if k == 41 then "Following up - in-person interview for "
    else if k == 42 then ",\nJust following up to see if you had a chance to pick a time for the in-person interview for the "
    else if k == 43 then "Following up on your video interview - "
    else if k == 44 then ",\nI wanted to follow up regarding your video interview for the "
    else if k == 45 then " position. If you haven't scheduled yet, you can select a time that works best here: "
    else if k == 46 then "\nLooking forward to our conversation!"
    else if k == 47 then "Following up on your phone interview - "
    else if k == 48 then ",\nJust checking in about scheduling your phone interview for the "
    else if k == 49 then " position.\nPlease pick a time here: "
    else if k == 50 then "\nCan't wait to chat with you!"
    else if k == 51 then "Following up on your in-person interview - "
    else if k == 52 then ",\nI just wanted to follow up to see if you've scheduled your in-person interview for the "
    else if k == 53 then "Follow-up: Video interview - "
    else if k == 54 then " position. If you have not yet scheduled a time, please select a convenient slot using this link: "
    else if k == 55 then "Follow-up: Phone interview - "
    else if k == 56 then ",\nThis is a follow-up regarding your potential phone interview for the "
    else if k == 57 then " position. If you have not yet scheduled, please choose a suitable time here: "
    else if k == 58 then "Follow-up: In-person interview - "
    else if k == 59 then ",\nI am following up regarding your in-person interview for the "
    else if k == 60 then "Update on your application for "
    else if k == 61 then ",\nThanks so much for taking the time to interview for the "
    else if k == 62 then " position. While we really enjoyed speaking with you, we've decided to move forward with another candidate.\nWe appreciate your interest and wish you the best in your job search!"
    else if k == 63 then "Update regarding "
    else if k == 64 then ",\nThank you for interviewing for the "
    else if k == 65 then " position. After careful consideration, we've decided to move forward with another candidate.\nWe truly appreciate the time and effort you put into the process, and we wish you every success in your job search."
    else if k == 66 then "Application status update - "
    else if k == 67 then ",\nThank you for taking the time to interview for the "
    else if k == 68 then " position. After a thorough review, we have chosen to move forward with another candidate.\nWe sincerely appreciate your interest in the role and wish you the best in your future endeavors."
    else if k == 69 then "! Thanks for applying to the "
    else if k == 70 then " position. I'd love to hop on a quick video chat. Pick a time here: "
    else if k == 71 then " position. I'd like to set up a quick phone call. Grab a time here: "
    else if k == 72 then "! Your background looks great for the "
    else if k == 73 then " position. I'd love to meet in person. Choose a time here: "
    else if k == 74 then ", thanks for applying to the "
    else if k == 75 then " position. I'd love to set up a video interview. Please pick a time: "
    else if k == 76 then ", thank you for applying to the "
    else if k == 77 then " position. I'd like to schedule a phone call. Pick a time here: "
    else if k == 78 then ", your experience stood out for the "
    else if k == 79 then " position. I'd love to meet in person. Choose a time: "
    else if k == 80 then " position. I would like to schedule a video interview. Please select a time: "
    else if k == 81 then " position. I would like to schedule a phone call. Please choose a time: "
    else if k == 82 then ", thank you for your interest in the "
    else if k == 83 then " position. I would like to invite you to an in-person interview. Please select a time: "
    else if k == 84 then "! Just checking in - did you get a chance to schedule our video chat for the "
    else if k == 85 then " position? Here's the link: "
    else if k == 86 then "! Following up about scheduling your phone interview for the "
    else if k == 87 then " position. Grab a time here: "
    else if k == 88 then "! Just following up - did you get a chance to schedule our in-person meeting for the "
    else if k == 89 then ", following up on your video interview for the "
    else if k == 90 then " position. Please schedule a time when convenient: "
    else if k == 91 then ", just checking in about scheduling your phone interview for the "
    else if k == 92 then " position. Please pick a time: "
    else if k == 93 then ", following up about your in-person interview for the "
    else if k == 94 then " position. Please select a time: "
    else if k == 95 then ", this is a follow-up regarding your video interview for the "
    else if k == 96 then ", following up regarding your phone interview for the "
    else if k == 97 then " position. Please choose a time: "
    else if k == 98 then ", following up regarding your in-person interview for the "
    else if k == 99 then ", thanks for interviewing for the "
    else if k == 100 then " position. We've decided to move forward with another candidate. We appreciate your interest and wish you the best!"
    else if k == 101 then ", thank you for interviewing for the "
    else if k == 102 then " position. After careful consideration, we've decided to move forward with another candidate. We wish you every success!"
    else if k == 103 then " position. After thorough review, we have chosen to move forward with another candidate. We wish you the best."
    else ""
  }

  /** A segment's text, given the wording and the values put in for the placeholders. */
  function SegmentText(s: Segment, phrase: nat -> string, name: string, position: string, link: string): string
  {
    match s
    case Text(k) => phrase(k)
    case CandidateName => name
    case PositionName => position
    case SchedulingLink => link
  }

  /** The segments' text with the placeholders filled in, in order. */
  function Fill(segs: seq<Segment>, phrase: nat -> string, name: string, position: string, link: string): string
  {
    if segs == [] then ""
    else SegmentText(segs[0], phrase, name, position, link) + Fill(segs[1..], phrase, name, position, link)
  }

  /** The text as the table writes it, placeholders included. */
  function Spell(segs: seq<Segment>): string
  {
    Fill(segs, Phrase, NamePlaceholder, PositionPlaceholder, LinkPlaceholder)
  }

  // ---------------------------------------------------------------------
  // Keys and ids
  // ---------------------------------------------------------------------

  /** What a template is selected by. */
  datatype Key = Key(category: Category, channel: Channel, interviewType: Option<InterviewType>, tone: Tone, isNudge: bool)

  function KeyOf(m: MessageTemplate): Key
  {
    Key(m.category, m.channel, m.interviewType, m.tone, m.isNudge)
  }

  /** The keys the table uses: contact ones carry an interview type, rejection ones neither a type nor a nudge. */
  predicate ValidKey(k: Key)
  {
    (k.category == Contact <==> k.interviewType.Some?) && (k.category == Rejection ==> !k.isNudge)
  }

  function TypeSlug(t: InterviewType): string
  {
    match t
    case Video => "video"
    case Phone => "phone"
    case InPerson => "in-person"
  }

  function ToneSlug(tone: Tone): string
  {
    match tone
    case Conversational => "conversational"
    case Friendly => "friendly"
    case Professional => "professional"
  }

  function StageSlug(isNudge: bool): string
  {
    if isNudge then "nudge" else "initial"
  }

  function ChannelSuffix(ch: Channel): string
  {
    if ch == Sms then "-sms" else ""
  }

  /** The id the table gives a key: `contact-<type>-<tone>-<initial|nudge>` or `rejection-<tone>`, then `-sms` for SMS. */
  function IdOf(k: Key): string
    requires ValidKey(k)
  {
    if k.category == Contact then
      "contact-" + TypeSlug(k.interviewType.value) + "-" + ToneSlug(k.tone) + "-" + StageSlug(k.isNudge) + ChannelSuffix(k.channel)
    else
      "rejection-" + ToneSlug(k.tone) + ChannelSuffix(k.channel)
  }

  /** `template.id`. */
  function Id(m: MessageTemplate): string
    requires ValidKey(KeyOf(m))
  {
    IdOf(KeyOf(m))
  }

  /** A contact entry of the table. */
  function ContactTemplate(ch: Channel, t: InterviewType, tone: Tone, isNudge: bool,
                           subject: Option<seq<Segment>>, body: seq<Segment>): MessageTemplate
  {
    MessageTemplate(Contact, ch, Some(t), tone, isNudge, subject, body)
  }

  /** A rejection entry of the table: no interview type and never a nudge. */
  function RejectionTemplate(ch: Channel, tone: Tone, subject: Option<seq<Segment>>, body: seq<Segment>): MessageTemplate
  {
    MessageTemplate(Rejection, ch, None, tone, false, subject, body)
  }

  // ---------------------------------------------------------------------
  // The table, in source order
  // ---------------------------------------------------------------------

  /** Email first messages, by tone and then by interview type. */
  function EmailFirstContacts(): seq<MessageTemplate>
  {
    [
      ContactTemplate(Email, Video, Conversational, false, Some([Text(0), PositionName]), [Text(1), CandidateName, Text(2), PositionName, Text(3), SchedulingLink, Text(4)]),
      ContactTemplate(Email, Phone, Conversational, false, Some([Text(5), PositionName]), [Text(1), CandidateName, Text(6), PositionName, Text(7), SchedulingLink, Text(8)]),
      ContactTemplate(Email, InPerson, Conversational, false, Some([Text(9), PositionName]), [Text(1), CandidateName, Text(2), PositionName, Text(10), SchedulingLink, Text(11)]),
      ContactTemplate(Email, Video, Friendly, false, Some([Text(12), PositionName]), [Text(1), CandidateName, Text(2), PositionName, Text(13), SchedulingLink, Text(14)]),
      ContactTemplate(Email, Phone, Friendly, false, Some([Text(15), PositionName]), [Text(1), CandidateName, Text(16), PositionName, Text(17), SchedulingLink, Text(4)]),
      ContactTemplate(Email, InPerson, Friendly, false, Some([Text(18), PositionName]), [Text(1), CandidateName, Text(2), PositionName, Text(19), SchedulingLink, Text(20)]),
      ContactTemplate(Email, Video, Professional, false, Some([Text(21), PositionName]), [Text(22), CandidateName, Text(23), PositionName, Text(24), SchedulingLink, Text(25)]),
      ContactTemplate(Email, Phone, Professional, false, Some([Text(26), PositionName]), [Text(22), CandidateName, Text(16), PositionName, Text(27), SchedulingLink, Text(28)]),
      ContactTemplate(Email, InPerson, Professional, false, Some([Text(29), PositionName]), [Text(22), CandidateName, Text(30), PositionName, Text(31), SchedulingLink, Text(32)])
    ]
  }

  /** Email follow-up nudges, in the same order. */
  function EmailNudges(): seq<MessageTemplate>
  {
    [
      ContactTemplate(Email, Video, Conversational, true, Some([Text(33), PositionName]), [Text(1), CandidateName, Text(34), PositionName, Text(35), SchedulingLink, Text(36)]),
      ContactTemplate(Email, Phone, Conversational, true, Some([Text(37), PositionName]), [Text(1), CandidateName, Text(38), PositionName, Text(39), SchedulingLink, Text(40)]),
      ContactTemplate(Email, InPerson, Conversational, true, Some([Text(41), PositionName]), [Text(1), CandidateName, Text(42), PositionName, Text(35), SchedulingLink, Text(11)]),
      ContactTemplate(Email, Video, Friendly, true, Some([Text(43), PositionName]), [Text(1), CandidateName, Text(44), PositionName, Text(45), SchedulingLink, Text(46)]),
      ContactTemplate(Email, Phone, Friendly, true, Some([Text(47), PositionName]), [Text(1), CandidateName, Text(48), PositionName, Text(49), SchedulingLink, Text(50)]),
      ContactTemplate(Email, InPerson, Friendly, true, Some([Text(51), PositionName]), [Text(1), CandidateName, Text(52), PositionName, Text(35), SchedulingLink, Text(20)]),
      ContactTemplate(Email, Video, Professional, true, Some([Text(53), PositionName]), [Text(22), CandidateName, Text(44), PositionName, Text(54), SchedulingLink, Text(25)]),
      ContactTemplate(Email, Phone, Professional, true, Some([Text(55), PositionName]), [Text(22), CandidateName, Text(56), PositionName, Text(57), SchedulingLink, Text(28)]),
      ContactTemplate(Email, InPerson, Professional, true, Some([Text(58), PositionName]), [Text(22), CandidateName, Text(59), PositionName, Text(54), SchedulingLink, Text(32)])
    ]
  }

  function EmailRejections(): seq<MessageTemplate>
  {
    [
      RejectionTemplate(Email, Conversational, Some([Text(60), PositionName]), [Text(1), CandidateName, Text(61), PositionName, Text(62)]),
      RejectionTemplate(Email, Friendly, Some([Text(63), PositionName]), [Text(1), CandidateName, Text(64), PositionName, Text(65)]),
      RejectionTemplate(Email, Professional, Some([Text(66), PositionName]), [Text(22), CandidateName, Text(67), PositionName, Text(68)])
    ]
  }

  function SmsFirstContacts(): seq<MessageTemplate>
  {
    [
      ContactTemplate(Sms, Video, Conversational, false, None, [Text(1), CandidateName, Text(69), PositionName, Text(70), SchedulingLink]),
      ContactTemplate(Sms, Phone, Conversational, false, None, [Text(1), CandidateName, Text(69), PositionName, Text(71), SchedulingLink]),
      ContactTemplate(Sms, InPerson, Conversational, false, None, [Text(1), CandidateName, Text(72), PositionName, Text(73), SchedulingLink]),
      ContactTemplate(Sms, Video, Friendly, false, None, [Text(1), CandidateName, Text(74), PositionName, Text(75), SchedulingLink]),
      ContactTemplate(Sms, Phone, Friendly, false, None, [Text(1), CandidateName, Text(76), PositionName, Text(77), SchedulingLink]),
      ContactTemplate(Sms, InPerson, Friendly, false, None, [Text(1), CandidateName, Text(78), PositionName, Text(79), SchedulingLink]),
      ContactTemplate(Sms, Video, Professional, false, None, [Text(22), CandidateName, Text(76), PositionName, Text(80), SchedulingLink]),
      ContactTemplate(Sms, Phone, Professional, false, None, [Text(22), CandidateName, Text(76), PositionName, Text(81), SchedulingLink]),
      ContactTemplate(Sms, InPerson, Professional, false, None, [Text(22), CandidateName, Text(82), PositionName, Text(83), SchedulingLink])
    ]
  }

  function SmsNudges(): seq<MessageTemplate>
  {
    [
      ContactTemplate(Sms, Video, Conversational, true, None, [Text(1), CandidateName, Text(84), PositionName, Text(85), SchedulingLink]),
      ContactTemplate(Sms, Phone, Conversational, true, None, [Text(1), CandidateName, Text(86), PositionName, Text(87), SchedulingLink]),
      ContactTemplate(Sms, InPerson, Conversational, true, None, [Text(1), CandidateName, Text(88), PositionName, Text(85), SchedulingLink]),
      ContactTemplate(Sms, Video, Friendly, true, None, [Text(1), CandidateName, Text(89), PositionName, Text(90), SchedulingLink]),
      ContactTemplate(Sms, Phone, Friendly, true, None, [Text(1), CandidateName, Text(91), PositionName, Text(92), SchedulingLink]),
      ContactTemplate(Sms, InPerson, Friendly, true, None, [Text(1), CandidateName, Text(93), PositionName, Text(94), SchedulingLink]),
      ContactTemplate(Sms, Video, Professional, true, None, [Text(22), CandidateName, Text(95), PositionName, Text(94), SchedulingLink]),
      ContactTemplate(Sms, Phone, Professional, true, None, [Text(22), CandidateName, Text(96), PositionName, Text(97), SchedulingLink]),
      ContactTemplate(Sms, InPerson, Professional, true, None, [Text(22), CandidateName, Text(98), PositionName, Text(94), SchedulingLink])
    ]
  }

  function SmsRejections(): seq<MessageTemplate>
  {
    [
      RejectionTemplate(Sms, Conversational, None, [Text(1), CandidateName, Text(99), PositionName, Text(100)]),
      RejectionTemplate(Sms, Friendly, None, [Text(1), CandidateName, Text(101), PositionName, Text(102)]),
      RejectionTemplate(Sms, Professional, None, [Text(22), CandidateName, Text(101), PositionName, Text(103)])
    ]
  }

  /** `MESSAGE_TEMPLATES`. */
  function Templates(): seq<MessageTemplate>
  {
    EmailFirstContacts() + EmailNudges() + EmailRejections() + SmsFirstContacts() + SmsNudges() + SmsRejections()
  }

  // ---------------------------------------------------------------------
  // Positions
  // ---------------------------------------------------------------------

  function ToneRank(tone: Tone): (n: nat)
    ensures n < 3
  {
    match tone
    case Conversational => 0
    case Friendly => 1
    case Professional => 2
  }

  function TypeRank(t: InterviewType): (n: nat)
    ensures n < 3
  {
    match t
    case Video => 0
    case Phone => 1
    case InPerson => 2
  }

  function ToneAt(n: nat): (tone: Tone)
    requires n < 3
    ensures ToneRank(tone) == n
  {
    if n == 0 then Conversational else if n == 1 then Friendly else Professional
  }

  function TypeAt(n: nat): (t: InterviewType)
    requires n < 3
    ensures TypeRank(t) == n
  {
    if n == 0 then Video else if n == 1 then Phone else InPerson
  }

  /** Where a key's template sits in the table. */
  function IndexOfKey(k: Key): (i: nat)
    requires ValidKey(k)
    ensures i < 42
  {
    if k.category == Contact then
      (if k.channel == Email then 0 else 21) + (if k.isNudge then 9 else 0) + 3 * ToneRank(k.tone) + TypeRank(k.interviewType.value)
    else
      (if k.channel == Email then 18 else 39) + ToneRank(k.tone)
  }

  /** The key of the contact template at position `j` of a contact block. */
  function ContactKeyAt(ch: Channel, j: nat): (k: Key)
    requires j < 18
    ensures ValidKey(k) && k.category == Contact && k.channel == ch
    ensures IndexOfKey(k) == (if ch == Email then 0 else 21) + j
  {
    var r := if j < 9 then j else j - 9;
    var toneRank := if r < 3 then 0 else if r < 6 then 1 else 2;
    Key(Contact, ch, Some(TypeAt(r - 3 * toneRank)), ToneAt(toneRank), j >= 9)
  }

  /** The key of the template at position `i` of the table. */
  function KeyAt(i: nat): (k: Key)
    requires i < 42
    ensures ValidKey(k) && IndexOfKey(k) == i
  {
    if i < 18 then ContactKeyAt(Email, i)
    else if i < 21 then Key(Rejection, Email, None, ToneAt(i - 18), false)
    else if i < 39 then ContactKeyAt(Sms, i - 21)
    else Key(Rejection, Sms, None, ToneAt(i - 39), false)
  }

  /** Positions and valid keys correspond one to one. */
  lemma KeyAtIndexOfKey(k: Key)
    requires ValidKey(k)
    ensures KeyAt(IndexOfKey(k)) == k
  {
  }

  // ---------------------------------------------------------------------
  // What every entry satisfies
  // ---------------------------------------------------------------------

  /** The facts about the entry at position `i`: its key, its subject and its placeholders. */
  predicate EntryAt(m: MessageTemplate, i: nat)
    requires i < 42
  {
    && KeyOf(m) == KeyAt(i)
    && (m.subject.Some? <==> m.channel == Email)
    && (m.subject.Some? ==> PositionName in m.subject.value)
    && CandidateName in m.body
    && PositionName in m.body
    && (SchedulingLink in m.body <==> m.category == Contact)
  }

  lemma EmailFirstContactEntries()
    ensures |EmailFirstContacts()| == 9
    ensures forall j :: 0 <= j < 9 ==> EntryAt(EmailFirstContacts()[j], j)
  {
  }

  lemma EmailNudgeEntries()
    ensures |EmailNudges()| == 9
    ensures forall j :: 0 <= j < 9 ==> EntryAt(EmailNudges()[j], 9 + j)
  {
  }

  lemma EmailRejectionEntries()
    ensures |EmailRejections()| == 3
    ensures forall j :: 0 <= j < 3 ==> EntryAt(EmailRejections()[j], 18 + j)
  {
  }

  lemma SmsFirstContactEntries()
    ensures |SmsFirstContacts()| == 9
    ensures forall j :: 0 <= j < 9 ==> EntryAt(SmsFirstContacts()[j], 21 + j)
  {
  }

  lemma SmsNudgeEntries()
    ensures |SmsNudges()| == 9
    ensures forall j :: 0 <= j < 9 ==> EntryAt(SmsNudges()[j], 30 + j)
  {
  }

  lemma SmsRejectionEntries()
    ensures |SmsRejections()| == 3
    ensures forall j :: 0 <= j < 3 ==> EntryAt(SmsRejections()[j], 39 + j)
  {
  }

  /** Every entry of the table has the key of its position, and the subject and placeholders that go with it. */
  lemma TemplateEntries()
    ensures |Templates()| == 42
    ensures forall i :: 0 <= i < 42 ==> EntryAt(Templates()[i], i)
  {
    EmailFirstContactEntries();
    EmailNudgeEntries();
    EmailRejectionEntries();
    SmsFirstContactEntries();
    SmsNudgeEntries();
    SmsRejectionEntries();
    var t := Templates();
    forall i | 0 <= i < 42
      ensures EntryAt(t[i], i)
    {
      if i < 9 {
        assert t[i] == EmailFirstContacts()[i];
      } else if i < 18 {
        assert t[i] == EmailNudges()[i - 9];
      } else if i < 21 {
        assert t[i] == EmailRejections()[i - 18];
      } else if i < 30 {
        assert t[i] == SmsFirstContacts()[i - 21];
      } else if i < 39 {
        assert t[i] == SmsNudges()[i - 30];
      } else {
        assert t[i] == SmsRejections()[i - 39];
      }
    }
  }

  // ---------------------------------------------------------------------
  // Properties of the table
  // ---------------------------------------------------------------------

  /** No two entries share a key. */
  lemma KeysDistinct()
    ensures forall i, j :: 0 <= i < j < |Templates()| ==> KeyOf(Templates()[i]) != KeyOf(Templates()[j])
  {
    TemplateEntries();
  }

  /** For every interview type, tone, stage and channel there is exactly one contact template, at `IndexOfKey`. */
  lemma ContactTemplateUnique(ch: Channel, t: InterviewType, tone: Tone, isNudge: bool)
    ensures var k := Key(Contact, ch, Some(t), tone, isNudge);
      && IndexOfKey(k) < |Templates()|
      && KeyOf(Templates()[IndexOfKey(k)]) == k
      && forall i :: 0 <= i < |Templates()| && KeyOf(Templates()[i]) == k ==> i == IndexOfKey(k)
  {
    TemplateEntries();
    KeyAtIndexOfKey(Key(Contact, ch, Some(t), tone, isNudge));
  }

  /** For every tone and channel there is exactly one rejection template; it is never a nudge and has no interview type. */
  lemma RejectionTemplateUnique(ch: Channel, tone: Tone)
    ensures var k := Key(Rejection, ch, None, tone, false);
      && IndexOfKey(k) < |Templates()|
      && KeyOf(Templates()[IndexOfKey(k)]) == k
      && forall i :: 0 <= i < |Templates()| ==>
           (Templates()[i].category == Rejection && Templates()[i].channel == ch && Templates()[i].tone == tone ==> i == IndexOfKey(k))
  {
    TemplateEntries();
    KeyAtIndexOfKey(Key(Rejection, ch, None, tone, false));
  }

  /** Every rejection template is a first message without an interview type. */
  lemma RejectionsHaveNoTypeOrNudge()
    ensures forall i :: 0 <= i < |Templates()| && Templates()[i].category == Rejection ==>
      Templates()[i].interviewType == None && !Templates()[i].isNudge
  {
    TemplateEntries();
  }

  /** Number of entries of a category. */
  function CountCategory(ts: seq<MessageTemplate>, c: Category): (n: nat)
    ensures n <= |ts|
  {
    if ts == [] then 0 else CountCategory(ts[..|ts| - 1], c) + (if ts[|ts| - 1].category == c then 1 else 0)
  }

  lemma {:induction false} CountCategoryAppend(a: seq<MessageTemplate>, b: seq<MessageTemplate>, c: Category)
    ensures CountCategory(a + b, c) == CountCategory(a, c) + CountCategory(b, c)
    decreases |b|
  {
    if b != [] {
      assert (a + b)[..|a + b| - 1] == a + b[..|b| - 1];
      CountCategoryAppend(a, b[..|b| - 1], c);
    } else {
      assert a + b == a;
    }
  }

  /** A block whose entries all have category `c` counts fully for `c` and not at all for the other one. */
  lemma {:induction false} CountCategoryUniform(ts: seq<MessageTemplate>, c: Category, d: Category)
    requires forall j :: 0 <= j < |ts| ==> ts[j].category == c
    ensures CountCategory(ts, d) == if c == d then |ts| else 0
  {
    if ts != [] {
      CountCategoryUniform(ts[..|ts| - 1], c, d);
    }
  }

  /** The table's count is the sum of its blocks' counts. */
  lemma CountByBlocks(c: Category)
    ensures CountCategory(Templates(), c)
         == CountCategory(EmailFirstContacts(), c) + CountCategory(EmailNudges(), c) + CountCategory(EmailRejections(), c)
          + CountCategory(SmsFirstContacts(), c) + CountCategory(SmsNudges(), c) + CountCategory(SmsRejections(), c)
  {
    var a := EmailFirstContacts() + EmailNudges();
    CountCategoryAppend(EmailFirstContacts(), EmailNudges(), c);
    CountCategoryAppend(a, EmailRejections(), c);
    CountCategoryAppend(a + EmailRejections(), SmsFirstContacts(), c);
    CountCategoryAppend(a + EmailRejections() + SmsFirstContacts(), SmsNudges(), c);
    CountCategoryAppend(a + EmailRejections() + SmsFirstContacts() + SmsNudges(), SmsRejections(), c);
  }

  /** Each email block holds templates of one category only. */
  lemma EmailBlockCounts(c: Category)
    ensures CountCategory(EmailFirstContacts(), c) == (if c == Contact then 9 else 0)
    ensures CountCategory(EmailNudges(), c) == (if c == Contact then 9 else 0)
    ensures CountCategory(EmailRejections(), c) == (if c == Rejection then 3 else 0)
  {
    EmailFirstContactEntries();
    CountCategoryUniform(EmailFirstContacts(), Contact, c);
    EmailNudgeEntries();
    CountCategoryUniform(EmailNudges(), Contact, c);
    EmailRejectionEntries();
    CountCategoryUniform(EmailRejections(), Rejection, c);
  }

  /** Each SMS block holds templates of one category only. */
  lemma SmsBlockCounts(c: Category)
    ensures CountCategory(SmsFirstContacts(), c) == (if c == Contact then 9 else 0)
    ensures CountCategory(SmsNudges(), c) == (if c == Contact then 9 else 0)
    ensures CountCategory(SmsRejections(), c) == (if c == Rejection then 3 else 0)
  {
    SmsFirstContactEntries();
    CountCategoryUniform(SmsFirstContacts(), Contact, c);
    SmsNudgeEntries();
    CountCategoryUniform(SmsNudges(), Contact, c);
    SmsRejectionEntries();
    CountCategoryUniform(SmsRejections(), Rejection, c);
  }

  /** 36 contact templates and 6 rejection templates. */
  lemma CategoryCounts()
    ensures CountCategory(Templates(), Contact) == 36
    ensures CountCategory(Templates(), Rejection) == 6
  {
    CountByBlocks(Contact);
    EmailBlockCounts(Contact);
    SmsBlockCounts(Contact);
    CountByBlocks(Rejection);
    EmailBlockCounts(Rejection);
    SmsBlockCounts(Rejection);
  }

  /** Every email template has a subject, which names the position, and no SMS template has one. */
  lemma SubjectExactlyOnEmail()
    ensures forall i :: 0 <= i < |Templates()| ==> (Templates()[i].subject.Some? <==> Templates()[i].channel == Email)
    ensures forall i :: 0 <= i < |Templates()| && Templates()[i].subject.Some? ==> PositionName in Templates()[i].subject.value
  {
    TemplateEntries();
  }

  /** Every body has the name and position placeholders; the link placeholder is in every contact body and in no rejection body. */
  lemma BodyPlaceholders()
    ensures forall i :: 0 <= i < |Templates()| ==>
      && CandidateName in Templates()[i].body
      && PositionName in Templates()[i].body
      && (SchedulingLink in Templates()[i].body <==> Templates()[i].category == Contact)
  {
    TemplateEntries();
  }

  // ---------------------------------------------------------------------
  // Ids
  // ---------------------------------------------------------------------

  /** Where the parts of a contact id can be read. */
  lemma ContactIdChars(k: Key)
    requires ValidKey(k) && k.category == Contact
    ensures var id, t, o := IdOf(k), TypeSlug(k.interviewType.value), ToneSlug(k.tone);
      && |id| == 10 + |t| + |o| + |StageSlug(k.isNudge)| + |ChannelSuffix(k.channel)|
      && id[0] == 'c' && id[8] == t[0] && id[9 + |t|] == o[0] && id[10 + |t| + |o|] == StageSlug(k.isNudge)[0]
  {
  }

  /** Where the parts of a rejection id can be read. */
  lemma RejectionIdChars(k: Key)
    requires ValidKey(k) && k.category == Rejection
    ensures var id, o := IdOf(k), ToneSlug(k.tone);
      && |id| == 10 + |o| + |ChannelSuffix(k.channel)|
      && id[0] == 'r' && id[10] == o[0]
  {
  }

  /** The slugs' first letters tell the values apart. */
  lemma SlugInitials(t1: InterviewType, t2: InterviewType, o1: Tone, o2: Tone, n1: bool, n2: bool)
    ensures TypeSlug(t1)[0] == TypeSlug(t2)[0] ==> t1 == t2
    ensures ToneSlug(o1)[0] == ToneSlug(o2)[0] ==> o1 == o2
    ensures StageSlug(n1)[0] == StageSlug(n2)[0] ==> n1 == n2
  {
  }

  lemma ContactIdInjective(k1: Key, k2: Key)
    requires ValidKey(k1) && ValidKey(k2) && k1.category == Contact && k2.category == Contact
    requires IdOf(k1) == IdOf(k2)
    ensures k1 == k2
  {
    ContactIdChars(k1);
    ContactIdChars(k2);
    SlugInitials(k1.interviewType.value, k2.interviewType.value, k1.tone, k2.tone, k1.isNudge, k2.isNudge);
    var t1, t2 := k1.interviewType.value, k2.interviewType.value;
    assert t1 == t2;
    assert k1.tone == k2.tone;
    assert k1.isNudge == k2.isNudge;
  }

  lemma RejectionIdInjective(k1: Key, k2: Key)
    requires ValidKey(k1) && ValidKey(k2) && k1.category == Rejection && k2.category == Rejection
    requires IdOf(k1) == IdOf(k2)
    ensures k1 == k2
  {
    RejectionIdChars(k1);
    RejectionIdChars(k2);
    SlugInitials(Video, Video, k1.tone, k2.tone, false, false);
  }

  /** Different keys give different ids. */
  lemma IdOfInjective(k1: Key, k2: Key)
    requires ValidKey(k1) && ValidKey(k2) && IdOf(k1) == IdOf(k2)
    ensures k1 == k2
  {
    if k1.category == Contact && k2.category == Contact {
      ContactIdInjective(k1, k2);
    } else if k1.category == Rejection && k2.category == Rejection {
      RejectionIdInjective(k1, k2);
    } else if k1.category == Contact {
      ContactIdChars(k1);
      RejectionIdChars(k2);
      assert false;
    } else {
      RejectionIdChars(k1);
      ContactIdChars(k2);
      assert false;
    }
  }

  /** All template ids are distinct. */
  lemma IdsDistinct()
    ensures forall i :: 0 <= i < |Templates()| ==> ValidKey(KeyOf(Templates()[i]))
    ensures forall i, j :: 0 <= i < j < |Templates()| ==> Id(Templates()[i]) != Id(Templates()[j])
  {
    TemplateEntries();
    forall i, j | 0 <= i < j < |Templates()|
      ensures Id(Templates()[i]) != Id(Templates()[j])
    {
      if Id(Templates()[i]) == Id(Templates()[j]) {
        IdOfInjective(KeyOf(Templates()[i]), KeyOf(Templates()[j]));
      }
    }
  }
}

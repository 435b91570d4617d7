// frontend/src/components/PublicApply.tsx: the public application form.
// `validateField` is a pure check of one field; the handlers update the
// form's state. The HTTP request is a parameter: its outcome is given, and
// the method returns what it would send.

module PublicApply {
  import opened Common
  import opened Http

  const NameRequired := "Name is required"
  const EmailRequired := "Email is required"
  const EmailInvalid := "Please enter a valid email address"
  const PhoneRequired := "Phone number is required"
  const PhoneInvalid := "Please enter a valid phone number"
  const WrongFileType := "Please upload a PDF or Word document"
  const ResumeMissing := "Please attach your resume"
  const ServerFailure := "Something went wrong. Please try again later."
  const ClientFailure := "Failed to submit application. Please check your information and try again."
  const NotAccepted := "Failed to submit application"
  const ConnectionFailure := "Failed to submit application. Please check your connection and try again."

  /** The MIME types the file picker accepts: PDF, DOC and DOCX. */
  const AcceptedTypes: set<string> := {
    "application/pdf",
    "application/msword",
    "application/vnd.openxmlformats-officedocument.wordprocessingml.document"
  }

  // ---------------------------------------------------------------------
  // validateField
  // ---------------------------------------------------------------------

  /** `[^\s@]`. */
  predicate EmailChar(c: char) { !IsJsSpace(c) && c != '@' }

  predicate AllEmailChars(s: string) { forall i :: 0 <= i < |s| ==> EmailChar(s[i]) }

  /** `[^\s@]+\.[^\s@]+`: no space or `@`, and a dot with something on each side. */
  predicate DomainShape(d: string)
  {
    AllEmailChars(d) && exists j :: 0 < j < |d| - 1 && d[j] == '.'
  }

  /** `/^[^\s@]+@[^\s@]+\.[^\s@]+$/.test(s)`. */
  predicate EmailMatches(s: string)
  {
    exists k :: 0 < k < |s| && s[k] == '@' && AllEmailChars(s[..k]) && DomainShape(s[k + 1..])
  }

  /** `[\d\s().\-]`. */
  predicate PhoneChar(c: char)
  {
    ('0' <= c <= '9') || IsJsSpace(c) || c == '(' || c == ')' || c == '.' || c == '-'
  }

  /** `/^[+]?[\d\s().\-]{7,}$/.test(s)`. */
  predicate PhoneMatches(s: string)
  {
    var body := if |s| > 0 && s[0] == '+' then s[1..] else s;
    |body| >= 7 && forall i :: 0 <= i < |body| ==> PhoneChar(body[i])
  }

  /** The `name` case of `validateField`. */
  function NameError(value: string): string
  {
    if Trim(value) != "" then "" else NameRequired
  }

  /** The `email` case of `validateField`: blank, then the pattern on the trimmed value. */
  function EmailError(value: string): string
  {
    var v := Trim(value);
    if v == "" then EmailRequired else if EmailMatches(v) then "" else EmailInvalid
  }

  /** The `phone` case of `validateField`: blank, then the pattern on the trimmed value. */
  function PhoneError(value: string): string
  {
    var v := Trim(value);
    if v == "" then PhoneRequired else if PhoneMatches(v) then "" else PhoneInvalid
  }

  /** `validateField`: the message for one field, or `""` when it is fine or the name is unknown. */
  function ValidateField(name: string, value: string): (msg: string)
  {
    if name == "name" then NameError(value)
    else if name == "email" then EmailError(value)
    else if name == "phone" then PhoneError(value)
    else ""
  }

  /** Each known field passes exactly when its trimmed value is present and well formed; other names always pass. */
  lemma ValidateFieldPasses(name: string, value: string)
    ensures name == "name" ==> (ValidateField(name, value) == "" <==> Trim(value) != "")
    ensures name == "email" ==> (ValidateField(name, value) == "" <==> Trim(value) != "" && EmailMatches(Trim(value)))
    ensures name == "phone" ==> (ValidateField(name, value) == "" <==> Trim(value) != "" && PhoneMatches(Trim(value)))
    ensures name != "name" && name != "email" && name != "phone" ==> ValidateField(name, value) == ""
    ensures Trim(value) == "" && name in {"name", "email", "phone"} ==> ValidateField(name, value) != ""
  {
  }

  /** An accepted address holds exactly one `@` and no whitespace at all. */
  lemma EmailShape(s: string)
    requires EmailMatches(s)
    ensures forall i :: 0 <= i < |s| ==> !IsJsSpace(s[i])
    ensures forall i, j :: 0 <= i < |s| && 0 <= j < |s| && s[i] == '@' && s[j] == '@' ==> i == j
  {
    var k :| 0 < k < |s| && s[k] == '@' && AllEmailChars(s[..k]) && DomainShape(s[k + 1..]);
    forall i | 0 <= i < |s| ensures !IsJsSpace(s[i]) && (s[i] == '@' ==> i == k) {
      if i < k {
        assert s[i] == s[..k][i];
      } else if i > k {
        assert s[i] == s[k + 1..][i - k - 1];
      }
    }
  }

  /** A whole address `local@host.tld` passes. */
  lemma EmailAccepted(local: string, host: string, tld: string)
    requires local != [] && host != [] && tld != []
    requires AllEmailChars(local) && AllEmailChars(host) && AllEmailChars(tld)
    ensures EmailMatches(local + "@" + host + "." + tld)
  {
    var s := local + "@" + host + "." + tld;
    var d := host + "." + tld;
    assert s[..|local|] == local;
    assert s[|local| + 1..] == d;
    assert d[|host|] == '.';
    forall i | 0 <= i < |d| ensures EmailChar(d[i]) {
      if i < |host| { assert d[i] == host[i]; }
      else if i > |host| { assert d[i] == tld[i - |host| - 1]; }
    }
  }

  /** An address without a dot after the `@` fails. */
  lemma EmailNeedsDot(local: string, host: string)
    requires '.' !in host
    ensures !EmailMatches(local + "@" + host)
  {
    var s := local + "@" + host;
    forall k | 0 < k < |s| && s[k] == '@'
      ensures !(AllEmailChars(s[..k]) && DomainShape(s[k + 1..]))
    {
      if k < |local| {
        assert s[k + 1..][|local| - k - 1] == '@';
      } else if k > |local| {
        assert s[..k][|local|] == '@';
      } else {
        assert s[k + 1..] == host;
      }
    }
  }

  /** An accepted phone number has at least seven characters and no letters. */
  lemma PhoneShape(s: string)
    requires PhoneMatches(s)
    ensures |s| >= 7
    ensures forall i :: 0 <= i < |s| ==> !('a' <= s[i] <= 'z') && !('A' <= s[i] <= 'Z')
  {
    if |s| > 0 && s[0] == '+' {
      forall i | 1 <= i < |s| ensures !('a' <= s[i] <= 'z') && !('A' <= s[i] <= 'Z') {
        assert s[i] == s[1..][i - 1];
        assert PhoneChar(s[i]);
      }
    } else {
      forall i | 0 <= i < |s| ensures !('a' <= s[i] <= 'z') && !('A' <= s[i] <= 'Z') {
        assert PhoneChar(s[i]);
      }
    }
  }

  // ---------------------------------------------------------------------
  // The form
  // ---------------------------------------------------------------------

  /** The picked file, reduced to what the handlers read. */
  datatype ResumeFile = ResumeFile(name: string, mimeType: string)

  /** What is posted to `/api/apply`. */
  datatype Submission = Submission(name: string, email: string, phone: string, resume: ResumeFile,
                                   jobId: Option<string>, jobTitle: string)

  /** The page error an outcome leaves, or `""` when the application went through. */
  function OutcomeError(outcome: Outcome): (e: string)
  {
    match outcome
    case Thrown => ConnectionFailure
    case HttpError(code, message) => TextOr(message, if code >= 500 then ServerFailure else ClientFailure)
    case Replied(status, message) => if status == "success" then "" else TextOr(message, NotAccepted)
  }

  /** Only an ok reply whose status is `success` submits the application; every other outcome leaves an error. */
  lemma OutcomeErrors(outcome: Outcome)
    ensures OutcomeError(outcome) == "" <==> outcome.Replied? && outcome.status == "success"
  {
    if !(outcome.Replied? && outcome.status == "success") {
      match outcome {
        case Thrown =>
          assert |ConnectionFailure| > 0;
        case HttpError(code, message) =>
          assert |ServerFailure| > 0 && |ClientFailure| > 0;
        case Replied(status, message) =>
          assert |NotAccepted| > 0;
      }
    }
  }

  /** The three field errors of a submit attempt. */
  function SubmitErrors(name: string, email: string, phone: string): (errors: map<string, string>)
    ensures errors.Keys == {"name", "email", "phone"}
    ensures FieldsValid(name, email, phone) <==> errors["name"] == "" && errors["email"] == "" && errors["phone"] == ""
  {
    map["name" := NameError(name), "email" := EmailError(email), "phone" := PhoneError(phone)]
  }

  /** Whether the three fields all pass. */
  predicate FieldsValid(name: string, email: string, phone: string)
  {
    && NameError(name) == ""
    && EmailError(email) == ""
    && PhoneError(phone) == ""
  }

  class ApplyForm {
    const jobId: Option<string>
    const jobTitle: string
    var formData: map<string, string>
    var resume: Option<ResumeFile>
    var isSubmitting: bool
    var isSubmitted: bool
    var error: string
    var fieldErrors: map<string, string>

    /** The three inputs always have an entry in `formData`. */
    predicate Valid()
      reads `formData
    {
      "name" in formData && "email" in formData && "phone" in formData
    }

    /** A fresh form: the title falls back to `Open Position` when the link gives none. */
    constructor (jobId: Option<string>, title: Option<string>)
      ensures Valid()
      ensures this.jobId == jobId && jobTitle == TextOr(title, "Open Position")
      ensures formData == map["name" := "", "email" := "", "phone" := ""]
      ensures resume.None? && !isSubmitting && !isSubmitted && error == "" && fieldErrors == map[]
    {
      this.jobId := jobId;
      jobTitle := TextOr(title, "Open Position");
      formData := map["name" := "", "email" := "", "phone" := ""];
      resume := None;
      isSubmitting := false;
      isSubmitted := false;
      error := "";
      fieldErrors := map[];
    }

    /** `handleBlur`: the field's error becomes its validation message. */
    method HandleBlur(name: string, value: string)
      modifies this
      ensures fieldErrors == old(fieldErrors)[name := ValidateField(name, value)]
      ensures formData == old(formData) && resume == old(resume) && error == old(error)
      ensures isSubmitting == old(isSubmitting) && isSubmitted == old(isSubmitted)
    {
      fieldErrors := fieldErrors[name := ValidateField(name, value)];
    }

    /**
     * `handleChange`: the value is stored, and a pending error on that field
     * only is cleared; every other field's value and error stay.
     */
    method HandleChange(name: string, value: string)
      requires Valid()
      modifies this
      ensures Valid()
      ensures formData == old(formData)[name := value]
      ensures name in old(fieldErrors) && old(fieldErrors)[name] != "" ==> fieldErrors == old(fieldErrors)[name := ""]
      ensures !(name in old(fieldErrors) && old(fieldErrors)[name] != "") ==> fieldErrors == old(fieldErrors)
      ensures forall k :: k != name ==> (k in fieldErrors <==> k in old(fieldErrors))
      ensures forall k :: k != name && k in fieldErrors ==> fieldErrors[k] == old(fieldErrors)[k]
      ensures resume == old(resume) && error == old(error)
      ensures isSubmitting == old(isSubmitting) && isSubmitted == old(isSubmitted)
    {
      formData := formData[name := value];
      if name in fieldErrors && fieldErrors[name] != "" {
        fieldErrors := fieldErrors[name := ""];
      }
    }

    /**
     * `handleFileChange`: a PDF or Word file replaces the resume and clears
     * the error; any other type keeps the resume and sets the error; no file
     * changes nothing.
     */
    method HandleFileChange(file: Option<ResumeFile>)
      modifies this
      ensures file.Some? && file.value.mimeType in AcceptedTypes ==> resume == file && error == ""
      ensures file.Some? && file.value.mimeType !in AcceptedTypes ==> resume == old(resume) && error == WrongFileType
      ensures file.None? ==> resume == old(resume) && error == old(error)
      ensures formData == old(formData) && fieldErrors == old(fieldErrors)
      ensures isSubmitting == old(isSubmitting) && isSubmitted == old(isSubmitted)
    {
      if file.Some? {
        if file.value.mimeType in AcceptedTypes {
          resume := file;
          error := "";
        } else {
          error := WrongFileType;
        }
      }
    }

    /** The fields as typed. */
    function Name(): string reads `formData requires Valid() { formData["name"] }
    function Email(): string reads `formData requires Valid() { formData["email"] }
    function Phone(): string reads `formData requires Valid() { formData["phone"] }

    /**
     * What a submit posts, with the given resume: the trimmed fields, the job
     * title, and the job id from the link only when it is truthy (an empty
     * `?job=` posts no id).
     */
    function Payload(file: ResumeFile): (p: Submission)
      reads `formData
      requires Valid()
      ensures p.name == Trim(formData["name"]) && p.email == Trim(formData["email"]) && p.phone == Trim(formData["phone"])
      ensures p.resume == file && p.jobTitle == jobTitle
      ensures p.jobId.Some? <==> jobId.Some? && jobId.value != ""
      ensures p.jobId.Some? ==> p.jobId == jobId
    {
      var postedId := if jobId.Some? && jobId.value != "" then jobId else None;
      Submission(Trim(Name()), Trim(Email()), Trim(Phone()), file, postedId, jobTitle)
    }

    /** The first steps of `handleSubmit`: the page error is cleared and all three field errors are set at once. */
    method ValidateAll() returns (ok: bool)
      requires Valid()
      modifies this
      ensures Valid() && formData == old(formData)
      ensures ok <==> FieldsValid(Name(), Email(), Phone())
      ensures fieldErrors == SubmitErrors(Name(), Email(), Phone()) && error == ""
      ensures resume == old(resume) && isSubmitting == old(isSubmitting) && isSubmitted == old(isSubmitted)
    {
      error := "";
      var errors := SubmitErrors(Name(), Email(), Phone());
      fieldErrors := errors;
      ok := errors["name"] == "" && errors["email"] == "" && errors["phone"] == "";
    }

    /**
     * The request of `handleSubmit` once the checks pass: the payload is
     * posted, the outcome decides between the submitted page and an error,
     * and `isSubmitting` is false again once the request has ended.
     */
    method Send(payload: Submission, outcome: Outcome) returns (sent: Submission)
      modifies this
      ensures formData == old(formData) && fieldErrors == old(fieldErrors) && resume == old(resume)
      ensures sent == payload
      ensures isSubmitted == (old(isSubmitted) || OutcomeError(outcome) == "")
      ensures error == if OutcomeError(outcome) == "" then old(error) else OutcomeError(outcome)
      ensures !isSubmitting
    {
      isSubmitting := true;
      sent := payload;
      var e := OutcomeError(outcome);
      if e == "" {
        isSubmitted := true;
      } else {
        error := e;
      }
      isSubmitting := false;
    }

    /**
     * `handleSubmit`: all three field errors are set at once. With any of
     * them, or without a resume, nothing is sent. Otherwise the trimmed
     * values are sent, and the outcome decides between the submitted page
     * and an error; `isSubmitting` is false once the request has ended.
     */
    method HandleSubmit(outcome: Outcome) returns (sent: Option<Submission>)
      requires Valid()
      modifies this
      ensures Valid() && formData == old(formData)
      ensures fieldErrors == SubmitErrors(Name(), Email(), Phone())
      ensures sent.Some? <==> FieldsValid(Name(), Email(), Phone()) && old(resume).Some?
      ensures sent.Some? ==> sent.value == Payload(old(resume).value)
      ensures !FieldsValid(Name(), Email(), Phone()) ==> error == ""
      ensures FieldsValid(Name(), Email(), Phone()) && old(resume).None? ==> error == ResumeMissing
      ensures sent.Some? ==> error == OutcomeError(outcome)
      ensures isSubmitted == (old(isSubmitted) || (sent.Some? && OutcomeError(outcome) == ""))
      ensures sent.Some? ==> !isSubmitting
      ensures sent.None? ==> isSubmitting == old(isSubmitting)
      ensures resume == old(resume)
    {
      var ok := ValidateAll();
      if !ok {
        sent := None;
      } else if resume.None? {
        error := ResumeMissing;
        sent := None;
      } else {
        var posted := Send(Payload(resume.value), outcome);
        sent := Some(posted);
      }
    }
  }

  /** A submit attempt that sends nothing reports at least one field error, or the missing resume. */
  lemma BlockedSubmitExplains(name: string, email: string, phone: string)
    requires !FieldsValid(name, email, phone)
    ensures exists k :: k in SubmitErrors(name, email, phone) && SubmitErrors(name, email, phone)[k] != ""
  {
    var errors := SubmitErrors(name, email, phone);
    if NameError(name) != "" {
      assert errors["name"] != "";
    } else if EmailError(email) != "" {
      assert errors["email"] != "";
    } else {
      assert errors["phone"] != "";
    }
  }
}

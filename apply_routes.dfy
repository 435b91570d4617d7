// The public application endpoint of backend-node/routes/applyRoutes.js: the
// upload filter, the required-field checks, the fixed evaluation settings,
// the tolerance of a failed analysis, the summary that carries the
// applicant's contact details and the analysis object handed to
// `analysisService.create`. The analyzer's inputs that come from outside
// (PDF text, AI reply, `JSON.parse`) are parameters, as is the candidate row
// the database returns; the writes are returned in order.

module ApplyRoutes {
  import opened Common
  import opened Js
  import ResumeAnalyzer

  /** The MIME types the upload filter lets through. */
  const AllowedResumeTypes: seq<string> := [
    "application/pdf",
    "application/msword",
    "application/vnd.openxmlformats-officedocument.wordprocessingml.document"
  ]

  /** The uploaded file: the client's name for it, where it was stored, and its MIME type. */
  datatype ApplicationFile = ApplicationFile(originalName: string, path: string, mimeType: string)

  /**
   * `fileFilter`: a file of another type is refused with this error before
   * the handler runs.
   */
  function FilterUpload(file: ApplicationFile): (r: Result<ApplicationFile>)
    ensures r.Ok? <==> file.mimeType in AllowedResumeTypes
    ensures r.Ok? ==> r.value == file
  {
    if file.mimeType in AllowedResumeTypes then Ok(file)
    else Err("Invalid file type. Please upload a PDF or Word document.")
  }

  /** `Contact: name | Email: email | Phone: phone`. */
  function ContactLine(name: Value, email: Value, phone: Value): string
  {
    "Contact: " + ToText(name) + " | Email: " + ToText(email) + " | Phone: " + ToText(phone)
  }

  /** The summary stored with the analysis: contact line, the job applied for if given, a blank line, the analysis summary. */
  function ApplicationSummary(body: Value, analysisSummary: Value): string
  {
    var jobTitle := Get(body, "jobTitle");
    ContactLine(Get(body, "name"), Get(body, "email"), Get(body, "phone"))
    + (if Truthy(jobTitle) then " | Applied for: " + ToText(jobTitle) else "")
    + ("\n\n" + ToText(Or(analysisSummary, Str(""))))
  }

  /**
   * The summary opens with the contact line; the job title follows it
   * exactly when one was given, otherwise the blank line does; the
   * analysis summary (or nothing) closes it.
   */
  lemma ApplicationSummaryShape(body: Value, analysisSummary: Value)
    ensures var s := ApplicationSummary(body, analysisSummary);
      var contact := ContactLine(Get(body, "name"), Get(body, "email"), Get(body, "phone"));
      StartsWith(s, contact)
      && (Truthy(Get(body, "jobTitle")) ==> OccursAt(s, " | Applied for: " + ToText(Get(body, "jobTitle")), |contact|))
      && (!Truthy(Get(body, "jobTitle")) ==> OccursAt(s, "\n\n", |contact|))
      && EndsWith(s, "\n\n" + ToText(Or(analysisSummary, Str(""))))
  {
    var contact := ContactLine(Get(body, "name"), Get(body, "email"), Get(body, "phone"));
    var jobTitle := Get(body, "jobTitle");
    var appliedFor := if Truthy(jobTitle) then " | Applied for: " + ToText(jobTitle) else "";
    var tail := "\n\n" + ToText(Or(analysisSummary, Str("")));
    var s := ApplicationSummary(body, analysisSummary);
    assert s == contact + appliedFor + tail;
    assert s[..|contact|] == contact;
    OccursBetween(contact, appliedFor, tail);
    if appliedFor == "" {
      assert s == contact + tail;
      assert s[|contact|..|contact| + 2] == tail[..2] == "\n\n";
    }
    EndsWithLast(contact + appliedFor, tail);
  }

  /** The analysis object the route builds for `analysisService.create`, by field. */
  datatype ApplicationAnalysis = ApplicationAnalysis(
    overallScore: Value, scoreOutOf10: Value, summary: string,
    technicalScore: Value, skillsFound: Value, certificationsScore: Value, certificationsFound: Value,
    experienceScore: Value, yearsOfExperience: Value, presentationScore: Value,
    strengths: Value, weaknesses: Value, recommendations: Value, hiringRecommendation: Value)

  /** `v` is `given` when that is truthy, and `fallback` otherwise: JavaScript's `given || fallback`. */
  predicate Defaulted(v: Value, given: Value, fallback: Value)
  {
    (Truthy(given) ==> v == given) && (!Truthy(given) ==> v == fallback)
  }

  /** `analysisResult.scores?.name || 0`. */
  function SubScore(result: Value, name: string): (v: Value)
    ensures Truthy(v) || v == Num(0.0)
    ensures Defaulted(v, Get(Get(result, "scores"), name), Num(0.0))
  {
    Or(Get(Get(result, "scores"), name), Num(0.0))
  }

  /**
   * The analysis data: every score and list is defaulted (0 or `[]`), the
   * verdict to `MAYBE`, and the ten-point score is recomputed from the
   * defaulted overall score.
   */
  function AnalysisData(result: Value, summary: string): (d: ApplicationAnalysis)
    ensures Truthy(d.hiringRecommendation)
    ensures !Truthy(Get(result, "hiringRecommendation")) ==> d.hiringRecommendation == Str("MAYBE")
    ensures Truthy(Get(result, "overallScore")) ==> d.overallScore == Get(result, "overallScore")
    ensures !Truthy(Get(result, "overallScore")) ==> d.overallScore == Num(0.0) && d.scoreOutOf10 == Num(0.0)
    ensures d.scoreOutOf10 == ResumeAnalyzer.ScoreOutOf10(d.overallScore)
    ensures Truthy(d.strengths) && Truthy(d.weaknesses) && Truthy(d.recommendations)
    ensures d.summary == summary
    ensures Defaulted(d.technicalScore, Get(Get(result, "scores"), "technicalSkills"), Num(0.0))
    ensures Defaulted(d.certificationsScore, Get(Get(result, "scores"), "certifications"), Num(0.0))
    ensures Defaulted(d.experienceScore, Get(Get(result, "scores"), "experience"), Num(0.0))
    ensures Defaulted(d.presentationScore, Get(Get(result, "scores"), "presentation"), Num(0.0))
    ensures Defaulted(d.skillsFound, Get(result, "skillsFound"), Arr([]))
    ensures Defaulted(d.certificationsFound, Get(result, "certificationsFound"), Arr([]))
    ensures Defaulted(d.yearsOfExperience, Get(result, "yearsOfExperience"), Num(0.0))
    ensures Defaulted(d.strengths, Get(result, "strengths"), Arr([]))
    ensures Defaulted(d.weaknesses, Get(result, "weaknesses"), Arr([]))
    ensures Defaulted(d.recommendations, Get(result, "recommendations"), Arr([]))
    ensures Defaulted(d.hiringRecommendation, Get(result, "hiringRecommendation"), Str("MAYBE"))
  {
    var overall := Or(Get(result, "overallScore"), Num(0.0));
    ApplicationAnalysis(
      overall, ResumeAnalyzer.ScoreOutOf10(overall), summary,
      SubScore(result, "technicalSkills"), Or(Get(result, "skillsFound"), Arr([])),
      SubScore(result, "certifications"), Or(Get(result, "certificationsFound"), Arr([])),
      SubScore(result, "experience"), Or(Get(result, "yearsOfExperience"), Num(0.0)),
      SubScore(result, "presentation"),
      Or(Get(result, "strengths"), Arr([])), Or(Get(result, "weaknesses"), Arr([])),
      Or(Get(result, "recommendations"), Arr([])), Or(Get(result, "hiringRecommendation"), Str("MAYBE")))
  }

  /** A write the route performs. */
  datatype ApplyWrite =
    | CandidateCreated(originalName: string, path: string)
    | AnalysisSaved(candidateId: Value, data: ApplicationAnalysis)
    | StatusCompleted(candidateId: Value)

  datatype ApplyReply =
    | NoResume                                   // 400 'No resume file uploaded'
    | MissingContact                             // 400 'Please provide name, email, and phone number'
    | Submitted(candidateId: Value, analyzed: bool)
    | ApplyFailed                                // 500 'Failed to process application'

  function ApplyStatusCode(r: ApplyReply): int
  {
    match r
    case NoResume => 400
    case MissingContact => 400
    case Submitted(_, _) => 200
    case ApplyFailed => 500
  }

  /** The fixed evaluation settings of every application. */
  const ApplicationPosition := Str("HVAC Technician")
  const ApplicationRequiredYears := 2.0

  /**
   * The writes of an accepted application: the candidate row, the analysis
   * only when one came back, then the `completed` status.
   */
  function SubmissionWrites(file: ApplicationFile, body: Value, analysisResult: Value, candidateId: Value): (ws: seq<ApplyWrite>)
    ensures |ws| == (if Truthy(analysisResult) then 3 else 2)
    ensures ws[0] == CandidateCreated(file.originalName, file.path) && ws[|ws| - 1] == StatusCompleted(candidateId)
  {
    [CandidateCreated(file.originalName, file.path)]
    + (if Truthy(analysisResult)
       then [AnalysisSaved(candidateId, AnalysisData(analysisResult, ApplicationSummary(body, Get(analysisResult, "summary"))))]
       else [])
    + [StatusCompleted(candidateId)]
  }

  /**
   * `POST /api/apply`. `candidate` is the id of the row `candidateService.create`
   * returns, `None` when there is none (reading its id then throws);
   * `analysisResult` is the analyzer's object, `null` when it threw.
   */
  method Apply(file: Option<ApplicationFile>, body: Value,
               pdfText: Result<string>, aiReply: ResumeAnalyzer.AiRequest -> Result<string>, parse: string -> Option<Value>,
               candidate: Option<Value>)
    returns (reply: ApplyReply, writes: seq<ApplyWrite>, request: Option<ResumeAnalyzer.AiRequest>, analysisResult: Value)
    ensures file.None? <==> reply == NoResume
    ensures file.Some? && !(Truthy(Get(body, "name")) && Truthy(Get(body, "email")) && Truthy(Get(body, "phone")))
            <==> reply == MissingContact
    ensures reply == NoResume || reply == MissingContact ==> writes == [] && request.None?
    ensures request.Some? ==> request.value.framework == ResumeAnalyzer.SelectFramework(ApplicationPosition)
                              && request.value.requiredYears == ApplicationRequiredYears && request.value.flexibleOnTitle
    ensures file.Some? && reply != MissingContact && candidate.None? ==> reply == ApplyFailed
    ensures reply.Submitted? ==> candidate.Some? && reply == Submitted(candidate.value, Truthy(analysisResult))
                                 && writes == SubmissionWrites(file.value, body, analysisResult, candidate.value)
  {
    request := None;
    writes := [];
    analysisResult := Null;
    if file.None? {
      return NoResume, writes, request, analysisResult;
    }
    var name, email, phone := Get(body, "name"), Get(body, "email"), Get(body, "phone");
    if !Truthy(name) || !Truthy(email) || !Truthy(phone) {
      return MissingContact, writes, request, analysisResult;
    }
    var outcome;
    outcome, request := ResumeAnalyzer.AnalyzeResume(file.value.path, ApplicationPosition, ApplicationRequiredYears, true,
                                                     pdfText, aiReply, parse);
    // an exception from the analyzer leaves `analysisResult` null
    if outcome.Ok? {
      analysisResult := outcome.value;
    }
    if candidate.None? {
      return ApplyFailed, [CandidateCreated(file.value.originalName, file.value.path)], request, analysisResult;
    }
    writes := SubmissionWrites(file.value, body, analysisResult, candidate.value);
    reply := Submitted(candidate.value, Truthy(analysisResult));
  }

  /**
   * Every application is judged by the generic prompt with the
   * `HVAC Technician` criteria, two years required, title flexible.
   */
  lemma ApplicationSettings()
    ensures ResumeAnalyzer.SelectFramework(ApplicationPosition) == ResumeAnalyzer.Generic("HVAC Technician")
    ensures ApplicationRequiredYears == 2.0
  {
    ResumeAnalyzer.DefaultPositionCriteria();
  }

  /** A Word document passes the upload filter... */
  lemma WordDocumentAccepted()
    ensures FilterUpload(ApplicationFile("cv.doc", "a/b.doc", "application/msword")).Ok?
  {
    assert AllowedResumeTypes[1] == "application/msword";
  }

  /** ...but not the analyzer's PDF check, so the application is stored without an analysis. */
  lemma WordDocumentNotAnalyzed(dir: string, stem: string)
    requires stem != [] && '/' !in stem
    ensures !ResumeAnalyzer.IsPdfPath(dir + "/" + stem + ".doc")
  {
    ResumeAnalyzer.PdfPathByExtension(dir, stem, "doc");
    assert dir + "/" + stem + "." + "doc" == dir + "/" + stem + ".doc";
    assert ToLower("doc")[0] == 'd';
  }
}

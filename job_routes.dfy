// The decision logic of backend-node/routes/jobRoutes.js: the job-creation
// defaults, the detail route that hands its query string to `findByJobId`,
// and the add-candidate handler, which repeats the tier, star-rating and
// vehicle rules of the scoring service inline, decides the "Give Them a
// Chance" flag and falls back to a fixed summary when the AI call fails.
// Database reads are parameters (`None` for a missing row); the AI summary
// is a parameter too (`None` for a call that threw).

module JobRoutes {
  import opened Common
  import opened Js
  import Scoring
  import DatabaseService

  // ---------------------------------------------------------------------
  // POST /api/jobs
  // ---------------------------------------------------------------------

  /** `req.body.flexible_on_title !== false`. */
  function FlexibleOnTitle(v: Value): (flexible: bool)
    ensures !flexible <==> v == Bool(false)
  {
    v != Bool(false)
  }

  /** `req.body.userId || 1`. */
  function CreatorId(body: Value): (id: Value)
    ensures Truthy(Get(body, "userId")) ==> id == Get(body, "userId")
    ensures !Truthy(Get(body, "userId")) ==> id == Num(1.0)
  {
    Or(Get(body, "userId"), Num(1.0))
  }

  /**
   * Through the route and `jobService.create` together, a job is stored as
   * not flexible on title exactly when the request body sent `false`.
   */
  lemma CreatedJobFlexibleFlag(body: Value)
    ensures DatabaseService.StoredFlexibleFlag(Bool(FlexibleOnTitle(Get(body, "flexible_on_title")))) == 0
            <==> Get(body, "flexible_on_title") == Bool(false)
  {
  }

  // ---------------------------------------------------------------------
  // GET /api/jobs/:id
  // ---------------------------------------------------------------------

  /** 404 `Job not found`, 500 `Failed to fetch job`, or the job's candidate query. */
  datatype JobDetailReply = JobNotFound | JobFetchFailed | JobDetail(candidates: DatabaseService.Query)

  /**
   * The detail route, given whether the job lookup threw, whether it found
   * the job and whether the candidate query threw: a throw is a 500, a
   * missing job a 404, otherwise the candidate query `findByJobId` builds
   * from the request's whole query string.
   */
  method JobDetailRoute(lookupThrew: bool, jobFound: bool, candidatesThrew: bool, jobId: Value, requestQuery: Value)
    returns (r: JobDetailReply)
    ensures r == JobFetchFailed <==> lookupThrew || (jobFound && candidatesThrew)
    ensures r == JobNotFound <==> !lookupThrew && !jobFound
    ensures r.JobDetail? ==>
              var applied := DatabaseService.Selected(DatabaseService.JobCandidateTests(requestQuery));
              r.candidates.params == [jobId] + DatabaseService.ValuesOf(applied)
              && r.candidates.text == DatabaseService.JobCandidatesBase + DatabaseService.FilterClauses(applied, 2)
                                      + DatabaseService.JobCandidatesTail(requestQuery)
  {
    if lookupThrew {
      return JobFetchFailed;
    }
    if !jobFound {
      return JobNotFound;
    }
    var q := DatabaseService.FindByJobIdQuery(jobId, requestQuery);
    if candidatesThrew {
      return JobFetchFailed;
    }
    r := JobDetail(q);
  }

  // ---------------------------------------------------------------------
  // POST /api/jobs/:id/candidates/:candidateId
  // ---------------------------------------------------------------------

  datatype JobRecord = JobRecord(title: string, requiredYears: real, vehicleRequired: Value)

  datatype AnalysisRecord = AnalysisRecord(
    overallScore: real, yearsOfExperience: real, certificationsScore: real, technicalSkillsScore: real,
    presentationScore: real, summary: string, hiringRecommendation: string)

  datatype CandidateRecord = CandidateRecord(filename: string)

  /** The pipeline row the handler stores; the star rating is kept in tenths of a star. */
  datatype PipelineData = PipelineData(
    tier: Scoring.Tier, tierScore: int, starRatingTenths: int, giveThemAChance: bool,
    vehicleStatus: Value, aiSummary: string, internalNotes: Value, tags: Value)

  datatype AddCandidateReply =
    | Added(data: PipelineData)
    | NotFound   // 404 'Job or candidate not found'
    | Failed     // 500 'Failed to add candidate to job'

  function HttpStatus(r: AddCandidateReply): (code: int)
  {
    match r
    case Added(_) => 200
    case NotFound => 404
    case Failed => 500
  }

  /**
   * The handler's own vehicle adjustment: `Math.min(100, score + 5)` with a
   * vehicle, `Math.max(0, score - 10)` without one, the score otherwise.
   * Each branch clamps one end only.
   */
  function InlineAdjustedScore(score: real, vehicleStatus: Value, vehicleRequired: bool): (adjusted: real)
  {
    if !vehicleRequired then score
    else if vehicleStatus == Str("has_vehicle") then (if 100.0 < score + 5.0 then 100.0 else score + 5.0)
    else if vehicleStatus == Str("no_vehicle") then (if 0.0 > score - 10.0 then 0.0 else score - 10.0)
    else score
  }

  /** On the 0..100 scale the inline adjustment agrees with `adjustScoreForVehicle`. */
  lemma InlineAdjustmentAgrees(score: real, status: string, vehicleRequired: bool)
    requires 0.0 <= score <= 100.0
    ensures InlineAdjustedScore(score, Str(status), vehicleRequired)
            == Scoring.AdjustScoreForVehicle(score, status, vehicleRequired)
  {
    Scoring.VehicleAdjustment(score, status);
  }

  /** Above 100 the two differ: the inline `no_vehicle` branch does not cap the result. */
  lemma InlineAdjustmentOutOfRange()
    ensures InlineAdjustedScore(120.0, Str("no_vehicle"), true) == 110.0
    ensures Scoring.AdjustScoreForVehicle(120.0, "no_vehicle", true) == 100.0
  {
  }

  const TransferableKeywords: seq<string> := ["maintenance", "customer service", "promoted", "manager", "supervisor"]

  predicate HasTransferableBackground(summary: string)
  {
    exists kw :: kw in TransferableKeywords && Contains(ToLower(summary), kw)
  }

  /** Fewer years than required, but at least half of them. */
  predicate HighUpside(years: real, required: real)
  {
    years < required && years >= required * 0.5
  }

  /** `determineGiveThemAChance`. */
  function DetermineGiveThemAChance(a: AnalysisRecord, job: JobRecord, score: real): (chance: bool)
    ensures score < 50.0 ==> !chance
    ensures chance <==> score >= 50.0
                        && ((HighUpside(a.yearsOfExperience, job.requiredYears)
                             && (a.certificationsScore >= 80.0 || a.technicalSkillsScore >= 80.0))
                            || (a.yearsOfExperience > job.requiredYears * 2.0 && score >= 75.0)
                            || (HasTransferableBackground(a.summary) && a.presentationScore >= 70.0))
  {
    if score < 50.0 then false
    else if HighUpside(a.yearsOfExperience, job.requiredYears)
            && (a.certificationsScore >= 80.0 || a.technicalSkillsScore >= 80.0) then true
    else if a.yearsOfExperience > job.requiredYears * 2.0 && score >= 75.0 then true
    else HasTransferableBackground(a.summary) && a.presentationScore >= 70.0
  }

  /** The flag is only ever raised for green or yellow candidates. */
  lemma GiveThemAChanceNeverRed(a: AnalysisRecord, job: JobRecord, score: real)
    requires DetermineGiveThemAChance(a, job, score)
    ensures Scoring.CalculateTier(score) != Scoring.Red
  {
  }

  /** The keyword test ignores letter case. */
  lemma TransferableIgnoresCase(summary: string)
    ensures HasTransferableBackground(ToUpper(summary)) <==> HasTransferableBackground(summary)
  {
    LowerOfUpper(summary);
  }

  lemma LowerOfUpper(s: string)
    ensures ToLower(ToUpper(s)) == ToLower(s)
  {
    var a := ToLower(ToUpper(s));
    var b := ToLower(s);
    assert |a| == |b|;
    forall i | 0 <= i < |s| ensures a[i] == b[i] {
      assert ToUpper(s)[i] == UpperChar(s[i]);
    }
  }

  /**
   * The summary used when the AI call fails: score, tier, title, years and
   * the recommendation with every `_` turned into a space.
   */
  function FallbackSummary(a: AnalysisRecord, job: JobRecord, tier: Scoring.Tier): (s: string)
    ensures StartsWith(s, "Candidate scored ")
    ensures EndsWith(s, ReplaceChar(a.hiringRecommendation, '_', " ") + ".")
  {
    var head := "Candidate scored " + NumberToString(a.overallScore) + "/100 (" + Scoring.TierName(tier) + " tier) for "
                + job.title + ". Has " + NumberToString(a.yearsOfExperience) + " years of experience. ";
    var tail := ReplaceChar(a.hiringRecommendation, '_', " ") + ".";
    assert (head + tail)[..17] == "Candidate scored ";
    head + tail
  }

  /** The fallback summary never shows an underscore of the recommendation code. */
  lemma FallbackRecommendationReadable(a: AnalysisRecord)
    ensures '_' !in ReplaceChar(a.hiringRecommendation, '_', " ")
  {
    ReplaceCharRemoves(a.hiringRecommendation, '_', " ");
  }

  /**
   * The add-candidate handler. Without a job or an analysis it answers 404;
   * without a candidate row it fails on `candidate.filename` and answers
   * 500. Otherwise the stored tier and star rating are those of the scoring
   * service for the raw score, the tier score is the rounded inline vehicle
   * adjustment, and the summary is the AI's text or the fallback.
   */
  method AddCandidate(job: Option<JobRecord>, analysis: Option<AnalysisRecord>, candidate: Option<CandidateRecord>,
                      body: Value, aiSummary: Option<string>) returns (r: AddCandidateReply)
    ensures job.None? || analysis.None? <==> r == NotFound
    ensures job.Some? && analysis.Some? && candidate.None? ==> r == Failed
    ensures job.Some? && analysis.Some? && candidate.Some? ==> r.Added?
    ensures r.Added? ==>
              var a := analysis.value;
              var vehicleStatus := Or(Get(body, "vehicle_status"), Str("unknown"));
              && r.data.tier == Scoring.CalculateTier(a.overallScore)
              && r.data.starRatingTenths == Scoring.StarRatingTenths(a.overallScore)
              && r.data.vehicleStatus == vehicleStatus
              && r.data.tierScore == Round(InlineAdjustedScore(a.overallScore, vehicleStatus, Truthy(job.value.vehicleRequired)))
              && r.data.giveThemAChance == DetermineGiveThemAChance(a, job.value, a.overallScore)
              && r.data.aiSummary == (if aiSummary.Some? then aiSummary.value
                                      else FallbackSummary(a, job.value, r.data.tier))
              && r.data.internalNotes == Or(Get(body, "internal_notes"), Str(""))
              && r.data.tags == Or(Get(body, "tags"), Arr([]))
  {
    if job.None? || analysis.None? {
      return NotFound;
    }
    var score := analysis.value.overallScore;
    var tier: Scoring.Tier;
    var starRating: real;
    if score >= 80.0 {
      tier := Scoring.Green;
      starRating := 4.0 + (score - 80.0) / 20.0;
    } else if score >= 50.0 {
      tier := Scoring.Yellow;
      starRating := 2.0 + (score - 50.0) / 30.0 * 1.9;
    } else {
      tier := Scoring.Red;
      starRating := score / 50.0 * 1.5;
    }
    assert starRating * 10.0 == Scoring.RatingTimesTen(score);

    var vehicleStatus := Or(Get(body, "vehicle_status"), Str("unknown"));
    var adjusted := score;
    if Truthy(job.value.vehicleRequired) {
      if vehicleStatus == Str("has_vehicle") {
        adjusted := if 100.0 < score + 5.0 then 100.0 else score + 5.0;
      } else if vehicleStatus == Str("no_vehicle") {
        adjusted := if 0.0 > score - 10.0 then 0.0 else score - 10.0;
      }
    }

    var chance := DetermineGiveThemAChance(analysis.value, job.value, score);
    if candidate.None? {
      return Failed;
    }
    var summary := if aiSummary.Some? then aiSummary.value else FallbackSummary(analysis.value, job.value, tier);
    r := Added(PipelineData(tier, Round(adjusted), Round(starRating * 10.0), chance, vehicleStatus, summary,
                            Or(Get(body, "internal_notes"), Str("")), Or(Get(body, "tags"), Arr([]))));
  }

  /**
   * The tier ignores the vehicle while the tier score does not: a score of 78
   * with a vehicle where one is required is stored as yellow with tier
   * score 83, above the green threshold.
   */
  lemma TierIgnoresVehicle()
    ensures Scoring.CalculateTier(78.0) == Scoring.Yellow
    ensures Round(InlineAdjustedScore(78.0, Str("has_vehicle"), true)) == 83
    ensures Scoring.CalculateTier(83.0) == Scoring.Green
  {
  }
}

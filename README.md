# Talos hiring platform — a verified Dafny model of its logic

Talos is a hiring product for HVAC companies. Recruiters post jobs, upload resumes, have them scored against a
rubric per position, sort the candidates into green, yellow and red tiers, and contact or reject them with
message templates. The public can apply to jobs and request a demo. This project models the decision logic of
that system in Dafny and proves what its code promises:

- **Node back end** (`backend-node/`):
  - candidate scoring: tier, star rating and the vehicle adjustment;
  - the SQL builders and value normalisers of the database service;
  - the job, resume, pipeline, apply and job-feed routes;
  - the resume analyser's position dispatch and score bands;
  - log redaction, the SQL dump writer and the rubric rewrite script.
- **CloudFront configuration script** (`update_cf.js`).
- **React front end** (`frontend/src/`): the message-template table and its lookup and rendering; the token store;
  and the forms, pages and dialogs, each as a class over its component state.
- **Two Swing windows** (`DemoRequestDialog.java`, `TalosLoginApp.java`): the demo-request validator and the two
  submission state machines.

Each source file is one module (one `.dfy` file), written in the form the source takes:

- Pure helpers are functions with contracts and lemmas.
- Components and windows whose handlers update state are classes. Their handlers are methods with `modifies`
  clauses that state the whole new state.
- Loops in the source are methods with loop invariants, proved against a specification function.

The network, the AI model, the database, timers, `JSON.parse`, `atob`, `prompt` and `toLocaleString` are
parameters: a handler is given how its request ends, and returns the request it makes.

`common.dfy` holds the string and sequence helpers the modules share (trimming per language, search and
replace, splitting, sorting). `js.dfy` holds the JavaScript value model: truthiness, `Number`, `parseInt`,
`parseFloat` and `String`. `http.dfy` holds the outcome of a `fetch`.

Where the documented behaviour and the code differ, the model follows the code:

- The login window trims the username but not the password, so a password of spaces is accepted
  (`TalosLoginApp.SpacesPasswordAccepted`). The web login rejects one.
- The demo-request dialog builds no request object and calls no endpoint. After a valid form it waits, then shows
  the success panel.
- The login window shows one combined warning rather than one message per field.

## Model

| member | source | states |
|---|---|---|
| Scoring.TierRange | backend-node/services/scoringService.js:11-15 | each tier's band is a sub-range of the 0..100 score scale |
| Scoring.TierPartition | backend-node/services/scoringService.js:11-15 | every integer score in 0..100 (the lemma is stated for integers only) is in exactly one tier: green iff ≥ 80, yellow iff 50..79, red iff < 50 |
| Scoring.StarRatingTenths | backend-node/services/scoringService.js:22-32 | the stored rating is the unrounded rating rounded half-up to the nearest tenth, so it has one decimal place and is within 0.05 of the formula |
| Scoring.StarRatingAnchors | backend-node/tests/scoringService.test.js:50-61 | 100, 80, 50 and 0 give 5.0, 4.0, 2.0 and 0.0 stars |
| Scoring.StarRatingBands | backend-node/tests/scoringService.test.js:69-91 | on 0..100, green scores rate 4.0–5.0, yellow 2.0–3.9, red 0.0–1.5 |
| Scoring.StarRatingMonotone | backend-node/services/scoringService.js:22-32 | a higher score never earns fewer stars |
| Scoring.StarRatingDeterminesTier | backend-node/services/scoringService.js:11-32 | for any score, the rating alone determines the tier (≥ 4.0 green, 2.0–3.9 yellow, below 2.0 red) |
| Scoring.AdjustScoreForVehicle | backend-node/services/scoringService.js:41-51 | unchanged and unclamped when no vehicle is required; always inside 0..100 when one is |
| Scoring.VehicleAdjustment | backend-node/services/scoringService.js:44-50 | with a vehicle required, `has_vehicle` adds 5 capped at 100, `no_vehicle` subtracts 10 floored at 0, any other status leaves the score |
| Scoring.AdjustMonotone | backend-node/services/scoringService.js:41-51 | the adjustment is monotone in the score for every status and requirement |
| Scoring.ScoringExamples | backend-node/tests/scoringService.test.js:9-126 | the tests' concrete tier boundaries and vehicle adjustments (70→75, 70→60, 98→100, 5→0, not required → unchanged) |
| DatabaseService.ElementsAsText | backend-node/services/databaseService.js:39-42 | each array element becomes its string form, with `null`/`undefined` becoming `''`; the length is kept |
| DatabaseService.ToArray | backend-node/services/databaseService.js:18-44 | `null`/`undefined` give `[]`; a string not starting with `[` (or one that fails to parse) is wrapped as a one-element list; an array keeps its length with every element stringified; other values pass through |
| DatabaseService.ToArrayIdempotent | backend-node/services/databaseService.js:18-44 | applying `toArray` to a list it produced changes nothing |
| DatabaseService.FromJson | backend-node/services/databaseService.js:47-56 | only strings starting with `[` or `{` are parsed; a failed parse and every other value are returned unchanged |
| DatabaseService.ToNumberOr | backend-node/services/databaseService.js:59-63 | `null`, `undefined` and values whose `Number()` is NaN give the default; otherwise the number |
| DatabaseService.RoundTenth | backend-node/services/databaseService.js:69 | the result has one decimal place and lies within half a tenth of the input |
| DatabaseService.ToDecimalOr | backend-node/services/databaseService.js:66-70 | the default for nullish or unparsable input; otherwise the parsed float rounded to one decimal |
| DatabaseService.SectionScore | backend-node/services/databaseService.js:191-194 | a present section supplies its own score; a missing one falls back to the overall score |
| DatabaseService.SectionColumnsOf | backend-node/services/databaseService.js:191-194 | a missing section is written as the fallback score with empty lists and empty feedback |
| DatabaseService.AnalysisInsertRow | backend-node/services/databaseService.js:163-222 | the row stores the candidate id, `toNumber` of the overall score and the score out of 10, and the merged strengths, weaknesses, recommendations, summary and verdict, each list through `toArray`. A present section is written from its own score, lists and feedback (`feedback` or empty). A missing technical, experience or presentation section scores the overall score or 0, a missing certifications section scores 0; both come with empty lists and empty feedback. Missing experience takes its years from `totalRelevantYears` or 0, through `toDecimal` |
| DatabaseService.AnalysisFormatChoice | backend-node/services/databaseService.js:185-188 | `keyStrengths` over `strengths` over `[]`; `concerns` first for weaknesses; a recommendation summary becomes the only recommendation; verdict kept iff truthy, else `'MAYBE'`; summary defaults to `'Resume analyzed'` |
| DatabaseService.StoredFlexibleFlag | backend-node/services/databaseService.js:316 | the stored flag is 0 exactly when the request sent boolean `false`, 1 otherwise |
| DatabaseService.StoredRequiredYears | backend-node/services/databaseService.js:295 | a falsy required-years value is stored as 0, a truthy one as given |
| DatabaseService.Placeholder | backend-node/services/databaseService.js:343 | a placeholder is `$` followed by its number |
| DatabaseService.PlaceholderInjective | backend-node/services/databaseService.js:343 | two placeholders are the same text only when they number the same parameter |
| DatabaseService.DefinedEntries | backend-node/services/databaseService.js:341-347 | the kept entries are at most the given ones |
| DatabaseService.DefinedEntriesMembers | backend-node/services/databaseService.js:341-347 | an entry is written iff it is in `updates` with a value other than `undefined` |
| DatabaseService.SetFields | backend-node/services/databaseService.js:343 | the i-th field is `key = $(first+i)` for the i-th entry |
| DatabaseService.ValuesOf | backend-node/services/databaseService.js:344 | the i-th value is the i-th entry's value |
| DatabaseService.JobUpdateQuery | backend-node/services/databaseService.js:336-357 | no statement iff no key is defined; otherwise one `key = $i` per defined key numbered from 1 in key order, the id bound last as `$(k+1)` |
| DatabaseService.JobUpdatePlaceholdersMatch | backend-node/services/databaseService.js:341-355 | the i-th field's placeholder numbers exactly the parameter holding that key's value, and the id placeholder numbers the last parameter |
| DatabaseService.IdPlaceholders | backend-node/services/databaseService.js:411 | n placeholders numbered consecutively from `first` |
| DatabaseService.BulkUpdateStatusQuery | backend-node/services/databaseService.js:410-418 | params are `[status, ...ids]` and the statement lists `$2..$(n+1)` |
| DatabaseService.BulkUpdatePlaceholdersMatch | backend-node/services/databaseService.js:411-416 | `$(i+2)` numbers the parameter holding the i-th id, and `$1` the status |
| DatabaseService.BulkUpdatePlaceholdersDistinct | backend-node/services/databaseService.js:411 | no two ids share a placeholder |
| DatabaseService.Selected | backend-node/services/databaseService.js:434-452 | the applied filters are at most the tested ones |
| DatabaseService.AppendFilter | backend-node/services/databaseService.js:434-438 | appending one clause, pushing its value and bumping the index keeps every placeholder equal to the parameter count at that moment |
| DatabaseService.ApplyFilters | backend-node/services/databaseService.js:434-448 | the query holds exactly the passing filters in order, with the next index one past the parameter count |
| DatabaseService.JobCandidateTests | backend-node/services/databaseService.js:434-448 | each of the three value filters applies exactly when its value is truthy |
| DatabaseService.FindByJobIdQuery | backend-node/services/databaseService.js:420-456 | as written: `$1` is the job id, each truthy tier/status/min-score filter adds one clause from `$2` and one parameter, then the flag clause and the ORDER BY text |
| DatabaseService.FilterPlaceholdersMatch | backend-node/services/databaseService.js:434-448 | in a built query the i-th applied clause carries placeholder `$(p+1+i)` and that placeholder numbers exactly the parameter holding its value |
| DatabaseService.FindByJobIdSortVerbatim | backend-node/services/databaseService.js:454-456 | any non-empty `sort_by` a caller sends lands verbatim in the ORDER BY clause |
| DatabaseService.SafeJobCandidatesTail | backend-node/services/databaseService.js:454-456 | the corrected ORDER BY always names a known column and ASC or DESC |
| DatabaseService.SafeFindByJobIdQuery | backend-node/services/databaseService.js:420-456 | the corrected query keeps the filters and parameters and uses the restricted ORDER BY |
| DatabaseService.TalentPoolSortField | backend-node/services/databaseService.js:598-604 | the four sort keys map to their columns and any other own-key or non-key value to `cp.tier_score` (inherited prototype keys left out) |
| DatabaseService.TalentPoolSortOrder | backend-node/services/databaseService.js:605 | ASC exactly for `'asc'`, DESC otherwise |
| DatabaseService.TalentPoolTests | backend-node/services/databaseService.js:566-595 | six filters, tested in source order |
| DatabaseService.TalentPoolQuery | backend-node/services/databaseService.js:525-606 | placeholders from `$1`, one clause and parameter per applied filter, then an ORDER BY drawn only from the allowed columns and directions |
| DatabaseService.TalentPoolScoreBoundsApplyAtZero | backend-node/services/databaseService.js:581-590 | a `minScore` of 0 still filters, since the test is `!== undefined` and not truthiness |
| DatabaseService.StatusAfterMessage | backend-node/services/databaseService.js:499 | `'rejected'` iff the category is `'rejection'`, else `'contacted'` |
| DatabaseService.ContactStatusParams | backend-node/services/databaseService.js:680-697 | marking contacted binds the channel (default `'manual'`) then the id; unmarking binds only the id |
| DatabaseService.ExperienceAdjustment | backend-node/services/databaseService.js:742-747 | +5 exactly when the candidate meets the required years; -10 exactly when below both the required years and half of them; 0 otherwise |
| DatabaseService.VehicleAdjustment | backend-node/services/databaseService.js:749-752 | -10 exactly when the job requires a vehicle and the candidate has `no_vehicle`; 0 otherwise |
| DatabaseService.AdjustedMatchScore | backend-node/services/databaseService.js:727-753 | the overall score plus both adjustments, kept as is when within 0..100 and capped to 100 or 0 outside it |
| DatabaseService.MatchFor | backend-node/services/databaseService.js:722-765 | a job's entry carries that job, a rounded score in 0..100 and the tier of the unadjusted score |
| DatabaseService.MatchesFor | backend-node/services/databaseService.js:722 | one entry per job, in job order |
| DatabaseService.EvaluateCandidateAcrossAllJobs | backend-node/services/databaseService.js:699-772 | 'Candidate not found' exactly when there is no candidate row; otherwise one match per active job |
| DatabaseService.EvaluationRanked | backend-node/services/databaseService.js:722-769 | the result is sorted by match score descending, is a permutation of the per-job matches, and lists every job once with a 0..100 score and the raw-score tier |
| DatabaseService.ReorderedMatches | backend-node/services/databaseService.js:769 | any reordering of the per-job matches still lists every job with a 0..100 score and the raw-score tier |
| JobRoutes.FlexibleOnTitle | backend-node/routes/jobRoutes.js:88 | `flexible_on_title` is false exactly when the body sends boolean `false`; missing or any other value means true |
| JobRoutes.CreatorId | backend-node/routes/jobRoutes.js:77 | the body's `userId` when truthy, otherwise user 1 |
| JobRoutes.CreatedJobFlexibleFlag | backend-node/routes/jobRoutes.js:74-91 | after the route's default and the service's encoding, the stored flag is 0 exactly when the body sent `false` |
| JobRoutes.JobDetailRoute | backend-node/routes/jobRoutes.js:39-67 | 500 exactly when the job lookup throws or, for a found job, the candidate query throws; 404 exactly when the lookup finds no job; otherwise the pipeline query built by `findByJobId` from the request's query string |
| JobRoutes.InlineAdjustmentAgrees | backend-node/routes/jobRoutes.js:192-199 | for scores in 0..100 the route's inline vehicle adjustment equals `adjustScoreForVehicle` |
| JobRoutes.InlineAdjustmentOutOfRange | backend-node/routes/jobRoutes.js:192-199 | outside 0..100 the two differ: the inline form does not clamp a `no_vehicle` score of 120 (110 against 100) |
| JobRoutes.DetermineGiveThemAChance | backend-node/routes/jobRoutes.js:236-266 | false whenever the score is below 50; otherwise true iff high upside with a certification or technical score ≥ 80, or over twice the required years with score ≥ 75, or a transferable keyword with presentation ≥ 70 |
| JobRoutes.GiveThemAChanceNeverRed | backend-node/routes/jobRoutes.js:237-238 | a flagged candidate is never in the red tier |
| JobRoutes.TransferableIgnoresCase | backend-node/routes/jobRoutes.js:257-259 | the keyword test does not depend on the summary's letter case |
| JobRoutes.FallbackSummary | backend-node/routes/jobRoutes.js:310 | the fallback summary starts with "Candidate scored " and ends with the hiring recommendation, underscores replaced by spaces, and a full stop |
| JobRoutes.FallbackRecommendationReadable | backend-node/routes/jobRoutes.js:310 | no underscore survives in the recommendation text |
| JobRoutes.AddCandidate | backend-node/routes/jobRoutes.js:156-231 | 404 iff the job or the analysis is missing; a missing candidate row fails; otherwise the entry has the raw-score tier, the service's star rating, `tier_score` rounded from the vehicle-adjusted score, the chance flag, the AI summary or its fallback, and the body's notes and tags defaulted |
| JobRoutes.TierIgnoresVehicle | backend-node/routes/jobRoutes.js:174-209 | a 78 with a vehicle is stored as tier yellow but `tier_score` 83, a green score |
| ResumeRoutes.TableLookup | backend-node/routes/resumeRoutes.js:11-32 | no title iff no entry has the slug; a found title is that of an entry with the slug |
| ResumeRoutes.LookupFrom | backend-node/routes/resumeRoutes.js:11-32 | the same, searching from a given entry onwards |
| ResumeRoutes.AdministrativeAssistantTitle | backend-node/routes/resumeRoutes.js:15 | `administrative-assistant` maps to "Administrative Assistant" |
| ResumeRoutes.AdminAssistantTitle | backend-node/routes/resumeRoutes.js:16 | the legacy `admin-assistant` maps to "Administrative Assistant" |
| ResumeRoutes.LegacyAdminAssistant | backend-node/routes/resumeRoutes.js:15-16 | `mapPositionValue` gives the legacy and the current slug the same title |
| ResumeRoutes.MapPositionValueListed | backend-node/routes/resumeRoutes.js:34 | every listed slug maps to its own title from the table |
| ResumeRoutes.MapPositionValueFallback | backend-node/routes/resumeRoutes.js:34 | an unlisted truthy value (not an inherited prototype key) is returned unchanged; a falsy one becomes "HVAC Service Technician" |
| ResumeRoutes.DefaultSlugUnmapped | backend-node/routes/resumeRoutes.js:78 | the route's default `hvac-technician` is not in the table and passes through as-is |
| ResumeRoutes.RequiredYearsOr2 | backend-node/routes/resumeRoutes.js:80 | an unparsable or zero years value becomes 2, any other parsed value is kept, so the result is never 0 |
| ResumeRoutes.UploadParameters | backend-node/routes/resumeRoutes.js:78-81 | the position is the mapped form value (default `hvac-technician`), the years as above, and title flexibility off only for the string `'false'` |
| ResumeRoutes.EmptyFormDefaults | backend-node/routes/resumeRoutes.js:78-81 | an empty form analyses for `hvac-technician` with 2 years, flexible on title |
| ResumeRoutes.SingleUpload | backend-node/routes/resumeRoutes.js:68-103 | no file iff the 400 reply; otherwise the filename with the analysis, or the analysis error |
| ResumeRoutes.ResultFor | backend-node/routes/resumeRoutes.js:133-177 | a file's result is a success iff its run completed, and carries the file's name; a file whose `error` status update threw gets no result |
| ResumeRoutes.StatusUpdateFor | backend-node/routes/resumeRoutes.js:149-164 | a file updates its candidate's status at most once, and not at all iff the candidate record was never created |
| ResumeRoutes.CreatedCount | backend-node/routes/resumeRoutes.js:141 | no more candidates are created than files |
| ResumeRoutes.StatusUpdatesPerCandidate | backend-node/routes/resumeRoutes.js:149-164 | one status update per created candidate: `completed` for a finished file and `error` for one that failed after creation |
| ResumeRoutes.SuccessCount | backend-node/routes/resumeRoutes.js:182 | the success count is at most the number of results |
| ResumeRoutes.UploadBatch | backend-node/routes/resumeRoutes.js:106-200 | 400 iff no files; a 500 with the error when the batch record cannot be created, or with the first failed file's error when its `error` status update throws, after the status updates issued so far; a success reply exactly when neither happens, naming the batch, with one result per file in order, `totalAnalyzed` counting the successes, successes plus errors equal to the files, every error naming a file that failed, one status update per created candidate, and the message "Analyzed k out of n resumes" |
| ResumeAnalyzer.PositionCriteriaTitle | backend-node/services/resumeAnalyzer.js:27-318 | a position listed in the criteria table gets its own criteria; every other value that is not an inherited prototype key falls back to "HVAC Technician" |
| ResumeAnalyzer.ServiceTechnicianCriteriaFallback | backend-node/services/resumeAnalyzer.js:317 | "HVAC Service Technician" has no entry of its own in the table and falls back to "HVAC Technician" |
| ResumeAnalyzer.SelectFramework | backend-node/services/resumeAnalyzer.js:2487-2495 | a position with no dedicated framework is analysed with the generic criteria that `getPositionCriteria` picks |
| ResumeAnalyzer.FrameworkSelection | backend-node/services/resumeAnalyzer.js:2487-2495 | both apprentice titles pick the apprentice framework, and each other dedicated title picks its own |
| ResumeAnalyzer.FrameworkSelectionIsExact | backend-node/services/resumeAnalyzer.js:2487-2495 | dispatch compares titles exactly: a lower-case title gets the generic prompt |
| ResumeAnalyzer.InstallerUsesGenericCriteria | backend-node/services/resumeAnalyzer.js:3631-3633 | "HVAC Installer" uses the generic prompt with its own criteria |
| ResumeAnalyzer.FlexibilityPenalty | backend-node/services/resumeAnalyzer.js:708 | the penalty is 0 when flexible on title and 9 otherwise |
| ResumeAnalyzer.FrameworkCriteria | backend-node/services/resumeAnalyzer.js:707-2470 | every dedicated framework (Warehouse Associate with the intended criteria) returns the standard tier bands; every framework with title flexibility states the 0/9 penalty in its framework text, only the dispatcher builder also returns it as `flexibilityPenalty`, and the service-technician framework has no penalty |
| ResumeAnalyzer.FrameworkCriteriaAsWritten | backend-node/services/resumeAnalyzer.js:2618-2620 | as written, every framework except Warehouse Associate gets its criteria |
| ResumeAnalyzer.WarehouseAssociateAlwaysFails | backend-node/services/resumeAnalyzer.js:2618-2620 | "Warehouse Associate" selects a branch that calls an undefined function, so that analysis always fails |
| ResumeAnalyzer.EveryFrameworkHasCriteria | backend-node/services/resumeAnalyzer.js:707-2470 | in the corrected model every dedicated framework has criteria; a framework with title flexibility asks for a penalty of 0 when flexible and 9 when not, and no builder except the dispatcher's returns the penalty field |
| ResumeAnalyzer.BandOf | backend-node/services/resumeAnalyzer.js:872-874 | a found band holds the score; no band means no band holds it |
| ResumeAnalyzer.StandardBandsPartition | backend-node/services/resumeAnalyzer.js:872-874 | every score 0..100 lies in exactly one band, and that band's tier is `calculateTier`'s |
| ResumeAnalyzer.StandardBandsMatchTierRanges | backend-node/services/resumeAnalyzer.js:872-874 | the criteria's 80–100 / 50–79 / 0–49 bands are exactly the scoring service's tier ranges |
| ResumeAnalyzer.UnifiedRubricLabels | backend-node/services/resumeAnalyzer.js:324-327 | the "not listed" label is "NO " plus the listed label, which is "Certs Listed" exactly when certifications count |
| ResumeAnalyzer.RubricIncludesCerts | backend-node/services/resumeAnalyzer.js:830-2458 | the unified rubric is used by every dedicated framework except service technician and warehouse associate, and by the generic prompt never |
| ResumeAnalyzer.RubricThresholds | backend-node/services/resumeAnalyzer.js:454 | for non-negative required years, the 50% and 95% thresholds are ordered below the required years |
| ResumeAnalyzer.LastIndexOf | backend-node/services/resumeAnalyzer.js:2476 | the last occurrence of a character, or none when absent |
| ResumeAnalyzer.BaseName | backend-node/services/resumeAnalyzer.js:2476 | the base name has no `/` and ends the path |
| ResumeAnalyzer.ExtName | backend-node/services/resumeAnalyzer.js:2476 | an extension is empty or one dot followed by dot-free text |
| ResumeAnalyzer.ExtNameOfFile | backend-node/services/resumeAnalyzer.js:2476 | `dir/stem.ext` has extension `.ext` |
| ResumeAnalyzer.NoDotNotPdf | backend-node/services/resumeAnalyzer.js:2476-2484 | a file name without a dot has no extension and is rejected |
| ResumeAnalyzer.PdfPathByExtension | backend-node/services/resumeAnalyzer.js:2476-2478 | `dir/stem.ext` is accepted exactly when `ext` lower-cases to `pdf` |
| ResumeAnalyzer.FirstIndexOf | backend-node/services/resumeAnalyzer.js:3702 | the first occurrence of a character from a position, or none |
| ResumeAnalyzer.ExtractJsonSpan | backend-node/services/resumeAnalyzer.js:3702-3705 | a match starts with `{` and ends with `}`; there is none iff no `{` precedes a `}` |
| ResumeAnalyzer.JsonSpanIsMaximal | backend-node/services/resumeAnalyzer.js:3702 | the span runs from the first `{` to the last `}` (the greedy match) |
| ResumeAnalyzer.ScoreOutOf10 | backend-node/services/resumeAnalyzer.js:3710 | NaN iff `overallScore` is not a number; otherwise the score divided by 10, rounded |
| ResumeAnalyzer.ScoreOutOf10Bounds | backend-node/services/resumeAnalyzer.js:3710 | for scores in 0..100 the result is in 0..10 and monotone |
| ResumeAnalyzer.WithScoreOutOf10 | backend-node/services/resumeAnalyzer.js:3707-3710 | the parsed analysis gains `scoreOutOf10` and keeps every other field |
| ResumeAnalyzer.AnalysisRequest | backend-node/services/resumeAnalyzer.js:2486-2620 | as written: the request fails with the ReferenceError exactly when the position selects Warehouse Associate; otherwise it carries the selected framework, its criteria exactly for a dedicated framework, the years and the flag |
| ResumeAnalyzer.CorrectedAnalysisRequest | backend-node/services/resumeAnalyzer.js:2618-2620 | with the missing builder supplied every position gets a request, and for every position but Warehouse Associate it is the request the source builds |
| ResumeAnalyzer.AnalyzeResume | backend-node/services/resumeAnalyzer.js:2472-3734 | non-PDF paths fail with "Only PDF files are currently supported" before any request; a Warehouse Associate analysis fails with the ReferenceError before any request; every other PDF analysis makes the as-written request; a reply without a JSON span fails with "Failed to parse AI response"; success returns the parsed analysis with `scoreOutOf10` |
| ResumeAnalyzer.DefaultSlugUsesGenericCriteria | backend-node/services/resumeAnalyzer.js:317 | the route's default slug `hvac-technician` is analysed with the generic "HVAC Technician" criteria |
| ResumeAnalyzer.DefaultPositionCriteria | backend-node/services/resumeAnalyzer.js:2472 | the function's default position "HVAC Technician" uses the generic prompt with its own criteria |
| PipelineRoutes.OptionalInt | backend-node/routes/candidatePipelineRoutes.js:30-31 | a falsy bound becomes `undefined`; a truthy one its `parseInt` value, which is never `undefined` |
| PipelineRoutes.TalentPoolFilterEntries | backend-node/routes/candidatePipelineRoutes.js:27-35 | the filter object has the seven listed keys |
| PipelineRoutes.TalentPoolFilters | backend-node/routes/candidatePipelineRoutes.js:27-35 | the filters form an object |
| PipelineRoutes.TalentPoolScoreBounds | backend-node/routes/candidatePipelineRoutes.js:30-31 | a score bound is left out exactly when the query's value is falsy, and is the parsed integer otherwise |
| PipelineRoutes.TalentPoolDefaultSort | backend-node/routes/candidatePipelineRoutes.js:33-34 | without sort parameters the pool is ordered by `cp.tier_score DESC` |
| PipelineRoutes.TalentPoolIgnoresJob | backend-node/routes/candidatePipelineRoutes.js:17-35 | the route never passes `job_id`, so the service's job filter never applies |
| PipelineRoutes.TalentPoolRoute | backend-node/routes/candidatePipelineRoutes.js:15-51 | the query is `getTalentPool`'s, built from the route's filters |
| PipelineRoutes.BulkUpdateRoute | backend-node/routes/candidatePipelineRoutes.js:102-129 | 400 with "candidatePipelineIds must be a non-empty array" exactly when the ids are not a non-empty array; otherwise params `[status, ...ids]` |
| PipelineRoutes.MessageKindOf | backend-node/routes/candidatePipelineRoutes.js:143-154 | exactly `'rejection_email'`, `'sms'` and `'email'` are recognised |
| PipelineRoutes.FallbackSmsMentions | backend-node/routes/candidatePipelineRoutes.js:315 | the fallback SMS names the job title right after its opening and ends with the scheduling link or `[link]` |
| PipelineRoutes.FallbackEmail | backend-node/routes/candidatePipelineRoutes.js:354-365 | the fallback email starts "Subject: Opportunity: " and the job title |
| PipelineRoutes.FallbackRejection | backend-node/routes/candidatePipelineRoutes.js:401-412 | the fallback rejection starts "Subject: Update on Your Application for " and the job title |
| PipelineRoutes.GenerateMessage | backend-node/routes/candidatePipelineRoutes.js:284-414 | the trimmed AI text when the model answers, otherwise the kind's fallback text |
| PipelineRoutes.RouteStatus | backend-node/routes/candidatePipelineRoutes.js:164-168 | `'rejected'` exactly for a rejection email, `'contacted'` otherwise |
| PipelineRoutes.MessageWrites | backend-node/routes/candidatePipelineRoutes.js:157-168 | a message makes three writes: the log entry, the service's status update, and the route's |
| PipelineRoutes.WritesDone | backend-node/routes/candidatePipelineRoutes.js:177-183 | a fault stops the writes part-way: the writes done are a prefix, all of them without a fault |
| PipelineRoutes.MessageFinalStatus | backend-node/routes/candidatePipelineRoutes.js:157-168 | the last status written is `'rejected'` for a rejection email and `'contacted'` otherwise, agreeing with the service's own choice |
| PipelineRoutes.SendMessage | backend-node/routes/candidatePipelineRoutes.js:135-184 | an unknown type is a 400 with no writes; a fault is "Failed to send message" after the writes done so far; success returns the generated message and all three writes |
| PipelineRoutes.BulkContent | backend-node/routes/candidatePipelineRoutes.js:205-213 | the content is `undefined` exactly for an unknown message type |
| PipelineRoutes.BulkStep | backend-node/routes/candidatePipelineRoutes.js:204-238 | an id succeeds exactly when its writes do not fault, and its result names that id |
| PipelineRoutes.BulkResults | backend-node/routes/candidatePipelineRoutes.js:203-239 | one result per id, in id order |
| PipelineRoutes.CountDelivered | backend-node/routes/candidatePipelineRoutes.js:245 | the success count is at most the number of results |
| PipelineRoutes.CountNotDelivered | backend-node/routes/candidatePipelineRoutes.js:246 | the failure count is at most the number of results |
| PipelineRoutes.CountsPartition | backend-node/routes/candidatePipelineRoutes.js:244-246 | successes plus failures equal the results |
| PipelineRoutes.BulkMessage | backend-node/routes/candidatePipelineRoutes.js:190-257 | 400 with no writes exactly when the ids are not a non-empty array; otherwise one result per id, `totalProcessed` the id count, and `successful + failed == totalProcessed` |
| PipelineRoutes.BulkUnknownTypeStillContacts | backend-node/routes/candidatePipelineRoutes.js:205-225 | in bulk, an unknown message type is still logged, with `undefined` content, and the candidate is marked contacted |
| ApplyRoutes.FilterUpload | backend-node/routes/applyRoutes.js:32-43 | an upload is accepted, unchanged, exactly when its MIME type is PDF, Word or Word XML |
| ApplyRoutes.ApplicationSummaryShape | backend-node/routes/applyRoutes.js:99-101 | the stored summary starts with the contact line, then " \| Applied for: " and the title when a title was sent (a blank line otherwise), and ends with a blank line and the analysis summary or nothing |
| ApplyRoutes.SubScore | backend-node/routes/applyRoutes.js:108-126 | a sub-score is `scores[name]` when that is truthy, and 0 otherwise (also when `scores` is missing) |
| ApplyRoutes.AnalysisData | backend-node/routes/applyRoutes.js:103-135 | the verdict is always set (default `MAYBE`); a missing overall score becomes 0 with `scoreOutOf10` 0; `scoreOutOf10` is always the rounded tenth; the lists are always present; the summary is the composed one. Each section score is its `scores` entry or 0; the found skills, found certifications, strengths, weaknesses and recommendations are the result's own lists or `[]`; the years are the result's value or 0. The other section fields are always empty and are not carried |
| ApplyRoutes.SubmissionWrites | backend-node/routes/applyRoutes.js:94-141 | an application writes the candidate first and the completed status last, with the analysis in between only when there is one |
| ApplyRoutes.Apply | backend-node/routes/applyRoutes.js:50-158 | 400 without a file, 400 without name, email or phone (both before any write or AI request); the analysis is always the generic HVAC Technician one with 2 years, flexible; a failed analysis still submits, reporting `analyzed` false; a failed candidate insert is a 500 |
| ApplyRoutes.ApplicationSettings | backend-node/routes/applyRoutes.js:79-80 | applications are analysed with the generic "HVAC Technician" criteria and 2 required years |
| ApplyRoutes.WordDocumentAccepted | backend-node/routes/applyRoutes.js:33-39 | a Word document passes the upload filter |
| ApplyRoutes.WordDocumentNotAnalyzed | backend-node/routes/applyRoutes.js:84-91 | but a `.doc` path is never analysed, since the analyzer accepts only PDF; such applications are saved unanalysed |
| JobFeed.Entity | backend-node/routes/jobFeedRoutes.js:14-19 | every character escapes to a non-empty text |
| JobFeed.EscapeTextAppend | backend-node/routes/jobFeedRoutes.js:14-19 | escaping distributes over concatenation |
| JobFeed.EscapeTextChar | backend-node/routes/jobFeedRoutes.js:14-19 | the five chained replacements escape each character to its own entity, with `&` escaped first so no entity is escaped twice |
| JobFeed.EscapeTextIsEscapeEach | backend-node/routes/jobFeedRoutes.js:14-19 | the chained replacements equal escaping each character on its own |
| JobFeed.EscapedHasNoMarkup | backend-node/routes/jobFeedRoutes.js:14-19 | escaped text contains no `<`, `>`, `"` or `'` |
| JobFeed.DecodeHead | backend-node/routes/jobFeedRoutes.js:14-19 | decoding consumes at least one character, and more only at an `&` |
| JobFeed.EscapeRoundTrip | backend-node/routes/jobFeedRoutes.js:14-19 | unescaping the escaped text gives back the original |
| JobFeed.EscapeEachRoundTrip | backend-node/routes/jobFeedRoutes.js:14-19 | the same for character-by-character escaping |
| JobFeed.EscapedAmpersandsAreEntities | backend-node/routes/jobFeedRoutes.js:15 | every `&` in escaped text starts one of the five entities |
| JobFeed.EscapeXmlNoMarkup | backend-node/routes/jobFeedRoutes.js:12-20 | `escapeXml` of any value, falsy ones included, contains no markup character |
| JobFeed.SalaryTextShapes | backend-node/routes/jobFeedRoutes.js:34-46 | empty iff neither bound is set; otherwise ends `/year` for salaried jobs and `/hour` otherwise, starting `$min` when there is a minimum and `Up to $max` when only a maximum |
| JobFeed.SalaryPrefersPayRange | backend-node/routes/jobFeedRoutes.js:35-36 | the pay-range columns win over the salary columns when truthy |
| JobFeed.MapJobTypeIgnoresCase | backend-node/routes/jobFeedRoutes.js:63 | the job-type mapping ignores letter case |
| JobFeed.MapJobTypeDefault | backend-node/routes/jobFeedRoutes.js:63 | a missing or empty job type maps to `full-time` |
| JobFeed.JobFieldTags | backend-node/routes/jobFeedRoutes.js:88-99 | each job element has the ten tags in source order |
| JobFeed.EscapedFieldsHaveNoMarkup | backend-node/routes/jobFeedRoutes.js:88-99 | every escaped field holds no markup character |
| JobFeed.JobFieldsEscaped | backend-node/routes/jobFeedRoutes.js:88-99 | with `escapeXml`, the title, URL, company, city, postal code, salary and job type hold no markup character |
| JobFeed.JobElementsConcat | backend-node/routes/jobFeedRoutes.js:83-101 | the job elements of two lists are those of each, concatenated |
| JobFeed.BuildFeed | backend-node/routes/jobFeedRoutes.js:70-116 | a failed job query gives the 500 error document; otherwise the header, one element per job in order, and the closing tag |
| JobFeed.PublicJobRoute | backend-node/routes/jobFeedRoutes.js:122-164 | 400 iff the id does not parse; 500 (the catch) iff it parses and the lookup throws; 404 iff the lookup returns no active job; otherwise the public view of that job |
| JobFeed.PublicViewMatchesFeed | backend-node/routes/jobFeedRoutes.js:136-158 | the public view's description and pay range fall back exactly as the feed's do |
| Logger.LevelRank | backend-node/services/logger.js:1 | the four levels rank 0..3 |
| Logger.Configure | backend-node/services/logger.js:3-5 | production iff `NODE_ENV` is `production`; the minimum level is the configured level's rank, or `info` when that level is not one of the four (inherited prototype keys left out) |
| Logger.DefaultLevels | backend-node/services/logger.js:4-5 | without `LOG_LEVEL`, production logs from `info` and every other environment from `debug`; an unknown level falls back to `info` |
| Logger.ProductionDefault | backend-node/services/logger.js:4 | production without `LOG_LEVEL` logs from `info` |
| Logger.OtherDefault | backend-node/services/logger.js:4 | any other environment without `LOG_LEVEL` logs from `debug` |
| Logger.UnknownLevel | backend-node/services/logger.js:5 | an unknown `LOG_LEVEL` logs from `info` |
| Logger.EmittedUpward | backend-node/services/logger.js:40 | if a level is emitted, so is every higher level |
| Logger.ErrorsAlwaysEmitted | backend-node/services/logger.js:40 | errors are emitted under every configuration |
| Logger.StreamOf | backend-node/services/logger.js:44-54 | errors go to the error stream, warnings to the warning stream, everything else to the log |
| Js.Assign | backend-node/services/logger.js:16 | assigning a key changes that key and no other |
| Logger.DevelopmentFormat | backend-node/services/logger.js:32-36 | in development, empty metadata gives `[LEVEL] message`, and non-empty metadata appends a space and the metadata JSON to that prefix |
| Logger.ProductionEntry | backend-node/services/logger.js:24-29 | in the production entry a metadata key overrides the base field of that name, and every other field is kept |
| Logger.SpreadEntriesLookup | backend-node/services/logger.js:28 | after spreading distinct keys, a key reads as its spread entry when it has one, and as before otherwise |
| Logger.SpreadIndexed | backend-node/services/logger.js:28 | spreading a string or array puts its i-th character or element under the key `"i"` |
| Logger.SpreadScalar | backend-node/services/logger.js:28 | a number, boolean, `null` or `undefined` spreads nothing |
| Logger.Log | backend-node/services/logger.js:39-55 | a line is written exactly when the level is emitted, on that level's stream, and it is the formatted message with missing metadata taken as `{}` |
| Logger.DevelopmentInfoLine | backend-node/services/logger.js:36-52 | at `debug` in development, `info` with no metadata writes `[INFO] message` to the log |
| Logger.IndexEntries | backend-node/services/logger.js:13 | spreading an array gives its elements under the keys "0", "1", … |
| Logger.Redact | backend-node/services/logger.js:11-20 | non-objects come back unchanged; otherwise a copy with the same keys in order, each listed key's value replaced by `[REDACTED]` and every other value kept |
| DumpSql.UndoubleRoundTrip | backend-node/dump-sql.js:33 | doubling single quotes can be undone exactly |
| DumpSql.QuoteRoundTrip | backend-node/dump-sql.js:33 | a quoted string literal reads back as the original text |
| DumpSql.RenderedValueShapes | backend-node/dump-sql.js:29-34 | `NULL` exactly for null; numbers as their text; every other value as a quoted literal that reads back as its string form |
| DumpSql.InsertLineEnds | backend-node/dump-sql.js:35 | every INSERT ends with `ON CONFLICT DO NOTHING;` and a newline |
| DumpSql.TableSection | backend-node/dump-sql.js:23-37 | a table contributes text exactly when it has rows |
| DumpSql.DumpTable | backend-node/dump-sql.js:20-40 | one table's turn appends its section and reports its failure, if any |
| DumpSql.Dump | backend-node/dump-sql.js:8-41 | the dump is the seven tables' sections in dependency order, and the errors are those of the failing tables |
| DumpSql.DumpTables | backend-node/dump-sql.js:20-41 | the loop over any table list yields its sections and failures in order |
| DumpSql.FailedTableSkipped | backend-node/dump-sql.js:38-40 | a table whose read fails contributes nothing and the other tables are still dumped |
| DumpSql.TableSectionRows | backend-node/dump-sql.js:24-36 | a section is the table comment followed by one INSERT per row, in row order |
| UpdateRubrics.Classify | backend-node/services/update_rubrics.py:40-57 | a line is a header if it contains `function <name>`, a matrix start if it strips to the matrix heading, an end if it strips to the end marker |
| UpdateRubrics.NoHeaderUnchanged | backend-node/services/update_rubrics.py:36-67 | outside the function every line is copied |
| UpdateRubrics.BeforeMatrixKept | backend-node/services/update_rubrics.py:39-67 | inside the function and before the matrix every line is copied |
| UpdateRubrics.MatrixDropped | backend-node/services/update_rubrics.py:55-63 | lines inside the matrix are dropped |
| UpdateRubrics.ThroughMatrixMarker | backend-node/services/update_rubrics.py:45-53 | the matrix heading is replaced by the rubric call and a blank line |
| UpdateRubrics.ReplacedWith | backend-node/services/update_rubrics.py:36-67 | header, lines, matrix, end marker, rest become header, lines, rubric call, blank line, end marker, and the rest scanned afresh |
| UpdateRubrics.MatrixReplaced | backend-node/services/update_rubrics.py:22-72 | for one function, the matrix between its heading and the end marker is replaced by `generateUnifiedScoringRubric(requiredYears, includeCerts)` and everything else is kept |
| UpdateRubrics.MissingEndMarker | backend-node/services/update_rubrics.py:55-63 | without an end marker, everything after the matrix heading is dropped |
| UpdateRubrics.HeaderInIff | backend-node/services/update_rubrics.py:40-42 | the function counts as found iff some line is its header |
| UpdateRubrics.UpdateLines | backend-node/services/update_rubrics.py:29-72 | the loop produces the state machine's output and reports the function found exactly when some line is its header |
| UpdateRubrics.UnchangedWithoutHeader | backend-node/services/update_rubrics.py:22-72 | content without the function's header comes back unchanged |
| UpdateRubrics.ApplyUpdates | backend-node/services/update_rubrics.py:84-85 | the updates are applied in order, each to the previous result |
| UpdateRubrics.UpdateAllWithoutHeaders | backend-node/services/update_rubrics.py:84-85 | content naming none of the functions comes back unchanged |
| UpdateCf.FindOrigin | update_cf.js:34 | `findIndex`: the first origin with the id, or -1 when none has it |
| UpdateCf.WithoutApi | update_cf.js:71 | the filter keeps only behaviours of the input that are not `/api/*` |
| UpdateCf.CountOrigin | update_cf.js:34-40 | the number of origins with an id is at most the number of origins |
| UpdateCf.DistConfig.constructor | update_cf.js:7-8 | the configuration holds the fetched origins, their count and the cache behaviours |
| UpdateCf.DistConfig.UpsertBackendOrigin | update_cf.js:33-40 | the first backend origin is replaced in place, or the origin appended and the count bumped; a count that matched the list still matches; behaviours are untouched |
| UpdateCf.DistConfig.ReplaceApiBehavior | update_cf.js:66-73 | the behaviours exist afterwards, are the `/api/*` behaviour followed by the old ones without `/api/*`, and their count is the list length; origins are untouched |
| UpdateCf.DistConfig.Update | update_cf.js:33-73 | both steps in order: the origins upserted and the behaviours rewritten |
| UpdateCf.CountOriginZero | update_cf.js:34 | no origin has the id iff the count is 0 |
| UpdateCf.UpsertKeepsOneBackend | update_cf.js:33-40 | after the upsert there is exactly one backend origin when there was at most one before |
| UpdateCf.UpsertKeepsOthers | update_cf.js:35-40 | every other origin keeps its position and value |
| UpdateCf.WithoutApiCount | update_cf.js:71 | no `/api/*` behaviour survives the filter |
| UpdateCf.WithoutApiKeeps | update_cf.js:71 | every other behaviour survives it |
| UpdateCf.RewriteHasOneApiBehavior | update_cf.js:71-72 | the rewritten list starts with the `/api/*` behaviour, holds exactly one, and continues with the filtered old list |
| UpdateCf.RewriteIdempotent | update_cf.js:66-73 | running the rewrite twice gives the same list as once |
| UpdateCf.WithoutApiIdempotent | update_cf.js:71 | filtering twice is filtering once |
| Auth.TokenIn | frontend/src/utils/auth.ts:3 | the token is present exactly when the key is stored, and is the stored value |
| Auth.HeadersIffLoggedIn | frontend/src/utils/auth.ts:9-15 | the headers are empty exactly when not logged in; otherwise the single `Authorization: Bearer <token>` header |
| Auth.OtherKeysIrrelevant | frontend/src/utils/auth.ts:1-15 | storing any other key changes neither the token nor the headers |
| Auth.TokenStore.constructor | frontend/src/utils/auth.ts:1-3 | the store starts on the given storage |
| Auth.TokenStore.GetToken | frontend/src/utils/auth.ts:3 | a token is returned exactly when the key is stored |
| Auth.TokenStore.IsLoggedIn | frontend/src/utils/auth.ts:9 | logged in iff a non-empty token is stored |
| Auth.TokenStore.GetAuthHeaders | frontend/src/utils/auth.ts:12-15 | no headers exactly when not logged in |
| Auth.TokenStore.SetToken | frontend/src/utils/auth.ts:5 | only the token key changes; the token reads back, and the user is logged in iff it is non-empty |
| Auth.TokenStore.ClearToken | frontend/src/utils/auth.ts:7 | only the token key is removed; afterwards there is no token, no login and no headers |
| Auth.SetThenGet | frontend/src/utils/auth.ts:3-15 | a stored token reads back, and a non-empty one yields exactly its bearer header |
| Auth.ClearThenSet | frontend/src/utils/auth.ts:3-7 | after clearing there is no token and no header; clearing and then storing equals storing |
| TemplateHelpers.FindFrom | frontend/src/utils/templateHelpers.ts:13-19 | the first matching template from a position on, or none when no later template matches |
| TemplateHelpers.GetTemplate | frontend/src/utils/templateHelpers.ts:6-20 | a found template is in the table and matches category, tone, nudge flag, type (ignored for rejections) and channel (ignored when omitted); none means no template matches |
| TemplateHelpers.FoundAt | frontend/src/utils/templateHelpers.ts:13 | `find` returns the first matching entry |
| TemplateHelpers.EntriesAtTheirIndex | frontend/src/constants/messageTemplates.ts:12-540 | the table has 42 entries, each with a valid key stored at that key's own index, so keys are unique |
| TemplateHelpers.GetContactTemplate | frontend/src/utils/templateHelpers.ts:6-20 | every channel, interview type, tone and nudge flag finds its contact template |
| TemplateHelpers.GetRejectionTemplate | frontend/src/utils/templateHelpers.ts:17 | every channel and tone finds its rejection template, whatever interview type is passed |
| TemplateHelpers.NoRejectionNudge | frontend/src/utils/templateHelpers.ts:16 | there is no rejection nudge |
| TemplateHelpers.ContactNeedsType | frontend/src/utils/templateHelpers.ts:17 | a contact lookup without an interview type finds nothing |
| TemplateHelpers.OmittedChannelIsEmail | frontend/src/utils/templateHelpers.ts:18 | omitting the channel finds the same template as asking for email, since email entries come first |
| TemplateHelpers.ReplacePlaceholdersFills | frontend/src/utils/templateHelpers.ts:31-36 | the three global replacements fill the name, position and link placeholders exactly, given a name without `"` or `[` and a position without `[` |
| TemplateHelpers.NamePass | frontend/src/utils/templateHelpers.ts:33 | the `__` pass replaces exactly the name placeholders |
| TemplateHelpers.PositionPass | frontend/src/utils/templateHelpers.ts:34 | the `"Position"` pass replaces exactly the position placeholders, given a name without `"` |
| TemplateHelpers.LinkPass | frontend/src/utils/templateHelpers.ts:35 | the `[link]` pass replaces exactly the link placeholders, given name and position without `[` |
| TemplateHelpers.FillNamesPosition | frontend/src/utils/templateHelpers.ts:34 | a text naming the position is at least as long as the position |
| TemplateHelpers.RenderedBody | frontend/src/utils/templateHelpers.ts:25-42 | the rendered body is the template with name, position and link (default `[link]`) filled in |
| TemplateHelpers.RenderedSubject | frontend/src/utils/templateHelpers.ts:39 | a template subject is rendered the same way |
| TemplateHelpers.RenderedSubjectOnEmail | frontend/src/utils/templateHelpers.ts:39 | a rendered message has a subject exactly when its template is an email |
| TemplateHelpers.StripExtension | frontend/src/utils/templateHelpers.ts:53 | removing the extension leaves a prefix of the file name |
| TemplateHelpers.RemoveWords | frontend/src/utils/templateHelpers.ts:57 | removing "resume", "cv" and "application" never lengthens the text |
| TemplateHelpers.Cleaned | frontend/src/utils/templateHelpers.ts:53-59 | cleaning never lengthens the file name |
| TemplateHelpers.WithSpaces | frontend/src/utils/templateHelpers.ts:62 | underscores and dashes become spaces, length kept |
| TemplateHelpers.CapitalizeAll | frontend/src/utils/templateHelpers.ts:68 | each word is capitalized in place |
| TemplateHelpers.CapitalizeWord | frontend/src/utils/templateHelpers.ts:68 | a capitalized word starts with a non-lower-case character and has no other capitals |
| TemplateHelpers.JoinCapitalized | frontend/src/utils/templateHelpers.ts:69 | joining capitalized words with spaces keeps every word capitalized |
| TemplateHelpers.TrimCapitalized | frontend/src/utils/templateHelpers.ts:72 | trimming keeps capitalized text capitalized |
| TemplateHelpers.CapitalizeWordsCapitalized | frontend/src/utils/templateHelpers.ts:65-69 | the capitalize step yields text where every word starts non-lower-case and no capital is inside a word |
| TemplateHelpers.FallbackCapitalized | frontend/src/utils/templateHelpers.ts:72 | the fallback "Candidate" is capitalized |
| TemplateHelpers.ExtractedNameCapitalized | frontend/src/utils/templateHelpers.ts:51-73 | the extracted name is never empty and is capitalized word by word |
| TemplateHelpers.PdfStem | frontend/src/utils/templateHelpers.ts:53 | a name ending in ".pdf" (lower case) loses exactly those four characters |
| TemplateHelpers.RemoveWordsPlain | frontend/src/utils/templateHelpers.ts:57 | a prefix in which no "resume", "cv" or "application" can start, in any case, passes through the removal unchanged |
| TemplateHelpers.RemoveWordsAfter | frontend/src/utils/templateHelpers.ts:57 | "resume" in any case at the front is removed, and removal goes on after it |
| TemplateHelpers.RemoveWordsBefore | frontend/src/utils/templateHelpers.ts:57 | a plain text followed by "resume" in any case keeps only the text |
| TemplateHelpers.CleanedAround | frontend/src/utils/templateHelpers.ts:55-59 | after the words are removed, leading and trailing `_` around a name that neither starts nor ends with `_` or `-` are trimmed |
| TemplateHelpers.CapitalizeTwoWords | frontend/src/utils/templateHelpers.ts:65-69 | two non-empty words without spaces, joined by one space, come out each capitalized, joined by one space |
| TemplateHelpers.TwoWordsSpaced | frontend/src/utils/templateHelpers.ts:62-72 | two words of letters joined by `_` or `-` become the two words capitalized with one space, nothing trimmed |
| TemplateHelpers.ExtractTwoWords | frontend/src/utils/templateHelpers.ts:51-73 | a file name that cleans to two words of letters joined by `_` or `-` yields the two words capitalized, with one space |
| TemplateHelpers.NameThenResume | frontend/src/utils/templateHelpers.ts:46-47 | the shape of "John_Doe_Resume.pdf": `<a>_<b>_<Resume in any case>.pdf` yields `Capitalize(a) Capitalize(b)` for every pair of letter words in which no removed word can start |
| TemplateHelpers.DashedName | frontend/src/utils/templateHelpers.ts:46-48 | the shape of "jane-smith.pdf": `<a>-<b>.pdf` yields `Capitalize(a) Capitalize(b)` under the same conditions |
| TemplateHelpers.ResumeThenName | frontend/src/utils/templateHelpers.ts:46-49 | the shape of "Resume_Bob_Johnson.pdf": `<Resume in any case>_<a>_<b>.pdf` yields `Capitalize(a) Capitalize(b)` under the same conditions |
| Common.TrimAround | frontend/src/utils/templateHelpers.ts:58-59 | trimming a class of characters removes exactly the runs of it around a middle that starts and ends outside the class |
| TemplateHelpers.InterviewTypeOptionsCover | frontend/src/utils/templateHelpers.ts:78-84 | three options, each labelled, listing every interview type once in order |
| TemplateHelpers.ToneOptionsCover | frontend/src/utils/templateHelpers.ts:89-95 | three options, each labelled, listing every tone once in order |
| MessageTemplates.KeyAt | frontend/src/constants/messageTemplates.ts:12-540 | every position of the 42-entry table belongs to exactly one valid key (category, channel, interview type, tone, nudge flag) |
| MessageTemplates.KeyAtIndexOfKey | frontend/src/constants/messageTemplates.ts:12-540 | a valid key's position in the table leads back to the same key, so positions and keys are in one-to-one correspondence |
| MessageTemplates.EmailFirstContactEntries | frontend/src/constants/messageTemplates.ts:13-153 | the nine e-mail first-contact templates sit at positions 0-8 with the key each position stands for |
| MessageTemplates.EmailNudgeEntries | frontend/src/constants/messageTemplates.ts:154-281 | the nine e-mail nudges sit at positions 9-17 |
| MessageTemplates.EmailRejectionEntries | frontend/src/constants/messageTemplates.ts:282-319 | the three e-mail rejections sit at positions 18-20 |
| MessageTemplates.SmsFirstContactEntries | frontend/src/constants/messageTemplates.ts:320-415 | the nine SMS first-contact templates sit at positions 21-29 |
| MessageTemplates.SmsNudgeEntries | frontend/src/constants/messageTemplates.ts:416-511 | the nine SMS nudges sit at positions 30-38 |
| MessageTemplates.SmsRejectionEntries | frontend/src/constants/messageTemplates.ts:512-539 | the three SMS rejections sit at positions 39-41 |
| MessageTemplates.TemplateEntries | frontend/src/constants/messageTemplates.ts:12-540 | the whole table has 42 entries, each at its key's own position |
| MessageTemplates.KeysDistinct | frontend/src/constants/messageTemplates.ts:12-540 | no two templates share a key |
| MessageTemplates.ContactTemplateUnique | frontend/src/constants/messageTemplates.ts:13-281 | every channel, interview type, tone and nudge flag has exactly one contact template |
| MessageTemplates.RejectionTemplateUnique | frontend/src/constants/messageTemplates.ts:282-319 | every channel and tone has exactly one rejection template |
| MessageTemplates.RejectionsHaveNoTypeOrNudge | frontend/src/constants/messageTemplates.ts:282-319 | rejection templates carry no interview type and are never nudges |
| MessageTemplates.CountCategoryAppend | frontend/src/constants/messageTemplates.ts:12-540 | counting a category over two joined lists adds the two counts |
| MessageTemplates.CountCategoryUniform | frontend/src/constants/messageTemplates.ts:12-540 | a list of one category counts all its entries for that category and none for the other |
| MessageTemplates.CountByBlocks | frontend/src/constants/messageTemplates.ts:12-540 | the table's category count is the sum over its six blocks |
| MessageTemplates.CategoryCounts | frontend/src/constants/messageTemplates.ts:12-540 | the table holds 36 contact and 6 rejection templates |
| MessageTemplates.SubjectExactlyOnEmail | frontend/src/constants/messageTemplates.ts:12-540 | a template has a subject exactly when it is an e-mail template, and every subject mentions the position |
| MessageTemplates.BodyPlaceholders | frontend/src/constants/messageTemplates.ts:12-540 | every body mentions the candidate name and the position; it holds the scheduling-link placeholder exactly when it is a contact template |
| MessageTemplates.ContactIdInjective | frontend/src/constants/messageTemplates.ts:17 | two contact keys with the same id string are the same key |
| MessageTemplates.RejectionIdInjective | frontend/src/constants/messageTemplates.ts:285 | two rejection keys with the same id string are the same key |
| MessageTemplates.IdOfInjective | frontend/src/constants/messageTemplates.ts:12-540 | distinct valid keys have distinct id strings |
| MessageTemplates.IdsDistinct | frontend/src/constants/messageTemplates.ts:12-540 | no two templates in the table share an id |
| PublicApply.ValidateFieldPasses | frontend/src/components/PublicApply.tsx:366-383 | a name passes exactly when it is not blank; an e-mail or phone passes exactly when it is not blank and its trimmed text matches the pattern; any other field passes; a blank name, e-mail or phone always fails |
| PublicApply.EmailShape | frontend/src/components/PublicApply.tsx:372-373 | an accepted e-mail has no white space and exactly one at-sign |
| PublicApply.EmailAccepted | frontend/src/components/PublicApply.tsx:372-373 | any non-empty local part, host and top-level part free of white space and at-signs make an accepted address |
| PublicApply.EmailNeedsDot | frontend/src/components/PublicApply.tsx:372-373 | an address whose part after the at-sign has no dot is rejected |
| PublicApply.PhoneShape | frontend/src/components/PublicApply.tsx:377-378 | an accepted phone number has at least seven characters and no letters |
| PublicApply.OutcomeErrors | frontend/src/components/PublicApply.tsx:445-468 | the request leaves no error exactly when the server replied with status success |
| PublicApply.SubmitErrors | frontend/src/components/PublicApply.tsx:418-425 | the submit check fills the name, e-mail and phone errors, all empty exactly when the three fields are valid |
| PublicApply.BlockedSubmitExplains | frontend/src/components/PublicApply.tsx:418-426 | a submission blocked by the field check always shows at least one field error |
| PublicApply.ApplyForm.constructor | frontend/src/components/PublicApply.tsx:350-364 | the form opens with the job id and title from the address (title defaulting to Open Position), empty fields, no resume and no errors |
| PublicApply.ApplyForm.HandleBlur | frontend/src/components/PublicApply.tsx:385-389 | leaving a field stores that field's check result and changes nothing else |
| PublicApply.ApplyForm.HandleChange | frontend/src/components/PublicApply.tsx:391-398 | typing stores the value and clears that field's error only when one was shown; other errors stay |
| PublicApply.ApplyForm.HandleFileChange | frontend/src/components/PublicApply.tsx:400-411 | a PDF or Word file becomes the resume and clears the error; another type keeps the old resume and shows the file-type error; no file changes nothing |
| PublicApply.ApplyForm.Payload | frontend/src/components/PublicApply.tsx:437-443 | the submitted data are the trimmed name, e-mail and phone, the resume and the job title; the job id from the address is posted iff it is present and non-empty |
| PublicApply.ApplyForm.ValidateAll | frontend/src/components/PublicApply.tsx:415-425 | the check clears the error, stores the error of every field and reports whether all three fields are valid |
| PublicApply.ApplyForm.Send | frontend/src/components/PublicApply.tsx:434-470 | the request marks the form submitted exactly on a success reply, otherwise shows the reply's or the fallback error, and ends not submitting |
| PublicApply.ApplyForm.HandleSubmit | frontend/src/components/PublicApply.tsx:413-471 | a request is sent exactly when all fields are valid and a resume is attached, and it carries the payload; invalid fields leave no general error; a missing resume shows the attach-resume error |
| Common.TextOr | frontend/src/components/PublicJobDetail.tsx:290 | a filled text is kept; a missing or empty one gives the fallback |
| PublicJobDetail.SalariedIff | frontend/src/components/PublicJobDetail.tsx:242-246 | defaulting the pay type to hourly changes nothing: the job counts as salaried exactly when its pay type is salary |
| PublicJobDetail.SalaryUnit | frontend/src/components/PublicJobDetail.tsx:239-251 | the salary text is empty exactly when neither bound is set; otherwise it ends in /year exactly for salaried jobs and in /hr for all others |
| PublicJobDetail.SalaryShapes | frontend/src/components/PublicJobDetail.tsx:247-250 | with a minimum the text starts with it; with both bounds it shows the range; with only a minimum it shows a plus; with only a maximum it starts with Up to |
| PublicJobDetail.ReplaceTwice | frontend/src/components/PublicJobDetail.tsx:258 | replacing underscores with dashes and then dashes with spaces is the same as mapping both to spaces, character by character |
| PublicJobDetail.JobTypeLabel | frontend/src/components/PublicJobDetail.tsx:256-259 | a missing job type reads Full-time; otherwise the label keeps the length and every character, with underscores and dashes turned into spaces |
| PublicJobDetail.MapEmploymentType | frontend/src/components/PublicJobDetail.tsx:264-275 | the schema's employment type is always one of the Google values |
| PublicJobDetail.ToLowerIdempotent | frontend/src/components/PublicJobDetail.tsx:274 | lower-casing twice is lower-casing once |
| PublicJobDetail.EmploymentTypeIgnoresCase | frontend/src/components/PublicJobDetail.tsx:264-275 | the employment type ignores case; a type outside the mapping gives FULL_TIME and a mapped one gives its mapping |
| PublicJobDetail.DatePosted | frontend/src/components/PublicJobDetail.tsx:286 | the posting date is present exactly when the creation time is, and it is the creation time's prefix before the first T |
| PublicJobDetail.FirstPieceIsPrefix | frontend/src/components/PublicJobDetail.tsx:286 | the first piece of a split is a prefix of the text |
| PublicJobDetail.SchemaFacts | frontend/src/components/PublicJobDetail.tsx:280-317 | the schema has a USD base salary exactly when a bound is set, with the unit YEAR exactly for salaried jobs and each bound present exactly when set; the country is US; the organisation defaults to Company; the employment type is a Google value |
| PublicJobDetail.SalaryTextMatchesSchema | frontend/src/components/PublicJobDetail.tsx:239-317 | the salary text and the schema agree: text exactly when the schema has a base salary, and /year exactly when the unit is YEAR |
| PublicJobDetail.DisplayLocation | frontend/src/components/PublicJobDetail.tsx:404 | the location line is never empty |
| PublicJobDetail.LocationFallback | frontend/src/components/PublicJobDetail.tsx:404 | the page shows the city, else the location, else Location not specified; when either is filled it agrees with the schema's locality, and otherwise the locality is empty |
| PublicJobDetail.TrimEach | frontend/src/components/PublicJobDetail.tsx:410 | each piece is trimmed and the count is kept |
| PublicJobDetail.TrimKeepsAbsence | frontend/src/components/PublicJobDetail.tsx:410 | trimming adds no character that was not there |
| PublicJobDetail.ParsedItems | frontend/src/components/PublicJobDetail.tsx:407-411 | a missing list gives no items; every item is non-empty, already trimmed and free of newlines, bullets and dashes |
| PublicJobDetail.ParsedKeepsPieces | frontend/src/components/PublicJobDetail.tsx:407-411 | every piece between separators that is not blank appears, trimmed, among the items |
| AddJobForm.InitialWellFormed | frontend/src/components/AddJobForm.tsx:432-454 | the initial form has every text, flag and list field in place, with three empty responsibilities |
| AddJobForm.Changed | frontend/src/components/AddJobForm.tsx:458-466 | a change touches only the named field and keeps every other field |
| AddJobForm.WithoutKeepsOthers | frontend/src/components/AddJobForm.tsx:472 | filtering a benefit out keeps exactly the other benefits |
| AddJobForm.WithoutAbsent | frontend/src/components/AddJobForm.tsx:472 | filtering out a benefit that is not listed changes nothing |
| AddJobForm.WithoutAppend | frontend/src/components/AddJobForm.tsx:472 | filtering distributes over joined lists |
| AddJobForm.ToggleBenefitFlips | frontend/src/components/AddJobForm.tsx:468-475 | toggling a benefit flips its membership and keeps all others; toggling an unlisted benefit twice restores the list, and toggling a listed one twice moves it to the end |
| AddJobForm.ReplacedAt | frontend/src/components/AddJobForm.tsx:477-481 | editing a responsibility sets that entry and keeps the length and the other entries |
| AddJobForm.AddTrimmedFacts | frontend/src/components/AddJobForm.tsx:483-491 | a blank entry changes neither the list nor the input; otherwise the trimmed non-empty entry is appended after the unchanged list and the input is cleared |
| AddJobForm.RemovedAtFacts | frontend/src/components/AddJobForm.tsx:493-498 | removing by index drops exactly that entry and keeps the order of the others; an index outside the list changes nothing |
| AddJobForm.NumberOrZero | frontend/src/components/AddJobForm.tsx:538 | the years of experience are the parsed number, or 0 when the text does not parse |
| AddJobForm.NumberOrNull | frontend/src/components/AddJobForm.tsx:539-540 | a pay bound is null exactly when the text does not parse or parses to zero, and otherwise the parsed number |
| AddJobForm.PayloadRules | frontend/src/components/AddJobForm.tsx:533-544 | the payload carries the form, the location as city, comma and zip code, the parsed experience and pay bounds, the title as position type, no vehicle requirement and a flexible title |
| AddJobForm.SubmitBlockerCases | frontend/src/components/AddJobForm.tsx:522-530 | submission may go ahead exactly when the title is not blank and all three responsibilities are filled; a blank title is reported first, then missing responsibilities |
| AddJobForm.OutcomeErrors | frontend/src/components/AddJobForm.tsx:546-574 | no error is left exactly when the request succeeded |
| AddJobForm.JobForm.constructor | frontend/src/components/AddJobForm.tsx:419-456 | the form opens with the initial fields, empty entry inputs, no error and not submitting |
| AddJobForm.JobForm.HandleChange | frontend/src/components/AddJobForm.tsx:458-466 | a change stores the text, or the checked state for a check box, of the named field only |
| AddJobForm.JobForm.ToggleBenefit | frontend/src/components/AddJobForm.tsx:468-475 | the benefit list becomes the toggled list and nothing else changes |
| AddJobForm.JobForm.ChangeResponsibility | frontend/src/components/AddJobForm.tsx:477-481 | the responsibility list becomes the edited list and nothing else changes |
| AddJobForm.JobForm.AddCertification | frontend/src/components/AddJobForm.tsx:483-491 | the certification list gains the trimmed entry when it is not blank, and the entry input is cleared then |
| AddJobForm.JobForm.RemoveCertification | frontend/src/components/AddJobForm.tsx:493-498 | the certification at the index is removed |
| AddJobForm.JobForm.AddTitle | frontend/src/components/AddJobForm.tsx:500-508 | the title list gains the trimmed entry when it is not blank, and the entry input is cleared then |
| AddJobForm.JobForm.RemoveTitle | frontend/src/components/AddJobForm.tsx:510-515 | the title at the index is removed |
| AddJobForm.JobForm.HandleSubmit | frontend/src/components/AddJobForm.tsx:517-577 | a blocked form sends nothing and shows the blocker; otherwise the payload is sent, the job counts as created exactly when the request succeeded, the error is the outcome's and submitting ends |
| ContactRejectionModal.QueryFor | frontend/src/components/ContactRejectionModal.tsx:64-70 | the template query asks for an interview type only in contact mode, and otherwise passes the dialog's settings through |
| ContactRejectionModal.TemplateAvailability | frontend/src/components/ContactRejectionModal.tsx:64-75 | a template is found exactly in contact mode or when the nudge box is off; in rejection mode the interview type has no effect |
| ContactRejectionModal.SendLabelCases | frontend/src/components/ContactRejectionModal.tsx:319-326 | the button reads Sending... exactly while sending; otherwise Reject Candidate exactly for a silent rejection, Send Rejection for a rejection with a message, and in contact mode the silent box has no effect |
| ContactRejectionModal.SmsPartsIsCeiling | frontend/src/components/ContactRejectionModal.tsx:295-297 | the part count is the least number of 160-character messages that hold the body, and at least two for a longer body |
| ContactRejectionModal.SmsNotice | frontend/src/components/ContactRejectionModal.tsx:295-297 | the split notice appears exactly for SMS bodies over 160 characters and names the least number of parts that hold the body |
| ContactRejectionModal.Dialog.constructor | frontend/src/components/ContactRejectionModal.tsx:29-38 | the dialog opens with video, friendly, no nudge, no silent rejection, no recipient, no error, and the configured scheduling link or the link placeholder |
| ContactRejectionModal.Dialog.SetMode | frontend/src/components/ContactRejectionModal.tsx:29 | the mode selector changes only the mode |
| ContactRejectionModal.Dialog.SetNudge | frontend/src/components/ContactRejectionModal.tsx:33 | the nudge box changes only the nudge flag |
| ContactRejectionModal.Dialog.SetSilentRejection | frontend/src/components/ContactRejectionModal.tsx:35 | the silent box changes only the silent-rejection flag |
| ContactRejectionModal.Dialog.SetRecipient | frontend/src/components/ContactRejectionModal.tsx:36 | the recipient field changes only the recipient address |
| ContactRejectionModal.Dialog.BodyFor | frontend/src/components/ContactRejectionModal.tsx:117-129 | the posted message carries the rendered body and subject, an interview type exactly in contact mode and a recipient exactly for e-mail |
| ContactRejectionModal.Dialog.Plan | frontend/src/components/ContactRejectionModal.tsx:77-138 | a silent rejection posts a reject for the candidate's pipeline entry; otherwise a missing e-mail recipient and then a missing template are errors, and in every other case the rendered message is posted with the dialog's settings |
| ContactRejectionModal.Dialog.HandleSend | frontend/src/components/ContactRejectionModal.tsx:77-144 | the send posts exactly the planned request, shows the planning error or the reply's failure, closes the dialog exactly when no error is left, and ends not sending |
| ContactRejectionModal.ContactAlwaysPlans | frontend/src/components/ContactRejectionModal.tsx:64-138 | in contact mode with a recipient, or on SMS, a message is always posted |
| ContactRejectionModal.StaleNudgeBlocksRejection | frontend/src/components/ContactRejectionModal.tsx:64-138 | a rejection with the nudge box still on finds no template and fails, unless it is silent, in which case it rejects |
| ContactRejectionModal.ReplyFailure | frontend/src/components/ContactRejectionModal.tsx:83-141 | a completed request leaves no error; a thrown error shows its reason; a failed reject shows the reject failure; a failed send shows the server's message or the send failure |
| JobsManagement.ParamNames | frontend/src/components/JobsManagement.tsx:514-521 | the names of the query parameters are exactly the first components of the pairs |
| JobsManagement.CandidateParamsRules | frontend/src/components/JobsManagement.tsx:512-522 | the candidate query starts with the pipeline status exactly when a tab other than All is active, has a tier exactly when a tier filter is set, always ends with the sort order and has no other parameter |
| JobsManagement.ToggleFlips | frontend/src/components/JobsManagement.tsx:601-609 | toggling a candidate flips its selection, keeps every other selection, and toggling twice restores the selection |
| JobsManagement.Repeat | frontend/src/components/JobsManagement.tsx:614 | repeating a text n times gives n copies' worth of characters, all from the text |
| JobsManagement.Floor | frontend/src/components/JobsManagement.tsx:612 | the whole number of stars is the floor of the rating |
| JobsManagement.StarsShape | frontend/src/components/JobsManagement.tsx:611-615 | a non-negative rating gives its floor in full stars followed by the half mark exactly when the fraction is at least one half; a negative rating, for which repeat throws, gives no text |
| JobsManagement.OfTier | frontend/src/components/JobsManagement.tsx:619-621 | a tier's column holds exactly the candidates of that tier |
| JobsManagement.Untiered | frontend/src/components/JobsManagement.tsx:618-622 | the candidates in no column are exactly those whose tier is not green, yellow or red |
| JobsManagement.ByTierPartition | frontend/src/components/JobsManagement.tsx:618-622 | the three columns are disjoint, hold no untiered candidate, and together with the untiered ones account for every candidate |
| JobsManagement.Page.constructor | frontend/src/components/JobsManagement.tsx:472-481 | the page opens with no jobs, no selected job, no candidates, the All tab, no selection, all tiers, sorted by tier score, no open dropdown and the left panel expanded |
| JobsManagement.Page.LoadJobs | frontend/src/components/JobsManagement.tsx:497-510 | a successful load replaces the jobs and selects the first job only when none is selected yet; a failed load changes nothing |
| JobsManagement.Page.LoadCandidates | frontend/src/components/JobsManagement.tsx:512-531 | the load asks for the given job's path with the page's tab, tier and sort order and replaces the candidates only when it succeeds |
| JobsManagement.Page.ToggleCandidateSelection | frontend/src/components/JobsManagement.tsx:601-609 | the selection becomes the toggled selection |
| JobsManagement.Page.ToggleMessageDropdown | frontend/src/components/JobsManagement.tsx:813-815 | clicking the open dropdown's candidate closes it; clicking another opens that one |
| JobsManagement.Page.HandleCandidateAction | frontend/src/components/JobsManagement.tsx:533-550 | the action is sent as the new status of that pipeline entry (`PUT /api/pipeline/{id}/status`); a successful reply clears the selection and reloads the selected job's candidates; a failed one changes nothing |
| JobsManagement.Page.HandleBulkAction | frontend/src/components/JobsManagement.tsx:552-574 | an empty selection sends nothing; otherwise the selection and action are sent, and success clears the selection and reloads |
| JobsManagement.Page.HandleSendMessage | frontend/src/components/JobsManagement.tsx:576-599 | the message posted for that pipeline entry carries its type, the selected job's title and location (absent with no job selected) and the fixed link `https://calendly.com/your-link`; a sent message closes the dropdown and reloads; a failed one changes nothing |
| TalentPoolManager.Trunc | frontend/src/components/TalentPoolManager.tsx:375 | the whole part rounded toward zero lies within one of the value, below it for a positive value and above it for a negative one |
| TalentPoolManager.FracJs | frontend/src/components/TalentPoolManager.tsx:376 | the JavaScript remainder by one is the fraction in [0, 1) for a non-negative value and in (-1, 0] for a negative one |
| TalentPoolManager.RenderStarRating | frontend/src/components/TalentPoolManager.tsx:374-388 | a non-negative rating draws its floor in full stars followed by one outline star exactly when the fraction is at least one half; a negative rating draws nothing |
| TalentPoolManager.Entries | frontend/src/components/TalentPoolManager.tsx:327-333 | the filters give seven named entries with distinct names |
| TalentPoolManager.NonEmptyPairs | frontend/src/components/TalentPoolManager.tsx:327-333 | the query holds exactly the entries whose value is not empty |
| TalentPoolManager.ParamValue | frontend/src/components/TalentPoolManager.tsx:327-333 | a parameter's value is found exactly when the name is in the query, and it is one of the query's pairs |
| TalentPoolManager.NonEmptyPairsValue | frontend/src/components/TalentPoolManager.tsx:327-333 | dropping empty entries keeps every non-empty value under its name and removes the empty ones |
| TalentPoolManager.PoolParamsCarry | frontend/src/components/TalentPoolManager.tsx:322-336 | the request carries each filter exactly when it is set, with its value, and no empty value |
| TalentPoolManager.FirstValue | frontend/src/components/TalentPoolManager.tsx:327-333 | in a list with distinct names, each name looks up its own value |
| TalentPoolManager.Clicked | frontend/src/components/TalentPoolManager.tsx:365-372 | a header click sorts by that column, keeps the filters, starts a new column descending and flips the current column's order |
| TalentPoolManager.ClickTwice | frontend/src/components/TalentPoolManager.tsx:365-372 | clicking the current column twice restores an ascending or descending order; clicking a new column twice sorts it ascending |
| TalentPoolManager.Manager.constructor | frontend/src/components/TalentPoolManager.tsx:303-315 | the page mounts loading, with no rows, no statistics, no error, no filter and sorted by score descending |
| TalentPoolManager.Manager.HandleSort | frontend/src/components/TalentPoolManager.tsx:365-372 | the filters become the clicked filters |
| TalentPoolManager.Manager.FetchTalentPool | frontend/src/components/TalentPoolManager.tsx:322-350 | the request asks with the current filters; a listing replaces the rows and clears the error, a reply without one or a thrown error sets its message and keeps the rows; loading ends |
| TalentPoolManager.Manager.FetchStats | frontend/src/components/TalentPoolManager.tsx:352-363 | a success reply stores the statistics; anything else keeps what was shown |
| ClientDashboard.DecodeEmailCases | frontend/src/components/ClientDashboard.tsx:10-19 | the e-mail is empty or truthy; no token, an empty one or one without a dot gives empty; otherwise it is the payload's e-mail when the base64url-decoded second part parses and has a truthy e-mail, and empty on every failure |
| ClientDashboard.LastDot | frontend/src/components/ClientDashboard.tsx:409 | the last dot is a dot with no dot after it, and none means the name has no dot |
| ClientDashboard.StripExtension | frontend/src/components/ClientDashboard.tsx:409 | stripping keeps a prefix; when it removes something it removes a dot followed by at least one character and no further dot; otherwise the name has no dot or ends in one |
| ClientDashboard.CapitalizeWords | frontend/src/components/ClientDashboard.tsx:411 | capitalising keeps the length and upper-cases exactly the characters that start a word |
| ClientDashboard.CapitalizedWords | frontend/src/components/ClientDashboard.tsx:410-411 | after capitalising, no word starts with a lower-case letter, and no dash or underscore is introduced |
| ClientDashboard.TrimKeepsWordStarts | frontend/src/components/ClientDashboard.tsx:412 | trimming keeps every word start capitalised and adds no character |
| ClientDashboard.FriendlyNameShape | frontend/src/components/ClientDashboard.tsx:407-413 | a friendly file name has no dash or underscore, no space at either end and no word starting with a lower-case letter |
| ClientDashboard.ActiveJobs | frontend/src/components/ClientDashboard.tsx:451 | the active jobs are exactly those not deleted |
| ClientDashboard.WithNewCandidates | frontend/src/components/ClientDashboard.tsx:452 | the filter keeps exactly the jobs with new candidates, each no more often than before |
| ClientDashboard.NeedsAttentionCorrect | frontend/src/components/ClientDashboard.tsx:451-453 | the attention list holds exactly the active jobs with new candidates, as a permutation of the filtered list, ordered by new-candidate count from most to fewest |
| ClientDashboard.StatusTotal | frontend/src/components/ClientDashboard.tsx:455-457 | with the counts read as numbers, the status total is 0 without statistics, at least every stage's count, and 0 only when every stage is empty |
| ClientDashboard.TextCountsJoined | frontend/src/components/ClientDashboard.tsx:455-457 | as written, counts that arrive as text are joined by the reduce: `"3"` and `"5"` give `"035"`, where the counts add up to 8 |
| ClientDashboard.ShareBounds | frontend/src/components/ClientDashboard.tsx:511 | a stage's share of the total lies in [0, 1], is 1 for the whole total and grows with the count |
| ClientDashboard.FunnelPercentBounds | frontend/src/components/ClientDashboard.tsx:511 | a funnel percentage lies in 0..100, is 100 for the whole total, 0 for an empty stage and grows with the count |
| ClientDashboard.FunnelBarsBounded | frontend/src/components/ClientDashboard.tsx:505-515 | every bar of a shown funnel is between 0 and 100 percent |
| ClientDashboard.Dashboard.constructor | frontend/src/components/ClientDashboard.tsx:431-434 | the page mounts loading, with no jobs, statistics or candidates |
| ClientDashboard.Dashboard.Load | frontend/src/components/ClientDashboard.tsx:439-449 | each success reply replaces its part (a missing list counting as empty), any other reply keeps it, a rejected batch keeps everything, and loading ends |
| BatchResumeAnalysis.RecommendationTypeCases | frontend/src/components/BatchResumeAnalysis.tsx:547-551 | a recommendation is a success exactly when it contains YES, a warning exactly when it contains NO but not YES, and informational otherwise |
| BatchResumeAnalysis.YesInside | frontend/src/components/BatchResumeAnalysis.tsx:548 | a recommendation containing STRONG_YES contains YES, so the first test adds nothing to the second |
| BatchResumeAnalysis.UsualRecommendations | frontend/src/components/BatchResumeAnalysis.tsx:547-551 | PROBABLY_NOT reads as a warning and STRONG_YES as a success |
| BatchResumeAnalysis.Succeeded | frontend/src/components/BatchResumeAnalysis.tsx:737 | the shown results are exactly the successful ones |
| BatchResumeAnalysis.ShownResultsCorrect | frontend/src/components/BatchResumeAnalysis.tsx:731-738 | the list shows exactly the successful analyses, each as often as it occurs, ordered by overall score from highest to lowest with a missing score counting as 0 |
| BatchResumeAnalysis.FlexibleTitleFour | frontend/src/components/BatchResumeAnalysis.tsx:624 | the flexible-title box is shown for exactly four positions, and not for the default position |
| BatchResumeAnalysis.UploadText | frontend/src/components/BatchResumeAnalysis.tsx:680-682 | the drop zone shows the prompt exactly when no file is chosen, otherwise the count and "file selected", plural only above one |
| BatchResumeAnalysis.OneFileSelected | frontend/src/components/BatchResumeAnalysis.tsx:681 | a single file reads "1 file selected" |
| BatchResumeAnalysis.Page.constructor | frontend/src/components/BatchResumeAnalysis.tsx:450-458 | the page opens with no files, results or expanded rows, not analysing, for HVAC Service Technician with 2 years required and a flexible title |
| BatchResumeAnalysis.Page.AddFiles | frontend/src/components/BatchResumeAnalysis.tsx:460-465 | picked or dropped files are appended after the files already selected |
| BatchResumeAnalysis.Page.RemoveFile | frontend/src/components/BatchResumeAnalysis.tsx:489-492 | removing by index drops exactly that file; an index outside the list changes nothing |
| BatchResumeAnalysis.Page.ToggleCandidate | frontend/src/components/BatchResumeAnalysis.tsx:535-545 | a row's expansion flips and every other row keeps its state |
| BatchResumeAnalysis.Page.HandleNewAnalysis | frontend/src/components/BatchResumeAnalysis.tsx:529-533 | a new analysis clears the files, the results and the expanded rows |
| BatchResumeAnalysis.Page.HandleAnalyze | frontend/src/components/BatchResumeAnalysis.tsx:494-527 | no files sends nothing; otherwise the files, position, years and flag are posted, a success reply stores the results, a failure reply alerts with its message, a thrown error alerts the fixed failure, and analysing ends |
| ResumeAnalysis.Badge | frontend/src/components/ResumeAnalysis.tsx:668-672 | the recommendation badge is a success exactly when the recommendation contains YES, the same rule as the batch page |
| ResumeAnalysis.Preview | frontend/src/components/ResumeAnalysis.tsx:625 | the sidebar shows the first five jobs, or all of them when there are fewer, in order |
| ResumeAnalysis.Page.constructor | frontend/src/components/ResumeAnalysis.tsx:535-545 | the page opens with no file, the hvac-technician position, 2 years required, no result, no jobs, no candidate and the add dialog closed |
| ResumeAnalysis.Page.SelectFiles | frontend/src/components/ResumeAnalysis.tsx:547-568 | picking or dropping files selects the first one; no file keeps the selection |
| ResumeAnalysis.Page.HandleAnalyze | frontend/src/components/ResumeAnalysis.tsx:574-607 | no file sends nothing; otherwise the file, position and years are posted, a success stores the analysis and a non-zero candidate id, a failure reply alerts with its message, a thrown error alerts the fixed failure, and analysing ends |
| ResumeAnalysis.Page.HandleNewAnalysis | frontend/src/components/ResumeAnalysis.tsx:609-613 | a new analysis clears the file, the result and the candidate |
| ResumeAnalysis.Page.LoadJobs | frontend/src/components/ResumeAnalysis.tsx:620-630 | a successful load shows the preview of the jobs; a failed one keeps them |
| ResumeAnalysis.Page.HandleAddToJob | frontend/src/components/ResumeAnalysis.tsx:632-638 | without an analysed candidate it alerts and keeps the dialog as it was; otherwise it opens the dialog |
| ResumeAnalysis.Page.HandleConfirmAddToJob | frontend/src/components/ResumeAnalysis.tsx:640-666 | a request for the chosen job and candidate, with `vehicle_status` `unknown`, is sent exactly when both are set; acceptance alerts success, closes the dialog and clears the choice; a refusal or an error alerts and keeps the dialog |
| CandidateListScreen.StripDocumentExtension | frontend/src/components/CandidateListScreen.tsx:347 | the card name is a prefix of the file name; it differs exactly when the file ends in .pdf, .doc or .docx in any case, and then exactly that ending is removed |
| CandidateListScreen.StripAppendedExtension | frontend/src/components/CandidateListScreen.tsx:347 | a name followed by a document extension in any case shows as the name |
| CandidateListScreen.NextExpanded | frontend/src/components/CandidateListScreen.tsx:250-256 | a click expands the clicked card exactly when it was not the expanded one, and collapses everything exactly when it was |
| CandidateListScreen.ClickTwice | frontend/src/components/CandidateListScreen.tsx:250-256 | clicking the same card twice leaves it expanded exactly when it started expanded, and otherwise leaves nothing expanded |
| CandidateListScreen.Marked | frontend/src/components/CandidateListScreen.tsx:272-279 | marking keeps the list's length, sets the contact channel of the entries with that pipeline id to manual or none, and keeps every other entry |
| CandidateListScreen.MarkedLastWins | frontend/src/components/CandidateListScreen.tsx:272-279 | marking the same entry twice is the same as the second marking |
| CandidateListScreen.MarkedCommute | frontend/src/components/CandidateListScreen.tsx:272-279 | markings of different entries do not interfere and may be done in either order |
| CandidateListScreen.Subtitle | frontend/src/components/CandidateListScreen.tsx:319-322 | the subtitle names the count and the tier, and says candidates in the plural exactly when the count is not one |
| CandidateListScreen.Cards | frontend/src/components/CandidateListScreen.tsx:325-350 | one card per candidate, in order, with its id, stripped name, score, expanded exactly when its id is the expanded one |
| CandidateListScreen.AtMostOneExpanded | frontend/src/components/CandidateListScreen.tsx:325-350 | with distinct pipeline ids, at most one card is expanded |
| CandidateListScreen.Screen.constructor | frontend/src/components/CandidateListScreen.tsx:195-204 | the screen opens with the tier and job id from the address, no candidates, no title, loading, no error and nothing expanded |
| CandidateListScreen.Screen.FetchCandidates | frontend/src/components/CandidateListScreen.tsx:214-232 | a listing replaces the candidates; a failed reply sets the fetch error; a thrown error sets its message or the unknown-error text; loading ends |
| CandidateListScreen.Screen.FetchJobDetails | frontend/src/components/CandidateListScreen.tsx:234-244 | a found job sets the title; otherwise the title stays |
| CandidateListScreen.Screen.Mount | frontend/src/components/CandidateListScreen.tsx:207-212 | without both a tier and a job id nothing is requested or changed; otherwise the candidates and the job are requested and their replies applied |
| CandidateListScreen.Screen.HandleCandidateClick | frontend/src/components/CandidateListScreen.tsx:250-256 | the expanded card becomes the clicked card's next state |
| CandidateListScreen.Screen.HandleContactStatusChange | frontend/src/components/CandidateListScreen.tsx:258-283 | the update sends whether the value is contacted, with the manual channel; an accepted update marks the candidate, anything else keeps the list |
| CandidateListScreen.Screen.Render | frontend/src/components/CandidateListScreen.tsx:302-350 | without a tier and job id the invalid-selection view shows; otherwise the title, subtitle, loading and error banner follow the state, the empty state and cards never both show, and once loaded without error the cards are exactly the candidates' cards |
| ResumePreviewModal.SafeFilename | frontend/src/components/ResumePreviewModal.tsx:215 | the file name is never empty: a present non-empty name is kept, otherwise the placeholder name is used |
| ResumePreviewModal.NameParts | frontend/src/components/ResumePreviewModal.tsx:216-217 | the first name is never empty and neither name contains an underscore |
| ResumePreviewModal.RemoveFirstPdf | frontend/src/components/ResumePreviewModal.tsx:217 | removing the first .pdf adds no character |
| ResumePreviewModal.ReplaceFirstPdf | frontend/src/components/ResumePreviewModal.tsx:217 | a name without a dot followed by .pdf loses exactly the .pdf |
| Common.SplitAtNone | frontend/src/components/ResumePreviewModal.tsx:216-217 | a text without the separator splits into itself alone |
| Common.SplitAtFirst | frontend/src/components/ResumePreviewModal.tsx:216-217 | a text splits at its first separator into the piece before it and the pieces of the rest |
| ResumePreviewModal.NamePartsRoundTrip | frontend/src/components/ResumePreviewModal.tsx:215-217 | a file named first, underscore, last and .pdf shows exactly that first and last name |
| ResumePreviewModal.TrimmedTexts | frontend/src/components/ResumePreviewModal.tsx:228 | each comma-separated piece becomes its trimmed text, one per piece |
| ResumePreviewModal.EnsureArrayCases | frontend/src/components/ResumePreviewModal.tsx:220-232 | a falsy value or one that is not a string or an array gives nothing; an array is kept; a string that parses gives the parsed array or nothing; a string that does not parse gives one text per comma-separated piece |
| ResumePreviewModal.CommaListRoundTrip | frontend/src/components/ResumePreviewModal.tsx:220-232 | joining the pieces of an unparsable comma list with already-trimmed pieces gives back the original text |
| ResumePreviewModal.EnsureArrayIdempotent | frontend/src/components/ResumePreviewModal.tsx:220-232 | applying the conversion to its own result changes nothing |
| ResumePreviewModal.Render | frontend/src/components/ResumePreviewModal.tsx:211-236 | nothing renders exactly without a candidate; otherwise the file name and the first name are never empty and the names come from the file name |
| Login.AttemptOf | frontend/src/components/Login.tsx:204-239 | a request is made exactly when neither field is blank, with the trimmed username and the password as typed; a token is stored and the page moves to the jobs page exactly on an ok reply; the error is the missing-fields text, the connection text, or the server's message or the invalid-credentials text |
| Login.BlankPasswordBlocks | frontend/src/components/Login.tsx:208 | a password of spaces blocks the login although it is not empty, while any other character lets it through |
| Login.ForgotAlert | frontend/src/components/Login.tsx:241-253 | an alert is raised exactly when the answer is given and not blank, and it is the prefix followed by the answer as typed |
| Login.Form.constructor | frontend/src/components/Login.tsx:189-195 | the form opens empty, not loading, with no error and the demo dialog closed |
| Login.Form.HandleInputChange | frontend/src/components/Login.tsx:197-202 | typing into the username or the password field stores the value in that field only |
| Login.Form.HandleSubmit | frontend/src/components/Login.tsx:204-239 | the submit sends the attempt's request, shows its error, stores its token under the session key, moves to the jobs page on success and ends loading after a request |
| Login.Form.HandleDemoClick | frontend/src/components/Login.tsx:255-257 | the demo button opens the dialog |
| Login.Form.HandleCloseModal | frontend/src/components/Login.tsx:259-261 | closing the dialog hides it |
| DemoModal.With | frontend/src/components/DemoModal.tsx:170-175 | a change stores the value in its field and keeps every other field |
| DemoModal.EmptyFormEmpty | frontend/src/components/DemoModal.tsx:158-166 | the empty form has every field empty, and it is the only such form |
| DemoModal.Modal.constructor | frontend/src/components/DemoModal.tsx:158-168 | the dialog opens with an empty form, not submitting and not submitted |
| DemoModal.Modal.HandleInputChange | frontend/src/components/DemoModal.tsx:170-175 | the form becomes the changed form |
| DemoModal.Modal.HandleSubmit | frontend/src/components/DemoModal.tsx:177-211 | the form is sent as it is; an accepted request shows the thank-you state and arms one more reset timer; submitting ends |
| DemoModal.Modal.ResetTimerFires | frontend/src/components/DemoModal.tsx:192-204 | one armed timer fires: it closes the dialog once, empties the form, leaves the submitted state and the other armed timers stay |
| DemoModal.Modal.HandleClose | frontend/src/components/DemoModal.tsx:213-216 | closing calls the close handler once and leaves the submitted state |
| GoogleAuthHandler.Outcome | frontend/src/components/GoogleAuthHandler.tsx:97-124 | the exchange succeeds exactly when the reply's status is success, with the connected text; otherwise it is an error with the server's message, the fixed failure text, or the connection-error text after a thrown error |
| GoogleAuthHandler.Handler.constructor | frontend/src/components/GoogleAuthHandler.tsx:85-86 | the handler starts idle with no message and the code from the address |
| GoogleAuthHandler.Handler.Effect | frontend/src/components/GoogleAuthHandler.tsx:88-95 | with a code while idle the code is posted once and the handler shows that it is connecting; otherwise nothing happens |
| GoogleAuthHandler.Handler.BeginAuthCode | frontend/src/components/GoogleAuthHandler.tsx:97-99 | the exchange starts by showing the connecting message |
| GoogleAuthHandler.Handler.CompleteAuthCode | frontend/src/components/GoogleAuthHandler.tsx:100-124 | the status and message become the reply's outcome, and no second exchange is due |
| GoogleAuthHandler.Handler.HandleClose | frontend/src/components/GoogleAuthHandler.tsx:126-130 | closing returns to idle and drops the code, so no exchange is due |
| GoogleAuthHandler.Handler.Render | frontend/src/components/GoogleAuthHandler.tsx:132-164 | nothing shows exactly while idle; otherwise the message shows, with a button exactly when not processing |
| DemoRequestDialog.MatchesIff | DemoRequestDialog.java:28-30 | the e-mail matcher accepts exactly the texts that split at some position into a local part, an at-sign, a host, a dot and a top-level part of two or more letters |
| DemoRequestDialog.ComposedAddressMatches | DemoRequestDialog.java:28-30 | every address built from a valid local part, a valid host and a top-level part of at least two letters is accepted |
| DemoRequestDialog.NoAtNoMatch | DemoRequestDialog.java:28-30 | a text without an at-sign is rejected |
| DemoRequestDialog.NoDotNoMatch | DemoRequestDialog.java:28-30 | an address whose part after the at-sign has no dot is rejected |
| DemoRequestDialog.DocumentedAddresses | DemoRequestDialog.java:28-30 | `user@example.com` is accepted, and `user@domain` and `user.example.com` are rejected |
| DemoRequestDialog.Message | DemoRequestDialog.java:393-414 | every rule has a non-empty message line |
| DemoRequestDialog.BlankIsTrimEmpty | DemoRequestDialog.java:393 | a field counts as blank exactly when trimming it leaves nothing |
| DemoRequestDialog.ProblemsAreFailures | DemoRequestDialog.java:389-414 | a rule is listed exactly when its check fails |
| DemoRequestDialog.NoProblemsIff | DemoRequestDialog.java:389-425 | the form is valid exactly when no rule fails |
| DemoRequestDialog.ProblemsInCheckOrder | DemoRequestDialog.java:389-414 | the failed rules are listed in the order of the checks, each once, and a missing e-mail is never also reported as invalid |
| DemoRequestDialog.FormProblems | DemoRequestDialog.java:393-414 | the name rule fails exactly for a blank name, the invalid-e-mail rule exactly for a non-blank e-mail that does not match once trimmed, and the employee rule exactly when the first choice is selected |
| DemoRequestDialog.Concat | DemoRequestDialog.java:416-421 | the error list is empty exactly when no rule failed |
| DemoRequestDialog.Dialog.constructor | DemoRequestDialog.java:32-75 | the dialog opens on the form with empty fields, the first employee choice, an enabled Submit Request button and nothing shown |
| DemoRequestDialog.Dialog.ValidateForm | DemoRequestDialog.java:389-425 | the form is valid exactly when no rule fails; otherwise one message box lists the header and every failed rule's line |
| DemoRequestDialog.Dialog.HandleSubmit | DemoRequestDialog.java:427-453 | an invalid form only shows the errors; a valid one relabels the button Submitting..., disables both buttons and queues the submission |
| DemoRequestDialog.Dialog.RunQueuedSubmission | DemoRequestDialog.java:433-451 | the queued submission switches to the success panel and keeps an interruption flagged |
| DemoRequestDialog.Dialog.HandleCancel | DemoRequestDialog.java:476-478 | cancel disposes of the dialog |
| DemoRequestDialog.Dialog.HandleSuccessClose | DemoRequestDialog.java:375-376 | the success panel's Close button disposes of the dialog |
| TalosLoginApp.SpacesPasswordAccepted | TalosLoginApp.java:399-409 | only the username is trimmed: a password of spaces is accepted, a leading space in the username changes nothing, and an empty password is refused |
| TalosLoginApp.ForgotNotice | TalosLoginApp.java:434-460 | a notice is shown exactly when the answer is given and not blank, and it is the prefix followed by the answer as typed |
| TalosLoginApp.LoginWindow.constructor | TalosLoginApp.java:26-169 | the window opens with empty fields, an enabled Sign In button and nothing shown |
| TalosLoginApp.LoginWindow.HandleLogin | TalosLoginApp.java:399-432 | a rejected login only shows the warning; an accepted one relabels the button Signing In..., disables it and queues the rest, showing nothing yet |
| TalosLoginApp.LoginWindow.RunQueuedLogin | TalosLoginApp.java:412-429 | the queued login restores an enabled Sign In button, shows the success message and keeps an interruption flagged |
| TalosLoginApp.LoginWindow.HandleForgotPassword | TalosLoginApp.java:434-446 | the reset notice is shown exactly when the answer is not blank |
| TalosLoginApp.LoginWindow.HandleForgotUsername | TalosLoginApp.java:448-460 | the recovery notice is shown exactly when the answer is not blank |

## Left out

- The AI calls, the database, pdf parsing, file deletion, the AWS CLI calls and file writes of `update_cf.js` and `dump-sql.js`, and every HTTP request: each is a parameter or an outcome given to the handler.
- Upload size limits and the multer configuration of the upload routes: Express wiring, not logic.
- Rendering, styling, Swing layout, message-box titles and icons, and the marketing pages: presentation only.
- Timers, `Thread.sleep`, `invokeLater` and React effects: each is one discrete step. A queued task is a method that requires it was queued (`RunQueuedLogin`, `RunQueuedSubmission`, `ResetTimerFires`).
- The `async` handlers are split where they await: the part before the request and the part after it are one method given the reply.
- The rubric and prompt texts of the resume analyser: only their labels and the score bands are modelled.
- The wording of the 42 message templates: it is kept as written, but only the placeholders and the subject are reasoned about.
- Floating point: ratings, percentages and pay bounds are reals, so rounding errors of binary floating point are not modelled.
- Pay bounds as text: `pay_range_min` and `pay_range_max` are `NUMERIC(10,2)` columns, which the PostgreSQL driver returns as text, so a stored 0 arrives as the truthy `"0.00"`. `PublicJobDetail` receives them as numbers, so for a zero bound `PublicJobDetail.FormatSalary` and `PublicJobDetail.SchemaFacts` treat the bound as unset where the running page shows it. (`JobFeed` reads raw values, where `"0.00"` is a truthy string as in the source.)
- `DatabaseService.JobCandidatesBase`, `DatabaseService.TalentPoolBase`: the line breaks and indentation inside the source's SQL template strings are written as single spaces. The statements are the same; the text is not byte-for-byte equal.
- `ClientDashboard.StatusTotal`, `ClientDashboard.FunnelPercent`: every stage's count is a number here. A status with no pipeline rows is absent from `statusBreakdown`, because `GROUP BY` yields no row for it; in JavaScript its bar then gets a `NaN` width and its count shows empty.
- `DatabaseService.MatchFor`: the candidate's and job's numbers arrive as `CandidateRow` and `JobRow` reals with the `|| 0` defaults of databaseService.js:722-724 taken as already applied; a missing score, years or required years is not represented.
- `Js.ParseFloat`: reads only `[+-]? digits ('.' digits)?`; an exponent (`1e3`), `Infinity` and `-Infinity` are not read, so `parseFloat("1e3")` is 1 in the model where JavaScript gives 1000.
- `Js.StringToNumber`: accepts only trimmed decimal text; exponents, `Infinity`, and the `0x`, `0o` and `0b` prefixes that `Number` accepts come out as `NaN` in the model.
- `DatabaseService.ToNumberOr`, `DatabaseService.ToDecimalOr`, `ResumeRoutes.RequiredYearsOr2`, `AddJobForm.NumberOrZero`: built on `Js.ParseFloat` or `Js.StringToNumber`, so text with an exponent, `Infinity` or (for `Number`) a hex, octal or binary prefix falls back to the default where JavaScript would read a number.
- `toLocaleString`, `JSON.parse`, `atob` and `prompt` are parameters; locale-specific digit grouping is not modelled.
- Case conversion is ASCII only; Unicode case mapping is not modelled.
- The star and half-star characters of the jobs page are kept exactly as the file stores them (a mis-decoded star).
- The API base-URL prefix (`config.apiUrl`) of every request path is omitted.
- JavaScript `NaN`, array holes and values of other types than the fields declare are not modelled beyond the documented coercions.
- The demo dialog's input names other than its seven fields, and the login form's input names other than username and password, are not modelled.
- `TemplateHelpers.RenderedBody`, `TemplateHelpers.RenderedSubject`: proved for any wording free of `_`, `"` and `[`. That the table's own phrases (`MessageTemplates.Phrase`) are such wording is not proved: unfolding the 104-phrase table to check it character by character exceeds the verifier's budget. As written in messageTemplates.ts, no phrase contains these characters.
- `Common.ReplaceAll`: `String.prototype.replace` with a string replacement treats `$&`, `$$`, `` $` `` and `$'` in the replacement specially; the model inserts the replacement literally, so a candidate name, job title or scheduling link containing `$` renders as written.
- `TemplateHelpers.ExtractedNameCapitalized`: the first character of the name is not promised to be upper case. A word that begins with a tab keeps the tab when capitalised; the final trim then removes it and can expose a lower-case letter.
- `TemplateHelpers.NameThenResume`, `TemplateHelpers.DashedName`, `TemplateHelpers.ResumeThenName`: the three file names in the comment above `extractCandidateName` are proved as the shapes they share, for every pair of name words of letters in which no removed word can start. "John"/"Doe"/"Resume", "jane"/"smith" and "Resume"/"Bob"/"Johnson" meet those conditions. The calls on the three literal names are not written out, because evaluating `extractCandidateName` on a string literal exceeds the verifier's budget.
- `DatabaseService.TalentPoolSortField`: only the table's own keys are modelled. A `sortBy` naming an inherited `Object.prototype` property (`constructor`, `toString`, `__proto__`) makes the JavaScript lookup return a function or an object, which is truthy and is interpolated into the SQL text instead of `cp.tier_score`.
- `DatabaseService.TalentPoolQuery`: inherits the `TalentPoolSortField` gap; its ORDER BY is drawn from the allowed columns only for own keys.
- `ResumeRoutes.MapPositionValue`: only the table's own keys are modelled. A position value such as `constructor` returns a function rather than the value itself.
- `ResumeRoutes.MapPositionValueFallback`: its fallback promise holds for values that are not inherited `Object.prototype` property names.
- `ResumeAnalyzer.PositionCriteriaTitle`: only the table's own keys are modelled. A position such as `constructor` or `toString` returns a function instead of the HVAC Technician criteria.
- `JobFeed.MapJobType`: only the table's own keys are modelled. A job type such as `constructor` (after lower-casing) maps to a function instead of `full-time`.
- `JobFeed.JobTypeOf`: a truthy `job_type` that is not a string (a number, say) is read as missing and maps to `full-time`; in JavaScript `.toLowerCase()` throws there and the feed answers with its 500 document.
- `Logger.Configure`: only the four level names are modelled as keys. A `LOG_LEVEL` such as `constructor` or `__proto__` yields a non-number minimum level under `??`, rather than the `info` rank.
- `Logger.Redact`: a key that exists only on the object prototype (such as `toString`) is not modelled; in JavaScript, redaction would add it as a new own key.
- `Logger.Spread`: JavaScript lists integer-like keys before the others when it stringifies an object, so the spread indices of a string or array, and numeric metadata keys, print first; the model keeps insertion order.
- `PublicJobDetail.MapEmploymentType`: prototype keys such as `constructor` are not modelled; in JavaScript, `mapping['constructor']` is a function, not a string.
- `ApplyRoutes.AnalysisData`: the section fields the route always sets empty (`missing`, `recommended`, `relevantExperience`, the presentation `strengths` and `improvements`, and the four `feedback` texts) are not carried in the model's record.
- `BatchResumeAnalysis.ShownResultsCorrect`: overall scores are integers. The sort comparator is not modelled for fractional scores.
- `AddJobForm.JobForm.HandleChange`: requires that no list field and no text field is changed through a check box. The form wires no such input, and the model's list fields cannot hold a single value.
- `DemoModal.Modal.HandleSubmit`: `isSubmitting` is true only inside the call. Its value during the request is not observable in the model.
- `Login.Form.HandleSubmit`: an ok reply always carries a token text in the model. In JavaScript, an ok reply without `data.data` throws and shows the connection error, and one without a token stores the text `undefined`.
- `DemoRequestDialog.Dialog.ValidateForm`: the `StringBuilder` is kept as the list of failed rules. Their message lines are concatenated in order.
- The Java `DemoController` endpoint: it always acknowledges and is not called by the dialog.

## Findings

| source | as written | input that shows it | evidently intended | confidence | as-written member | corrected member |
|---|---|---|---|---|---|---|
| backend-node/services/databaseService.js:454-456 | `findByJobId` puts the caller's `sort_by` into `ORDER BY` unescaped | `sort_by = "1; DROP TABLE candidates --"` lands in the SQL text after `ORDER BY` | only known column names and ASC or DESC reach the ORDER BY clause | not executed | DatabaseService.FindByJobIdSortVerbatim | DatabaseService.SafeJobCandidatesTail |
| backend-node/services/resumeAnalyzer.js:2618-2620 | the Warehouse Associate branch calls `getWarehouseAssociateCriteria`, which is defined nowhere | `position = "Warehouse Associate"` throws a ReferenceError, so the analysis always fails | Warehouse Associate gets criteria like every other framework | not executed | ResumeAnalyzer.WarehouseAssociateAlwaysFails | ResumeAnalyzer.FrameworkCriteria |
| frontend/src/components/ClientDashboard.tsx:455-457 | `statusTotal` adds the `statusBreakdown` values with `+`, and those values are the `COUNT(*)` results of backend-node/services/databaseService.js:637-641, which a PostgreSQL driver returns as text for a 64-bit count | `statusBreakdown = { new: "3", approved: "5" }` gives `"035"`, so the funnel divides by 35 instead of 8 | the counts are added as numbers | not executed; depends on the driver returning counts as text, its default for 64-bit integers | ClientDashboard.TextCountsJoined | ClientDashboard.StatusTotal |

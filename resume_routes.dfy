// backend-node/routes/resumeRoutes.js: the position slug table, the defaults
// both upload routes apply to their form fields, and the batch route's
// per-file loop. Multer, the file system and the database are not modelled;
// what happens to each file (candidate row created, analysis done or thrown)
// is given as a `FileRun`, and the analyzer is called with the parameters
// `UploadParameters` computes.

module ResumeRoutes {
  import opened Common
  import opened Js

  /** The slug-to-title table of `mapPositionValue`, in source order. */
  const PositionMap: seq<(string, string)> := [
    ("lead-hvac-technician", "Lead HVAC Technician"),
    ("hvac-service-technician", "HVAC Service Technician"),
    ("hvac-dispatcher", "HVAC Dispatcher"),
    ("administrative-assistant", "Administrative Assistant"),
    ("admin-assistant", "Administrative Assistant"),
    ("customer-service-representative", "Customer Service Representative"),
    ("hvac-installer", "HVAC Installer"),
    ("lead-hvac-installer", "Lead HVAC Installer"),
    ("maintenance-technician", "Maintenance Technician"),
    ("warehouse-associate", "Warehouse Associate"),
    ("bookkeeper", "Bookkeeper"),
    ("hvac-sales-representative", "HVAC Sales Representative"),
    ("hvac-service-manager", "HVAC Service Manager"),
    ("apprentice", "Apprentice"),
    ("hvac-project-manager", "HVAC Project Manager"),
    ("hvac-sales-engineer", "HVAC Sales Engineer"),
    ("refrigeration-technician", "Refrigeration Technician"),
    ("hvac-apprentice", "HVAC Apprentice"),
    ("commercial-hvac-tech", "Commercial HVAC Technician"),
    ("residential-hvac-tech", "Residential HVAC Technician")
  ]

  /** The title stored under `slug` in a table, first entry first. */
  function TableLookup(table: seq<(string, string)>, slug: string): (r: Option<string>)
    ensures r.None? <==> forall i :: 0 <= i < |table| ==> table[i].0 != slug
    ensures r.Some? ==> exists i :: 0 <= i < |table| && table[i] == (slug, r.value)
  {
    LookupFrom(table, slug, 0)
  }

  /** The title stored under `slug` in the entries from `i` on. */
  function LookupFrom(table: seq<(string, string)>, slug: string, i: nat): (r: Option<string>)
    requires i <= |table|
    ensures r.None? <==> forall j :: i <= j < |table| ==> table[j].0 != slug
    ensures r.Some? ==> exists j :: i <= j < |table| && table[j] == (slug, r.value)
    decreases |table| - i
  {
    if i == |table| then None
    else if table[i].0 == slug then Some(table[i].1)
    else LookupFrom(table, slug, i + 1)
  }

  /** The lookup finds the first entry whose slug matches. */
  lemma {:induction false} LookupFromAt(table: seq<(string, string)>, slug: string, i: nat, k: nat)
    requires i <= k < |table| && table[k].0 == slug
    requires forall j :: i <= j < k ==> table[j].0 != slug
    ensures LookupFrom(table, slug, i) == Some(table[k].1)
    decreases k - i
  {
    if i < k {
      LookupFromAt(table, slug, i + 1, k);
    }
  }

  /** `positionMap[v] || v || 'HVAC Service Technician'`. */
  function MapPositionValue(v: Value): (r: Value)
  {
    if v.Str? && TableLookup(PositionMap, v.s).Some? then Str(TableLookup(PositionMap, v.s).value)
    else Or(v, Str("HVAC Service Technician"))
  }

  /** The current slug `administrative-assistant` maps to its title. */
  lemma AdministrativeAssistantTitle()
    ensures TableLookup(PositionMap, "administrative-assistant") == Some("Administrative Assistant")
  {
    LookupFromAt(PositionMap, "administrative-assistant", 0, 3);
  }

  /** The legacy slug `admin-assistant` maps to the same title as the current one. */
  lemma LegacyAdminAssistant()
    ensures MapPositionValue(Str("admin-assistant")) == MapPositionValue(Str("administrative-assistant"))
                                                   == Str("Administrative Assistant")
  {
    AdministrativeAssistantTitle();
    AdminAssistantTitle();
  }

  /** The legacy slug `admin-assistant` maps to the same title. */
  lemma AdminAssistantTitle()
    ensures TableLookup(PositionMap, "admin-assistant") == Some("Administrative Assistant")
  {
    LookupFromAt(PositionMap, "admin-assistant", 0, 4);
  }

  /** Every slug of the table is mapped, and only to a title the table gives it. */
  lemma MapPositionValueListed(slug: string)
    requires exists i :: 0 <= i < |PositionMap| && PositionMap[i].0 == slug
    ensures MapPositionValue(Str(slug)).Str?
    ensures exists i :: 0 <= i < |PositionMap| && PositionMap[i] == (slug, MapPositionValue(Str(slug)).s)
  {
  }

  /**
   * An unlisted non-empty slug comes back unchanged, a falsy value becomes
   * `HVAC Service Technician`.
   */
  lemma MapPositionValueFallback(v: Value)
    requires !(v.Str? && exists i :: 0 <= i < |PositionMap| && PositionMap[i].0 == v.s)
    ensures Truthy(v) ==> MapPositionValue(v) == v
    ensures !Truthy(v) ==> MapPositionValue(v) == Str("HVAC Service Technician")
  {
  }

  /** The routes' default slug is not in the table, so it reaches the analyzer as it is. */
  lemma DefaultSlugUnmapped()
    ensures MapPositionValue(Str("hvac-technician")) == Str("hvac-technician")
  {
    assert forall i :: 0 <= i < |PositionMap| ==> PositionMap[i].0 != "hvac-technician";
  }

  /** What the analyzer is asked to do with an upload. */
  datatype AnalyzerArgs = AnalyzerArgs(position: Value, requiredYears: real, flexibleOnTitle: bool)

  /** `parseFloat(v) || 2`: a missing, unparsable or zero value becomes 2. */
  function RequiredYearsOr2(v: Value): (years: real)
    ensures ParseFloatValue(v).None? ==> years == 2.0
    ensures ParseFloatValue(v) == Some(0.0) ==> years == 2.0
    ensures ParseFloatValue(v).Some? && ParseFloatValue(v).value != 0.0 ==> years == ParseFloatValue(v).value
    ensures years != 0.0
  {
    match ParseFloatValue(v)
    case None => 2.0
    case Some(x) => if x != 0.0 then x else 2.0
  }

  /** The form-field defaults both upload routes apply. */
  function UploadParameters(body: Value): (args: AnalyzerArgs)
    ensures args.position == MapPositionValue(Or(Get(body, "position"), Str("hvac-technician")))
    ensures args.requiredYears == RequiredYearsOr2(Get(body, "requiredYearsExperience"))
    ensures !args.flexibleOnTitle <==> Get(body, "flexibleOnTitle") == Str("false")
  {
    AnalyzerArgs(MapPositionValue(Or(Get(body, "position"), Str("hvac-technician"))),
                 RequiredYearsOr2(Get(body, "requiredYearsExperience")),
                 Get(body, "flexibleOnTitle") != Str("false"))
  }

  /** With an empty form every default applies; the position stays the unmapped slug. */
  lemma EmptyFormDefaults()
    ensures UploadParameters(Obj([])) == AnalyzerArgs(Str("hvac-technician"), 2.0, true)
  {
    DefaultSlugUnmapped();
  }

  // ---------------------------------------------------------------------
  // POST /upload
  // ---------------------------------------------------------------------

  datatype UploadedFile = UploadedFile(originalName: string, path: string)

  datatype SingleReply =
    | NoFile                                  // 400 'No resume file uploaded'
    | Analyzed(filename: string, analysis: Value)
    | AnalysisError(message: string)          // 500 'Failed to analyze resume'

  /**
   * The single upload: 400 without a file; otherwise the analyzer's result
   * (given as `analysis` for the arguments `UploadParameters(body)`), or its
   * error message under a 500.
   */
  function SingleUpload(file: Option<UploadedFile>, analysis: Result<Value>): (r: SingleReply)
    ensures file.None? <==> r == NoFile
    ensures file.Some? && analysis.Ok? ==> r == Analyzed(file.value.originalName, analysis.value)
    ensures file.Some? && analysis.Err? ==> r == AnalysisError(analysis.error)
  {
    match file
    case None => NoFile
    case Some(f) =>
      match analysis
      case Ok(a) => Analyzed(f.originalName, a)
      case Err(e) => AnalysisError(e)
  }

  // ---------------------------------------------------------------------
  // POST /upload-batch
  // ---------------------------------------------------------------------

  /** What happened to one file inside the loop's try block. */
  datatype FileRun =
    | CreateFailed(message: string)                     // `candidateService.create` threw
    | FailedAfterCreate(candidateId: int, message: string) // analysis, save or status update threw
    | Completed(candidateId: int, analysis: Value)
    | ErrorStatusFailed(candidateId: int, message: string) // the catch's `error` status update threw too

  datatype BatchResult =
    | Success(id: int, filename: string, analysis: Value)
    | Error(id: int, filename: string, error: string)

  /** The result pushed for file `i`; a failed file reports `candidate?.id || i`. */
  function ResultFor(file: UploadedFile, run: FileRun, i: nat): (r: BatchResult)
    requires !run.ErrorStatusFailed?
    ensures r.Success? <==> run.Completed?
    ensures r.filename == file.originalName
  {
    match run
    case Completed(id, a) => Success(id, file.originalName, a)
    case FailedAfterCreate(id, m) => Error(if id != 0 then id else i, file.originalName, m)
    case CreateFailed(m) => Error(i, file.originalName, m)
  }

  /** The status update issued for a file, if its candidate row exists. */
  function StatusUpdateFor(run: FileRun): (u: seq<(int, string)>)
    ensures |u| <= 1
    ensures run.CreateFailed? <==> u == []
  {
    match run
    case Completed(id, _) => [(id, "completed")]
    case FailedAfterCreate(id, _) => [(id, "error")]
    case ErrorStatusFailed(id, _) => [(id, "error")]
    case CreateFailed(_) => []
  }

  /** The status updates for a run of files, in order. */
  function StatusUpdates(runs: seq<FileRun>): (u: seq<(int, string)>)
  {
    if runs == [] then [] else StatusUpdateFor(runs[0]) + StatusUpdates(runs[1..])
  }

  lemma {:induction false} StatusUpdatesAppend(runs: seq<FileRun>, run: FileRun)
    ensures StatusUpdates(runs + [run]) == StatusUpdates(runs) + StatusUpdateFor(run)
  {
    if runs == [] {
      assert runs + [run] == [run];
      assert [run][1..] == [];
    } else {
      assert (runs + [run])[1..] == runs[1..] + [run];
      StatusUpdatesAppend(runs[1..], run);
    }
  }

  /** The number of files whose candidate row was created. */
  function CreatedCount(runs: seq<FileRun>): (n: nat)
    ensures n <= |runs|
  {
    if runs == [] then 0 else (if runs[0].CreateFailed? then 0 else 1) + CreatedCount(runs[1..])
  }

  /**
   * Exactly the files whose candidate row was created get a status update:
   * one each, `completed` for an analysed file and `error` otherwise.
   */
  lemma {:induction false} StatusUpdatesPerCandidate(runs: seq<FileRun>, k: nat)
    requires k < |runs|
    ensures |StatusUpdates(runs)| == CreatedCount(runs)
    ensures runs[k].Completed? ==> (runs[k].candidateId, "completed") in StatusUpdates(runs)
    ensures runs[k].FailedAfterCreate? ==> (runs[k].candidateId, "error") in StatusUpdates(runs)
  {
    if k > 0 {
      StatusUpdatesPerCandidate(runs[1..], k - 1);
    } else if |runs| > 1 {
      StatusUpdatesPerCandidate(runs[1..], 0);
    }
  }

  function SuccessCount(results: seq<BatchResult>): (n: nat)
    ensures n <= |results|
  {
    if results == [] then 0 else (if results[0].Success? then 1 else 0) + SuccessCount(results[1..])
  }

  lemma {:induction false} SuccessCountAppend(results: seq<BatchResult>, r: BatchResult)
    ensures SuccessCount(results + [r]) == SuccessCount(results) + (if r.Success? then 1 else 0)
  {
    if results == [] {
      assert results + [r] == [r];
    } else {
      assert (results + [r])[1..] == results[1..] + [r];
      SuccessCountAppend(results[1..], r);
    }
  }

  datatype BatchReply =
    | NoFiles   // 400 'No resume files uploaded'
    | BatchFailed(error: string, statusUpdates: seq<(int, string)>) // 500 'Failed to analyze resumes'
    | BatchDone(batchId: int, results: seq<BatchResult>, errors: seq<(string, string)>, statusUpdates: seq<(int, string)>,
                totalAnalyzed: nat, totalFiles: nat, message: string)

  /**
   * The batch route, given how the batch record's creation ended and what
   * happened to each file: 400 for an empty file list; a 500 carrying the
   * error when the batch record cannot be created, or when a failed file's
   * `error` status update throws, which ends the loop there. Otherwise the
   * reply names the batch and holds exactly one result per file, in order,
   * each a success or an error, with the failures also listed in `errors`;
   * every candidate row that was created gets exactly one status update,
   * and `totalAnalyzed` counts the successes.
   */
  method UploadBatch(files: seq<UploadedFile>, batch: Result<int>, runs: seq<FileRun>) returns (r: BatchReply)
    requires |runs| == |files|
    ensures |files| == 0 <==> r == NoFiles
    ensures |files| > 0 && batch.Err? ==> r == BatchFailed(batch.error, [])
    ensures batch.Ok? ==>
              forall k :: 0 <= k < |files| && runs[k].ErrorStatusFailed? && (forall j :: 0 <= j < k ==> !runs[j].ErrorStatusFailed?)
                ==> r == BatchFailed(runs[k].message, StatusUpdates(runs[..k + 1]))
    ensures r.BatchDone? <==> |files| > 0 && batch.Ok? && forall i :: 0 <= i < |files| ==> !runs[i].ErrorStatusFailed?
    ensures r.BatchDone? ==>
              && r.batchId == batch.value
              && |r.results| == |files| == r.totalFiles
              && (forall i :: 0 <= i < |files| ==> !runs[i].ErrorStatusFailed? && r.results[i] == ResultFor(files[i], runs[i], i))
              && r.totalAnalyzed == SuccessCount(r.results)
              && r.statusUpdates == StatusUpdates(runs)
              && r.totalAnalyzed + |r.errors| == |files|
              && (forall e :: e in r.errors ==> exists i :: 0 <= i < |files| && !runs[i].Completed?
                                                 && e.0 == files[i].originalName)
              && r.message == "Analyzed " + NatToString(r.totalAnalyzed) + " out of " + NatToString(|files|) + " resumes"
  {
    if |files| == 0 {
      return NoFiles;
    }
    if batch.Err? {
      return BatchFailed(batch.error, []);
    }
    var results: seq<BatchResult> := [];
    var errors: seq<(string, string)> := [];
    var updates: seq<(int, string)> := [];
    var i := 0;
    while i < |files|
      invariant 0 <= i <= |files|
      invariant forall k :: 0 <= k < i ==> !runs[k].ErrorStatusFailed?
      invariant |results| == i
      invariant forall k :: 0 <= k < i ==> results[k] == ResultFor(files[k], runs[k], k)
      invariant SuccessCount(results) + |errors| == i
      invariant updates == StatusUpdates(runs[..i])
      invariant forall e :: e in errors ==> exists k :: 0 <= k < i && !runs[k].Completed? && e.0 == files[k].originalName
    {
      var file := files[i];
      assert runs[..i + 1] == runs[..i] + [runs[i]];
      StatusUpdatesAppend(runs[..i], runs[i]);
      if runs[i].ErrorStatusFailed? {
        return BatchFailed(runs[i].message, updates + StatusUpdateFor(runs[i]));
      }
      var result := ResultFor(file, runs[i], i);
      match runs[i] {
        case Completed(id, _) =>
          updates := updates + [(id, "completed")];
        case FailedAfterCreate(id, m) =>
          updates := updates + [(id, "error")];
          errors := errors + [(file.originalName, m)];
        case CreateFailed(m) =>
          errors := errors + [(file.originalName, m)];
      }
      SuccessCountAppend(results, result);
      results := results + [result];
      i := i + 1;
    }
    assert runs[..i] == runs;
    var analyzed := SuccessCount(results);
    r := BatchDone(batch.value, results, errors, updates, analyzed, |files|,
                   "Analyzed " + NatToString(analyzed) + " out of " + NatToString(|files|) + " resumes");
  }
}

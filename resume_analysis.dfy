// frontend/src/components/ResumeAnalysis.tsx: the single-resume analyzer
// with the job sidebar and the "add to job" dialog. The page state is a
// class; each request is given its reply and the methods return what they
// would send and the alert they would raise.

module ResumeAnalysis {
  import opened Common
  import Js
  import BatchResumeAnalysis

  /** A picked file, by name. */
  datatype File = File(name: string)

  /** The fields of an analysis the page reads. */
  datatype Analysis = Analysis(overallScore: int, hiringRecommendation: string)

  /** The fields of a job the page reads. */
  datatype Job = Job(id: int, title: string)

  const AnalyzeFailed := "Failed to analyze resume. Please try again."
  const AnalyzeErrorPrefix := "Error analyzing resume: "
  const NoCandidate := "No candidate analysis found. Please analyze a resume first."
  const AddedToJob := "Candidate added to job successfully!"
  const AddFailed := "Failed to add candidate to job"
  const AddError := "Error adding candidate to job"

  /** How the upload ends: it threw, or it replied with a status, the analysis, the candidate id and a message. */
  datatype UploadReply =
    | Threw
    | Replied(status: string, analysis: Analysis, candidateId: Option<int>, message: Js.Value)

  /** How a plain request ends: it threw, or came back ok or not. */
  datatype Reply = Failed | Accepted | Refused

  /** `POST /api/jobs/{jobId}/candidates/{candidateId}` with its JSON body's `vehicle_status`. */
  datatype AddRequest = AddRequest(jobId: int, candidateId: int, vehicleStatus: string)

  /** The form posted to `/api/resume/upload`. */
  datatype UploadForm = UploadForm(resume: File, position: string, requiredYearsExperience: string)

  /** The badge of the analysis: the same rule as the batch page's. */
  function Badge(a: Analysis): (b: BatchResumeAnalysis.Badge)
    ensures b == BatchResumeAnalysis.Success <==> Contains(a.hiringRecommendation, "YES")
  {
    BatchResumeAnalysis.RecommendationTypeCases(a.hiringRecommendation);
    BatchResumeAnalysis.RecommendationType(a.hiringRecommendation)
  }

  /** The sidebar keeps the first five jobs of the list, in order. */
  function Preview(jobs: seq<Job>): (r: seq<Job>)
    ensures |r| == if |jobs| < 5 then |jobs| else 5
    ensures forall i :: 0 <= i < |r| ==> r[i] == jobs[i]
  {
    if |jobs| <= 5 then jobs else jobs[..5]
  }

  class Page {
    var selectedFile: Option<File>
    var selectedPosition: string
    var requiredYearsExperience: real
    var isAnalyzing: bool
    var analysisResult: Option<Analysis>
    var jobs: seq<Job>
    var selectedJobForAdd: Option<int>
    var addToJobOpen: bool
    var candidateId: Option<int>

    constructor ()
      ensures selectedFile.None? && selectedPosition == "hvac-technician" && requiredYearsExperience == 2.0
      ensures !isAnalyzing && analysisResult.None? && jobs == []
      ensures selectedJobForAdd.None? && !addToJobOpen && candidateId.None?
    {
      selectedFile := None;
      selectedPosition := "hvac-technician";
      requiredYearsExperience := 2.0;
      isAnalyzing := false;
      analysisResult := None;
      jobs := [];
      selectedJobForAdd := None;
      addToJobOpen := false;
      candidateId := None;
    }

    /** Picking or dropping files keeps the first one; an empty pick keeps the current file. */
    method SelectFiles(files: seq<File>)
      modifies `selectedFile
      ensures files != [] ==> selectedFile == Some(files[0])
      ensures files == [] ==> selectedFile == old(selectedFile)
    {
      if files != [] {
        selectedFile := Some(files[0]);
      }
    }

    /**
     * `handleAnalyze`, given how the upload ends. Without a file nothing is
     * posted and nothing changes. A `success` reply shows its analysis and
     * takes its candidate id when that is truthy (a reply without one keeps
     * the id of an earlier analysis); another reply raises its message, a
     * throw the fixed alert. `isAnalyzing` is false afterwards.
     */
    method HandleAnalyze(reply: UploadReply) returns (form: Option<UploadForm>, alert: Option<string>)
      modifies `isAnalyzing, `analysisResult, `candidateId
      ensures selectedFile.None? ==>
        form.None? && alert.None? && isAnalyzing == old(isAnalyzing)
        && analysisResult == old(analysisResult) && candidateId == old(candidateId)
      ensures selectedFile.Some? ==>
        form == Some(UploadForm(selectedFile.value, selectedPosition, Js.NumberToString(requiredYearsExperience)))
        && !isAnalyzing
      ensures selectedFile.Some? && reply.Replied? && reply.status == "success" ==>
        analysisResult == Some(reply.analysis) && alert.None?
        && candidateId == (if reply.candidateId.Some? && reply.candidateId.value != 0 then reply.candidateId else old(candidateId))
      ensures selectedFile.Some? && reply.Replied? && reply.status != "success" ==>
        analysisResult == old(analysisResult) && candidateId == old(candidateId)
        && alert == Some(AnalyzeErrorPrefix + Js.ToText(reply.message))
      ensures selectedFile.Some? && reply.Threw? ==>
        analysisResult == old(analysisResult) && candidateId == old(candidateId) && alert == Some(AnalyzeFailed)
    {
      form := None;
      alert := None;
      if selectedFile.None? {
        return;
      }
      isAnalyzing := true;
      form := Some(UploadForm(selectedFile.value, selectedPosition, Js.NumberToString(requiredYearsExperience)));
      match reply {
        case Threw =>
          alert := Some(AnalyzeFailed);
        case Replied(status, analysis, id, message) =>
          if status == "success" {
            analysisResult := Some(analysis);
            if id.Some? && id.value != 0 {
              candidateId := id;
            }
          } else {
            alert := Some(AnalyzeErrorPrefix + Js.ToText(message));
          }
      }
      isAnalyzing := false;
    }

    /** `New Analysis`: no file, no result, no candidate. */
    method HandleNewAnalysis()
      modifies `selectedFile, `analysisResult, `candidateId
      ensures selectedFile.None? && analysisResult.None? && candidateId.None?
    {
      selectedFile := None;
      analysisResult := None;
      candidateId := None;
    }

    /** `loadJobs`, given the listed jobs of a `success` reply: the sidebar keeps the first five. */
    method LoadJobs(reply: Option<seq<Job>>)
      modifies `jobs
      ensures reply.Some? ==> jobs == Preview(reply.value)
      ensures reply.None? ==> jobs == old(jobs)
    {
      if reply.Some? {
        jobs := if |reply.value| <= 5 then reply.value else reply.value[..5];
      }
    }

    /** `Add to Job`: without a (truthy) candidate id it alerts and the dialog stays closed; otherwise the dialog opens. */
    method HandleAddToJob() returns (alert: Option<string>)
      modifies `addToJobOpen
      ensures candidateId.None? || candidateId.value == 0 ==> alert == Some(NoCandidate) && addToJobOpen == old(addToJobOpen)
      ensures candidateId.Some? && candidateId.value != 0 ==> alert.None? && addToJobOpen
    {
      if candidateId.None? || candidateId.value == 0 {
        alert := Some(NoCandidate);
        return;
      }
      alert := None;
      addToJobOpen := true;
    }

    /**
     * `handleConfirmAddToJob`, given how the request ends. Without a job and
     * a candidate (both truthy) nothing is sent. Otherwise the pair is sent
     * with the vehicle status `unknown`;
     * an ok reply alerts success, closes the dialog and clears the job
     * choice, a refused or failed one alerts and keeps both.
     */
    method HandleConfirmAddToJob(reply: Reply) returns (request: Option<AddRequest>, alert: Option<string>)
      modifies `addToJobOpen, `selectedJobForAdd
      ensures selectedJobForAdd == old(selectedJobForAdd) || (reply.Accepted? && selectedJobForAdd.None?)
      ensures old(selectedJobForAdd).None? || old(selectedJobForAdd).value == 0 || candidateId.None? || candidateId.value == 0 ==>
        request.None? && alert.None? && addToJobOpen == old(addToJobOpen) && selectedJobForAdd == old(selectedJobForAdd)
      ensures request.Some? <==> old(selectedJobForAdd).Some? && old(selectedJobForAdd).value != 0 && candidateId.Some? && candidateId.value != 0
      ensures request.Some? ==> request.value == AddRequest(old(selectedJobForAdd).value, candidateId.value, "unknown")
      ensures request.Some? && reply.Accepted? ==> alert == Some(AddedToJob) && !addToJobOpen && selectedJobForAdd.None?
      ensures request.Some? && reply.Refused? ==> alert == Some(AddFailed) && addToJobOpen == old(addToJobOpen) && selectedJobForAdd == old(selectedJobForAdd)
      ensures request.Some? && reply.Failed? ==> alert == Some(AddError) && addToJobOpen == old(addToJobOpen) && selectedJobForAdd == old(selectedJobForAdd)
    {
      request := None;
      alert := None;
      if selectedJobForAdd.None? || selectedJobForAdd.value == 0 || candidateId.None? || candidateId.value == 0 {
        return;
      }
      request := Some(AddRequest(selectedJobForAdd.value, candidateId.value, "unknown"));
      match reply {
        case Accepted =>
          alert := Some(AddedToJob);
          addToJobOpen := false;
          selectedJobForAdd := None;
        case Refused =>
          alert := Some(AddFailed);
        case Failed =>
          alert := Some(AddError);
      }
    }
  }
}

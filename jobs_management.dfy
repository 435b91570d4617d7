// frontend/src/components/JobsManagement.tsx: the recruiter's page with the
// job list on the left and the selected job's candidate pipeline on the
// right. The page state is a class; each handler is given whether its
// request succeeded and returns the request it makes.

module JobsManagement {
  import opened Common

  /** The pipeline tabs. */
  datatype Tab = All | Approved | Contacted | Backup | Rejected

  /** The `pipeline_status` a tab asks for. */
  function TabStatus(t: Tab): (s: string)
  {
    match t
    case All => "all"
    case Approved => "approved"
    case Contacted => "contacted"
    case Backup => "backup"
    case Rejected => "rejected"
  }

  /** The fields of a job the page reads. */
  datatype Job = Job(id: int, title: string, location: string)

  /** The fields of a pipeline row the page reads. */
  datatype Candidate = Candidate(id: int, tier: string, starRating: real)

  // ---------------------------------------------------------------------
  // loadCandidates query
  // ---------------------------------------------------------------------

  /** The query string of `loadCandidates`, as its (name, value) pairs in order. */
  function CandidateParams(tab: Tab, filterTier: string, sortBy: string): (ps: seq<(string, string)>)
  {
    (if tab != All then [("pipeline_status", TabStatus(tab))] else [])
    + (if filterTier != "all" then [("tier", filterTier)] else [])
    + [("sort_by", sortBy)]
  }

  /** The names a query carries. */
  function ParamNames(ps: seq<(string, string)>): (names: set<string>)
    ensures forall p :: p in ps ==> p.0 in names
    ensures forall n :: n in names ==> exists p :: p in ps && p.0 == n
  {
    set p | p in ps :: p.0
  }

  /**
   * `pipeline_status` is sent exactly when the tab is not `all`, and with the
   * tab's status; `tier` exactly when the filter is not `all`, and with the
   * filter; `sort_by` is always the last pair; nothing else is sent.
   */
  lemma CandidateParamsRules(tab: Tab, filterTier: string, sortBy: string)
    ensures var ps := CandidateParams(tab, filterTier, sortBy);
      && ("pipeline_status" in ParamNames(ps) <==> tab != All)
      && (tab != All ==> ps[0] == ("pipeline_status", TabStatus(tab)))
      && ("tier" in ParamNames(ps) <==> filterTier != "all")
      && (filterTier != "all" ==> ("tier", filterTier) in ps)
      && ps[|ps| - 1] == ("sort_by", sortBy)
      && ParamNames(ps) <= {"pipeline_status", "tier", "sort_by"}
      && |ps| == 1 + (if tab != All then 1 else 0) + (if filterTier != "all" then 1 else 0)
  {
    var ps := CandidateParams(tab, filterTier, sortBy);
    assert ("sort_by", sortBy) in ps;
    if tab != All {
      assert ps[0] == ("pipeline_status", TabStatus(tab));
    }
    if filterTier != "all" {
      assert ("tier", filterTier) in ps;
    }
  }

  // ---------------------------------------------------------------------
  // Selection, stars, tiers
  // ---------------------------------------------------------------------

  /** `toggleCandidateSelection` on a set. */
  function Toggled(selection: set<int>, id: int): (r: set<int>)
  {
    if id in selection then selection - {id} else selection + {id}
  }

  /** The toggle flips the membership of `id` only, and toggling twice restores the selection. */
  lemma ToggleFlips(selection: set<int>, id: int)
    ensures id in Toggled(selection, id) <==> id !in selection
    ensures forall x :: x != id ==> (x in Toggled(selection, id) <==> x in selection)
    ensures Toggled(Toggled(selection, id), id) == selection
  {
  }

  /** The full star and the half mark exactly as the file spells them (a mis-decoded star and one half). */
  const FullStar := "‚≠ê"
  const HalfMark := "¬Ω"

  /** `s.repeat(n)`. */
  function Repeat(s: string, n: nat): (r: string)
    ensures |r| == n * |s|
    ensures forall i :: 0 <= i < |r| ==> r[i] in s
  {
    if n == 0 then "" else s + Repeat(s, n - 1)
  }

  /** `Math.floor`. */
  function Floor(x: real): (k: int)
    ensures k as real <= x < k as real + 1.0
  {
    x.Floor
  }

  /**
   * `getStars`: `repeat` throws for a negative count, so a negative rating
   * gives no text. `rating % 1` is the fraction for a rating that is not
   * negative.
   */
  function Stars(rating: real): (r: Option<string>)
  {
    if Floor(rating) < 0 then None
    else Some(Repeat(FullStar, Floor(rating)) + (if rating - Floor(rating) as real >= 0.5 then HalfMark else ""))
  }

  /**
   * For a rating that is not negative, the text is `k` full stars, `k` the
   * whole part of the rating, followed by the half mark exactly when the
   * fraction is at least one half; a negative rating throws.
   */
  lemma StarsShape(rating: real)
    ensures Stars(rating).Some? <==> rating >= 0.0
    ensures rating >= 0.0 ==>
      exists k: nat :: k as real <= rating < k as real + 1.0
        && StartsWith(Stars(rating).value, Repeat(FullStar, k))
        && (|Stars(rating).value| == k * |FullStar| + |HalfMark| <==> rating - k as real >= 0.5)
        && (|Stars(rating).value| == k * |FullStar| <==> rating - k as real < 0.5)
  {
    if rating >= 0.0 {
      var k: nat := Floor(rating);
      var r := Stars(rating).value;
      assert r[..|Repeat(FullStar, k)|] == Repeat(FullStar, k);
    }
  }

  /** The candidates of one tier, in page order. */
  function OfTier(cs: seq<Candidate>, tier: string): (r: seq<Candidate>)
    ensures |r| <= |cs|
    ensures forall c :: c in r <==> c in cs && c.tier == tier
  {
    if cs == [] then []
    else if cs[0].tier == tier then [cs[0]] + OfTier(cs[1..], tier)
    else OfTier(cs[1..], tier)
  }

  /** The candidates in none of the three tiers. */
  function Untiered(cs: seq<Candidate>): (r: seq<Candidate>)
    ensures forall c :: c in r <==> c in cs && c.tier !in {"green", "yellow", "red"}
  {
    if cs == [] then []
    else if cs[0].tier !in {"green", "yellow", "red"} then [cs[0]] + Untiered(cs[1..])
    else Untiered(cs[1..])
  }

  /** `candidatesByTier`. */
  datatype ByTier = ByTier(green: seq<Candidate>, yellow: seq<Candidate>, red: seq<Candidate>)

  function CandidatesByTier(cs: seq<Candidate>): (b: ByTier)
  {
    ByTier(OfTier(cs, "green"), OfTier(cs, "yellow"), OfTier(cs, "red"))
  }

  /**
   * The three lists share no candidate; a candidate is in the list of its
   * own tier, and one whose tier is anything else is in none of them; every
   * candidate is counted once between the lists and the rest.
   */
  lemma {:induction false} ByTierPartition(cs: seq<Candidate>)
    ensures var b := CandidatesByTier(cs);
      && (forall c :: c in b.green ==> c !in b.yellow && c !in b.red)
      && (forall c :: c in b.yellow ==> c !in b.red)
      && (forall c :: c in cs && c.tier !in {"green", "yellow", "red"} ==> c !in b.green && c !in b.yellow && c !in b.red)
      && |b.green| + |b.yellow| + |b.red| + |Untiered(cs)| == |cs|
  {
    if cs != [] {
      ByTierPartition(cs[1..]);
      assert cs == [cs[0]] + cs[1..];
    }
  }

  // ---------------------------------------------------------------------
  // The page
  // ---------------------------------------------------------------------

  /** The body of `POST /api/pipeline/bulk-update`: a bulk status change. */
  datatype BulkUpdate = BulkUpdate(candidatePipelineIds: set<int>, status: string)

  /** `PUT /api/pipeline/{candidatePipelineId}/status` with body `{ status }`. */
  datatype StatusUpdate = StatusUpdate(candidatePipelineId: int, status: string)

  /**
   * `POST /api/pipeline/{candidatePipelineId}/message`: the job's title and
   * location are absent (`undefined`, so left out of the JSON) when no job is
   * selected.
   */
  datatype MessageRequest = MessageRequest(
    candidatePipelineId: int,
    messageType: string,
    jobTitle: Option<string>,
    jobLocation: Option<string>,
    schedulingLink: string)

  /** `GET /api/jobs/{jobId}?{query}`: the job's candidates for the current view. */
  datatype CandidatesRequest = CandidatesRequest(jobId: int, query: seq<(string, string)>)

  /** The scheduling link every message carries. */
  const FixedSchedulingLink := "https://calendly.com/your-link"

  class Page {
    var jobs: seq<Job>
    var selectedJob: Option<Job>
    var candidates: seq<Candidate>
    var activeTab: Tab
    var selectedCandidates: set<int>
    var filterTier: string
    var sortBy: string
    var messageDropdownOpen: Option<int>
    var leftPanelCollapsed: bool

    /** The page as it mounts. */
    constructor ()
      ensures jobs == [] && selectedJob.None? && candidates == [] && activeTab == All
      ensures selectedCandidates == {} && filterTier == "all" && sortBy == "tier_score"
      ensures messageDropdownOpen.None? && !leftPanelCollapsed
    {
      jobs := [];
      selectedJob := None;
      candidates := [];
      activeTab := All;
      selectedCandidates := {};
      filterTier := "all";
      sortBy := "tier_score";
      messageDropdownOpen := None;
      leftPanelCollapsed := false;
    }

    /**
     * `loadJobs`, given the listed jobs when the reply's status is
     * `success`: they replace the list, and the first is selected when none
     * was. Any other reply changes nothing.
     */
    method LoadJobs(reply: Option<seq<Job>>)
      modifies `jobs, `selectedJob
      ensures reply.None? ==> jobs == old(jobs) && selectedJob == old(selectedJob)
      ensures reply.Some? ==> jobs == reply.value
      ensures reply.Some? && |reply.value| > 0 && old(selectedJob).None? ==> selectedJob == Some(reply.value[0])
      ensures !(reply.Some? && |reply.value| > 0 && old(selectedJob).None?) ==> selectedJob == old(selectedJob)
    {
      if reply.Some? {
        jobs := reply.value;
        if |reply.value| > 0 && selectedJob.None? {
          selectedJob := Some(reply.value[0]);
        }
      }
    }

    /**
     * `loadCandidates(jobId)`: the request it sends, for that job with the
     * query of the current tab, filter and sort; a `success` reply replaces
     * the candidates, any other keeps them.
     */
    method LoadCandidates(jobId: int, reply: Option<seq<Candidate>>) returns (request: CandidatesRequest)
      modifies `candidates
      ensures request == CandidatesRequest(jobId, CandidateParams(activeTab, filterTier, sortBy))
      ensures candidates == if reply.Some? then reply.value else old(candidates)
    {
      request := CandidatesRequest(jobId, CandidateParams(activeTab, filterTier, sortBy));
      if reply.Some? {
        candidates := reply.value;
      }
    }

    /** The selection checkbox of one candidate. */
    method ToggleCandidateSelection(id: int)
      modifies `selectedCandidates
      ensures selectedCandidates == Toggled(old(selectedCandidates), id)
    {
      if id in selectedCandidates {
        selectedCandidates := selectedCandidates - {id};
      } else {
        selectedCandidates := selectedCandidates + {id};
      }
    }

    /** The message button: the same candidate's dropdown closes, any other opens. */
    method ToggleMessageDropdown(id: int)
      modifies `messageDropdownOpen
      ensures old(messageDropdownOpen) == Some(id) ==> messageDropdownOpen.None?
      ensures old(messageDropdownOpen) != Some(id) ==> messageDropdownOpen == Some(id)
    {
      messageDropdownOpen := if messageDropdownOpen == Some(id) then None else Some(id);
    }

    /**
     * `handleCandidateAction`: the new status is sent for that pipeline
     * entry; an ok reply clears the selection and reloads the selected job's
     * candidates, which is returned as that job; a failed one changes nothing.
     */
    method HandleCandidateAction(candidatePipelineId: int, action: string, ok: bool)
      returns (request: StatusUpdate, reload: Option<Job>)
      modifies `selectedCandidates
      ensures request == StatusUpdate(candidatePipelineId, action)
      ensures ok ==> selectedCandidates == {} && reload == selectedJob
      ensures !ok ==> selectedCandidates == old(selectedCandidates) && reload.None?
    {
      request := StatusUpdate(candidatePipelineId, action);
      reload := None;
      if ok {
        reload := selectedJob;
        selectedCandidates := {};
      }
    }

    /**
     * `handleBulkAction`: with nothing selected nothing is sent and nothing
     * changes; otherwise the selection is sent with the status, and an ok
     * reply clears it and reloads.
     */
    method HandleBulkAction(action: string, ok: bool) returns (request: Option<BulkUpdate>, reload: Option<Job>)
      modifies `selectedCandidates
      ensures old(selectedCandidates) == {} ==> request.None? && reload.None? && selectedCandidates == {}
      ensures old(selectedCandidates) != {} ==> request == Some(BulkUpdate(old(selectedCandidates), action))
      ensures old(selectedCandidates) != {} && ok ==> selectedCandidates == {} && reload == selectedJob
      ensures !ok ==> selectedCandidates == old(selectedCandidates) && reload.None?
    {
      request := None;
      reload := None;
      if selectedCandidates == {} {
        return;
      }
      request := Some(BulkUpdate(selectedCandidates, action));
      if ok {
        reload := selectedJob;
        selectedCandidates := {};
      }
    }

    /**
     * `handleSendMessage`: the message type is sent with the selected job's
     * title and location and the fixed scheduling link; an ok reply closes
     * the dropdown and reloads; the selection is kept either way.
     */
    method HandleSendMessage(candidatePipelineId: int, messageType: string, ok: bool)
      returns (request: MessageRequest, reload: Option<Job>)
      modifies `messageDropdownOpen
      ensures request.candidatePipelineId == candidatePipelineId && request.messageType == messageType
      ensures request.schedulingLink == FixedSchedulingLink
      ensures selectedJob.Some? ==>
                request.jobTitle == Some(selectedJob.value.title) && request.jobLocation == Some(selectedJob.value.location)
      ensures selectedJob.None? ==> request.jobTitle.None? && request.jobLocation.None?
      ensures ok ==> messageDropdownOpen.None? && reload == selectedJob
      ensures !ok ==> messageDropdownOpen == old(messageDropdownOpen) && reload.None?
    {
      var title := if selectedJob.Some? then Some(selectedJob.value.title) else None;
      var location := if selectedJob.Some? then Some(selectedJob.value.location) else None;
      request := MessageRequest(candidatePipelineId, messageType, title, location, FixedSchedulingLink);
      reload := None;
      if ok {
        messageDropdownOpen := None;
        reload := selectedJob;
      }
    }
  }
}

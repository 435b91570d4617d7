// frontend/src/components/CandidateListScreen.tsx: the candidates of one job
// and one tier, reached as `?tier=…&jobId=…`. The screen state is a class;
// each request is given its reply. The card list, the subtitle and the name
// shown on a card are functions of that state.

module CandidateListScreen {
  import opened Common

  /** The fields of a listed candidate the screen reads or updates. */
  datatype Candidate = Candidate(pipelineId: int, tier: string, tierScore: int, filename: string,
                                 contactedVia: Option<string>)

  /** One card of the list: the shown name, the score and whether it is expanded. */
  datatype Card = Card(pipelineId: int, name: string, tierScore: int, expanded: bool)

  /** What the screen renders. */
  datatype View =
    | InvalidSelection
    | Listing(title: string, subtitle: string, loadingShown: bool, errorBanner: Option<string>,
              emptyState: bool, cards: seq<Card>)

  const FetchFailed := "Failed to fetch candidates"
  const UnknownError := "An error occurred"
  const InvalidSelectionText := "Invalid selection. Please go back and select a tier and job."

  /** How the candidate listing ends: a list, a non-ok reply, or a throw (with its message when it is an `Error`). */
  datatype CandidatesReply = Listed(candidates: seq<Candidate>) | NotOk | Threw(message: Option<string>)

  /** How the job request ends: the job's title, a non-ok reply, or a throw. */
  datatype JobReply = JobFound(title: string) | JobNotOk | JobThrew

  /** How the contact-status request ends. */
  datatype ContactReply = Updated | NotUpdated | ContactThrew

  /** The body of the contact-status request, with the pipeline it is sent for. */
  datatype ContactUpdate = ContactUpdate(pipelineId: int, isContacted: bool, contactedVia: string)

  /** `tier && jobId`: both query parameters are present and not empty. */
  predicate HasSelection(tier: Option<string>, jobId: Option<string>)
  {
    tier.Some? && tier.value != "" && jobId.Some? && jobId.value != ""
  }

  /** The two requests a valid selection triggers, by path. */
  function CandidatesPath(tier: string, jobId: string): string
  {
    "/api/pipeline/talent-pool?tier=" + tier + "&job_id=" + jobId
  }

  function JobPath(jobId: string): string
  {
    "/api/jobs/" + jobId
  }

  // ---------------------------------------------------------------------
  // The shown name
  // ---------------------------------------------------------------------

  /** Whether the file name ends in `ext` when both are read in lower case; `ext` is lower case. */
  predicate HasExtension(filename: string, ext: string)
  {
    |ext| <= |filename| && ToLower(filename[|filename| - |ext|..]) == ext
  }

  /** Whether a file name ends in `.pdf`, `.doc` or `.docx`, in any letter case. */
  predicate IsDocumentName(filename: string)
  {
    HasExtension(filename, ".pdf") || HasExtension(filename, ".doc") || HasExtension(filename, ".docx")
  }

  /**
   * `filename.replace(/\.(pdf|docx?)$/i, '')`: the shown name is the file
   * name without its document extension. What is removed is exactly one of
   * `.pdf`, `.doc` or `.docx` in some letter case, and something is removed
   * exactly when the name has such an extension.
   */
  function StripDocumentExtension(filename: string): (name: string)
    ensures |name| <= |filename| && name == filename[..|name|]
    ensures name != filename ==> ToLower(filename[|name|..]) in {".pdf", ".doc", ".docx"}
    ensures name == filename <==> !IsDocumentName(filename)
  {
    var n := |filename|;
    if HasExtension(filename, ".docx") then
      filename[..n - 5]
    else if HasExtension(filename, ".pdf") || HasExtension(filename, ".doc") then
      filename[..n - 4]
    else
      filename
  }

  /**
   * A name made of any text followed by a document extension, in any letter
   * case, shows as that text: only the last extension goes (`cv.pdf.doc`
   * shows as `cv.pdf`).
   */
  lemma StripAppendedExtension(base: string, ext: string)
    requires ToLower(ext) == ".pdf" || ToLower(ext) == ".doc" || ToLower(ext) == ".docx"
    ensures StripDocumentExtension(base + ext) == base
  {
    var s := base + ext;
    var n := |s|;
    assert s[n - |ext|..] == ext;
    assert s[..|base|] == base;
    if ToLower(ext) == ".docx" {
      assert HasExtension(s, ".docx");
      assert StripDocumentExtension(s) == s[..n - 5];
    } else {
      assert |ext| == 4 && HasExtension(s, ToLower(ext));
      if 5 <= n {
        assert ToLower(s[n - 5..])[4] == LowerChar(ext[3]) == ToLower(ext)[3] != 'x';
        assert !HasExtension(s, ".docx");
      }
      assert StripDocumentExtension(s) == s[..n - 4];
    }
  }

  // ---------------------------------------------------------------------
  // Expanding a card
  // ---------------------------------------------------------------------

  /** The expanded card after a click on `id`: the clicked card, unless it was the expanded one. */
  function NextExpanded(current: Option<int>, id: int): (next: Option<int>)
    ensures next == Some(id) <==> current != Some(id)
    ensures next.None? <==> current == Some(id)
  {
    if current == Some(id) then None else Some(id)
  }

  /** Two clicks on the same card leave it collapsed, unless it started expanded. */
  lemma ClickTwice(current: Option<int>, id: int)
    ensures NextExpanded(NextExpanded(current, id), id) == if current == Some(id) then Some(id) else None
  {
  }

  // ---------------------------------------------------------------------
  // Contact status
  // ---------------------------------------------------------------------

  /** The contact column after a confirmed update: `'manual'` when contacted, cleared otherwise. */
  function ContactedVia(isContacted: bool): Option<string>
  {
    if isContacted then Some("manual") else None
  }

  /**
   * The `prev.map` of a confirmed update: the candidates with that pipeline
   * id get the new contact column; every other candidate and field stays.
   */
  function Marked(cs: seq<Candidate>, pipelineId: int, isContacted: bool): (r: seq<Candidate>)
    ensures |r| == |cs|
    ensures forall i :: 0 <= i < |cs| && cs[i].pipelineId == pipelineId ==>
      r[i] == cs[i].(contactedVia := ContactedVia(isContacted))
    ensures forall i :: 0 <= i < |cs| && cs[i].pipelineId != pipelineId ==> r[i] == cs[i]
  {
    if cs == [] then []
    else
      [if cs[0].pipelineId == pipelineId then cs[0].(contactedVia := ContactedVia(isContacted)) else cs[0]]
      + Marked(cs[1..], pipelineId, isContacted)
  }

  /** Of two updates of the same pipeline, the later one decides. */
  lemma MarkedLastWins(cs: seq<Candidate>, pipelineId: int, first: bool, second: bool)
    ensures Marked(Marked(cs, pipelineId, first), pipelineId, second) == Marked(cs, pipelineId, second)
  {
    var l, r := Marked(Marked(cs, pipelineId, first), pipelineId, second), Marked(cs, pipelineId, second);
    assert forall i :: 0 <= i < |cs| ==> l[i] == r[i];
  }

  /** Updates of two different pipelines do not interfere. */
  lemma MarkedCommute(cs: seq<Candidate>, p: int, q: int, a: bool, b: bool)
    requires p != q
    ensures Marked(Marked(cs, p, a), q, b) == Marked(Marked(cs, q, b), p, a)
  {
    var l, r := Marked(Marked(cs, p, a), q, b), Marked(Marked(cs, q, b), p, a);
    forall i | 0 <= i < |cs| ensures l[i] == r[i] {
      var m, n := Marked(cs, p, a), Marked(cs, q, b);
      assert l[i] == (if m[i].pipelineId == q then m[i].(contactedVia := ContactedVia(b)) else m[i]);
      assert r[i] == (if n[i].pipelineId == p then n[i].(contactedVia := ContactedVia(a)) else n[i]);
    }
  }

  // ---------------------------------------------------------------------
  // Rendering
  // ---------------------------------------------------------------------

  /** `Showing N <tier> tier candidate(s)`. */
  function Subtitle(count: nat, tier: string): (text: string)
    ensures StartsWith(text, "Showing " + NatToString(count) + " " + tier + " tier candidate")
    ensures EndsWith(text, "candidates") <==> count != 1
  {
    var head := "Showing " + NatToString(count) + " " + tier + " tier candidate";
    var text := head + (if count != 1 then "s" else "");
    assert text[..|head|] == head;
    assert count == 1 ==> text[|text| - 1] == 'e';
    text
  }

  /** The cards of the list, in order. */
  function Cards(cs: seq<Candidate>, expandedId: Option<int>): (cards: seq<Card>)
    ensures |cards| == |cs|
    ensures forall i :: 0 <= i < |cs| ==>
      cards[i] == Card(cs[i].pipelineId, StripDocumentExtension(cs[i].filename), cs[i].tierScore,
                       expandedId == Some(cs[i].pipelineId))
  {
    if cs == [] then []
    else
      [Card(cs[0].pipelineId, StripDocumentExtension(cs[0].filename), cs[0].tierScore, expandedId == Some(cs[0].pipelineId))]
      + Cards(cs[1..], expandedId)
  }

  /** When pipeline ids are distinct, at most one card is expanded. */
  lemma AtMostOneExpanded(cs: seq<Candidate>, expandedId: Option<int>)
    requires forall i, j :: 0 <= i < j < |cs| ==> cs[i].pipelineId != cs[j].pipelineId
    ensures forall i, j ::
      (0 <= i < |cs| && 0 <= j < |cs| && Cards(cs, expandedId)[i].expanded && Cards(cs, expandedId)[j].expanded) ==> i == j
  {
  }

  class Screen {
    const tier: Option<string>
    const jobId: Option<string>
    var candidates: seq<Candidate>
    var jobTitle: string
    var loading: bool
    var error: Option<string>
    var expandedId: Option<int>

    /** The screen for the query parameters `tier` and `jobId`, as it mounts. */
    constructor (tier: Option<string>, jobId: Option<string>)
      ensures this.tier == tier && this.jobId == jobId
      ensures candidates == [] && jobTitle == "" && loading && error.None? && expandedId.None?
    {
      this.tier := tier;
      this.jobId := jobId;
      candidates := [];
      jobTitle := "";
      loading := true;
      error := None;
      expandedId := None;
    }

    /**
     * `fetchCandidates`, given its reply: a list replaces the candidates (an
     * earlier error stays); a non-ok reply or a throw sets the error and
     * keeps the candidates. `loading` is false afterwards.
     */
    method FetchCandidates(reply: CandidatesReply)
      modifies `candidates, `loading, `error
      ensures reply.Listed? ==> candidates == reply.candidates && error == old(error)
      ensures reply.NotOk? ==> candidates == old(candidates) && error == Some(FetchFailed)
      ensures reply.Threw? ==>
        candidates == old(candidates)
        && error == Some(if reply.message.Some? then reply.message.value else UnknownError)
      ensures !loading
    {
      loading := true;
      match reply {
        case Listed(cs) =>
          candidates := cs;
        case NotOk =>
          error := Some(FetchFailed);
        case Threw(message) =>
          error := Some(if message.Some? then message.value else UnknownError);
      }
      loading := false;
    }

    /** `fetchJobDetails`, given its reply: only a found job changes the title. */
    method FetchJobDetails(reply: JobReply)
      modifies `jobTitle
      ensures jobTitle == if reply.JobFound? then reply.title else old(jobTitle)
    {
      if reply.JobFound? {
        jobTitle := reply.title;
      }
    }

    /**
     * The mount effect, given both replies: without a tier and a job id
     * nothing is requested and nothing changes; otherwise the candidates and
     * then the job are requested.
     */
    method Mount(candidatesReply: CandidatesReply, jobReply: JobReply) returns (requested: seq<string>)
      modifies this
      ensures !HasSelection(tier, jobId) ==>
        requested == [] && candidates == old(candidates) && jobTitle == old(jobTitle)
        && loading == old(loading) && error == old(error)
      ensures HasSelection(tier, jobId) ==>
        requested == [CandidatesPath(tier.value, jobId.value), JobPath(jobId.value)] && !loading
        && jobTitle == (if jobReply.JobFound? then jobReply.title else old(jobTitle))
      ensures HasSelection(tier, jobId) && candidatesReply.Listed? ==>
        candidates == candidatesReply.candidates && error == old(error)
      ensures HasSelection(tier, jobId) && !candidatesReply.Listed? ==>
        candidates == old(candidates) && error.Some?
      ensures expandedId == old(expandedId)
    {
      requested := [];
      if HasSelection(tier, jobId) {
        requested := [CandidatesPath(tier.value, jobId.value), JobPath(jobId.value)];
        FetchCandidates(candidatesReply);
        FetchJobDetails(jobReply);
      }
    }

    /** `handleCandidateClick`: the clicked card expands, or collapses when it was the expanded one. */
    method HandleCandidateClick(candidateId: int)
      modifies `expandedId
      ensures expandedId == NextExpanded(old(expandedId), candidateId)
    {
      if expandedId == Some(candidateId) {
        expandedId := None;
      } else {
        expandedId := Some(candidateId);
      }
    }

    /**
     * `handleContactStatusChange`, given how the request ends: the request
     * says whether the value is `contacted`, always as a manual contact; only
     * a confirmed update changes the list, and only the matching pipeline.
     */
    method HandleContactStatusChange(pipelineId: int, value: string, reply: ContactReply) returns (request: ContactUpdate)
      modifies `candidates
      ensures request == ContactUpdate(pipelineId, value == "contacted", "manual")
      ensures reply.Updated? ==> candidates == Marked(old(candidates), pipelineId, value == "contacted")
      ensures !reply.Updated? ==> candidates == old(candidates)
    {
      var isContacted := value == "contacted";
      request := ContactUpdate(pipelineId, isContacted, "manual");
      if reply.Updated? {
        candidates := Marked(candidates, pipelineId, isContacted);
      }
    }

    /**
     * What the screen renders: the invalid-selection view exactly when a
     * parameter is missing; otherwise the title (a default before the job is
     * known), the subtitle, and at most one of the empty state and the cards,
     * neither while loading or after an error.
     */
    function Render(): (v: View)
      reads this
      ensures v.InvalidSelection? <==> !HasSelection(tier, jobId)
      ensures v.Listing? ==>
        v.title == (if jobTitle != "" then jobTitle else "Job Position") + " Candidates"
        && v.subtitle == Subtitle(|candidates|, tier.value)
        && v.loadingShown == loading
        && v.errorBanner == (if error.Some? && error.value != "" then Some("Error loading candidates: " + error.value) else None)
      ensures v.Listing? ==> !(v.emptyState && v.cards != [])
      ensures v.Listing? && (v.emptyState || v.cards != []) ==> !loading && v.errorBanner.None?
      ensures v.Listing? && !loading && v.errorBanner.None? ==>
        v.emptyState == (candidates == []) && v.cards == Cards(candidates, expandedId)
    {
      if !HasSelection(tier, jobId) then InvalidSelection
      else
        var banner := if error.Some? && error.value != "" then Some("Error loading candidates: " + error.value) else None;
        var quiet := !loading && banner.None?;
        Listing((if jobTitle != "" then jobTitle else "Job Position") + " Candidates",
                Subtitle(|candidates|, tier.value),
                loading, banner,
                quiet && candidates == [],
                if quiet then Cards(candidates, expandedId) else [])
    }
  }
}

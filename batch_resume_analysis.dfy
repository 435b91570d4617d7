// frontend/src/components/BatchResumeAnalysis.tsx: the page that uploads
// several resumes at once for one position and lists the analyses that
// succeeded, best first. The page state is a class; the upload is given its
// reply and returns the form it would post and the alert it would raise.

module BatchResumeAnalysis {
  import opened Common
  import Js

  /** A picked file, by name. */
  datatype File = File(name: string)

  /** The fields of one batch result the page reads; a missing analysis or score is `None`. */
  datatype CandidateResult = CandidateResult(id: int, filename: string, status: string, overallScore: Option<int>)

  /** The badge a hiring recommendation gets. */
  datatype Badge = Success | Warning | Info

  /**
   * `getRecommendationType`: a recommendation naming `YES` (so `STRONG_YES`
   * too) is a success; otherwise one naming `NO` (so `PROBABLY_NOT` too) is
   * a warning; anything else is information. ResumeAnalysis.tsx defines the
   * same function.
   */
  function RecommendationType(recommendation: string): (b: Badge)
  {
    if Contains(recommendation, "STRONG_YES") || Contains(recommendation, "YES") then Success
    else if Contains(recommendation, "NO") then Warning
    else Info
  }

  /** The text `"YES"` inside a longer text is found at the same place in it. */
  lemma YesInside(s: string)
    requires Contains(s, "STRONG_YES")
    ensures Contains(s, "YES")
  {
    var i :| 0 <= i <= |s| && OccursAt(s, "STRONG_YES", i);
    assert s[i + 7..i + 10] == s[i..i + 10][7..10] == "STRONG_YES"[7..10] == "YES";
    assert OccursAt(s, "YES", i + 7);
  }

  /**
   * The badge is a success exactly when the text contains `YES`, a warning
   * exactly when it contains `NO` but not `YES`, and information otherwise;
   * the usual values get the badges the page intends.
   */
  lemma RecommendationTypeCases(recommendation: string)
    ensures RecommendationType(recommendation) == Success <==> Contains(recommendation, "YES")
    ensures RecommendationType(recommendation) == Warning <==> !Contains(recommendation, "YES") && Contains(recommendation, "NO")
    ensures RecommendationType(recommendation) == Info <==> !Contains(recommendation, "YES") && !Contains(recommendation, "NO")
  {
    if Contains(recommendation, "STRONG_YES") {
      YesInside(recommendation);
    }
  }

  /** `PROBABLY_NOT` holds `NO` and no `YES`, so it is a warning; `STRONG_YES` is a success. */
  lemma UsualRecommendations()
    ensures RecommendationType("PROBABLY_NOT") == Warning
    ensures RecommendationType("STRONG_YES") == Success
  {
    assert OccursAt("PROBABLY_NOT", "NO", 9);
    assert OccursAt("STRONG_YES", "YES", 7);
    var s := "PROBABLY_NOT";
    forall i | 0 <= i <= |s| - |"YES"|
      ensures !OccursAt(s, "YES", i)
    {
      var w := s[i..i + 3];
      assert w[0] == s[i] && w[1] == s[i + 1];
      assert s[i] != 'Y' || s[i + 1] != 'E';
      assert w != "YES";
    }
    forall i | 0 <= i <= |s| - |"STRONG_YES"|
      ensures !OccursAt(s, "STRONG_YES", i)
    {
      var w := s[i..i + 10];
      assert w[0] == s[i] && s[i] != 'S';
      assert w != "STRONG_YES";
    }
  }

  // ---------------------------------------------------------------------
  // Results view
  // ---------------------------------------------------------------------

  /** `analysis?.overallScore || 0`. */
  function ScoreOrZero(r: CandidateResult): int
  {
    if r.overallScore.Some? then r.overallScore.value else 0
  }

  /** The results whose status is `success`, in order. */
  function Succeeded(results: seq<CandidateResult>): (r: seq<CandidateResult>)
    ensures forall x :: x in r <==> x in results && x.status == "success"
    ensures |r| <= |results|
  {
    if results == [] then []
    else (if results[0].status == "success" then [results[0]] else []) + Succeeded(results[1..])
  }

  /** The cards of the results view. */
  function ShownResults(results: seq<CandidateResult>): (r: seq<CandidateResult>)
  {
    SortDesc(Succeeded(results), ScoreOrZero)
  }

  /**
   * The view shows exactly the successful results, each once per result,
   * the highest score first with a missing score counted as 0; the header
   * count is their number.
   */
  lemma ShownResultsCorrect(results: seq<CandidateResult>)
    ensures forall x :: x in ShownResults(results) <==> x in results && x.status == "success"
    ensures multiset(ShownResults(results)) == multiset(Succeeded(results))
    ensures |ShownResults(results)| == |Succeeded(results)|
    ensures forall i, j :: 0 <= i < j < |ShownResults(results)| ==>
      ScoreOrZero(ShownResults(results)[i]) >= ScoreOrZero(ShownResults(results)[j])
  {
    var s := Succeeded(results);
    SortDescCorrect(s, ScoreOrZero);
    forall x ensures x in ShownResults(results) <==> x in s {
      assert x in ShownResults(results) <==> x in multiset(ShownResults(results));
      assert x in s <==> x in multiset(s);
    }
  }

  // ---------------------------------------------------------------------
  // Form options
  // ---------------------------------------------------------------------

  /** The positions whose title may be read loosely. */
  const FlexiblePositions: set<string> :=
    {"Lead HVAC Technician", "HVAC Dispatcher", "Administrative Assistant", "Customer Service Representative"}

  /** Whether the flexible-title box is shown for the selected position. */
  predicate ShowsFlexibleTitle(position: string)
  {
    position == "Lead HVAC Technician" || position == "HVAC Dispatcher"
    || position == "Administrative Assistant" || position == "Customer Service Representative"
  }

  /** The box is shown for those four positions and no other, so not for the default one. */
  lemma FlexibleTitleFour(position: string)
    ensures ShowsFlexibleTitle(position) <==> position in FlexiblePositions
    ensures !ShowsFlexibleTitle("HVAC Service Technician")
  {
  }

  const DropPrompt := "Drop resumes here or click to browse"

  /**
   * The drop zone's text: the prompt while no file is chosen, otherwise
   * `"N file(s) selected"`, with the plural only for more than one file.
   */
  function UploadText(count: nat): (text: string)
    ensures count == 0 <==> text == DropPrompt
    ensures count > 0 ==> text == NatToString(count) + (if count > 1 then " files" else " file") + " selected"
  {
    if count > 0 then
      var digits := NatToString(count);
      assert DropPrompt[0] == 'D' && !IsDigit('D');
      digits + " file" + (if count > 1 then "s" else "") + " selected"
    else DropPrompt
  }

  /** One chosen file reads in the singular. */
  lemma OneFileSelected()
    ensures UploadText(1) == "1 file selected"
  {
    assert NatToString(1) == "1";
  }

  // ---------------------------------------------------------------------
  // The page
  // ---------------------------------------------------------------------

  const AnalyzeFailed := "Failed to analyze resumes. Please try again."
  const AnalyzeErrorPrefix := "Error analyzing resumes: "

  /** How the upload ends: it threw, or it replied with a status and a message. */
  datatype UploadReply = Threw | Replied(status: string, results: seq<CandidateResult>, message: Js.Value)

  /** The form posted to `/api/resume/upload-batch`. */
  datatype BatchForm = BatchForm(resumes: seq<File>, position: string, requiredYearsExperience: string, flexibleOnTitle: string)

  class Page {
    var selectedFiles: seq<File>
    var isAnalyzing: bool
    var results: seq<CandidateResult>
    var expanded: set<int>
    var selectedPosition: string
    var requiredYearsExperience: real
    var flexibleOnTitle: bool

    /** The page as it opens: no files, two years for an HVAC Service Technician, flexible titles. */
    constructor ()
      ensures selectedFiles == [] && !isAnalyzing && results == [] && expanded == {}
      ensures selectedPosition == "HVAC Service Technician" && requiredYearsExperience == 2.0 && flexibleOnTitle
    {
      selectedFiles := [];
      isAnalyzing := false;
      results := [];
      expanded := {};
      selectedPosition := "HVAC Service Technician";
      requiredYearsExperience := 2.0;
      flexibleOnTitle := true;
    }

    /** Picking or dropping files adds them after the ones already chosen. */
    method AddFiles(files: seq<File>)
      modifies `selectedFiles
      ensures selectedFiles == old(selectedFiles) + files
      ensures |selectedFiles| == |old(selectedFiles)| + |files|
    {
      selectedFiles := selectedFiles + files;
    }

    /** The remove button of file `index`: exactly that file goes; an index outside the list changes nothing. */
    method RemoveFile(index: int)
      modifies `selectedFiles
      ensures 0 <= index < |old(selectedFiles)| ==>
        selectedFiles == old(selectedFiles)[..index] + old(selectedFiles)[index + 1..]
      ensures !(0 <= index < |old(selectedFiles)|) ==> selectedFiles == old(selectedFiles)
    {
      var kept: seq<File> := [];
      var i := 0;
      while i < |selectedFiles|
        invariant 0 <= i <= |selectedFiles|
        invariant kept == if 0 <= index < i then selectedFiles[..index] + selectedFiles[index + 1..i] else selectedFiles[..i]
      {
        if i != index {
          kept := kept + [selectedFiles[i]];
        }
        i := i + 1;
      }
      assert selectedFiles[..i] == selectedFiles;
      selectedFiles := kept;
    }

    /** A card's header: its id is flipped in the set of expanded cards. */
    method ToggleCandidate(id: int)
      modifies `expanded
      ensures id in expanded <==> id !in old(expanded)
      ensures forall x :: x != id ==> (x in expanded <==> x in old(expanded))
    {
      if id in expanded {
        expanded := expanded - {id};
      } else {
        expanded := expanded + {id};
      }
    }

    /** `New Analysis`: no files, no results, nothing expanded; the position and options stay. */
    method HandleNewAnalysis()
      modifies `selectedFiles, `results, `expanded
      ensures selectedFiles == [] && results == [] && expanded == {}
    {
      selectedFiles := [];
      results := [];
      expanded := {};
    }

    /**
     * `handleAnalyze`, given how the upload ends. With no file nothing is
     * posted and nothing changes. Otherwise the files, the position, the
     * years and the flexible-title flag are posted (the flag whether or not
     * its box is shown); a `success` reply replaces the results, another
     * reply raises its message, a throw the fixed alert. `isAnalyzing` is
     * false afterwards.
     */
    method HandleAnalyze(reply: UploadReply) returns (form: Option<BatchForm>, alert: Option<string>)
      modifies `isAnalyzing, `results
      ensures old(selectedFiles) == [] ==> form.None? && alert.None? && results == old(results) && isAnalyzing == old(isAnalyzing)
      ensures selectedFiles != [] ==>
        form == Some(BatchForm(selectedFiles, selectedPosition, Js.NumberToString(requiredYearsExperience),
                               if flexibleOnTitle then "true" else "false"))
        && !isAnalyzing
      ensures selectedFiles != [] && reply.Replied? && reply.status == "success" ==> results == reply.results && alert.None?
      ensures selectedFiles != [] && reply.Replied? && reply.status != "success" ==>
        results == old(results) && alert == Some(AnalyzeErrorPrefix + Js.ToText(reply.message))
      ensures selectedFiles != [] && reply.Threw? ==> results == old(results) && alert == Some(AnalyzeFailed)
    {
      form := None;
      alert := None;
      if selectedFiles == [] {
        return;
      }
      isAnalyzing := true;
      form := Some(BatchForm(selectedFiles, selectedPosition, Js.NumberToString(requiredYearsExperience),
                             if flexibleOnTitle then "true" else "false"));
      match reply {
        case Threw =>
          alert := Some(AnalyzeFailed);
        case Replied(status, rs, message) =>
          if status == "success" {
            results := rs;
          } else {
            alert := Some(AnalyzeErrorPrefix + Js.ToText(message));
          }
      }
      isAnalyzing := false;
    }
  }
}

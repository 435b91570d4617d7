// The control logic of backend-node/services/resumeAnalyzer.js around the AI
// call: which evaluation framework a position selects, the criteria and
// scoring bands each framework returns, the title-flexibility penalty, the
// rubric labels, the PDF-only extension check, the extraction of the JSON
// object from the model's reply and the derived `scoreOutOf10`. The prompt
// text is not modelled; the PDF text, the model's reply and `JSON.parse` are
// parameters.

module ResumeAnalyzer {
  import opened Common
  import opened Js
  import Scoring

  // ---------------------------------------------------------------------
  // getPositionCriteria
  // ---------------------------------------------------------------------

  /** The positions `getPositionCriteria` has an entry for, in source order. */
  const CriteriaTitles: seq<string> := [
    "HVAC Technician", "Lead HVAC Technician", "HVAC Dispatcher", "Administrative Assistant",
    "Customer Service Representative", "HVAC Installer", "Lead HVAC Installer", "Maintenance Technician",
    "Warehouse Associate", "Bookkeeper", "HVAC Sales Representative", "HVAC Service Manager", "Apprentice"
  ]

  /**
   * `getPositionCriteria(position)`, by the title of the entry it returns:
   * the position's own entry, else the `HVAC Technician` entry.
   */
  function PositionCriteriaTitle(position: Value): (title: string)
    ensures title in CriteriaTitles
    ensures position.Str? && position.s in CriteriaTitles ==> title == position.s
    ensures !(position.Str? && position.s in CriteriaTitles) ==> title == "HVAC Technician"
  {
    if position.Str? && position.s in CriteriaTitles then position.s else "HVAC Technician"
  }

  /** `HVAC Service Technician` has no entry of its own and gets the `HVAC Technician` one. */
  lemma ServiceTechnicianCriteriaFallback()
    ensures PositionCriteriaTitle(Str("HVAC Service Technician")) == "HVAC Technician"
  {
    assert forall i :: 0 <= i < |CriteriaTitles| ==> CriteriaTitles[i] != "HVAC Service Technician";
  }

  // ---------------------------------------------------------------------
  // Frameworks
  // ---------------------------------------------------------------------

  datatype Framework =
    | SalesRep | WarehouseAssociate | Bookkeeper | Apprentice | CustomerServiceRep
    | AdminAssistant | Dispatcher | ServiceTech | LeadHvacTech
    | Generic(criteriaTitle: string)

  /** The framework `analyzeResume` picks: by exact position string, else the generic prompt. */
  function SelectFramework(position: Value): (f: Framework)
    ensures f.Generic? ==> f.criteriaTitle == PositionCriteriaTitle(position)
  {
    if position == Str("HVAC Sales Representative") then SalesRep
    else if position == Str("Warehouse Associate") then WarehouseAssociate
    else if position == Str("Bookkeeper") then Bookkeeper
    else if position == Str("Apprentice") || position == Str("HVAC Apprentice") then Apprentice
    else if position == Str("Customer Service Representative") then CustomerServiceRep
    else if position == Str("Administrative Assistant") then AdminAssistant
    else if position == Str("HVAC Dispatcher") then Dispatcher
    else if position == Str("HVAC Service Technician") then ServiceTech
    else if position == Str("Lead HVAC Technician") then LeadHvacTech
    else Generic(PositionCriteriaTitle(position))
  }

  /** The position each dedicated framework is chosen for. */
  lemma FrameworkSelection()
    ensures SelectFramework(Str("Apprentice")) == Apprentice && SelectFramework(Str("HVAC Apprentice")) == Apprentice
    ensures SelectFramework(Str("HVAC Sales Representative")) == SalesRep
    ensures SelectFramework(Str("Warehouse Associate")) == WarehouseAssociate
    ensures SelectFramework(Str("HVAC Service Technician")) == ServiceTech
    ensures SelectFramework(Str("Lead HVAC Technician")) == LeadHvacTech
    ensures SelectFramework(Str("HVAC Dispatcher")) == Dispatcher
  {
  }

  /** Matching is exact: a lower-case spelling of a title takes the generic prompt. */
  lemma FrameworkSelectionIsExact()
    ensures SelectFramework(Str("hvac dispatcher")).Generic?
  {
  }

  /** A title with criteria but no framework of its own takes the generic prompt with its own criteria. */
  lemma InstallerUsesGenericCriteria()
    ensures SelectFramework(Str("HVAC Installer")) == Generic("HVAC Installer")
  {
    assert CriteriaTitles[5] == "HVAC Installer";
  }

  /** A scoring band: the tier and the closed score range it covers. */
  datatype Band = Band(tier: Scoring.Tier, min: int, max: int)

  /** The `scoring` object every dedicated framework returns. */
  const StandardBands: seq<Band> := [Band(Scoring.Green, 80, 100), Band(Scoring.Yellow, 50, 79), Band(Scoring.Red, 0, 49)]

  /**
   * What a framework's criteria builder yields, apart from the prompt text:
   * the `scoring` bands it returns, the `flexibilityPenalty` field it
   * returns (only `getDispatcherCriteria` has one), and the penalty its
   * framework text tells the model to subtract for an equivalent title.
   */
  datatype Criteria = Criteria(bands: seq<Band>, flexibilityPenalty: Option<int>, promptPenalty: Option<int>)

  /** The frameworks whose builder takes `flexibleOnTitle`. */
  predicate HasTitleFlexibility(f: Framework)
  {
    !f.Generic? && f != ServiceTech
  }

  /** `flexibleOnTitle ? 0 : 9`. */
  function FlexibilityPenalty(flexibleOnTitle: bool): (p: int)
    ensures p == 0 || p == 9
    ensures p == 0 <==> flexibleOnTitle
  {
    if flexibleOnTitle then 0 else 9
  }

  /**
   * The criteria of a dedicated framework as the builders return them.
   * Every builder returns the standard bands. Every builder that takes the
   * flag states the penalty in its framework text, but only the dispatcher's
   * also returns it as a field; `getServiceTechnicianCriteria` has neither.
   * The generic prompt uses none of this.
   */
  function FrameworkCriteria(f: Framework, flexibleOnTitle: bool): (c: Option<Criteria>)
    requires !f.Generic?
    ensures c.Some?
    ensures c.value.bands == StandardBands
    ensures HasTitleFlexibility(f) <==> c.value.promptPenalty.Some?
    ensures HasTitleFlexibility(f) ==> c.value.promptPenalty == Some(FlexibilityPenalty(flexibleOnTitle))
    ensures c.value.flexibilityPenalty.Some? <==> f == Dispatcher
    ensures f == Dispatcher ==> c.value.flexibilityPenalty == c.value.promptPenalty
  {
    var promptPenalty := if HasTitleFlexibility(f) then Some(FlexibilityPenalty(flexibleOnTitle)) else None;
    Some(Criteria(StandardBands, if f == Dispatcher then promptPenalty else None, promptPenalty))
  }

  /**
   * The criteria step as the source is written: the Warehouse Associate
   * branch calls `getWarehouseAssociateCriteria`, which the file never
   * defines, so that branch throws a ReferenceError.
   */
  function FrameworkCriteriaAsWritten(f: Framework, flexibleOnTitle: bool): (c: Result<Criteria>)
    requires !f.Generic?
    ensures f != WarehouseAssociate ==> c == Ok(FrameworkCriteria(f, flexibleOnTitle).value)
  {
    if f == WarehouseAssociate then Err(WarehouseReferenceError)
    else Ok(FrameworkCriteria(f, flexibleOnTitle).value)
  }

  /** The message of the ReferenceError the Warehouse Associate branch throws. */
  const WarehouseReferenceError := "getWarehouseAssociateCriteria is not defined"

  /** As written, every Warehouse Associate analysis fails, whatever the flag. */
  lemma WarehouseAssociateAlwaysFails(flexibleOnTitle: bool)
    ensures SelectFramework(Str("Warehouse Associate")) == WarehouseAssociate
    ensures FrameworkCriteriaAsWritten(WarehouseAssociate, flexibleOnTitle).Err?
  {
  }

  /**
   * With the missing builder supplied, every dedicated framework yields
   * criteria; every framework that takes the flag tells the model to take
   * 9 points off a strict title match and none off a flexible one, and only
   * the dispatcher's builder hands that penalty back to the caller.
   */
  lemma EveryFrameworkHasCriteria(f: Framework, flexibleOnTitle: bool)
    requires !f.Generic?
    ensures FrameworkCriteria(f, flexibleOnTitle).Some?
    ensures HasTitleFlexibility(f) ==>
              FrameworkCriteria(f, flexibleOnTitle).value.promptPenalty == Some(if flexibleOnTitle then 0 else 9)
    ensures f != Dispatcher ==> FrameworkCriteria(f, flexibleOnTitle).value.flexibilityPenalty.None?
  {
  }

  /** Which band a score falls in. */
  function BandOf(bands: seq<Band>, score: int): (r: Option<Band>)
    ensures r.Some? ==> r.value in bands && r.value.min <= score <= r.value.max
    ensures r.None? ==> forall b :: b in bands ==> !(b.min <= score <= b.max)
  {
    if bands == [] then None
    else if bands[0].min <= score <= bands[0].max then Some(bands[0])
    else BandOf(bands[1..], score)
  }

  /**
   * The bands are disjoint and cover 0..100, and the band a score falls in
   * is the tier the scoring service gives it.
   */
  lemma StandardBandsPartition(score: int)
    requires 0 <= score <= 100
    ensures BandOf(StandardBands, score).Some?
    ensures forall b :: b in StandardBands && b.min <= score <= b.max ==> b == BandOf(StandardBands, score).value
    ensures BandOf(StandardBands, score).value.tier == Scoring.CalculateTier(score as real)
  {
  }

  /** Every band's range is the scoring service's range for its tier. */
  lemma StandardBandsMatchTierRanges()
    ensures forall b :: b in StandardBands ==> (b.min, b.max) == Scoring.TierRange(b.tier)
  {
  }

  // ---------------------------------------------------------------------
  // generateUnifiedScoringRubric
  // ---------------------------------------------------------------------

  datatype RubricLabels = RubricLabels(factor: string, listed: string, notListed: string)

  /** The labels the rubric uses for its second factor: certifications or skills. */
  function UnifiedRubricLabels(includeCerts: bool): (l: RubricLabels)
    ensures l.notListed == "NO " + l.listed
    ensures includeCerts <==> l.listed == "Certs Listed"
  {
    if includeCerts then RubricLabels("certifications", "Certs Listed", "NO Certs Listed")
    else RubricLabels("relevant skills/software", "Skills Listed", "NO Skills Listed")
  }

  /** Whether a framework's rubric counts certifications; only trade roles do. */
  function RubricIncludesCerts(f: Framework): (counts: Option<bool>)
    ensures counts.None? <==> f.Generic? || f == ServiceTech || f == WarehouseAssociate
  {
    match f
    case SalesRep => Some(true)
    case LeadHvacTech => Some(true)
    case Bookkeeper => Some(false)
    case Apprentice => Some(false)
    case CustomerServiceRep => Some(false)
    case AdminAssistant => Some(false)
    case Dispatcher => Some(false)
    case _ => None
  }

  /**
   * The experience thresholds the rubric names for `requiredYears`: the
   * close-to-required band runs from half to 95% of the requirement.
   */
  function RubricThresholds(requiredYears: real): (t: (real, real, real))
    ensures requiredYears >= 0.0 ==> t.0 <= t.1 <= t.2 == requiredYears
  {
    (requiredYears * 0.5, requiredYears * 0.95, requiredYears)
  }

  // ---------------------------------------------------------------------
  // analyzeResume
  // ---------------------------------------------------------------------

  /** The position of the last occurrence of `c` in `s`, if any. */
  function LastIndexOf(s: string, c: char): (r: Option<nat>)
    ensures r.Some? ==> r.value < |s| && s[r.value] == c && forall j :: r.value < j < |s| ==> s[j] != c
    ensures r.None? ==> c !in s
  {
    LastIndexBefore(s, c, |s|)
  }

  /** The position of the last `c` among the first `i` characters of `s`, if any. */
  function LastIndexBefore(s: string, c: char, i: nat): (r: Option<nat>)
    requires i <= |s|
    ensures r.Some? ==> r.value < i && s[r.value] == c && forall j :: r.value < j < i ==> s[j] != c
    ensures r.None? ==> forall j :: 0 <= j < i ==> s[j] != c
  {
    if i == 0 then None
    else if s[i - 1] == c then Some(i - 1)
    else LastIndexBefore(s, c, i - 1)
  }

  /** The part of a path after its last `/`. */
  function BaseName(path: string): (b: string)
    ensures '/' !in b
    ensures EndsWith(path, b)
  {
    match LastIndexOf(path, '/')
    case None => path
    case Some(k) => path[k + 1..]
  }

  /**
   * `path.extname`: from the last `.` of the base name to its end, or empty
   * when the base name has no `.` past its first character.
   */
  function ExtName(path: string): (e: string)
    ensures e == "" || (e[0] == '.' && '.' !in e[1..])
  {
    var base := BaseName(path);
    match LastIndexOf(base, '.')
    case None => ""
    case Some(k) =>
      if k == 0 then ""
      else
        SuffixFromLast(base, '.', k);
        base[k..]
  }

  /** The extension test that decides whether a file is read at all. */
  predicate IsPdfPath(path: string)
  {
    ToLower(ExtName(path)) == ".pdf"
  }

  /** The suffix from the last `c` starts with `c` and holds no other. */
  lemma SuffixFromLast(s: string, c: char, k: nat)
    requires k < |s| && s[k] == c && forall j :: k < j < |s| ==> s[j] != c
    ensures s[k..][0] == c && c !in s[k..][1..]
  {
    assert s[k..][1..] == s[k + 1..];
  }

  /** The last `c` of `s` is at `k` when `s[k]` is `c` and none follows it. */
  lemma LastIndexOfIs(s: string, c: char, k: nat)
    requires k < |s| && s[k] == c && forall j :: k < j < |s| ==> s[j] != c
    ensures LastIndexOf(s, c) == Some(k)
  {
  }

  /**
   * A file `stem.ext` in directory `dir`, with a non-empty stem and no dot
   * in the extension, has extension `.ext`: only the base name's last dot
   * counts, whatever dots and slashes the directory holds.
   */
  lemma ExtNameOfFile(dir: string, stem: string, ext: string)
    requires stem != [] && '/' !in stem && '/' !in ext && '.' !in ext
    ensures ExtName(dir + "/" + stem + "." + ext) == "." + ext
  {
    var path := dir + "/" + stem + "." + ext;
    var base := stem + "." + ext;
    assert path == dir + "/" + base;
    LastIndexOfIs(path, '/', |dir|);
    assert BaseName(path) == path[|dir| + 1..] == base;
    LastIndexOfIs(base, '.', |stem|);
    assert base[|stem|..] == "." + ext;
  }

  /** A base name without a dot has no extension, so such a file is never read as a PDF. */
  lemma NoDotNotPdf(dir: string, name: string)
    requires '/' !in name && '.' !in name
    ensures ExtName(dir + "/" + name) == ""
    ensures !IsPdfPath(dir + "/" + name)
  {
    var path := dir + "/" + name;
    LastIndexOfIs(path, '/', |dir|);
    assert BaseName(path) == path[|dir| + 1..] == name;
  }

  /** A file is read exactly when its extension is `.pdf` in any case. */
  lemma PdfPathByExtension(dir: string, stem: string, ext: string)
    requires stem != [] && '/' !in stem && '/' !in ext && '.' !in ext
    ensures IsPdfPath(dir + "/" + stem + "." + ext) <==> ToLower(ext) == "pdf"
  {
    ExtNameOfFile(dir, stem, ext);
    DotExtIsPdf(ext);
  }

  /** `.ext` lower-cases to `.pdf` exactly when `ext` lower-cases to `pdf`. */
  lemma DotExtIsPdf(ext: string)
    ensures ToLower("." + ext) == ".pdf" <==> ToLower(ext) == "pdf"
  {
    ToLowerAppend(".", ext);
    assert ToLower(".") == ".";
    var lowered := ToLower(ext);
    assert ("." + lowered)[1..] == lowered;
    assert ".pdf" == "." + "pdf";
  }

  /** The index of the first `c` in `s` at or after `from`. */
  function FirstIndexOf(s: string, c: char, from: nat): (r: Option<nat>)
    requires from <= |s|
    ensures r.Some? ==> from <= r.value < |s| && s[r.value] == c && forall j :: from <= j < r.value ==> s[j] != c
    ensures r.None? ==> forall j :: from <= j < |s| ==> s[j] != c
    decreases |s| - from
  {
    if from == |s| then None
    else if s[from] == c then Some(from)
    else FirstIndexOf(s, c, from + 1)
  }

  /**
   * `text.match(/\{[\s\S]*\}/)`: from the first `{` to the last `}`, when
   * some `}` follows the first `{`.
   */
  function ExtractJsonSpan(text: string): (r: Option<string>)
    ensures r.Some? ==> |r.value| >= 2 && r.value[0] == '{' && r.value[|r.value| - 1] == '}'
    ensures r.None? <==> forall i, j :: 0 <= i < j < |text| && text[i] == '{' ==> text[j] != '}'
  {
    match FirstIndexOf(text, '{', 0)
    case None => None
    case Some(i) =>
      match LastIndexOf(text, '}')
      case None => None
      case Some(j) => if i < j then Some(text[i..j + 1]) else None
  }

  /**
   * The span is the slice of the reply from its first `{` to its last `}`:
   * no `{` comes before it and no `}` after it.
   */
  lemma JsonSpanIsMaximal(text: string) returns (i: nat, j: nat)
    requires ExtractJsonSpan(text).Some?
    ensures i < j < |text| && ExtractJsonSpan(text).value == text[i..j + 1]
    ensures forall k :: 0 <= k < i ==> text[k] != '{'
    ensures forall k :: j < k < |text| ==> text[k] != '}'
  {
    i := FirstIndexOf(text, '{', 0).value;
    j := LastIndexOf(text, '}').value;
  }

  /** `Math.round(overallScore / 10)`; a non-numeric score gives `NaN`. */
  function ScoreOutOf10(overall: Value): (r: Value)
    ensures ToNumber(overall).None? <==> r == NaN
    ensures ToNumber(overall).Some? ==> r == Num(Round(ToNumber(overall).value / 10.0) as real)
  {
    match ToNumber(overall)
    case None => NaN
    case Some(x) => Num(Round(x / 10.0) as real)
  }

  /** On the 0..100 scale the ten-point score lies in 0..10 and never decreases with the score. */
  lemma ScoreOutOf10Bounds(a: real, b: real)
    requires 0.0 <= a <= b <= 100.0
    ensures 0 <= Round(a / 10.0) <= Round(b / 10.0) <= 10
  {
    RoundMonotone(a / 10.0, b / 10.0);
  }

  /**
   * `analysis.scoreOutOf10 = Math.round(analysis.overallScore / 10)`: an
   * object gains the property and keeps every other one.
   */
  function WithScoreOutOf10(analysis: Value): (r: Value)
    ensures analysis.Obj? <==> r.Obj?
    ensures analysis.Obj? ==> Get(r, "scoreOutOf10") == ScoreOutOf10(Get(analysis, "overallScore"))
    ensures analysis.Obj? ==> forall k :: k != "scoreOutOf10" ==> Get(r, k) == Get(analysis, k)
  {
    if analysis.Obj? then Obj(Assign(analysis.entries, "scoreOutOf10", ScoreOutOf10(Get(analysis, "overallScore"))))
    else analysis
  }

  /** What the analyzer was asked, for the AI call. */
  datatype AiRequest = AiRequest(framework: Framework, criteria: Option<Criteria>, requiredYears: real, flexibleOnTitle: bool)

  /**
   * The request `analyzeResume` builds once the PDF text is read, as the
   * source is written: the framework follows the position, a dedicated one
   * brings its builder's criteria, and the Warehouse Associate branch throws
   * its ReferenceError before any request is made.
   */
  function AnalysisRequest(position: Value, requiredYears: real, flexibleOnTitle: bool): (r: Result<AiRequest>)
    ensures r.Err? <==> SelectFramework(position) == WarehouseAssociate
    ensures r.Err? ==> r.error == WarehouseReferenceError
    ensures r.Ok? ==> r.value.framework == SelectFramework(position)
                      && (r.value.framework.Generic? <==> r.value.criteria.None?)
                      && r.value.requiredYears == requiredYears && r.value.flexibleOnTitle == flexibleOnTitle
                      && (!r.value.framework.Generic? ==> r.value.criteria == FrameworkCriteria(r.value.framework, flexibleOnTitle))
  {
    var f := SelectFramework(position);
    if f.Generic? then Ok(AiRequest(f, None, requiredYears, flexibleOnTitle))
    else
      match FrameworkCriteriaAsWritten(f, flexibleOnTitle)
      case Err(e) => Err(e)
      case Ok(c) => Ok(AiRequest(f, Some(c), requiredYears, flexibleOnTitle))
  }

  /**
   * The request with the missing Warehouse Associate builder supplied: every
   * position gets one, and for every other position it is the request the
   * source builds.
   */
  function CorrectedAnalysisRequest(position: Value, requiredYears: real, flexibleOnTitle: bool): (r: AiRequest)
    ensures r.framework == SelectFramework(position)
    ensures r.framework.Generic? <==> r.criteria.None?
    ensures !r.framework.Generic? ==> r.criteria == FrameworkCriteria(r.framework, flexibleOnTitle)
    ensures r.framework != WarehouseAssociate ==> AnalysisRequest(position, requiredYears, flexibleOnTitle) == Ok(r)
  {
    var f := SelectFramework(position);
    AiRequest(f, if f.Generic? then None else FrameworkCriteria(f, flexibleOnTitle), requiredYears, flexibleOnTitle)
  }

  /**
   * `analyzeResume`: only `.pdf` paths are read; the request follows the
   * position, and a Warehouse Associate analysis fails before it; the reply
   * must hold a `{...}` span that parses; the parsed object gets
   * `scoreOutOf10`. `pdfText` is the extracted text, `reply` the model's
   * answer to `request`; failures of either come back as errors, as every
   * exception is rethrown.
   */
  method AnalyzeResume(filePath: string, position: Value, requiredYears: real, flexibleOnTitle: bool,
                       pdfText: Result<string>, reply: AiRequest -> Result<string>, parse: string -> Option<Value>)
    returns (r: Result<Value>, request: Option<AiRequest>)
    ensures !IsPdfPath(filePath) ==> r == Err("Only PDF files are currently supported") && request.None?
    ensures IsPdfPath(filePath) && pdfText.Err? ==> r == Err(pdfText.error) && request.None?
    ensures IsPdfPath(filePath) && pdfText.Ok? && SelectFramework(position) == WarehouseAssociate
            ==> r == Err(WarehouseReferenceError) && request.None?
    ensures IsPdfPath(filePath) && pdfText.Ok? && SelectFramework(position) != WarehouseAssociate ==> request.Some?
    ensures request.Some? ==> Ok(request.value) == AnalysisRequest(position, requiredYears, flexibleOnTitle)
    ensures request.Some? ==> request.value.framework == SelectFramework(position)
                              && request.value.requiredYears == requiredYears
                              && request.value.flexibleOnTitle == flexibleOnTitle
    ensures r.Ok? ==> request.Some? && reply(request.value).Ok?
                      && ExtractJsonSpan(reply(request.value).value).Some?
                      && parse(ExtractJsonSpan(reply(request.value).value).value).Some?
    ensures r.Ok? ==> r.value == WithScoreOutOf10(parse(ExtractJsonSpan(reply(request.value).value).value).value)
    ensures request.Some? && reply(request.value).Ok? && ExtractJsonSpan(reply(request.value).value).None?
            ==> r == Err("Failed to parse AI response")
  {
    request := None;
    if !IsPdfPath(filePath) {
      return Err("Only PDF files are currently supported"), request;
    }
    if pdfText.Err? {
      return Err(pdfText.error), request;
    }
    var built := AnalysisRequest(position, requiredYears, flexibleOnTitle);
    if built.Err? {
      return Err(built.error), request;
    }
    request := Some(built.value);
    var answer := reply(request.value);
    if answer.Err? {
      return Err(answer.error), request;
    }
    var span := ExtractJsonSpan(answer.value);
    if span.None? {
      return Err("Failed to parse AI response"), request;
    }
    var parsed := parse(span.value);
    if parsed.None? {
      return Err("Unexpected token in JSON"), request;
    }
    r := Ok(WithScoreOutOf10(parsed.value));
  }

  /**
   * The upload routes' default slug `hvac-technician` is no framework's
   * position, so it gets the generic prompt with the `HVAC Technician`
   * criteria, the entry the route's comment names.
   */
  lemma DefaultSlugUsesGenericCriteria()
    ensures SelectFramework(Str("hvac-technician")) == Generic("HVAC Technician")
  {
  }

  /** `HVAC Technician` itself has criteria but no dedicated framework. */
  lemma DefaultPositionCriteria()
    ensures SelectFramework(Str("HVAC Technician")) == Generic("HVAC Technician")
  {
    assert CriteriaTitles[0] == "HVAC Technician";
  }
}

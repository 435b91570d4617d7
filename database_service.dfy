// The data-layer logic of backend-node/services/databaseService.js that does
// not depend on the database itself: the value coercions applied before a
// write, the field choices of `analysisService.create`, the SQL text and
// parameter lists the query builders produce, the status chosen by
// `logCommunication`, and the per-job match scoring of
// `evaluateCandidateAcrossAllJobs`. Running the SQL is not modelled; each
// builder returns the text and the parameter list it would hand to `db.query`.
// `JSON.parse` is a parameter (`parse`): `None` stands for a thrown SyntaxError.

module DatabaseService {
  import opened Common
  import opened Js
  import Scoring

  // ---------------------------------------------------------------------
  // Coercions
  // ---------------------------------------------------------------------

  /** `String(v)` for one array element, with `null` and `undefined` as the empty string. */
  function ElementText(v: Value): (s: string)
  {
    if IsNullish(v) then "" else ToText(v)
  }

  function ElementsAsText(items: seq<Value>): (r: seq<Value>)
    ensures |r| == |items|
    ensures forall i :: 0 <= i < |items| ==> r[i] == Str(ElementText(items[i]))
  {
    if items == [] then [] else [Str(ElementText(items[0]))] + ElementsAsText(items[1..])
  }

  /** The tail of `toArray` once strings have been dealt with. */
  function ArrayOrSelf(v: Value): (r: Value)
  {
    if v.Arr? then Arr(ElementsAsText(v.items)) else v
  }

  /** `toArray`: prepares a value for a Postgres `TEXT[]` column. */
  function ToArray(v: Value, parse: string -> Option<Value>): (r: Value)
    ensures IsNullish(v) ==> r == Arr([])
    ensures v.Str? && !StartsWith(v.s, "[") ==> r == Arr([v])
    ensures v.Str? && StartsWith(v.s, "[") && parse(v.s).None? ==> r == Arr([v])
    ensures v.Arr? ==> r.Arr? && |r.items| == |v.items|
                       && forall i :: 0 <= i < |v.items| ==> r.items[i] == Str(ElementText(v.items[i]))
    ensures !v.Str? && !v.Arr? && !IsNullish(v) ==> r == v
  {
    if IsNullish(v) then Arr([])
    else if v.Str? then
      if StartsWith(v.s, "[") then
        match parse(v.s)
        case None => Arr([v])
        case Some(p) => ArrayOrSelf(p)
      else Arr([v])
    else ArrayOrSelf(v)
  }

  /**
   * Once `toArray` has produced a list, applying it again changes nothing:
   * every element is already a string.
   */
  lemma {:induction false} ToArrayIdempotent(v: Value, parse: string -> Option<Value>)
    requires ToArray(v, parse).Arr?
    ensures ToArray(ToArray(v, parse), parse) == ToArray(v, parse)
  {
    var r := ToArray(v, parse);
    assert forall i :: 0 <= i < |r.items| ==> r.items[i].Str?;
    var again := ElementsAsText(r.items);
    assert forall i :: 0 <= i < |r.items| ==> again[i] == Str(ToText(r.items[i])) == r.items[i];
    assert again == r.items;
  }

  /** `fromJSON`: parses strings that look like JSON arrays or objects, keeping the text on failure. */
  function FromJson(v: Value, parse: string -> Option<Value>): (r: Value)
    ensures !v.Str? ==> r == v
    ensures v.Str? && !StartsWith(v.s, "[") && !StartsWith(v.s, "{") ==> r == v
    ensures v.Str? && (StartsWith(v.s, "[") || StartsWith(v.s, "{")) ==>
              r == (if parse(v.s).Some? then parse(v.s).value else v)
  {
    if v.Str? && (StartsWith(v.s, "[") || StartsWith(v.s, "{")) then
      match parse(v.s)
      case None => v
      case Some(p) => p
    else v
  }

  /** `toNumber(value, defaultValue)`. */
  function ToNumberOr(v: Value, default: real): (r: real)
    ensures IsNullish(v) ==> r == default
    ensures !IsNullish(v) && ToNumber(v).None? ==> r == default
    ensures !IsNullish(v) && ToNumber(v).Some? ==> r == ToNumber(v).value
  {
    if IsNullish(v) then default
    else match ToNumber(v)
      case None => default
      case Some(n) => n
  }

  /** `Math.round(x * 10) / 10`: a number with one decimal place, within a half tenth of `x`. */
  function RoundTenth(x: real): (r: real)
    ensures (r * 10.0).Floor as real == r * 10.0
    ensures x - 1.0 / 20.0 < r <= x + 1.0 / 20.0
  {
    var t := Round(x * 10.0);
    assert (t as real / 10.0) * 10.0 == t as real;
    t as real / 10.0
  }

  /** `toDecimal(value, defaultValue)`: `parseFloat`, then rounded to one decimal place. */
  function ToDecimalOr(v: Value, default: real): (r: real)
    ensures IsNullish(v) || ParseFloatValue(v).None? ==> r == default
    ensures !IsNullish(v) && ParseFloatValue(v).Some? ==> r == RoundTenth(ParseFloatValue(v).value)
  {
    if IsNullish(v) then default
    else match ParseFloatValue(v)
      case None => default
      case Some(n) => RoundTenth(n)
  }

  // ---------------------------------------------------------------------
  // analysisService.create
  // ---------------------------------------------------------------------

  /** An object property, or the empty object's `undefined`. */
  function Field(data: Value, key: string): Value { Get(data, key) }

  /** The sub-score of a section object, defaulting as lines 191-194 do. */
  function SectionScore(section: Value, fallback: Value): (r: Value)
    ensures Truthy(section) ==> r == Get(section, "score")
    ensures !Truthy(section) ==> r == fallback
  {
    if Truthy(section) then Get(section, "score") else fallback
  }

  /** `keyStrengths || strengths || []`. */
  function FinalStrengths(data: Value): Value
  {
    Or(Or(Field(data, "keyStrengths"), Field(data, "strengths")), Arr([]))
  }

  /** `concerns || weaknesses || []`. */
  function FinalWeaknesses(data: Value): Value
  {
    Or(Or(Field(data, "concerns"), Field(data, "weaknesses")), Arr([]))
  }

  /** `recommendationSummary ? [recommendationSummary] : (recommendations || [])`. */
  function FinalRecommendations(data: Value): Value
  {
    var recSummary := Field(data, "recommendationSummary");
    if Truthy(recSummary) then Arr([recSummary]) else Or(Field(data, "recommendations"), Arr([]))
  }

  /** `summary || recommendationSummary || 'Resume analyzed'`. */
  function FinalSummary(data: Value): Value
  {
    Or(Or(Field(data, "summary"), Field(data, "recommendationSummary")), Str("Resume analyzed"))
  }

  /** `hiringRecommendation || 'MAYBE'`. */
  function FinalVerdict(data: Value): Value
  {
    Or(Field(data, "hiringRecommendation"), Str("MAYBE"))
  }

  /** The score, two list columns and feedback written for one analysis section. */
  datatype SectionColumns = SectionColumns(score: real, list1: Value, list2: Value, feedback: Value)

  /** The row `analysisService.create` inserts, one field per column group. */
  datatype AnalysisRow = AnalysisRow(
    candidateId: Value, overallScore: real, scoreOutOf10: real, summary: Value,
    technical: SectionColumns, certifications: SectionColumns,
    experienceScore: real, yearsOfExperience: real, relevantExperience: Value, experienceFeedback: Value,
    presentation: SectionColumns,
    strengths: Value, weaknesses: Value, recommendations: Value, hiringRecommendation: Value)

  function SectionColumnsOf(section: Value, fallbackScore: Value, list1: string, list2: string,
                            parse: string -> Option<Value>): (c: SectionColumns)
    ensures Truthy(section) ==> c.score == ToNumberOr(Get(section, "score"), 0.0)
    ensures !Truthy(section) ==> c.score == ToNumberOr(fallbackScore, 0.0) && c.list1 == Arr([]) && c.list2 == Arr([])
                                 && c.feedback == Str("")
  {
    SectionColumns(ToNumberOr(SectionScore(section, fallbackScore), 0.0), ToArray(Get(section, list1), parse),
                   ToArray(Get(section, list2), parse), Or(Get(section, "feedback"), Str("")))
  }

  /**
   * `analysisService.create`: the row written for an analysis in either the
   * old or the new format.
   */
  function AnalysisInsertRow(candidateId: Value, data: Value, parse: string -> Option<Value>): (row: AnalysisRow)
    ensures row.summary == FinalSummary(data) && row.hiringRecommendation == FinalVerdict(data)
    ensures row.strengths == ToArray(FinalStrengths(data), parse)
    ensures row.weaknesses == ToArray(FinalWeaknesses(data), parse)
    ensures row.recommendations == ToArray(FinalRecommendations(data), parse)
    ensures row.candidateId == candidateId
    ensures row.overallScore == ToNumberOr(Field(data, "overallScore"), 0.0)
    ensures row.scoreOutOf10 == ToNumberOr(Field(data, "scoreOutOf10"), 0.0)
    // A present section is written from its own fields.
    ensures var t := Field(data, "technicalSkills");
      Truthy(t) ==> row.technical == SectionColumns(ToNumberOr(Get(t, "score"), 0.0), ToArray(Get(t, "found"), parse),
                                                    ToArray(Get(t, "missing"), parse), Or(Get(t, "feedback"), Str("")))
    ensures var c := Field(data, "certifications");
      Truthy(c) ==> row.certifications == SectionColumns(ToNumberOr(Get(c, "score"), 0.0), ToArray(Get(c, "found"), parse),
                                                         ToArray(Get(c, "recommended"), parse), Or(Get(c, "feedback"), Str("")))
    ensures var e := Field(data, "experience");
      Truthy(e) ==> && row.experienceScore == ToNumberOr(Get(e, "score"), 0.0)
                    && row.yearsOfExperience == ToDecimalOr(Get(e, "yearsOfExperience"), 0.0)
                    && row.relevantExperience == ToArray(Get(e, "relevantExperience"), parse)
                    && row.experienceFeedback == Or(Get(e, "feedback"), Str(""))
    ensures var p := Field(data, "presentationQuality");
      Truthy(p) ==> row.presentation == SectionColumns(ToNumberOr(Get(p, "score"), 0.0), ToArray(Get(p, "strengths"), parse),
                                                       ToArray(Get(p, "improvements"), parse), Or(Get(p, "feedback"), Str("")))
    // A missing section scores the overall score (the certifications 0), with empty lists and feedback.
    ensures !Truthy(Field(data, "technicalSkills")) ==>
              row.technical == SectionColumns(ToNumberOr(Or(Field(data, "overallScore"), Num(0.0)), 0.0), Arr([]), Arr([]), Str(""))
    ensures !Truthy(Field(data, "certifications")) ==> row.certifications == SectionColumns(0.0, Arr([]), Arr([]), Str(""))
    ensures !Truthy(Field(data, "experience")) ==>
              && row.experienceScore == ToNumberOr(Or(Field(data, "overallScore"), Num(0.0)), 0.0)
              && row.yearsOfExperience == ToDecimalOr(Or(Field(data, "totalRelevantYears"), Num(0.0)), 0.0)
              && row.relevantExperience == Arr([]) && row.experienceFeedback == Str("")
    ensures !Truthy(Field(data, "presentationQuality")) ==>
              row.presentation == SectionColumns(ToNumberOr(Or(Field(data, "overallScore"), Num(0.0)), 0.0), Arr([]), Arr([]), Str(""))
  {
    var overall := Field(data, "overallScore");
    var overallOr0 := Or(overall, Num(0.0));
    var exp := Field(data, "experience");
    var years := if Truthy(exp) then Get(exp, "yearsOfExperience")
                 else Or(Field(data, "totalRelevantYears"), Num(0.0));
    AnalysisRow(
      candidateId, ToNumberOr(overall, 0.0), ToNumberOr(Field(data, "scoreOutOf10"), 0.0), FinalSummary(data),
      SectionColumnsOf(Field(data, "technicalSkills"), overallOr0, "found", "missing", parse),
      SectionColumnsOf(Field(data, "certifications"), Num(0.0), "found", "recommended", parse),
      ToNumberOr(SectionScore(exp, overallOr0), 0.0), ToDecimalOr(years, 0.0),
      ToArray(Get(exp, "relevantExperience"), parse), Or(Get(exp, "feedback"), Str("")),
      SectionColumnsOf(Field(data, "presentationQuality"), overallOr0, "strengths", "improvements", parse),
      ToArray(FinalStrengths(data), parse), ToArray(FinalWeaknesses(data), parse),
      ToArray(FinalRecommendations(data), parse), FinalVerdict(data))
  }

  /**
   * How the two analysis formats are merged: the new-format field wins when
   * present, the old one is the fallback, an empty list the last resort; a
   * recommendation summary becomes the single recommendation; the verdict
   * defaults to `MAYBE` and the summary to `Resume analyzed`.
   */
  lemma AnalysisFormatChoice(data: Value)
    ensures Truthy(Field(data, "keyStrengths")) ==> FinalStrengths(data) == Field(data, "keyStrengths")
    ensures !Truthy(Field(data, "keyStrengths")) && Truthy(Field(data, "strengths")) ==>
              FinalStrengths(data) == Field(data, "strengths")
    ensures !Truthy(Field(data, "keyStrengths")) && !Truthy(Field(data, "strengths")) ==> FinalStrengths(data) == Arr([])
    ensures Truthy(Field(data, "concerns")) ==> FinalWeaknesses(data) == Field(data, "concerns")
    ensures Truthy(Field(data, "recommendationSummary")) ==>
              FinalRecommendations(data) == Arr([Field(data, "recommendationSummary")])
    ensures !Truthy(Field(data, "recommendationSummary")) && !Truthy(Field(data, "recommendations")) ==>
              FinalRecommendations(data) == Arr([])
    ensures Truthy(Field(data, "hiringRecommendation")) <==> FinalVerdict(data) == Field(data, "hiringRecommendation")
    ensures !Truthy(Field(data, "hiringRecommendation")) ==> FinalVerdict(data) == Str("MAYBE")
    ensures !Truthy(Field(data, "summary")) && !Truthy(Field(data, "recommendationSummary")) ==>
              FinalSummary(data) == Str("Resume analyzed")
  {
  }

  // ---------------------------------------------------------------------
  // jobService.create / jobService.update
  // ---------------------------------------------------------------------

  /** `jobData.flexible_on_title !== false ? 1 : 0`. */
  function StoredFlexibleFlag(v: Value): (flag: int)
    ensures flag == 0 <==> v == Bool(false)
    ensures flag == 0 || flag == 1
  {
    if v != Bool(false) then 1 else 0
  }

  /** `jobData.required_years_experience || 0`. */
  function StoredRequiredYears(v: Value): (r: Value)
    ensures Truthy(v) ==> r == v
    ensures !Truthy(v) ==> r == Num(0.0)
  {
    Or(v, Num(0.0))
  }

  /** `$n`, the n-th positional parameter of a Postgres query. */
  function Placeholder(n: nat): (s: string)
    ensures |s| >= 2 && s[0] == '$'
  {
    "$" + NatToString(n)
  }

  /** Two placeholders are the same text only when they number the same parameter. */
  lemma PlaceholderInjective(m: nat, n: nat)
    requires Placeholder(m) == Placeholder(n)
    ensures m == n
  {
    assert Placeholder(m)[1..] == NatToString(m);
    assert Placeholder(n)[1..] == NatToString(n);
    NatToStringInjective(m, n);
  }

  datatype Query = Query(text: string, params: seq<Value>)

  /** The keys of `updates` whose value is not `undefined`, in key order. */
  function DefinedEntries(updates: seq<(string, Value)>): (r: seq<(string, Value)>)
    ensures |r| <= |updates|
  {
    if updates == [] then []
    else (if updates[0].1 != Undefined then [updates[0]] else []) + DefinedEntries(updates[1..])
  }

  /** The defined entries are exactly the entries of `updates` whose value is not `undefined`. */
  lemma {:induction false} DefinedEntriesMembers(updates: seq<(string, Value)>)
    ensures forall e :: e in DefinedEntries(updates) <==> e in updates && e.1 != Undefined
  {
    if updates != [] {
      DefinedEntriesMembers(updates[1..]);
      assert updates == [updates[0]] + updates[1..];
    }
  }

  /** `key = $n` for each entry, numbered from `first`. */
  function SetFields(entries: seq<(string, Value)>, first: nat): (r: seq<string>)
    ensures |r| == |entries|
    ensures forall i :: 0 <= i < |entries| ==> r[i] == entries[i].0 + " = " + Placeholder(first + i)
  {
    if entries == [] then [] else [entries[0].0 + " = " + Placeholder(first)] + SetFields(entries[1..], first + 1)
  }

  function ValuesOf(entries: seq<(string, Value)>): (r: seq<Value>)
    ensures |r| == |entries| && forall i :: 0 <= i < |entries| ==> r[i] == entries[i].1
  {
    if entries == [] then [] else [entries[0].1] + ValuesOf(entries[1..])
  }

  /** The UPDATE statement for the given `key = $i` fields, the id bound to `$idIndex`. */
  function UpdateStatement(fields: seq<string>, idIndex: nat): string
  {
    "UPDATE jobs SET " + Join(fields, ", ") + " WHERE id = " + Placeholder(idIndex) + " RETURNING *"
  }

  /**
   * `jobService.update`: one `key = $i` per defined key, numbered from 1 in
   * key order, the id bound last; no statement at all when nothing is defined.
   */
  method JobUpdateQuery(id: Value, updates: seq<(string, Value)>) returns (q: Option<Query>)
    ensures q.None? <==> DefinedEntries(updates) == []
    ensures q.Some? ==>
      var defined := DefinedEntries(updates);
      q.value == Query(UpdateStatement(SetFields(defined, 1), |defined| + 1), ValuesOf(defined) + [id])
  {
    var fields: seq<string> := [];
    var values: seq<Value> := [];
    var paramIndex: nat := 1;
    ghost var defined: seq<(string, Value)> := [];
    var i := 0;
    while i < |updates|
      invariant 0 <= i <= |updates|
      invariant defined == DefinedEntries(updates[..i])
      invariant fields == SetFields(defined, 1) && values == ValuesOf(defined)
      invariant paramIndex == |defined| + 1
    {
      DefinedEntriesAppend(updates[..i], updates[i]);
      assert updates[..i + 1] == updates[..i] + [updates[i]];
      if updates[i].1 != Undefined {
        UpdateFieldStep(defined, updates[i]);
        UpdateValueStep(defined, updates[i]);
        fields := fields + [updates[i].0 + " = " + Placeholder(paramIndex)];
        values := values + [updates[i].1];
        paramIndex := paramIndex + 1;
        defined := defined + [updates[i]];
      } else {
        assert DefinedEntries(updates[..i + 1]) == defined + [];
      }
      i := i + 1;
    }
    assert updates[..i] == updates;
    if |fields| == 0 {
      return None;
    }
    values := values + [id];
    q := Some(Query(UpdateStatement(fields, paramIndex), values));
  }

  lemma {:induction false} DefinedEntriesAppend(a: seq<(string, Value)>, e: (string, Value))
    ensures DefinedEntries(a + [e]) == DefinedEntries(a) + (if e.1 != Undefined then [e] else [])
  {
    if a == [] {
      assert [e][1..] == [];
      assert a + [e] == [e];
    } else {
      assert (a + [e])[1..] == a[1..] + [e];
      DefinedEntriesAppend(a[1..], e);
    }
  }

  /** One more defined key adds one `key = $n` field, numbered after the others, and its value. */
  lemma UpdateFieldStep(defined: seq<(string, Value)>, e: (string, Value))
    ensures SetFields(defined + [e], 1) == SetFields(defined, 1) + [e.0 + " = " + Placeholder(|defined| + 1)]
  {
    var whole, left := SetFields(defined + [e], 1), SetFields(defined, 1);
    var last := e.0 + " = " + Placeholder(|defined| + 1);
    forall i | 0 <= i < |defined| + 1 ensures whole[i] == (left + [last])[i] {
      if i == |defined| {
        assert (defined + [e])[i] == e;
      }
    }
  }

  /** One more entry adds its value last. */
  lemma UpdateValueStep(defined: seq<(string, Value)>, e: (string, Value))
    ensures ValuesOf(defined + [e]) == ValuesOf(defined) + [e.1]
  {
    var whole, left := ValuesOf(defined + [e]), ValuesOf(defined);
    forall i | 0 <= i < |defined| + 1 ensures whole[i] == (left + [e.1])[i] {
      if i == |defined| {
        assert (defined + [e])[i] == e;
      }
    }
  }

  lemma SetFieldsAppend(a: seq<(string, Value)>, b: seq<(string, Value)>, first: nat)
    ensures SetFields(a + b, first) == SetFields(a, first) + SetFields(b, first + |a|)
  {
    var whole, left, right := SetFields(a + b, first), SetFields(a, first), SetFields(b, first + |a|);
    forall i | 0 <= i < |a + b| ensures whole[i] == (left + right)[i] {
      if i >= |a| {
        assert (a + b)[i] == b[i - |a|] && first + i == first + |a| + (i - |a|);
      }
    }
  }

  lemma {:induction false} ValuesOfAppend(a: seq<(string, Value)>, b: seq<(string, Value)>)
    ensures ValuesOf(a + b) == ValuesOf(a) + ValuesOf(b)
  {
    if a == [] {
      assert a + b == b;
    } else {
      assert (a + b)[1..] == a[1..] + b;
      ValuesOfAppend(a[1..], b);
    }
  }

  /**
   * In the UPDATE statement, the field written for the i-th defined key
   * names placeholder `$(i+1)`, which numbers exactly the parameter holding
   * that key's new value; the id placeholder numbers the last parameter.
   */
  lemma JobUpdatePlaceholdersMatch(id: Value, updates: seq<(string, Value)>, i: nat)
    requires i < |DefinedEntries(updates)|
    ensures var defined := DefinedEntries(updates);
      var params := ValuesOf(defined) + [id];
      && SetFields(defined, 1)[i] == defined[i].0 + " = " + Placeholder(i + 1)
      && params[(i + 1) - 1] == defined[i].1
      && params[(|defined| + 1) - 1] == id
  {
  }

  // ---------------------------------------------------------------------
  // candidatePipelineService.bulkUpdateStatus
  // ---------------------------------------------------------------------

  /** `$first,$first+1,...` for n ids. */
  function IdPlaceholders(n: nat, first: nat): (r: seq<string>)
    ensures |r| == n && forall i :: 0 <= i < n ==> r[i] == Placeholder(first + i)
  {
    if n == 0 then [] else [Placeholder(first)] + IdPlaceholders(n - 1, first + 1)
  }

  function BulkUpdateStatement(placeholders: seq<string>): string
  {
    "UPDATE candidate_pipeline SET pipeline_status = $1 WHERE id IN (" + Join(placeholders, ",") + ") RETURNING *"
  }

  /** `bulkUpdateStatus`: the statement and its parameter list. */
  function BulkUpdateStatusQuery(ids: seq<Value>, status: Value): (q: Query)
    ensures q.params == [status] + ids
    ensures q.text == BulkUpdateStatement(IdPlaceholders(|ids|, 2))
  {
    Query(BulkUpdateStatement(IdPlaceholders(|ids|, 2)), [status] + ids)
  }

  /**
   * The i-th id is referenced by placeholder `$(i+2)`, which numbers exactly
   * the parameter holding that id, while `$1` is the status; no two ids share
   * a placeholder.
   */
  lemma BulkUpdatePlaceholdersMatch(ids: seq<Value>, status: Value, i: nat)
    requires i < |ids|
    ensures IdPlaceholders(|ids|, 2)[i] == Placeholder(i + 2)
    ensures BulkUpdateStatusQuery(ids, status).params[(i + 2) - 1] == ids[i]
    ensures BulkUpdateStatusQuery(ids, status).params[0] == status
  {
    var q := BulkUpdateStatusQuery(ids, status);
    assert q.params == [status] + ids;
  }

  /** No two ids share a placeholder. */
  lemma BulkUpdatePlaceholdersDistinct(n: nat, i: nat, j: nat)
    requires i < n && j < n && i != j
    ensures IdPlaceholders(n, 2)[i] != IdPlaceholders(n, 2)[j]
  {
    if IdPlaceholders(n, 2)[i] == IdPlaceholders(n, 2)[j] {
      PlaceholderInjective(2 + i, 2 + j);
    }
  }

  // ---------------------------------------------------------------------
  // findByJobId / getTalentPool
  // ---------------------------------------------------------------------

  /** ` AND <condition> $n`: one filter's clause, bound to parameter n. */
  function Clause(condition: string, n: nat): string
  {
    " AND " + condition + " " + Placeholder(n)
  }

  /** The clause of each filter, numbered from `first`. */
  function FilterClauses(filters: seq<(string, Value)>, first: nat): (s: string)
  {
    if filters == [] then ""
    else Clause(filters[0].0, first) + FilterClauses(filters[1..], first + 1)
  }

  lemma FilterClausesAppend(a: seq<(string, Value)>, e: (string, Value), first: nat)
    ensures FilterClauses(a + [e], first) == FilterClauses(a, first) + Clause(e.0, first + |a|)
  {
    FilterClausesConcat(a, [e], first);
    var clause := Clause(e.0, first + |a|);
    assert FilterClauses([e], first + |a|) == clause + FilterClauses([], first + |a| + 1);
    assert clause + "" == clause;
  }

  lemma {:induction false} FilterClausesConcat(a: seq<(string, Value)>, b: seq<(string, Value)>, first: nat)
    ensures FilterClauses(a + b, first) == FilterClauses(a, first) + FilterClauses(b, first + |a|)
  {
    if a == [] {
      assert a + b == b;
    } else {
      assert (a + b)[1..] == a[1..] + b;
      FilterClausesConcat(a[1..], b, first + 1);
    }
  }

  /** Each filter tested in order: whether it applies, its condition and its value. */
  type FilterTest = (bool, (string, Value))

  /** The conditions whose test passed, in order. */
  function Selected(ts: seq<FilterTest>): (r: seq<(string, Value)>)
    ensures |r| <= |ts|
  {
    if ts == [] then [] else (if ts[0].0 then [ts[0].1] else []) + Selected(ts[1..])
  }

  lemma {:induction false} SelectedAppend(ts: seq<FilterTest>, t: FilterTest)
    ensures Selected(ts + [t]) == Selected(ts) + (if t.0 then [t.1] else [])
  {
    if ts == [] {
      assert ts + [t] == [t];
      assert [t][1..] == [];
    } else {
      assert (ts + [t])[1..] == ts[1..] + [t];
      SelectedAppend(ts[1..], t);
    }
  }

  /** A query under construction: text so far, parameters so far, next placeholder number. */
  ghost predicate Built(query: string, params: seq<Value>, paramIndex: nat, base: string, prefix: seq<Value>,
                        applied: seq<(string, Value)>)
  {
    query == base + FilterClauses(applied, |prefix| + 1) && params == prefix + ValuesOf(applied)
    && paramIndex == |params| + 1
  }

  /** The three statements each filter runs: append the clause, push the value, bump the index. */
  method AppendFilter(query: string, params: seq<Value>, paramIndex: nat, condition: string, value: Value,
                      ghost base: string, ghost prefix: seq<Value>, ghost applied: seq<(string, Value)>)
    returns (query': string, params': seq<Value>, paramIndex': nat)
    requires Built(query, params, paramIndex, base, prefix, applied)
    ensures Built(query', params', paramIndex', base, prefix, applied + [(condition, value)])
  {
    assert paramIndex == |prefix| + 1 + |applied|;
    FilterClausesAppend(applied, (condition, value), |prefix| + 1);
    UpdateValueStep(applied, (condition, value));
    query' := query + Clause(condition, paramIndex);
    assert query' == base + (FilterClauses(applied, |prefix| + 1) + Clause(condition, paramIndex));
    params' := params + [value];
    assert params' == prefix + (ValuesOf(applied) + [value]);
    paramIndex' := paramIndex + 1;
  }

  /** Runs the filters in order; the result is the query with exactly the passing filters. */
  method ApplyFilters(base: string, prefix: seq<Value>, tests: seq<FilterTest>) returns (query: string, params: seq<Value>)
    ensures Built(query, params, |params| + 1, base, prefix, Selected(tests))
  {
    query := base;
    params := prefix;
    var paramIndex: nat := |prefix| + 1;
    var k := 0;
    while k < |tests|
      invariant 0 <= k <= |tests|
      invariant Built(query, params, paramIndex, base, prefix, Selected(tests[..k]))
    {
      assert tests[..k + 1] == tests[..k] + [tests[k]];
      SelectedAppend(tests[..k], tests[k]);
      ghost var applied := Selected(tests[..k]);
      if tests[k].0 {
        query, params, paramIndex := AppendFilter(query, params, paramIndex, tests[k].1.0, tests[k].1.1,
                                                  base, prefix, applied);
        assert Selected(tests[..k + 1]) == applied + [(tests[k].1.0, tests[k].1.1)];
      } else {
        assert Selected(tests[..k + 1]) == applied + [];
        assert applied + [] == applied;
      }
      assert Built(query, params, paramIndex, base, prefix, Selected(tests[..k + 1]));
      k := k + 1;
    }
    assert tests[..k] == tests;
  }

  /** The filters of `findByJobId` that bind a parameter, in the order they are tested. */
  function JobCandidateTests(filters: Value): (ts: seq<FilterTest>)
    ensures |ts| == 3 && forall i :: 0 <= i < 3 ==> (ts[i].0 <==> Truthy(ts[i].1.1))
  {
    [ (Truthy(Get(filters, "tier")), ("cp.tier =", Get(filters, "tier"))),
      (Truthy(Get(filters, "pipeline_status")), ("cp.pipeline_status =", Get(filters, "pipeline_status"))),
      (Truthy(Get(filters, "min_score")), ("cp.tier_score >=", Get(filters, "min_score"))) ]
  }

  const JobCandidatesBase: string :=
    "SELECT cp.*, c.filename, a.overall_score, a.score_out_of_10, a.years_of_experience, "
    + "a.certifications_found, a.hiring_recommendation FROM candidate_pipeline cp "
    + "JOIN candidates c ON cp.candidate_id = c.id LEFT JOIN analyses a ON c.id = a.candidate_id "
    + "WHERE cp.job_id = $1"

  /** The literal flag clause and the ORDER BY of `findByJobId`, as written. */
  function JobCandidatesTail(filters: Value): string
  {
    (if Truthy(Get(filters, "give_them_a_chance")) then " AND cp.give_them_a_chance = 1" else "")
    + " ORDER BY " + ToText(Or(Get(filters, "sort_by"), Str("tier_score")))
    + " " + ToText(Or(Get(filters, "sort_order"), Str("DESC")))
  }

  /**
   * `findByJobId` as written: `$1` is the job id; each truthy filter among
   * tier, pipeline status and minimum score adds one clause and one
   * parameter; the flag filter adds a clause without a parameter; the
   * ORDER BY text is `sort_by` and `sort_order` exactly as given, defaulting
   * to `tier_score DESC`.
   */
  method FindByJobIdQuery(jobId: Value, filters: Value) returns (q: Query)
    ensures var applied := Selected(JobCandidateTests(filters));
      q.params == [jobId] + ValuesOf(applied)
      && q.text == JobCandidatesBase + FilterClauses(applied, 2) + JobCandidatesTail(filters)
  {
    var query, params := ApplyFilters(JobCandidatesBase, [jobId], JobCandidateTests(filters));
    ghost var filtered := query;
    var flag := "";
    if Truthy(Get(filters, "give_them_a_chance")) {
      flag := " AND cp.give_them_a_chance = 1";
    }
    var sortBy := Or(Get(filters, "sort_by"), Str("tier_score"));
    var sortOrder := Or(Get(filters, "sort_order"), Str("DESC"));
    query := query + (flag + " ORDER BY " + ToText(sortBy) + " " + ToText(sortOrder));
    q := Query(query, params);
  }

  /**
   * In a query built by `ApplyFilters`, the clause of the i-th applied filter
   * carries placeholder `$(|prefix|+1+i)`, and that placeholder numbers
   * exactly the parameter holding the filter's value.
   */
  lemma FilterPlaceholdersMatch(base: string, prefix: seq<Value>, applied: seq<(string, Value)>,
                                query: string, params: seq<Value>, i: nat)
    requires Built(query, params, |params| + 1, base, prefix, applied)
    requires i < |applied|
    ensures Contains(query, Clause(applied[i].0, |prefix| + 1 + i))
    ensures params[(|prefix| + 1 + i) - 1] == applied[i].1
  {
    FilterClauseOccurs(base, applied, |prefix| + 1, i);
    assert params == prefix + ValuesOf(applied);
  }

  /** The i-th filter's clause occurs in the text built from the filters. */
  lemma FilterClauseOccurs(base: string, applied: seq<(string, Value)>, first: nat, i: nat)
    requires i < |applied|
    ensures Contains(base + FilterClauses(applied, first), Clause(applied[i].0, first + i))
  {
    FilterClausesSplit(applied, first, i);
    var head := base + FilterClauses(applied[..i], first);
    var clause := Clause(applied[i].0, first + i);
    var rest := FilterClauses(applied[i + 1..], first + i + 1);
    assert base + FilterClauses(applied, first) == head + clause + rest;
    ContainsBetween(head, clause, rest);
  }

  /** The clauses of some filters split around the i-th one. */
  lemma FilterClausesSplit(applied: seq<(string, Value)>, first: nat, i: nat)
    requires i < |applied|
    ensures FilterClauses(applied, first)
            == FilterClauses(applied[..i], first) + (Clause(applied[i].0, first + i) + FilterClauses(applied[i + 1..], first + i + 1))
  {
    assert applied == applied[..i] + ([applied[i]] + applied[i + 1..]);
    FilterClausesConcat(applied[..i], [applied[i]] + applied[i + 1..], first);
    assert ([applied[i]] + applied[i + 1..])[1..] == applied[i + 1..];
  }

  /**
   * `findByJobId` interpolates `sort_by` unchecked: any non-empty text a
   * caller sends lands verbatim in the ORDER BY clause.
   */
  lemma FindByJobIdSortVerbatim(filters: Value, t: string)
    requires Get(filters, "sort_by") == Str(t) && t != ""
    ensures JobCandidatesTail(filters)
            == (if Truthy(Get(filters, "give_them_a_chance")) then " AND cp.give_them_a_chance = 1" else "")
               + " ORDER BY " + t + " " + ToText(Or(Get(filters, "sort_order"), Str("DESC")))
  {
  }

  /** The columns a `findByJobId` caller may sort candidates by. */
  const JobCandidateSortColumns: seq<string> :=
    ["tier_score", "star_rating", "added_at", "pipeline_status", "tier"]

  /**
   * The ORDER BY of `findByJobId` restricted to known columns and the two
   * directions; anything else falls back to `tier_score DESC`.
   */
  function SafeJobCandidatesTail(filters: Value): (tail: string)
    ensures exists column, order :: column in JobCandidateSortColumns && order in ["ASC", "DESC"]
              && tail == (if Truthy(Get(filters, "give_them_a_chance")) then " AND cp.give_them_a_chance = 1" else "")
                         + " ORDER BY " + column + " " + order
  {
    var sortBy := Get(filters, "sort_by");
    var sortOrder := Get(filters, "sort_order");
    var column := if sortBy.Str? && sortBy.s in JobCandidateSortColumns then sortBy.s else "tier_score";
    var order := if sortOrder == Str("ASC") || sortOrder == Str("asc") then "ASC" else "DESC";
    var flag := if Truthy(Get(filters, "give_them_a_chance")) then " AND cp.give_them_a_chance = 1" else "";
    var tail := flag + " ORDER BY " + column + " " + order;
    assert column in JobCandidateSortColumns && order in ["ASC", "DESC"] && tail == flag + " ORDER BY " + column + " " + order;
    tail
  }

  /** `findByJobId` with the ORDER BY restricted as above; filters and parameters are unchanged. */
  method SafeFindByJobIdQuery(jobId: Value, filters: Value) returns (q: Query)
    ensures var applied := Selected(JobCandidateTests(filters));
      q.params == [jobId] + ValuesOf(applied)
      && q.text == JobCandidatesBase + FilterClauses(applied, 2) + SafeJobCandidatesTail(filters)
  {
    var query, params := ApplyFilters(JobCandidatesBase, [jobId], JobCandidateTests(filters));
    q := Query(query + SafeJobCandidatesTail(filters), params);
  }

  /** The talent-pool sort keys a caller may name, and the column each one means. */
  function TalentPoolSortField(sortBy: Value): (column: string)
    ensures sortBy == Str("score") ==> column == "cp.tier_score"
    ensures sortBy == Str("date") ==> column == "c.upload_date"
    ensures sortBy == Str("name") ==> column == "c.filename"
    ensures sortBy == Str("position") ==> column == "j.position_type"
    ensures sortBy !in [Str("score"), Str("date"), Str("name"), Str("position")] ==> column == "cp.tier_score"
  {
    if sortBy == Str("score") then "cp.tier_score"
    else if sortBy == Str("date") then "c.upload_date"
    else if sortBy == Str("name") then "c.filename"
    else if sortBy == Str("position") then "j.position_type"
    else "cp.tier_score"
  }

  /** `filters.sortOrder === 'asc' ? 'ASC' : 'DESC'`. */
  function TalentPoolSortOrder(sortOrder: Value): (order: string)
    ensures order == "ASC" <==> sortOrder == Str("asc")
    ensures order == "ASC" || order == "DESC"
  {
    if sortOrder == Str("asc") then "ASC" else "DESC"
  }

  /** The filters of `getTalentPool`, in the order they are tested. */
  function TalentPoolTests(filters: Value): (ts: seq<FilterTest>)
    ensures |ts| == 6
  {
    [ (Truthy(Get(filters, "tier")), ("cp.tier =", Get(filters, "tier"))),
      (Truthy(Get(filters, "job_id")), ("cp.job_id =", Get(filters, "job_id"))),
      (Truthy(Get(filters, "position")), ("j.position_type =", Get(filters, "position"))),
      (Get(filters, "minScore") != Undefined, ("cp.tier_score >=", Get(filters, "minScore"))),
      (Get(filters, "maxScore") != Undefined, ("cp.tier_score <=", Get(filters, "maxScore"))),
      (Truthy(Get(filters, "status")), ("cp.pipeline_status =", Get(filters, "status"))) ]
  }

  const TalentPoolBase: string :=
    "SELECT cp.id as pipeline_id, cp.candidate_id, cp.job_id, cp.tier, cp.tier_score, cp.star_rating, "
    + "cp.pipeline_status, cp.give_them_a_chance, cp.vehicle_status, cp.ai_summary, cp.contacted_via, "
    + "cp.contacted_at, c.filename, c.file_path, c.status as candidate_status, c.upload_date, "
    + "a.overall_score, a.score_out_of_10, a.summary, a.years_of_experience, a.certifications_found, "
    + "a.hiring_recommendation, a.strengths, a.weaknesses, j.title as job_title, j.position_type, "
    + "j.location as job_location FROM candidate_pipeline cp JOIN candidates c ON cp.candidate_id = c.id "
    + "JOIN jobs j ON cp.job_id = j.id LEFT JOIN analyses a ON c.id = a.candidate_id WHERE 1=1"

  /**
   * `getTalentPool`: placeholders from `$1`, one clause and one parameter per
   * applied filter, then an ORDER BY drawn only from the allowed columns and
   * the two directions.
   */
  method TalentPoolQuery(filters: Value) returns (q: Query)
    ensures var applied := Selected(TalentPoolTests(filters));
      q.params == ValuesOf(applied)
      && q.text == TalentPoolBase + FilterClauses(applied, 1) + " ORDER BY "
                   + TalentPoolSortField(Get(filters, "sortBy")) + " " + TalentPoolSortOrder(Get(filters, "sortOrder"))
  {
    var query, params := ApplyFilters(TalentPoolBase, [], TalentPoolTests(filters));
    var sortField := TalentPoolSortField(Get(filters, "sortBy"));
    var sortOrder := TalentPoolSortOrder(Get(filters, "sortOrder"));
    query := query + " ORDER BY " + sortField + " " + sortOrder;
    q := Query(query, params);
  }

  /** `minScore` and `maxScore` filter whenever they are defined, even at 0; the other filters need a truthy value. */
  lemma TalentPoolScoreBoundsApplyAtZero(filters: Value)
    requires Get(filters, "minScore") == Num(0.0)
    requires !Truthy(Get(filters, "tier")) && !Truthy(Get(filters, "job_id")) && !Truthy(Get(filters, "position"))
    requires Get(filters, "maxScore") == Undefined && !Truthy(Get(filters, "status"))
    ensures Selected(TalentPoolTests(filters)) == [("cp.tier_score >=", Num(0.0))]
  {
    var ts := TalentPoolTests(filters);
    assert ts[5..][1..] == [] && ts[5..][0] == ts[5];
    assert Selected(ts[5..]) == [];
    assert ts[4..][1..] == ts[5..] && ts[4..][0] == ts[4];
    assert Selected(ts[4..]) == [];
    assert ts[3..][1..] == ts[4..] && ts[3..][0] == ts[3];
    assert Selected(ts[3..]) == [("cp.tier_score >=", Num(0.0))] + [];
    assert ts[2..][1..] == ts[3..] && ts[2..][0] == ts[2];
    assert Selected(ts[2..]) == Selected(ts[3..]);
    assert ts[1..][1..] == ts[2..] && ts[1..][0] == ts[1];
    assert Selected(ts[1..]) == Selected(ts[2..]);
    assert Selected(ts) == Selected(ts[1..]);
  }

  // ---------------------------------------------------------------------
  // logCommunication / updateContactStatus
  // ---------------------------------------------------------------------

  /** The pipeline status `logCommunication` writes after logging a message. */
  function StatusAfterMessage(category: Value): (status: string)
    ensures status == "rejected" <==> category == Str("rejection")
    ensures status == "rejected" || status == "contacted"
  {
    if category == Str("rejection") then "rejected" else "contacted"
  }

  /** The parameters of `updateContactStatus`'s UPDATE statement. */
  function ContactStatusParams(id: Value, isContacted: bool, contactedVia: Value): (params: seq<Value>)
    ensures isContacted ==> |params| == 2 && params[1] == id
                            && params[0] == (if Truthy(contactedVia) then contactedVia else Str("manual"))
    ensures !isContacted ==> params == [id]
  {
    if isContacted then [Or(contactedVia, Str("manual")), id] else [id]
  }

  // ---------------------------------------------------------------------
  // evaluateCandidateAcrossAllJobs
  // ---------------------------------------------------------------------

  datatype CandidateRow = CandidateRow(overallScore: real, yearsOfExperience: real, vehicleStatus: string)

  datatype JobRow = JobRow(id: int, title: string, location: string, positionType: string,
                           requiredYears: real, vehicleRequired: bool)

  datatype Match = Match(jobId: int, jobTitle: string, jobLocation: string, positionType: string,
                         requiredYears: real, matchScore: int, tier: Scoring.Tier,
                         yearsExperienceDiff: real, vehicleRequired: bool)

  /** The experience adjustment: +5 for meeting the required years, -10 for less than half of them. */
  function ExperienceAdjustment(c: CandidateRow, job: JobRow): (a: real)
    ensures a == 5.0 <==> c.yearsOfExperience >= job.requiredYears
    ensures a == -10.0 <==> c.yearsOfExperience < job.requiredYears && c.yearsOfExperience < job.requiredYears * 0.5
    ensures a == 0.0 <==> job.requiredYears * 0.5 <= c.yearsOfExperience < job.requiredYears
  {
    if c.yearsOfExperience >= job.requiredYears then 5.0
    else if c.yearsOfExperience < job.requiredYears * 0.5 then -10.0
    else 0.0
  }

  /** The vehicle adjustment: -10 when the job needs a vehicle and the candidate has none. */
  function VehicleAdjustment(c: CandidateRow, job: JobRow): (a: real)
    ensures a == -10.0 <==> job.vehicleRequired && c.vehicleStatus == "no_vehicle"
    ensures a == 0.0 <==> !(job.vehicleRequired && c.vehicleStatus == "no_vehicle")
  {
    if job.vehicleRequired && c.vehicleStatus == "no_vehicle" then -10.0 else 0.0
  }

  /**
   * The match score before rounding: the overall score with both
   * adjustments, then capped to 0..100.
   */
  function AdjustedMatchScore(c: CandidateRow, job: JobRow): (s: real)
    ensures 0.0 <= s <= 100.0
    ensures var raw := c.overallScore + ExperienceAdjustment(c, job) + VehicleAdjustment(c, job);
      && (0.0 <= raw <= 100.0 ==> s == raw)
      && (raw > 100.0 ==> s == 100.0)
      && (raw < 0.0 ==> s == 0.0)
  {
    Clamp(c.overallScore + ExperienceAdjustment(c, job) + VehicleAdjustment(c, job), 0.0, 100.0)
  }

  /** One job's entry in the list: tier from the raw score, score from the adjusted one. */
  function MatchFor(c: CandidateRow, job: JobRow): (m: Match)
    ensures 0 <= m.matchScore <= 100
    ensures m.tier == Scoring.CalculateTier(c.overallScore)
    ensures m.jobId == job.id
  {
    Match(job.id, job.title, job.location, job.positionType, job.requiredYears,
          Round(AdjustedMatchScore(c, job)), Scoring.CalculateTier(c.overallScore),
          c.yearsOfExperience - job.requiredYears, job.vehicleRequired)
  }

  function MatchesFor(c: CandidateRow, jobs: seq<JobRow>): (ms: seq<Match>)
    ensures |ms| == |jobs| && forall i :: 0 <= i < |jobs| ==> ms[i] == MatchFor(c, jobs[i])
  {
    if jobs == [] then [] else [MatchFor(c, jobs[0])] + MatchesFor(c, jobs[1..])
  }

  function MatchScoreOf(m: Match): int { m.matchScore }

  /**
   * `evaluateCandidateAcrossAllJobs`: 'Candidate not found' without a
   * candidate row; otherwise one match per active job, ranked by match score.
   */
  function EvaluateCandidateAcrossAllJobs(candidate: Option<CandidateRow>, activeJobs: seq<JobRow>): (r: Result<seq<Match>>)
    ensures candidate.None? <==> r == Err("Candidate not found")
    ensures r.Ok? ==> |r.value| == |activeJobs|
  {
    match candidate
    case None => Err("Candidate not found")
    case Some(c) => Ok(SortDesc(MatchesFor(c, activeJobs), MatchScoreOf))
  }

  /**
   * The ranking is a reordering of the per-job matches, highest match score
   * first; every job appears once with a score in 0..100 and the tier of the
   * unadjusted score.
   */
  lemma EvaluationRanked(c: CandidateRow, activeJobs: seq<JobRow>)
    ensures var r := EvaluateCandidateAcrossAllJobs(Some(c), activeJobs).value;
      && SortedDesc(r, MatchScoreOf)
      && multiset(r) == multiset(MatchesFor(c, activeJobs))
      && (forall i :: 0 <= i < |r| ==> 0 <= r[i].matchScore <= 100 && r[i].tier == Scoring.CalculateTier(c.overallScore))
      && (forall j :: 0 <= j < |activeJobs| ==> exists i :: 0 <= i < |r| && r[i].jobId == activeJobs[j].id)
  {
    var ms := MatchesFor(c, activeJobs);
    SortDescCorrect(ms, MatchScoreOf);
    ReorderedMatches(c, activeJobs, SortDesc(ms, MatchScoreOf));
  }

  /** Any reordering of the per-job matches has every job once, each scored in 0..100 with the candidate's tier. */
  lemma ReorderedMatches(c: CandidateRow, activeJobs: seq<JobRow>, r: seq<Match>)
    requires multiset(r) == multiset(MatchesFor(c, activeJobs))
    ensures forall i :: 0 <= i < |r| ==> 0 <= r[i].matchScore <= 100 && r[i].tier == Scoring.CalculateTier(c.overallScore)
    ensures forall j :: 0 <= j < |activeJobs| ==> exists i :: 0 <= i < |r| && r[i].jobId == activeJobs[j].id
  {
    var ms := MatchesFor(c, activeJobs);
    forall i | 0 <= i < |r| ensures 0 <= r[i].matchScore <= 100 && r[i].tier == Scoring.CalculateTier(c.overallScore) {
      assert r[i] in multiset(ms);
    }
    forall j | 0 <= j < |activeJobs| ensures exists i :: 0 <= i < |r| && r[i].jobId == activeJobs[j].id {
      assert ms[j] in multiset(r);
      var i :| 0 <= i < |r| && r[i] == ms[j];
    }
  }
}

// frontend/src/components/PublicJobDetail.tsx: the public job page's pure
// helpers. The salary text, the job-type label, the schema.org `JobPosting`
// JSON-LD record for Google for Jobs, the bullet-list parser and the
// location line. Fetching the job is not modelled; number formatting
// (`toLocaleString`) is a parameter.

module PublicJobDetail {
  import opened Common

  /**
   * The job as the page receives it. A text field that may be missing is an
   * `Option`, `None` standing for `null` or `undefined`; the pay bounds are
   * numbers when present.
   */
  datatype Job = Job(
    title: string,
    companyName: Option<string>,
    description: string,
    location: Option<string>,
    city: Option<string>,
    zipCode: Option<string>,
    jobType: Option<string>,
    payRangeMin: Option<real>,
    payRangeMax: Option<real>,
    payType: Option<string>,
    keyResponsibilities: Option<string>,
    qualifications: Option<string>,
    createdAt: Option<string>)

  /** JavaScript truthiness of an optional text: present and not empty. */
  predicate Filled(t: Option<string>) { t.Some? && t.value != "" }

  /** JavaScript truthiness of an optional number: present and not zero. */
  predicate NumSet(n: Option<real>) { n.Some? && n.value != 0.0 }

  /** Whether the job is salaried: `(pay_type || 'hourly') === 'salary'`. */
  predicate Salaried(job: Job) { TextOr(job.payType, "hourly") == "salary" }

  lemma SalariedIff(job: Job)
    ensures Salaried(job) <==> job.payType == Some("salary")
  {
    if job.payType == Some("salary") {
      assert Filled(job.payType);
    } else if Filled(job.payType) {
      assert TextOr(job.payType, "hourly") == job.payType.value;
    } else {
      assert "hourly" != "salary" by { assert "hourly"[0] != "salary"[0]; }
    }
  }

  // ---------------------------------------------------------------------
  // formatSalary
  // ---------------------------------------------------------------------

  /** The unit of the salary text: `/year` for a salaried job, else `/hr`. */
  function SalarySuffix(job: Job): string
  {
    if Salaried(job) then "/year" else "/hr"
  }

  /** The amount part of the salary text, when at least one bound is set. */
  function SalaryAmount(job: Job, locale: real -> string): string
    requires NumSet(job.payRangeMin) || NumSet(job.payRangeMax)
  {
    var min, max := job.payRangeMin, job.payRangeMax;
    if NumSet(min) && NumSet(max) then "$" + locale(min.value) + "-$" + locale(max.value)
    else if NumSet(min) then "$" + locale(min.value) + "+"
    else "Up to $" + locale(max.value)
  }

  /** `formatSalary(job)`, with `toLocaleString` given as `locale`. */
  function FormatSalary(job: Job, locale: real -> string): (r: string)
  {
    if !NumSet(job.payRangeMin) && !NumSet(job.payRangeMax) then ""
    else SalaryAmount(job, locale) + SalarySuffix(job)
  }

  lemma HrIsNotYear(a: string)
    ensures !EndsWith(a + "/hr", "/year")
  {
    var s := a + "/hr";
    if |s| >= 5 {
      assert s[|s| - 3] == '/';
      assert s[|s| - 5..][2] == s[|s| - 3];
    }
  }

  /**
   * The salary text is empty exactly when neither bound is set; otherwise
   * it ends in `/year` exactly for a `salary` pay type and in `/hr` for
   * every other one.
   */
  lemma SalaryUnit(job: Job, locale: real -> string)
    ensures var r := FormatSalary(job, locale);
      && (r == "" <==> !NumSet(job.payRangeMin) && !NumSet(job.payRangeMax))
      && (r != "" ==> (EndsWith(r, "/year") <==> job.payType == Some("salary")))
      && (r != "" && job.payType != Some("salary") ==> EndsWith(r, "/hr"))
  {
    SalariedIff(job);
    var r := FormatSalary(job, locale);
    if NumSet(job.payRangeMin) || NumSet(job.payRangeMax) {
      var amount := SalaryAmount(job, locale);
      assert amount[0] == '$' || amount[0] == 'U';
      EndsWithLast(amount, SalarySuffix(job));
      if !Salaried(job) {
        HrIsNotYear(amount);
      }
    }
  }

  /**
   * The three shapes of a salary text: a range `$min-$max`, an open range
   * `$min+`, or `Up to $max`.
   */
  lemma SalaryShapes(job: Job, locale: real -> string)
    ensures var r, min, max := FormatSalary(job, locale), job.payRangeMin, job.payRangeMax;
      && (NumSet(min) ==> StartsWith(r, "$" + locale(min.value)))
      && (NumSet(min) && NumSet(max) ==> Contains(r, "-$" + locale(max.value)))
      && (NumSet(min) && !NumSet(max) ==> Contains(r, "+"))
      && (!NumSet(min) && NumSet(max) ==> StartsWith(r, "Up to $" + locale(max.value)))
  {
    var r, min, max := FormatSalary(job, locale), job.payRangeMin, job.payRangeMax;
    var suffix := SalarySuffix(job);
    if NumSet(min) && NumSet(max) {
      var lead := "$" + locale(min.value);
      assert r == lead + ("-$" + locale(max.value)) + suffix;
      ContainsBetween(lead, "-$" + locale(max.value), suffix);
      assert r[..|lead|] == lead;
    } else if NumSet(min) {
      var lead := "$" + locale(min.value);
      assert r == lead + "+" + suffix;
      ContainsBetween(lead, "+", suffix);
      assert r[..|lead|] == lead;
    } else if NumSet(max) {
      var lead := "Up to $" + locale(max.value);
      assert r == lead + suffix;
      assert r[..|lead|] == lead;
    }
  }

  // ---------------------------------------------------------------------
  // formatJobType
  // ---------------------------------------------------------------------

  /** `formatJobType`: `Full-time` when missing, else `_` becomes `-` and then `-` becomes a space. */
  function FormatJobType(jobType: Option<string>): (r: string)
  {
    if !Filled(jobType) then "Full-time"
    else ReplaceChar(ReplaceChar(jobType.value, '_', "-"), '-', " ")
  }

  /** The label's character for one character of the stored type. */
  function LabelChar(c: char): char { if c == '_' || c == '-' then ' ' else c }

  lemma {:induction false} ReplaceTwice(s: string)
    ensures ReplaceChar(ReplaceChar(s, '_', "-"), '-', " ") == MapChars(s, LabelChar)
  {
    if s != [] {
      ReplaceTwice(s[1..]);
      var head := if s[0] == '_' then "-" else [s[0]];
      assert ReplaceChar(s, '_', "-") == head + ReplaceChar(s[1..], '_', "-");
      ReplaceCharAppend(head, ReplaceChar(s[1..], '_', "-"), '-', " ");
      ReplaceCharSingle(head[0], '-', " ");
      assert MapChars(s, LabelChar) == [LabelChar(s[0])] + MapChars(s[1..], LabelChar);
    }
  }

  /**
   * A stored type becomes a label of the same length in which every `_` and
   * every `-` is a space and every other character is kept.
   */
  lemma JobTypeLabel(jobType: Option<string>)
    ensures !Filled(jobType) ==> FormatJobType(jobType) == "Full-time"
    ensures Filled(jobType) ==>
      var s, r := jobType.value, FormatJobType(jobType);
      && |r| == |s|
      && (forall i :: 0 <= i < |s| ==> r[i] == (if s[i] == '_' || s[i] == '-' then ' ' else s[i]))
      && '_' !in r && '-' !in r
  {
    if Filled(jobType) {
      ReplaceTwice(jobType.value);
    }
  }

  // ---------------------------------------------------------------------
  // mapEmploymentType
  // ---------------------------------------------------------------------

  /** The lookup table of `mapEmploymentType`. */
  const EmploymentTypes: map<string, string> := map[
    "full-time" := "FULL_TIME",
    "full_time" := "FULL_TIME",
    "part-time" := "PART_TIME",
    "part_time" := "PART_TIME",
    "contract" := "CONTRACTOR",
    "temporary" := "TEMPORARY",
    "internship" := "INTERN"
  ]

  /** The schema.org employment types the page emits. */
  const SchemaEmploymentTypes: set<string> := {"FULL_TIME", "PART_TIME", "CONTRACTOR", "TEMPORARY", "INTERN"}

  /** `mapEmploymentType`: the lower-cased type looked up in the table, `FULL_TIME` when absent. */
  function MapEmploymentType(jobType: Option<string>): (r: string)
    ensures r in SchemaEmploymentTypes
  {
    var key := ToLower(TextOr(jobType, ""));
    if key in EmploymentTypes then EmploymentTypes[key] else "FULL_TIME"
  }

  lemma {:induction false} ToLowerIdempotent(s: string)
    ensures ToLower(ToLower(s)) == ToLower(s)
  {
    var l := ToLower(s);
    assert forall i :: 0 <= i < |l| ==> LowerChar(l[i]) == l[i];
  }

  /**
   * The lookup ignores case: a type and its lower-cased form map alike, and
   * a type outside the table (a missing one included) maps to `FULL_TIME`.
   */
  lemma EmploymentTypeIgnoresCase(s: string)
    ensures MapEmploymentType(Some(s)) == MapEmploymentType(Some(ToLower(s)))
    ensures ToLower(s) !in EmploymentTypes ==> MapEmploymentType(Some(s)) == "FULL_TIME"
    ensures ToLower(s) in EmploymentTypes ==> MapEmploymentType(Some(s)) == EmploymentTypes[ToLower(s)]
  {
    ToLowerIdempotent(s);
    if s == "" {
      assert ToLower(s) == "";
    } else {
      assert ToLower(s) != "";
    }
  }

  // ---------------------------------------------------------------------
  // generateJobSchema
  // ---------------------------------------------------------------------

  /** `baseSalary`: a `MonetaryAmount` in USD whose value holds the set bounds and the unit. */
  datatype BaseSalary = BaseSalary(currency: string, minValue: Option<real>, maxValue: Option<real>, unitText: string)

  /** The JSON-LD `JobPosting` the page embeds; the `@type` markers are implied by the fields. */
  datatype JobPosting = JobPosting(
    context: string,
    title: string,
    description: string,
    datePosted: Option<string>,
    employmentType: string,
    organizationName: string,
    addressLocality: string,
    postalCode: string,
    addressCountry: string,
    baseSalary: Option<BaseSalary>)

  /** `job.created_at?.split('T')[0]`: the date part of a timestamp, absent without one. */
  function DatePosted(createdAt: Option<string>): (r: Option<string>)
    ensures r.Some? <==> createdAt.Some?
    ensures r.Some? ==> 'T' !in r.value && StartsWith(createdAt.value, r.value)
  {
    if createdAt.None? then None
    else
      var parts := SplitAt(createdAt.value, 'T');
      FirstPieceIsPrefix(createdAt.value, 'T');
      Some(parts[0])
  }

  /** The first piece of a split is a prefix of the text. */
  lemma {:induction false} FirstPieceIsPrefix(s: string, c: char)
    ensures StartsWith(s, SplitAt(s, c)[0])
  {
    if s != [] {
      FirstPieceIsPrefix(s[1..], c);
      var rest := SplitOn(s[1..], x => x == c);
      assert SplitAt(s[1..], c) == rest;
      if s[0] != c {
        assert SplitAt(s, c)[0] == [s[0]] + rest[0];
        assert s == [s[0]] + s[1..];
      }
    }
  }

  /** `generateJobSchema(job)`. */
  function GenerateJobSchema(job: Job): (p: JobPosting)
  {
    var min, max := job.payRangeMin, job.payRangeMax;
    var salary :=
      if NumSet(min) || NumSet(max) then
        Some(BaseSalary("USD",
                        if NumSet(min) then min else None,
                        if NumSet(max) then max else None,
                        if job.payType == Some("salary") then "YEAR" else "HOUR"))
      else None;
    JobPosting(
      "https://schema.org/",
      job.title,
      job.description,
      DatePosted(job.createdAt),
      MapEmploymentType(job.jobType),
      TextOr(job.companyName, "Company"),
      TextOr(job.city, TextOr(job.location, "")),
      TextOr(job.zipCode, ""),
      "US",
      salary)
  }

  /**
   * The record carries `baseSalary` exactly when a bound is set, with each
   * bound present exactly when it is set and `YEAR` as unit exactly for a
   * salaried job; the country is always `US` and the organisation name
   * falls back to `Company`.
   */
  lemma SchemaFacts(job: Job)
    ensures var p := GenerateJobSchema(job);
      && (p.baseSalary.Some? <==> NumSet(job.payRangeMin) || NumSet(job.payRangeMax))
      && (p.baseSalary.Some? ==>
            && p.baseSalary.value.currency == "USD"
            && (p.baseSalary.value.unitText == "YEAR" <==> job.payType == Some("salary"))
            && (p.baseSalary.value.minValue.Some? <==> NumSet(job.payRangeMin))
            && (p.baseSalary.value.maxValue.Some? <==> NumSet(job.payRangeMax))
            && (p.baseSalary.value.minValue.Some? ==> p.baseSalary.value.minValue == job.payRangeMin)
            && (p.baseSalary.value.maxValue.Some? ==> p.baseSalary.value.maxValue == job.payRangeMax))
      && p.addressCountry == "US"
      && (Filled(job.companyName) ==> p.organizationName == job.companyName.value)
      && (!Filled(job.companyName) ==> p.organizationName == "Company")
      && p.employmentType in SchemaEmploymentTypes
  {
    assert "HOUR" != "YEAR" by { assert "HOUR"[0] != "YEAR"[0]; }
  }

  /**
   * The page's salary line and the structured salary agree: the text is
   * shown exactly when the record has a `baseSalary`, and it reads per year
   * exactly when the unit is `YEAR`.
   */
  lemma SalaryTextMatchesSchema(job: Job, locale: real -> string)
    ensures var r, p := FormatSalary(job, locale), GenerateJobSchema(job);
      && (r != "" <==> p.baseSalary.Some?)
      && (r != "" ==> (EndsWith(r, "/year") <==> p.baseSalary.value.unitText == "YEAR"))
  {
    SalaryUnit(job, locale);
    SchemaFacts(job);
  }

  // ---------------------------------------------------------------------
  // Location and lists
  // ---------------------------------------------------------------------

  const NoLocation := "Location not specified"

  /** `job.city || job.location || 'Location not specified'`. */
  function DisplayLocation(job: Job): (r: string)
    ensures r != ""
  {
    TextOr(job.city, TextOr(job.location, NoLocation))
  }

  /**
   * The city wins, then the free-text location; the page shows the
   * placeholder only when both are empty, and otherwise the same place the
   * JSON-LD record names.
   */
  lemma LocationFallback(job: Job)
    ensures Filled(job.city) ==> DisplayLocation(job) == job.city.value
    ensures !Filled(job.city) && Filled(job.location) ==> DisplayLocation(job) == job.location.value
    ensures Filled(job.city) || Filled(job.location) ==> DisplayLocation(job) == GenerateJobSchema(job).addressLocality
    ensures !Filled(job.city) && !Filled(job.location) ==>
      DisplayLocation(job) == NoLocation && GenerateJobSchema(job).addressLocality == ""
  {
  }

  /** The separators of `parseList`: a newline, a bullet or a hyphen. */
  predicate ListSeparator(c: char) { c == '\n' || c == '•' || c == '-' }

  /** `.map(s => s.trim())`. */
  function TrimEach(parts: seq<string>): (r: seq<string>)
    ensures |r| == |parts|
    ensures forall k :: 0 <= k < |r| ==> r[k] == Trim(parts[k])
  {
    if parts == [] then [] else [Trim(parts[0])] + TrimEach(parts[1..])
  }

  /** `parseList(text)`: `[]` when missing; else split on the separators, trim each part, drop the empty ones. */
  function ParseList(text: Option<string>): (items: seq<string>)
  {
    if !Filled(text) then []
    else FilterNonEmpty(TrimEach(SplitOn(text.value, ListSeparator)))
  }

  /** A trimmed text is a piece of the original, so it has none of the characters the original lacks. */
  lemma TrimKeepsAbsence(s: string, c: char)
    requires c !in s
    ensures c !in Trim(s)
  {
  }

  /**
   * Every item of the list is non-empty, holds no separator, and is already
   * trimmed; an empty or missing text gives no items.
   */
  lemma ParsedItems(text: Option<string>)
    ensures !Filled(text) ==> ParseList(text) == []
    ensures forall x :: x in ParseList(text) ==>
      && x != ""
      && '\n' !in x && '•' !in x && '-' !in x
      && Trim(x) == x
  {
    if Filled(text) {
      var parts := SplitOn(text.value, ListSeparator);
      var trimmed := TrimEach(parts);
      forall x | x in ParseList(text)
        ensures x != "" && '\n' !in x && '•' !in x && '-' !in x && Trim(x) == x
      {
        assert x in trimmed;
        var k :| 0 <= k < |trimmed| && trimmed[k] == x;
        assert forall i :: 0 <= i < |parts[k]| ==> !ListSeparator(parts[k][i]);
        TrimKeepsAbsence(parts[k], '\n');
        TrimKeepsAbsence(parts[k], '•');
        TrimKeepsAbsence(parts[k], '-');
        TrimIdempotent(parts[k], IsJsSpace);
      }
    }
  }

  /** Every non-blank piece between separators shows up, trimmed. */
  lemma ParsedKeepsPieces(text: string, k: nat)
    requires text != ""
    requires k < |SplitOn(text, ListSeparator)|
    requires Trim(SplitOn(text, ListSeparator)[k]) != ""
    ensures Trim(SplitOn(text, ListSeparator)[k]) in ParseList(Some(text))
  {
    var trimmed := TrimEach(SplitOn(text, ListSeparator));
    assert trimmed[k] in trimmed;
  }
}

// The public job feed of backend-node/routes/jobFeedRoutes.js: XML escaping,
// salary and job-type formatting, the feed document assembled job by job,
// and the public job-detail endpoint with its id and activity guards. The
// clock, the date formatting and the database lookups are parameters.

module JobFeed {
  import opened Common
  import opened Js

  // ---------------------------------------------------------------------
  // escapeXml
  // ---------------------------------------------------------------------

  /** The chain of five global replacements, `&` first, with the text each character becomes. */
  function EscapeWith(s: string, amp: string, lt: string, gt: string, quot: string, apos: string): string
  {
    ReplaceChar(ReplaceChar(ReplaceChar(ReplaceChar(ReplaceChar(s, '&', amp), '<', lt), '>', gt), '"', quot), '\'', apos)
  }

  /** The chain of `escapeXml`, with the five XML entities. */
  function EscapeText(s: string): string
  {
    EscapeWith(s, "&amp;", "&lt;", "&gt;", "&quot;", "&apos;")
  }

  /** `escapeXml(text)`: falsy input gives the empty string. */
  function EscapeXml(v: Value): string
  {
    if !Truthy(v) then "" else EscapeText(ToText(v))
  }

  /** The entity one character becomes. */
  function Entity(c: char): (e: string)
    ensures |e| >= 1
  {
    if c == '&' then "&amp;"
    else if c == '<' then "&lt;"
    else if c == '>' then "&gt;"
    else if c == '"' then "&quot;"
    else if c == '\'' then "&apos;"
    else [c]
  }

  /** Escaping character by character: the reference definition. */
  function EscapeEach(s: string): (e: string)
  {
    if s == [] then [] else Entity(s[0]) + EscapeEach(s[1..])
  }

  lemma EscapeTextAppend(a: string, b: string)
    ensures EscapeText(a + b) == EscapeText(a) + EscapeText(b)
  {
    var a1, b1 := ReplaceChar(a, '&', "&amp;"), ReplaceChar(b, '&', "&amp;");
    ReplaceCharAppend(a, b, '&', "&amp;");
    var a2, b2 := ReplaceChar(a1, '<', "&lt;"), ReplaceChar(b1, '<', "&lt;");
    ReplaceCharAppend(a1, b1, '<', "&lt;");
    var a3, b3 := ReplaceChar(a2, '>', "&gt;"), ReplaceChar(b2, '>', "&gt;");
    ReplaceCharAppend(a2, b2, '>', "&gt;");
    var a4, b4 := ReplaceChar(a3, '"', "&quot;"), ReplaceChar(b3, '"', "&quot;");
    ReplaceCharAppend(a3, b3, '"', "&quot;");
    ReplaceCharAppend(a4, b4, '\'', "&apos;");
  }

  /**
   * A single character goes through the chain as its entity: only its own
   * replacement fires, and no later pattern character occurs in the entity.
   */
  lemma EscapeWithChar(c: char, amp: string, lt: string, gt: string, quot: string, apos: string)
    requires amp == "&amp;" && lt == "&lt;" && gt == "&gt;" && quot == "&quot;" && apos == "&apos;"
    ensures EscapeWith([c], amp, lt, gt, quot, apos) == Entity(c)
  {
    ReplaceCharSingle(c, '&', amp);
    if c == '&' {
      ReplaceCharAbsent(amp, '<', lt);
      ReplaceCharAbsent(amp, '>', gt);
      ReplaceCharAbsent(amp, '"', quot);
      ReplaceCharAbsent(amp, '\'', apos);
      return;
    }
    ReplaceCharSingle(c, '<', lt);
    if c == '<' {
      ReplaceCharAbsent(lt, '>', gt);
      ReplaceCharAbsent(lt, '"', quot);
      ReplaceCharAbsent(lt, '\'', apos);
      return;
    }
    ReplaceCharSingle(c, '>', gt);
    if c == '>' {
      ReplaceCharAbsent(gt, '"', quot);
      ReplaceCharAbsent(gt, '\'', apos);
      return;
    }
    ReplaceCharSingle(c, '"', quot);
    if c == '"' {
      ReplaceCharAbsent(quot, '\'', apos);
      return;
    }
    ReplaceCharSingle(c, '\'', apos);
  }

  lemma EscapeTextChar(c: char)
    ensures EscapeText([c]) == Entity(c)
  {
    EscapeWithChar(c, "&amp;", "&lt;", "&gt;", "&quot;", "&apos;");
  }

  /** The replacement chain and the character-by-character escape agree on every string. */
  lemma {:induction false} EscapeTextIsEscapeEach(s: string)
    ensures EscapeText(s) == EscapeEach(s)
  {
    if s != [] {
      assert s == [s[0]] + s[1..];
      EscapeTextAppend([s[0]], s[1..]);
      EscapeTextChar(s[0]);
      EscapeTextIsEscapeEach(s[1..]);
    }
  }

  /** No markup character survives escaping. */
  lemma {:induction false} EscapedHasNoMarkup(s: string)
    ensures forall i :: 0 <= i < |EscapeEach(s)| ==> EscapeEach(s)[i] !in "<>\"'"
  {
    if s != [] {
      EscapedHasNoMarkup(s[1..]);
      var e := Entity(s[0]);
      assert forall i :: 0 <= i < |e| ==> e[i] !in "<>\"'";
      var rest := EscapeEach(s[1..]);
      assert EscapeEach(s) == e + rest;
      forall i | 0 <= i < |e + rest| ensures (e + rest)[i] !in "<>\"'" {
        if i >= |e| { assert (e + rest)[i] == rest[i - |e|]; }
      }
    }
  }

  /**
   * The character a text starts with, reading one of the five entities as
   * the character it stands for, and how many characters it spans.
   */
  function DecodeHead(s: string): (r: (char, nat))
    requires s != []
    ensures 1 <= r.1 <= |s|
    ensures r.1 > 1 ==> s[0] == '&'
  {
    if StartsWith(s, "&amp;") then ('&', 5)
    else if StartsWith(s, "&lt;") then ('<', 4)
    else if StartsWith(s, "&gt;") then ('>', 4)
    else if StartsWith(s, "&quot;") then ('"', 6)
    else if StartsWith(s, "&apos;") then ('\'', 6)
    else (s[0], 1)
  }

  /** Reads the five entities back, left to right; anything else stands for itself. */
  function Unescape(s: string): (r: string)
    decreases |s|
  {
    if s == [] then []
    else
      var (c, n) := DecodeHead(s);
      [c] + Unescape(s[n..])
  }

  /** An entity followed by more text is read as its character, spanning the whole entity. */
  lemma DecodeEntity(c: char, t: string)
    ensures DecodeHead(Entity(c) + t) == (c, |Entity(c)|)
  {
    var s := Entity(c) + t;
    assert s[..|Entity(c)|] == Entity(c);
    if c == '<' {
      assert s[1] == 'l';
    } else if c == '>' {
      assert s[1] == 'g';
    } else if c == '"' {
      assert s[1] == 'q';
    } else if c == '\'' {
      assert s[1] == 'a' && s[2] == 'p';
    } else if c != '&' {
      assert s[0] == c;
    }
  }

  /** Decoding an entity followed by more text gives its character followed by the rest decoded. */
  lemma UnescapeEntity(c: char, t: string)
    ensures Unescape(Entity(c) + t) == [c] + Unescape(t)
  {
    DecodeEntity(c, t);
    assert (Entity(c) + t)[|Entity(c)|..] == t;
  }

  /** Escaping loses nothing: decoding the escaped text gives the original back. */
  lemma {:induction false} EscapeRoundTrip(s: string)
    ensures Unescape(EscapeText(s)) == s
  {
    EscapeTextIsEscapeEach(s);
    EscapeEachRoundTrip(s);
  }

  lemma {:induction false} EscapeEachRoundTrip(s: string)
    ensures Unescape(EscapeEach(s)) == s
  {
    if s != [] {
      UnescapeEntity(s[0], EscapeEach(s[1..]));
      EscapeEachRoundTrip(s[1..]);
    }
  }

  /**
   * Every `&` of the text begins one of the five entities: scanning left to
   * right, each `&` is the start of an entity that is then skipped whole.
   */
  predicate AmpersandsAreEntities(s: string)
    decreases |s|
  {
    s == [] || ((s[0] != '&' || DecodeHead(s).1 > 1) && AmpersandsAreEntities(s[DecodeHead(s).1..]))
  }

  lemma AmpersandsAfterEntity(c: char, t: string)
    requires AmpersandsAreEntities(t)
    ensures AmpersandsAreEntities(Entity(c) + t)
  {
    DecodeEntity(c, t);
    assert (Entity(c) + t)[|Entity(c)|..] == t;
  }

  /** Escaping leaves every `&` at the start of an entity, the ones it writes itself included. */
  lemma {:induction false} EscapedAmpersandsAreEntities(s: string)
    ensures AmpersandsAreEntities(EscapeText(s))
  {
    EscapeTextIsEscapeEach(s);
    EscapeEachAmpersands(s);
  }

  lemma {:induction false} EscapeEachAmpersands(s: string)
    ensures AmpersandsAreEntities(EscapeEach(s))
  {
    if s != [] {
      EscapeEachAmpersands(s[1..]);
      AmpersandsAfterEntity(s[0], EscapeEach(s[1..]));
    }
  }

  /** No raw `<`, `>`, `"` or `'` occurs in `s`. */
  predicate NoMarkup(s: string)
  {
    forall i :: 0 <= i < |s| ==> s[i] !in "<>\"'"
  }

  /** No raw `<`, `>`, `"` or `'` is left in `escapeXml`'s output. */
  lemma EscapeXmlNoMarkup(v: Value)
    ensures NoMarkup(EscapeXml(v))
  {
    if Truthy(v) {
      EscapeTextIsEscapeEach(ToText(v));
      EscapedHasNoMarkup(ToText(v));
    }
  }

  // ---------------------------------------------------------------------
  // formatSalary / mapJobType
  // ---------------------------------------------------------------------

  /** `job.pay_range_min || job.salary_min`. */
  function SalaryMin(job: Value): Value { Or(Get(job, "pay_range_min"), Get(job, "salary_min")) }

  /** `job.pay_range_max || job.salary_max`. */
  function SalaryMax(job: Value): Value { Or(Get(job, "pay_range_max"), Get(job, "salary_max")) }

  /** The salary text for given bounds and pay type (`hourly` when missing). */
  function SalaryText(min: Value, max: Value, payType: Value): string
  {
    var suffix := if Or(payType, Str("hourly")) == Str("salary") then "/year" else "/hour";
    if !Truthy(min) && !Truthy(max) then ""
    else if Truthy(min) && Truthy(max) then "$" + ToText(min) + "-" + ToText(max) + suffix
    else if Truthy(min) then "$" + ToText(min) + "+" + suffix
    else "Up to $" + ToText(max) + suffix
  }

  /** `formatSalary(job)`. */
  function FormatSalary(job: Value): string
  {
    SalaryText(SalaryMin(job), SalaryMax(job), Get(job, "pay_type"))
  }

  /**
   * The salary text is empty exactly when neither bound is set; otherwise
   * it ends in `/year` for salaried jobs and `/hour` for all others, and
   * opens with `$min` when there is a minimum and with `Up to $` when there
   * is only a maximum.
   */
  lemma SalaryTextShapes(min: Value, max: Value, payType: Value)
    ensures var s := SalaryText(min, max, payType);
      (s == "" <==> !Truthy(min) && !Truthy(max))
      && (s != "" ==> EndsWith(s, if payType == Str("salary") then "/year" else "/hour"))
      && (Truthy(min) ==> StartsWith(s, "$" + ToText(min)))
      && (!Truthy(min) && Truthy(max) ==> StartsWith(s, "Up to $" + ToText(max)))
  {
  }

  /** `pay_range_*` wins over `salary_*` whenever it is set. */
  lemma SalaryPrefersPayRange(job: Value)
    ensures Truthy(Get(job, "pay_range_min")) ==> SalaryMin(job) == Get(job, "pay_range_min")
    ensures Truthy(Get(job, "pay_range_max")) ==> SalaryMax(job) == Get(job, "pay_range_max")
    ensures !Truthy(Get(job, "pay_range_min")) ==> SalaryMin(job) == Get(job, "salary_min")
  {
  }

  /** The five job types of the feed. */
  datatype FeedJobType = FullTime | PartTime | Contract | Temporary | Internship

  function FeedJobTypeName(t: FeedJobType): string
  {
    match t
    case FullTime => "full-time"
    case PartTime => "part-time"
    case Contract => "contract"
    case Temporary => "temporary"
    case Internship => "internship"
  }

  /** The lookup key: the job type lower-cased, empty when missing. */
  function JobTypeKey(jobType: Option<string>): string
  {
    match jobType
    case None => ""
    case Some(s) => ToLower(s)
  }

  /** The mapping table with its `full-time` fallback. */
  const JobTypeTable: map<string, FeedJobType> := map[
    "full-time" := FullTime, "full_time" := FullTime, "fulltime" := FullTime,
    "part-time" := PartTime, "part_time" := PartTime, "parttime" := PartTime,
    "contract" := Contract, "temporary" := Temporary, "internship" := Internship]

  function JobTypeOfKey(key: string): FeedJobType
  {
    if key in JobTypeTable then JobTypeTable[key] else FullTime
  }

  /** `mapJobType(jobType)`; `None` stands for a missing type. */
  function MapJobType(jobType: Option<string>): string
  {
    FeedJobTypeName(JobTypeOfKey(JobTypeKey(jobType)))
  }

  lemma {:induction false} ToLowerIdempotent(s: string)
    ensures ToLower(ToLower(s)) == ToLower(s)
  {
    forall i | 0 <= i < |s| ensures ToLower(ToLower(s))[i] == ToLower(s)[i] {
      assert ToLower(ToLower(s))[i] == LowerChar(ToLower(s)[i]);
    }
  }

  /** Lower-casing an upper-cased text is lower-casing the text itself. */
  lemma {:induction false} LowerOfUpper(s: string)
    ensures ToLower(ToUpper(s)) == ToLower(s)
  {
    forall i | 0 <= i < |s| ensures ToLower(ToUpper(s))[i] == ToLower(s)[i] {
      assert ToLower(ToUpper(s))[i] == LowerChar(UpperChar(s[i]));
    }
  }

  /** The lookup ignores case. */
  lemma MapJobTypeIgnoresCase(s: string)
    ensures MapJobType(Some(ToLower(s))) == MapJobType(Some(s)) == MapJobType(Some(ToUpper(s)))
  {
    ToLowerIdempotent(s);
    LowerOfUpper(s);
    assert JobTypeKey(Some(ToLower(s))) == JobTypeKey(Some(s)) == JobTypeKey(Some(ToUpper(s)));
  }

  /** A missing or empty type means full time. */
  lemma MapJobTypeDefault()
    ensures MapJobType(None) == "full-time" && MapJobType(Some("")) == "full-time"
  {
    assert JobTypeKey(Some("")) == "";
  }

  // ---------------------------------------------------------------------
  // GET /feed.xml
  // ---------------------------------------------------------------------

  /** `formatDate(date)`: the part of the ISO text before `T`, empty for a falsy date. */
  function FormatDate(date: Value, isoText: Value -> string): string
  {
    if !Truthy(date) then "" else SplitAt(isoText(date), 'T')[0]
  }

  const FeedOpening := "<?xml version=\"1.0\" encoding=\"UTF-8\"?>\n<source>\n  <publisher>Talos ATS</publisher>\n  <publisherurl>"

  /** The document head, with the escaped base URL and the build time. */
  function FeedHeader(baseUrl: string, now: string): string
  {
    FeedOpening + EscapeXml(Str(baseUrl)) + "</publisherurl>\n  <lastBuildDate>" + now + "</lastBuildDate>\n"
  }

  /** One line `<tag>content</tag>` of a job element. */
  function FieldLine(field: (string, string)): string
  {
    "    <" + field.0 + ">" + field.1 + "</" + field.0 + ">\n"
  }

  /** The field lines, in order. */
  function RenderFields(fields: seq<(string, string)>): string
  {
    if fields == [] then "" else FieldLine(fields[0]) + RenderFields(fields[1..])
  }

  /** The tags of a job element, in document order. */
  const JobTags: seq<string> :=
    ["title", "date", "referencenumber", "url", "company", "city", "postalcode", "description", "salary", "jobtype"]

  /** `job.job_type` as the optional text `mapJobType` reads. */
  function JobTypeOf(job: Value): Option<string>
  {
    match Get(job, "job_type")
    case Str(s) => Some(s)
    case _ => None
  }

  /** The description placed in the CDATA section, unescaped. */
  function FeedDescription(job: Value): string
  {
    ToText(Or(Or(Get(job, "description"), Get(job, "ai_generated_description")), Str("")))
  }

  /**
   * The tagged fields of one job, with `escape` for `escapeXml` and the
   * date, salary and job type texts already formatted.
   */
  function JobFieldsWith(escape: Value -> string, baseUrl: string, job: Value, date: string, salary: string,
                         jobType: string): seq<(string, string)>
  {
    var id := ToText(Get(job, "id"));
    [ ("title", escape(Get(job, "title"))),
      ("date", date),
      ("referencenumber", id),
      ("url", escape(Str(baseUrl + "/jobs/" + id))),
      ("company", escape(Or(Get(job, "company_name"), Str("Company")))),
      ("city", escape(Or(Or(Get(job, "city"), Get(job, "location")), Str("")))),
      ("postalcode", escape(Or(Get(job, "zip_code"), Str("")))),
      ("description", "<![CDATA[" + FeedDescription(job) + "]]>"),
      ("salary", escape(Str(salary))),
      ("jobtype", escape(Str(jobType))) ]
  }

  /** The tagged fields of one job. */
  function JobFields(baseUrl: string, job: Value, isoText: Value -> string): seq<(string, string)>
  {
    JobFieldsWith(EscapeXml, baseUrl, job, FormatDate(Get(job, "created_at"), isoText), FormatSalary(job),
                  MapJobType(JobTypeOf(job)))
  }

  /** A job element carries the ten tags, in document order, whatever the escaping. */
  lemma JobFieldTags(escape: Value -> string, baseUrl: string, job: Value, date: string, salary: string,
                     jobType: string)
    ensures var fields := JobFieldsWith(escape, baseUrl, job, date, salary, jobType);
      |fields| == |JobTags| && forall i :: 0 <= i < |fields| ==> fields[i].0 == JobTags[i]
  {
  }

  /**
   * Every field except the date, the reference number and the CDATA
   * description goes through the escaper, so none of them holds a raw markup
   * character when the escaper leaves none.
   */
  lemma EscapedFieldsHaveNoMarkup(escape: Value -> string, baseUrl: string, job: Value, date: string,
                                  salary: string, jobType: string)
    requires forall v :: NoMarkup(escape(v))
    ensures var fields := JobFieldsWith(escape, baseUrl, job, date, salary, jobType);
      NoMarkup(fields[0].1) && NoMarkup(fields[3].1) && NoMarkup(fields[4].1) && NoMarkup(fields[5].1)
      && NoMarkup(fields[6].1) && NoMarkup(fields[8].1) && NoMarkup(fields[9].1)
  {
  }

  /** In the feed, those fields hold no raw markup character. */
  lemma JobFieldsEscaped(baseUrl: string, job: Value, isoText: Value -> string)
    ensures var fields := JobFields(baseUrl, job, isoText);
      NoMarkup(fields[0].1) && NoMarkup(fields[3].1) && NoMarkup(fields[4].1) && NoMarkup(fields[5].1)
      && NoMarkup(fields[6].1) && NoMarkup(fields[8].1) && NoMarkup(fields[9].1)
  {
    forall v ensures NoMarkup(EscapeXml(v)) {
      EscapeXmlNoMarkup(v);
    }
    EscapedFieldsHaveNoMarkup(EscapeXml, baseUrl, job, FormatDate(Get(job, "created_at"), isoText), FormatSalary(job),
                              MapJobType(JobTypeOf(job)));
  }

  const JobOpening := "  <job>\n"
  const JobClosing := "  </job>\n"

  /** One `<job>` element. */
  function JobElement(baseUrl: string, job: Value, isoText: Value -> string): (e: string)
  {
    JobOpening + RenderFields(JobFields(baseUrl, job, isoText)) + JobClosing
  }

  /** The element writer of the feed, for one base URL. */
  function ElementWriter(baseUrl: string, isoText: Value -> string): Value -> string
  {
    job => JobElement(baseUrl, job, isoText)
  }

  /** The job elements, one per job, in the order given. */
  function JobElements(baseUrl: string, jobs: seq<Value>, isoText: Value -> string): string
  {
    ConcatMap(ElementWriter(baseUrl, isoText), jobs)
  }

  /** The feed of two lists of jobs lists the first one's elements and then the second one's. */
  lemma JobElementsConcat(baseUrl: string, a: seq<Value>, b: seq<Value>, isoText: Value -> string)
    ensures JobElements(baseUrl, a + b, isoText) == JobElements(baseUrl, a, isoText) + JobElements(baseUrl, b, isoText)
  {
    ConcatMapAppend(ElementWriter(baseUrl, isoText), a, b);
  }

  /** The document sent when the jobs cannot be read. */
  const FeedError := "<?xml version=\"1.0\" encoding=\"UTF-8\"?><error>Failed to generate feed</error>"

  datatype FeedReply = Feed(status: int, xml: string)

  /**
   * `GET /feed.xml`: the head, one element per job appended in order, and
   * the closing `</source>`, or the 500 error document when the jobs could
   * not be read (`None`).
   */
  method BuildFeed(baseUrl: string, now: string, jobs: Option<seq<Value>>, isoText: Value -> string) returns (reply: FeedReply)
    ensures jobs.None? ==> reply == Feed(500, FeedError)
    ensures jobs.Some? ==> reply == Feed(200, FeedHeader(baseUrl, now) + JobElements(baseUrl, jobs.value, isoText) + "</source>")
  {
    if jobs.None? {
      return Feed(500, FeedError);
    }
    var xml := AppendAll(FeedHeader(baseUrl, now), ElementWriter(baseUrl, isoText), jobs.value);
    reply := Feed(200, xml + "</source>");
  }

  // ---------------------------------------------------------------------
  // GET /public/:id
  // ---------------------------------------------------------------------

  /** The job fields the public endpoint returns. */
  datatype PublicJob = PublicJob(
    id: Value, title: Value, companyName: Value, description: Value, location: Value, city: Value,
    zipCode: Value, jobLocationType: Value, jobType: Value, positionType: Value,
    payRangeMin: Value, payRangeMax: Value, payType: Value, benefits: Value, keyResponsibilities: Value,
    qualifications: Value, education: Value, requiredYears: Value, createdAt: Value)

  datatype PublicReply = InvalidId | JobNotFound | FetchFailed | Found(job: PublicJob)

  function PublicStatusCode(r: PublicReply): int
  {
    match r
    case InvalidId => 400
    case JobNotFound => 404
    case FetchFailed => 500
    case Found(_) => 200
  }

  function PublicView(job: Value): (v: PublicJob)
  {
    PublicJob(Get(job, "id"), Get(job, "title"), Get(job, "company_name"),
              Or(Get(job, "description"), Get(job, "ai_generated_description")),
              Get(job, "location"), Get(job, "city"), Get(job, "zip_code"), Get(job, "job_location_type"),
              Get(job, "job_type"), Get(job, "position_type"), SalaryMin(job), SalaryMax(job), Get(job, "pay_type"),
              Get(job, "benefits"), Get(job, "key_responsibilities"), Get(job, "qualifications_certifications"),
              Get(job, "education_requirements"), Get(job, "required_years_experience"), Get(job, "created_at"))
  }

  /**
   * `GET /public/:id`. `findActiveById` is a parameter returning the active
   * job with that id, or a falsy value; `lookupThrew` says that the lookup
   * threw instead, which the handler's catch answers with 500.
   */
  function PublicJobRoute(id: string, lookupThrew: bool, findActiveById: int -> Value): (r: PublicReply)
    ensures ParseInt(id).None? <==> r == InvalidId
    ensures ParseInt(id).Some? && lookupThrew <==> r == FetchFailed
    ensures ParseInt(id).Some? && !lookupThrew && !Truthy(findActiveById(ParseInt(id).value)) <==> r == JobNotFound
    ensures r.Found? ==> r.job == PublicView(findActiveById(ParseInt(id).value))
  {
    match ParseInt(id)
    case None => InvalidId
    case Some(n) =>
      if lookupThrew then FetchFailed
      else
        var job := findActiveById(n);
        if !Truthy(job) then JobNotFound else Found(PublicView(job))
  }

  /**
   * The public page and the feed describe a job alike: the description
   * falls back to the AI-written one in both, and the pay bounds the page
   * receives give the feed's salary text.
   */
  lemma PublicViewMatchesFeed(job: Value)
    ensures ToText(Or(PublicView(job).description, Str(""))) == FeedDescription(job)
    ensures SalaryText(PublicView(job).payRangeMin, PublicView(job).payRangeMax, PublicView(job).payType) == FormatSalary(job)
    ensures !Truthy(Get(job, "description")) ==> PublicView(job).description == Get(job, "ai_generated_description")
  {
  }
}

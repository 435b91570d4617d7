// frontend/src/components/AddJobForm.tsx: the form that creates a job. The
// state updaters (`handleChange`, the benefit toggle, the responsibility
// edit, adding and removing certifications and titles) are pure functions of
// the previous form; `handleSubmit` validates, builds the payload and
// records the outcome step by step. The request is a parameter.

module AddJobForm {
  import opened Common
  import opened Http
  import Js

  /** One entry of `formData`: a text input, a checkbox or a list. */
  datatype Field = Text(s: string) | Flag(b: bool) | Items(items: seq<string>)

  const TitleMissing := "Please enter a job title"
  const ResponsibilitiesMissing := "Please enter all 3 key job responsibilities"
  const ServerFailure := "Something went wrong. Please try again later."
  const ClientFailure := "Failed to create job. Please check your information."
  const NotCreated := "Failed to create job"
  const ConnectionFailure := "Failed to create job. Please check your connection and try again."

  /** The entries that hold lists. */
  const ListKeys: set<string> :=
    {"benefits", "key_responsibilities", "qualifications_certifications", "other_relevant_titles"}

  /** The text entries that `handleSubmit` reads. */
  const TextKeys: set<string> :=
    {"title", "city", "zip_code", "pay_range_min", "pay_range_max", "qualifications_years"}

  /** The initial `formData`. */
  function InitialForm(): (f: map<string, Field>)
  {
    map[
      "title" := Text(""), "company_name" := Text(""), "job_location_type" := Text("on-site"),
      "city" := Text(""), "zip_code" := Text(""), "job_type" := Text("full_time"),
      "pay_range_min" := Text(""), "pay_range_max" := Text(""), "pay_type" := Text("hourly"),
      "expected_hours" := Text(""), "work_schedule" := Text(""), "benefits" := Items([]),
      "key_responsibilities" := Items(["", "", ""]), "qualifications_years" := Text(""),
      "qualifications_certifications" := Items([]), "education_requirements" := Text("no_degree"),
      "other_relevant_titles" := Items([]), "advancement_opportunities" := Flag(false),
      "advancement_timeline" := Text(""), "company_culture" := Text("")
    ]
  }

  /** The shape `handleSubmit` relies on: the lists are lists, three responsibilities, the read texts are texts. */
  predicate WellFormed(f: map<string, Field>)
  {
    && (forall k :: k in ListKeys ==> k in f && f[k].Items?)
    && (forall k :: k in TextKeys ==> k in f && f[k].Text?)
    && |f["key_responsibilities"].items| == 3
  }

  lemma InitialWellFormed()
    ensures WellFormed(InitialForm())
  {
    var f := InitialForm();
    assert f["key_responsibilities"] == Items(["", "", ""]);
  }

  // ---------------------------------------------------------------------
  // The state updaters
  // ---------------------------------------------------------------------

  /** `handleChange`: a checkbox stores its checked state, any other input its value. */
  function Changed(f: map<string, Field>, name: string, value: string, isCheckbox: bool, checked: bool): (g: map<string, Field>)
    ensures g.Keys == f.Keys + {name}
    ensures forall k :: k in f && k != name ==> g[k] == f[k]
  {
    f[name := if isCheckbox then Flag(checked) else Text(value)]
  }

  /** `list.filter(b => b !== x)`. */
  function Without(list: seq<string>, x: string): (r: seq<string>)
    ensures x !in r
    ensures |r| <= |list|
  {
    if list == [] then []
    else (if list[0] == x then [] else [list[0]]) + Without(list[1..], x)
  }

  /** The filter keeps every other value. */
  lemma {:induction false} WithoutKeepsOthers(list: seq<string>, x: string, y: string)
    requires y != x
    ensures y in Without(list, x) <==> y in list
  {
    if list != [] {
      WithoutKeepsOthers(list[1..], x, y);
      assert list == [list[0]] + list[1..];
    }
  }

  lemma {:induction false} WithoutAbsent(list: seq<string>, x: string)
    requires x !in list
    ensures Without(list, x) == list
  {
    if list != [] {
      WithoutAbsent(list[1..], x);
    }
  }

  lemma {:induction false} WithoutAppend(a: seq<string>, b: seq<string>, x: string)
    ensures Without(a + b, x) == Without(a, x) + Without(b, x)
  {
    if a == [] {
      assert a + b == b;
    } else {
      var head := if a[0] == x then [] else [a[0]];
      assert (a + b)[0] == a[0];
      assert (a + b)[1..] == a[1..] + b;
      assert Without(a + b, x) == head + Without(a[1..] + b, x);
      WithoutAppend(a[1..], b, x);
      assert head + (Without(a[1..], x) + Without(b, x)) == (head + Without(a[1..], x)) + Without(b, x);
    }
  }

  /** `handleBenefitToggle`: a benefit in the list is removed (every copy), one not in it is appended. */
  function ToggledBenefit(list: seq<string>, benefit: string): (r: seq<string>)
  {
    if benefit in list then Without(list, benefit) else list + [benefit]
  }

  /**
   * Toggling flips the benefit's membership and keeps every other benefit's;
   * toggling an absent benefit twice gives the list back.
   */
  lemma ToggleBenefitFlips(list: seq<string>, benefit: string)
    ensures benefit in ToggledBenefit(list, benefit) <==> benefit !in list
    ensures forall y :: y != benefit ==> (y in ToggledBenefit(list, benefit) <==> y in list)
    ensures benefit !in list ==> ToggledBenefit(ToggledBenefit(list, benefit), benefit) == list
    ensures benefit in list ==> ToggledBenefit(ToggledBenefit(list, benefit), benefit) == Without(list, benefit) + [benefit]
  {
    forall y | y != benefit
      ensures y in ToggledBenefit(list, benefit) <==> y in list
    {
      WithoutKeepsOthers(list, benefit, y);
    }
    if benefit !in list {
      assert benefit in list + [benefit];
      WithoutAppend(list, [benefit], benefit);
      WithoutAbsent(list, benefit);
      assert Without([benefit], benefit) == [];
    }
  }

  /** `handleResponsibilityChange`: the copy with index `i` replaced. */
  function ReplacedAt(list: seq<string>, i: nat, value: string): (r: seq<string>)
    requires i < |list|
    ensures |r| == |list| && r[i] == value
    ensures forall j :: 0 <= j < |list| && j != i ==> r[j] == list[j]
  {
    list[i := value]
  }

  /** The list after adding an input: the trimmed input appended when it is not blank. */
  function AddedTrimmed(list: seq<string>, input: string): (r: seq<string>)
  {
    if Trim(input) != "" then list + [Trim(input)] else list
  }

  /** The input box after adding: cleared exactly when something was added. */
  function InputAfterAdd(input: string): (r: string)
  {
    if Trim(input) != "" then "" else input
  }

  /**
   * `addCertification` / `addTitle`: a blank input changes neither the list
   * nor the input; otherwise the list grows by the trimmed input at its end
   * and the input is cleared.
   */
  lemma AddTrimmedFacts(list: seq<string>, input: string)
    ensures Trim(input) == "" ==> AddedTrimmed(list, input) == list && InputAfterAdd(input) == input
    ensures Trim(input) != "" ==>
      && |AddedTrimmed(list, input)| == |list| + 1
      && AddedTrimmed(list, input)[..|list|] == list
      && AddedTrimmed(list, input)[|list|] == Trim(input)
      && Trim(AddedTrimmed(list, input)[|list|]) == AddedTrimmed(list, input)[|list|]
      && AddedTrimmed(list, input)[|list|] != ""
      && InputAfterAdd(input) == ""
  {
    if Trim(input) != "" {
      TrimIdempotent(input, IsJsSpace);
      assert (list + [Trim(input)])[..|list|] == list;
    }
  }

  /** `list.filter((_, i) => i !== index)`. */
  function RemovedAt(list: seq<string>, index: int): (r: seq<string>)
  {
    if 0 <= index < |list| then list[..index] + list[index + 1..] else list
  }

  /**
   * `removeCertification(i)` / `removeTitle(i)`: exactly position `i` goes,
   * the items before it stay where they were and the items after it move up
   * by one; an index outside the list changes nothing.
   */
  lemma RemovedAtFacts(list: seq<string>, index: int)
    ensures 0 <= index < |list| ==>
      && |RemovedAt(list, index)| == |list| - 1
      && (forall j :: 0 <= j < index ==> RemovedAt(list, index)[j] == list[j])
      && (forall j :: index < j < |list| ==> RemovedAt(list, index)[j - 1] == list[j])
    ensures !(0 <= index < |list|) ==> RemovedAt(list, index) == list
  {
  }

  // ---------------------------------------------------------------------
  // The payload
  // ---------------------------------------------------------------------

  /** `parseFloat(x) || 0`. */
  function NumberOrZero(text: string): (r: real)
    ensures Js.ParseFloat(text).Some? ==> r == Js.ParseFloat(text).value
    ensures Js.ParseFloat(text).None? ==> r == 0.0
  {
    var p := Js.ParseFloat(text);
    if p.Some? && p.value != 0.0 then p.value else 0.0
  }

  /**
   * The body posted to `/api/jobs`: every entry of the form, with the
   * derived entries written over those of the same name.
   */
  datatype JobPayload = JobPayload(
    form: map<string, Field>,
    location: string,
    requiredYearsExperience: real,
    payRangeMin: Option<real>,
    payRangeMax: Option<real>,
    positionType: string,
    vehicleRequired: bool,
    flexibleOnTitle: bool)

  /** `parseFloat(x) || null`, `None` standing for `null`. */
  function NumberOrNull(text: string): (r: Option<real>)
    ensures r.None? <==> Js.ParseFloat(text).None? || Js.ParseFloat(text).value == 0.0
    ensures r.Some? ==> r == Js.ParseFloat(text)
  {
    var p := Js.ParseFloat(text);
    if p.Some? && p.value != 0.0 then p else None
  }

  /** The payload `handleSubmit` builds from the form. */
  function Payload(f: map<string, Field>): (p: JobPayload)
    requires WellFormed(f)
  {
    JobPayload(
      f,
      f["city"].s + ", " + f["zip_code"].s,
      NumberOrZero(f["qualifications_years"].s),
      NumberOrNull(f["pay_range_min"].s),
      NumberOrNull(f["pay_range_max"].s),
      f["title"].s,
      false,
      true)
  }

  /**
   * The payload rules: the location joins city and ZIP code with a comma;
   * the years are 0 and each pay bound `null` when its text is missing or
   * not a number, and a number that parses to something other than zero is
   * kept; the title doubles as the position type, no vehicle is required
   * and the title is flexible.
   */
  lemma PayloadRules(f: map<string, Field>)
    requires WellFormed(f)
    ensures var p := Payload(f);
      && p.form == f
      && StartsWith(p.location, f["city"].s) && EndsWith(p.location, f["zip_code"].s)
      && Contains(p.location, ", ")
      && (Js.ParseFloat(f["qualifications_years"].s).None? ==> p.requiredYearsExperience == 0.0)
      && (Js.ParseFloat(f["qualifications_years"].s).Some? ==>
            p.requiredYearsExperience == Js.ParseFloat(f["qualifications_years"].s).value)
      && (Js.ParseFloat(f["pay_range_min"].s).None? ==> p.payRangeMin.None?)
      && (Js.ParseFloat(f["pay_range_max"].s).None? ==> p.payRangeMax.None?)
      && (p.payRangeMin.Some? ==> p.payRangeMin.value != 0.0)
      && (p.payRangeMax.Some? ==> p.payRangeMax.value != 0.0)
      && p.positionType == f["title"].s
      && !p.vehicleRequired && p.flexibleOnTitle
  {
    var city, zip := f["city"].s, f["zip_code"].s;
    assert (city + ", " + zip)[..|city|] == city;
    EndsWithLast(city + ", ", zip);
    ContainsBetween(city, ", ", zip);
  }

  // ---------------------------------------------------------------------
  // handleSubmit
  // ---------------------------------------------------------------------

  /** The validation message of a submit, `""` when the form may be sent. */
  function SubmitBlocker(f: map<string, Field>): (e: string)
    requires WellFormed(f)
  {
    var r := f["key_responsibilities"].items;
    if Trim(f["title"].s) == "" then TitleMissing
    else if r[0] == "" || r[1] == "" || r[2] == "" then ResponsibilitiesMissing
    else ""
  }

  /**
   * A blank title is reported first; then any empty responsibility, with no
   * trimming; otherwise the form goes out.
   */
  lemma SubmitBlockerCases(f: map<string, Field>)
    requires WellFormed(f)
    ensures SubmitBlocker(f) == "" <==>
      Trim(f["title"].s) != "" && forall i :: 0 <= i < 3 ==> f["key_responsibilities"].items[i] != ""
    ensures Trim(f["title"].s) == "" ==> SubmitBlocker(f) == TitleMissing
    ensures Trim(f["title"].s) != "" && SubmitBlocker(f) != "" ==> SubmitBlocker(f) == ResponsibilitiesMissing
  {
    var r := f["key_responsibilities"].items;
    if Trim(f["title"].s) != "" && SubmitBlocker(f) == "" {
      assert forall i :: 0 <= i < 3 ==> r[i] != "" by {
        assert r[0] != "" && r[1] != "" && r[2] != "";
      }
    }
    if Trim(f["title"].s) == "" {
      assert |TitleMissing| > 0;
    } else if r[0] == "" || r[1] == "" || r[2] == "" {
      assert |ResponsibilitiesMissing| > 0;
    }
  }

  /** The error an ended request leaves, `""` when the job was created. */
  function OutcomeError(outcome: Outcome): (e: string)
  {
    match outcome
    case Thrown => ConnectionFailure
    case HttpError(code, message) => TextOr(message, if code >= 500 then ServerFailure else ClientFailure)
    case Replied(status, message) => if status == "success" then "" else TextOr(message, NotCreated)
  }

  /** Only a reply whose status is `success` creates the job; every other outcome leaves an error. */
  lemma OutcomeErrors(outcome: Outcome)
    ensures OutcomeError(outcome) == "" <==> Succeeded(outcome)
  {
    if !Succeeded(outcome) {
      match outcome {
        case Thrown =>
          assert |ConnectionFailure| > 0;
        case HttpError(code, message) =>
          assert |ServerFailure| > 0 && |ClientFailure| > 0;
        case Replied(status, message) =>
          assert |NotCreated| > 0;
      }
    }
  }

  /** The form's state. */
  class JobForm {
    var formData: map<string, Field>
    var newCertification: string
    var newTitle: string
    var isSubmitting: bool
    var error: string

    ghost predicate Valid()
      reads `formData
    {
      WellFormed(formData)
    }

    constructor ()
      ensures Valid()
      ensures formData == InitialForm() && newCertification == "" && newTitle == ""
      ensures !isSubmitting && error == ""
    {
      formData := InitialForm();
      newCertification := "";
      newTitle := "";
      isSubmitting := false;
      error := "";
      InitialWellFormed();
    }

    /** `handleChange`. The form wires no list and no read text to a checkbox. */
    method HandleChange(name: string, value: string, isCheckbox: bool, checked: bool)
      requires Valid()
      requires name !in ListKeys && (isCheckbox ==> name !in TextKeys)
      modifies `formData
      ensures Valid()
      ensures formData == Changed(old(formData), name, value, isCheckbox, checked)
    {
      formData := Changed(formData, name, value, isCheckbox, checked);
    }

    /** `handleBenefitToggle`. */
    method ToggleBenefit(benefit: string)
      requires Valid()
      modifies `formData
      ensures Valid()
      ensures formData == old(formData)["benefits" := Items(ToggledBenefit(old(formData)["benefits"].items, benefit))]
    {
      formData := formData["benefits" := Items(ToggledBenefit(formData["benefits"].items, benefit))];
    }

    /** `handleResponsibilityChange`. */
    method ChangeResponsibility(index: nat, value: string)
      requires Valid() && index < 3
      modifies `formData
      ensures Valid()
      ensures formData == old(formData)["key_responsibilities" :=
        Items(ReplacedAt(old(formData)["key_responsibilities"].items, index, value))]
    {
      var updated := ReplacedAt(formData["key_responsibilities"].items, index, value);
      formData := formData["key_responsibilities" := Items(updated)];
    }

    /** `addCertification`. */
    method AddCertification()
      requires Valid()
      modifies `formData, `newCertification
      ensures Valid()
      ensures formData == old(formData)["qualifications_certifications" :=
        Items(AddedTrimmed(old(formData)["qualifications_certifications"].items, old(newCertification)))]
      ensures newCertification == InputAfterAdd(old(newCertification))
    {
      var list := formData["qualifications_certifications"].items;
      formData := formData["qualifications_certifications" := Items(AddedTrimmed(list, newCertification))];
      newCertification := InputAfterAdd(newCertification);
    }

    /** `removeCertification`. */
    method RemoveCertification(index: int)
      requires Valid()
      modifies `formData
      ensures Valid()
      ensures formData == old(formData)["qualifications_certifications" :=
        Items(RemovedAt(old(formData)["qualifications_certifications"].items, index))]
    {
      var list := formData["qualifications_certifications"].items;
      formData := formData["qualifications_certifications" := Items(RemovedAt(list, index))];
    }

    /** `addTitle`. */
    method AddTitle()
      requires Valid()
      modifies `formData, `newTitle
      ensures Valid()
      ensures formData == old(formData)["other_relevant_titles" :=
        Items(AddedTrimmed(old(formData)["other_relevant_titles"].items, old(newTitle)))]
      ensures newTitle == InputAfterAdd(old(newTitle))
    {
      var list := formData["other_relevant_titles"].items;
      formData := formData["other_relevant_titles" := Items(AddedTrimmed(list, newTitle))];
      newTitle := InputAfterAdd(newTitle);
    }

    /** `removeTitle`. */
    method RemoveTitle(index: int)
      requires Valid()
      modifies `formData
      ensures Valid()
      ensures formData == old(formData)["other_relevant_titles" :=
        Items(RemovedAt(old(formData)["other_relevant_titles"].items, index))]
    {
      var list := formData["other_relevant_titles"].items;
      formData := formData["other_relevant_titles" := Items(RemovedAt(list, index))];
    }

    /**
     * `handleSubmit`: the error is cleared; a blocked form gets its message
     * and nothing is sent. Otherwise the payload is posted, `created` tells
     * whether `onJobCreated` and `onClose` were called, the error is the
     * outcome's, and `isSubmitting` is false again at the end.
     */
    method HandleSubmit(outcome: Outcome) returns (sent: Option<JobPayload>, created: bool)
      requires Valid()
      modifies `error, `isSubmitting
      ensures SubmitBlocker(formData) != "" ==> sent.None? && !created && error == SubmitBlocker(formData)
      ensures SubmitBlocker(formData) != "" ==> isSubmitting == old(isSubmitting)
      ensures SubmitBlocker(formData) == "" ==> sent == Some(Payload(formData)) && !isSubmitting
      ensures SubmitBlocker(formData) == "" ==> created == Succeeded(outcome) && error == OutcomeError(outcome)
    {
      error := "";
      var blocker := SubmitBlocker(formData);
      if blocker != "" {
        error := blocker;
        sent, created := None, false;
      } else {
        isSubmitting := true;
        sent := Some(Payload(formData));
        OutcomeErrors(outcome);
        error := OutcomeError(outcome);
        created := error == "";
        isSubmitting := false;
      }
    }
  }
}

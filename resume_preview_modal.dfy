// frontend/src/components/ResumePreviewModal.tsx: the preview of one
// candidate's resume. Everything it shows is computed from the candidate
// record: the name comes from the file name, and the three lists go through
// `ensureArray`. `JSON.parse` is the parameter `parse`; `None` stands for a
// thrown SyntaxError.

module ResumePreviewModal {
  import opened Common
  import Js

  const DefaultFilename := "Candidate_Name.pdf"

  /** The fields of a candidate the preview reads; a null or missing file name is `None`. */
  datatype Candidate = Candidate(filename: Option<string>, certificationsFound: Js.Value,
                                 strengths: Js.Value, weaknesses: Js.Value)

  /** What the preview shows of a candidate. */
  datatype Preview = Preview(filename: string, firstName: string, lastName: string,
                             certifications: seq<Js.Value>, strengths: seq<Js.Value>, weaknesses: seq<Js.Value>)

  // ---------------------------------------------------------------------
  // The name
  // ---------------------------------------------------------------------

  /** `candidate.filename || "Candidate_Name.pdf"`. */
  function SafeFilename(filename: Option<string>): (f: string)
    ensures f != ""
    ensures filename.Some? && filename.value != "" ==> f == filename.value
    ensures filename.None? || filename.value == "" ==> f == DefaultFilename
  {
    if filename.Some? && filename.value != "" then filename.value else DefaultFilename
  }

  /**
   * The first name is the text before the first `_` (or `Candidate` when
   * that is empty); the last name is the text between the first and the
   * second `_` with its first `.pdf` removed, or empty when there is no `_`.
   */
  function NameParts(filename: Option<string>): (names: (string, string))
    ensures names.0 != "" && '_' !in names.0
    ensures '_' !in names.1
  {
    var parts := SplitAt(SafeFilename(filename), '_');
    var first := if parts[0] != "" then parts[0] else "Candidate";
    var last := if |parts| > 1 then RemoveFirstPdf(parts[1]) else "";
    (first, last)
  }

  /** `t.replace('.pdf', '')`: removing text adds no character. */
  function RemoveFirstPdf(t: string): (r: string)
    ensures forall c :: c in r ==> c in t
  {
    match IndexOfFrom(t, ".pdf", 0)
    case None => t
    case Some(i) =>
      assert forall c :: c in t[..i] + t[i + 4..] ==> c in t;
      ReplaceFirst(t, ".pdf", "")
  }

  /** Removing the first `.pdf` of `t + ".pdf"` gives `t` back when `t` has no dot. */
  lemma ReplaceFirstPdf(t: string)
    requires '.' !in t
    ensures RemoveFirstPdf(t + ".pdf") == t
  {
    var s := t + ".pdf";
    assert OccursAt(s, ".pdf", |t|);
    forall j | 0 <= j < |t|
      ensures !OccursAt(s, ".pdf", j)
    {
      assert s[j] == t[j] != '.';
    }
    var r := IndexOfFrom(s, ".pdf", 0);
    assert r == Some(|t|);
    assert s[..|t|] == t;
  }

  /**
   * A file named `First_Last.pdf` shows as `First Last`, whenever the first
   * name is not empty and neither part holds `_` (nor the last part a dot).
   */
  lemma NamePartsRoundTrip(first: string, last: string)
    requires first != "" && '_' !in first
    requires '_' !in last && '.' !in last
    ensures NameParts(Some(first + "_" + last + ".pdf")) == (first, last)
  {
    var s := first + "_" + last + ".pdf";
    assert s == first + ['_'] + (last + ".pdf");
    SplitAtFirst(first, last + ".pdf", '_');
    assert '_' !in last + ".pdf";
    SplitAtNone(last + ".pdf", '_');
    ReplaceFirstPdf(last);
  }

  // ---------------------------------------------------------------------
  // ensureArray
  // ---------------------------------------------------------------------

  /** `parts.map(s => s.trim())`, as string values. */
  function TrimmedTexts(parts: seq<string>): (items: seq<Js.Value>)
    ensures |items| == |parts|
    ensures forall i :: 0 <= i < |parts| ==> items[i] == Js.Str(Trim(parts[i]))
  {
    seq(|parts|, i requires 0 <= i < |parts| => Js.Str(Trim(parts[i])))
  }

  /**
   * `ensureArray`: a falsy value gives no items; an array gives its items;
   * a text that parses as a JSON array gives the parsed items, one that
   * parses as anything else gives none, and one that does not parse gives
   * its comma-separated pieces, trimmed; any other value gives none.
   */
  function EnsureArray(data: Js.Value, parse: string -> Option<Js.Value>): (items: seq<Js.Value>)
  {
    if !Js.Truthy(data) then []
    else match data
      case Arr(xs) => xs
      case Str(s) =>
        (match parse(s)
         case None => TrimmedTexts(SplitAt(s, ','))
         case Some(Arr(xs)) => xs
         case Some(_) => [])
      case _ => []
  }

  /** The texts of a list of string values. */
  function Texts(items: seq<Js.Value>): (ts: seq<string>)
    requires forall i :: 0 <= i < |items| ==> items[i].Str?
    ensures |ts| == |items| && forall i :: 0 <= i < |items| ==> ts[i] == items[i].s
  {
    seq(|items|, i requires 0 <= i < |items| => items[i].s)
  }

  /**
   * The cases of `ensureArray`, each stated by what it keeps: the falsy
   * values and the non-list values give nothing, lists pass through, and
   * a text that is not JSON gives one piece per comma plus one.
   */
  lemma EnsureArrayCases(data: Js.Value, parse: string -> Option<Js.Value>)
    ensures !Js.Truthy(data) || data.Num? || data.Bool? || data.Obj? ==> EnsureArray(data, parse) == []
    ensures data.Arr? ==> EnsureArray(data, parse) == data.items
    ensures data.Str? && data.s != "" && parse(data.s).Some? ==>
      EnsureArray(data, parse) == (if parse(data.s).value.Arr? then parse(data.s).value.items else [])
    ensures data.Str? && data.s != "" && parse(data.s).None? ==>
      |EnsureArray(data, parse)| == |SplitAt(data.s, ',')| >= 1
      && forall i :: 0 <= i < |EnsureArray(data, parse)| ==> EnsureArray(data, parse)[i].Str?
  {
  }

  /**
   * A text that is not JSON and whose comma-separated pieces carry no
   * surrounding blanks comes back whole when the items are joined with
   * commas: the split loses nothing.
   */
  lemma CommaListRoundTrip(s: string, parse: string -> Option<Js.Value>)
    requires s != "" && parse(s).None?
    requires forall k :: 0 <= k < |SplitAt(s, ',')| ==> Trim(SplitAt(s, ',')[k]) == SplitAt(s, ',')[k]
    ensures Join(Texts(EnsureArray(Js.Str(s), parse)), ",") == s
  {
    var parts := SplitAt(s, ',');
    var items := EnsureArray(Js.Str(s), parse);
    assert items == TrimmedTexts(parts);
    assert Texts(items) == parts;
    SplitJoin(s, ',');
  }

  /** Once a list, always the same list: `ensureArray` of its own result changes nothing. */
  lemma EnsureArrayIdempotent(data: Js.Value, parse: string -> Option<Js.Value>)
    ensures EnsureArray(Js.Arr(EnsureArray(data, parse)), parse) == EnsureArray(data, parse)
  {
  }

  // ---------------------------------------------------------------------
  // The preview
  // ---------------------------------------------------------------------

  /**
   * What the modal shows: nothing for a null candidate; otherwise the safe
   * file name, the name parts of it and the three lists through
   * `ensureArray`.
   */
  function Render(candidate: Option<Candidate>, parse: string -> Option<Js.Value>): (p: Option<Preview>)
    ensures p.None? <==> candidate.None?
    ensures p.Some? ==> p.value.filename != "" && p.value.firstName != ""
    ensures p.Some? ==> (p.value.firstName, p.value.lastName) == NameParts(candidate.value.filename)
  {
    match candidate
    case None => None
    case Some(c) =>
      var names := NameParts(c.filename);
      Some(Preview(SafeFilename(c.filename), names.0, names.1,
                   EnsureArray(c.certificationsFound, parse), EnsureArray(c.strengths, parse),
                   EnsureArray(c.weaknesses, parse)))
  }
}

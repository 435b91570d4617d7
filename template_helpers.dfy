// frontend/src/utils/templateHelpers.ts: picking a template out of the fixed
// table, filling in its placeholders, guessing a candidate's name from a
// resume file name, and the option lists of the template picker.

module TemplateHelpers {
  import opened Common
  import opened MessageTemplates

  // ---------------------------------------------------------------------
  // getTemplate
  // ---------------------------------------------------------------------

  /** The arguments of `getTemplate`; the interview type and the channel may be omitted. */
  datatype Query = Query(category: Category, tone: Tone, isNudge: bool,
                         interviewType: Option<InterviewType>, channel: Option<Channel>)

  /** The `find` predicate: a rejection matches whatever type is asked for, an omitted channel matches both. */
  predicate Matches(m: MessageTemplate, q: Query)
  {
    && m.category == q.category
    && m.tone == q.tone
    && m.isNudge == q.isNudge
    && (q.category == Rejection || m.interviewType == q.interviewType)
    && (q.channel.None? || m.channel == q.channel.value)
  }

  /** The first position at or after `from` whose template matches. */
  function FindFrom(ts: seq<MessageTemplate>, q: Query, from: nat): (r: Option<nat>)
    requires from <= |ts|
    decreases |ts| - from
    ensures r.Some? ==> from <= r.value < |ts| && Matches(ts[r.value], q)
                        && forall j :: from <= j < r.value ==> !Matches(ts[j], q)
    ensures r.None? ==> forall j :: from <= j < |ts| ==> !Matches(ts[j], q)
  {
    if from == |ts| then None
    else if Matches(ts[from], q) then Some(from)
    else FindFrom(ts, q, from + 1)
  }

  /** `getTemplate`: the first template of the table that matches, if any. */
  function GetTemplate(q: Query): (r: Option<MessageTemplate>)
    ensures r.Some? ==> r.value in Templates() && Matches(r.value, q)
    ensures r.None? ==> forall m :: m in Templates() ==> !Matches(m, q)
  {
    match FindFrom(Templates(), q, 0)
    case Some(i) => Some(Templates()[i])
    case None => None
  }

  /** A match with no match before it is what `find` returns. */
  lemma FoundAt(q: Query, i: nat)
    requires i < |Templates()| && Matches(Templates()[i], q)
    requires forall j :: 0 <= j < i ==> !Matches(Templates()[j], q)
    ensures GetTemplate(q) == Some(Templates()[i])
  {
    var r := FindFrom(Templates(), q, 0);
    assert r.Some?;
    assert !(r.value < i) && !(r.value > i);
  }

  /** Every entry has a valid key and sits where its key says. */
  lemma EntriesAtTheirIndex()
    ensures |Templates()| == 42
    ensures forall j :: 0 <= j < 42 ==> ValidKey(KeyOf(Templates()[j])) && IndexOfKey(KeyOf(Templates()[j])) == j
  {
    TemplateEntries();
  }

  /** A contact request naming a type and a channel gets the one template with that key. */
  lemma GetContactTemplate(ch: Channel, t: InterviewType, tone: Tone, isNudge: bool)
    ensures var k := Key(Contact, ch, Some(t), tone, isNudge);
      GetTemplate(Query(Contact, tone, isNudge, Some(t), Some(ch))) == Some(Templates()[IndexOfKey(k)])
  {
    var k := Key(Contact, ch, Some(t), tone, isNudge);
    var q := Query(Contact, tone, isNudge, Some(t), Some(ch));
    EntriesAtTheirIndex();
    KeyAtIndexOfKey(k);
    TemplateEntries();
    forall j | 0 <= j < IndexOfKey(k) ensures !Matches(Templates()[j], q) {
      assert KeyOf(Templates()[j]) != k;
    }
    FoundAt(q, IndexOfKey(k));
  }

  /** A rejection request ignores the interview type it is given. */
  lemma GetRejectionTemplate(ch: Channel, tone: Tone, t: Option<InterviewType>)
    ensures var k := Key(Rejection, ch, None, tone, false);
      GetTemplate(Query(Rejection, tone, false, t, Some(ch))) == Some(Templates()[IndexOfKey(k)])
  {
    var k := Key(Rejection, ch, None, tone, false);
    var q := Query(Rejection, tone, false, t, Some(ch));
    EntriesAtTheirIndex();
    KeyAtIndexOfKey(k);
    TemplateEntries();
    forall j | 0 <= j < IndexOfKey(k) ensures !Matches(Templates()[j], q) {
      assert KeyOf(Templates()[j]) != k;
    }
    FoundAt(q, IndexOfKey(k));
  }

  /** There is no rejection nudge. */
  lemma NoRejectionNudge(tone: Tone, t: Option<InterviewType>, ch: Option<Channel>)
    ensures GetTemplate(Query(Rejection, tone, true, t, ch)) == None
  {
    RejectionsHaveNoTypeOrNudge();
  }

  /** A contact request without an interview type finds nothing. */
  lemma ContactNeedsType(tone: Tone, isNudge: bool, ch: Option<Channel>)
    ensures GetTemplate(Query(Contact, tone, isNudge, None, ch)) == None
  {
    EntriesAtTheirIndex();
    var q := Query(Contact, tone, isNudge, None, ch);
    forall j | 0 <= j < 42 ensures !Matches(Templates()[j], q) {
      assert ValidKey(KeyOf(Templates()[j]));
    }
  }

  /** With the channel omitted the email template is found, since the email entries come first. */
  lemma OmittedChannelIsEmail(q: Query)
    requires q.channel.None?
    ensures GetTemplate(q) == GetTemplate(q.(channel := Some(Email)))
  {
    var e := q.(channel := Some(Email));
    if q.category == Rejection && q.isNudge {
      NoRejectionNudge(q.tone, q.interviewType, None);
      NoRejectionNudge(q.tone, q.interviewType, Some(Email));
    } else if q.category == Contact && q.interviewType.None? {
      ContactNeedsType(q.tone, q.isNudge, None);
      ContactNeedsType(q.tone, q.isNudge, Some(Email));
    } else {
      var k := if q.category == Contact then Key(Contact, Email, q.interviewType, q.tone, q.isNudge)
               else Key(Rejection, Email, None, q.tone, false);
      EntriesAtTheirIndex();
      KeyAtIndexOfKey(k);
      TemplateEntries();
      forall j | 0 <= j < IndexOfKey(k) ensures !Matches(Templates()[j], q) {
        var kj := KeyOf(Templates()[j]);
        assert Matches(Templates()[j], q) && kj.channel == Email ==> kj == k;
      }
      FoundAt(q, IndexOfKey(k));
      if q.category == Contact {
        GetContactTemplate(Email, q.interviewType.value, q.tone, q.isNudge);
      } else {
        GetRejectionTemplate(Email, q.tone, q.interviewType);
      }
    }
  }

  // ---------------------------------------------------------------------
  // renderTemplate
  // ---------------------------------------------------------------------

  /** What `renderTemplate` returns: the subject only when the template has a non-empty one. */
  datatype Rendered = Rendered(subject: Option<string>, body: string)

  /** `replacePlaceholders`: every `__`, then every `"Position"`, then every `[link]`, left to right. */
  function ReplacePlaceholders(text: string, name: string, position: string, link: string): string
  {
    ReplaceAll(ReplaceAll(ReplaceAll(text, NamePlaceholder, name), PositionPlaceholder, position), LinkPlaceholder, link)
  }

  /**
   * `renderTemplate` over a template whose wording is `phrase`; an omitted
   * scheduling link leaves `[link]` in place.
   */
  function RenderWith(phrase: nat -> string, m: MessageTemplate, name: string, position: string, link: Option<string>): Rendered
  {
    var l := if link.Some? then link.value else LinkPlaceholder;
    var subject := if m.subject.Some? then Fill(m.subject.value, phrase, NamePlaceholder, PositionPlaceholder, LinkPlaceholder) else "";
    var body := Fill(m.body, phrase, NamePlaceholder, PositionPlaceholder, LinkPlaceholder);
    Rendered(if subject != "" then Some(ReplacePlaceholders(subject, name, position, l)) else None,
             ReplacePlaceholders(body, name, position, l))
  }

  /** `renderTemplate` on an entry of the table. */
  function RenderTemplate(m: MessageTemplate, name: string, position: string, link: Option<string>): Rendered
  {
    RenderWith(Phrase, m, name, position, link)
  }

  /** Wording that contains none of the placeholders' first characters. */
  ghost predicate PlainWording(phrase: nat -> string)
  {
    forall k :: '_' !in phrase(k) && '"' !in phrase(k) && '[' !in phrase(k)
  }

  /** Replacing starts right after a leading occurrence of the pattern. */
  lemma ReplaceAllPrefix(p: string, y: string, r: string)
    requires |p| > 0
    ensures ReplaceAll(p + y, p, r) == r + ReplaceAll(y, p, r)
  {
    assert (p + y)[..|p|] == p;
    assert (p + y)[|p|..] == y;
  }

  /** Text without the pattern's first character is copied through unchanged. */
  lemma {:induction false} ReplaceAllSkip(x: string, y: string, p: string, r: string)
    requires |p| > 0 && p[0] !in x
    ensures ReplaceAll(x + y, p, r) == x + ReplaceAll(y, p, r)
  {
    if x != [] {
      var s := x + y;
      ReplaceAllSkip(x[1..], y, p, r);
      assert s[1..] == x[1..] + y;
      if |s| < |p| {
        assert ReplaceAll(y, p, r) == y;
      } else {
        assert s[..|p|][0] == x[0];
      }
      assert x == [x[0]] + x[1..];
    } else {
      assert x + y == y;
    }
  }

  /**
   * One replacement pass over filled segments: when every segment's text is
   * either exactly the pattern (and becomes `r`) or lacks the pattern's
   * first character (and stays), the pass fills the segments the new way.
   */
  lemma {:induction false} ReplaceFill(segs: seq<Segment>, phrase: nat -> string,
                                       n1: string, p1: string, l1: string,
                                       n2: string, p2: string, l2: string, p: string, r: string)
    requires |p| > 0
    requires forall s :: s in segs ==>
      var a, b := SegmentText(s, phrase, n1, p1, l1), SegmentText(s, phrase, n2, p2, l2);
      (a == p && b == r) || (p[0] !in a && b == a)
    ensures ReplaceAll(Fill(segs, phrase, n1, p1, l1), p, r) == Fill(segs, phrase, n2, p2, l2)
  {
    if segs != [] {
      var a := SegmentText(segs[0], phrase, n1, p1, l1);
      var rest := Fill(segs[1..], phrase, n1, p1, l1);
      assert segs[0] in segs;
      ReplaceFill(segs[1..], phrase, n1, p1, l1, n2, p2, l2, p, r);
      if a == p {
        ReplaceAllPrefix(p, rest, r);
      } else {
        ReplaceAllSkip(a, rest, p, r);
      }
    }
  }

  /** The `__` pass puts the name where its placeholder stood. */
  lemma NamePass(segs: seq<Segment>, phrase: nat -> string, name: string)
    requires PlainWording(phrase)
    ensures ReplaceAll(Fill(segs, phrase, NamePlaceholder, PositionPlaceholder, LinkPlaceholder), NamePlaceholder, name)
            == Fill(segs, phrase, name, PositionPlaceholder, LinkPlaceholder)
  {
    assert '_' !in PositionPlaceholder && '_' !in LinkPlaceholder && NamePlaceholder[0] == '_';
    ReplaceFill(segs, phrase, NamePlaceholder, PositionPlaceholder, LinkPlaceholder,
                name, PositionPlaceholder, LinkPlaceholder, NamePlaceholder, name);
  }

  /** The `"Position"` pass puts the position where its placeholder stood. */
  lemma PositionPass(segs: seq<Segment>, phrase: nat -> string, name: string, position: string)
    requires PlainWording(phrase) && '"' !in name
    ensures ReplaceAll(Fill(segs, phrase, name, PositionPlaceholder, LinkPlaceholder), PositionPlaceholder, position)
            == Fill(segs, phrase, name, position, LinkPlaceholder)
  {
    assert '"' !in LinkPlaceholder && PositionPlaceholder[0] == '"';
    ReplaceFill(segs, phrase, name, PositionPlaceholder, LinkPlaceholder,
                name, position, LinkPlaceholder, PositionPlaceholder, position);
  }

  /** The `[link]` pass puts the link where its placeholder stood. */
  lemma LinkPass(segs: seq<Segment>, phrase: nat -> string, name: string, position: string, link: string)
    requires PlainWording(phrase) && '[' !in name && '[' !in position
    ensures ReplaceAll(Fill(segs, phrase, name, position, LinkPlaceholder), LinkPlaceholder, link)
            == Fill(segs, phrase, name, position, link)
  {
    assert LinkPlaceholder[0] == '[';
    ReplaceFill(segs, phrase, name, position, LinkPlaceholder,
                name, position, link, LinkPlaceholder, link);
  }

  /**
   * With wording free of placeholder characters, a name without `"` or `[`
   * and a position without `[`, the three passes put each value exactly
   * where its placeholder stood, and nowhere else.
   */
  lemma ReplacePlaceholdersFills(segs: seq<Segment>, phrase: nat -> string, name: string, position: string, link: string)
    requires PlainWording(phrase)
    requires '"' !in name && '[' !in name && '[' !in position
    ensures ReplacePlaceholders(Fill(segs, phrase, NamePlaceholder, PositionPlaceholder, LinkPlaceholder), name, position, link)
            == Fill(segs, phrase, name, position, link)
  {
    NamePass(segs, phrase, name);
    PositionPass(segs, phrase, name, position);
    LinkPass(segs, phrase, name, position, link);
  }

  /** The position placeholder always leaves something to fill. */
  lemma {:induction false} FillNamesPosition(segs: seq<Segment>, phrase: nat -> string, name: string, position: string, link: string)
    requires PositionName in segs
    ensures |Fill(segs, phrase, name, position, link)| >= |position|
  {
    if segs[0] != PositionName {
      FillNamesPosition(segs[1..], phrase, name, position, link);
    }
  }

  /**
   * The rendered body is the template's body with the values put in for its
   * placeholders; without a link the `[link]` placeholder stays.
   */
  lemma RenderedBody(phrase: nat -> string, m: MessageTemplate, name: string, position: string, link: Option<string>)
    requires PlainWording(phrase)
    requires '"' !in name && '[' !in name && '[' !in position
    ensures RenderWith(phrase, m, name, position, link).body
            == Fill(m.body, phrase, name, position, if link.Some? then link.value else LinkPlaceholder)
  {
    ReplacePlaceholdersFills(m.body, phrase, name, position, if link.Some? then link.value else LinkPlaceholder);
  }

  /** The rendered subject is the template's subject with the values put in. */
  lemma RenderedSubject(phrase: nat -> string, m: MessageTemplate, name: string, position: string, link: Option<string>)
    requires PlainWording(phrase) && m.subject.Some? && PositionName in m.subject.value
    requires '"' !in name && '[' !in name && '[' !in position
    ensures RenderWith(phrase, m, name, position, link).subject
            == Some(Fill(m.subject.value, phrase, name, position, if link.Some? then link.value else LinkPlaceholder))
  {
    FillNamesPosition(m.subject.value, phrase, NamePlaceholder, PositionPlaceholder, LinkPlaceholder);
    ReplacePlaceholdersFills(m.subject.value, phrase, name, position, if link.Some? then link.value else LinkPlaceholder);
  }

  /** A rendered entry of the table has a subject exactly when it is an email, whatever its wording. */
  lemma RenderedSubjectOnEmail(phrase: nat -> string, i: nat, name: string, position: string, link: Option<string>)
    requires i < |Templates()|
    ensures RenderWith(phrase, Templates()[i], name, position, link).subject.Some? <==> Templates()[i].channel == Email
  {
    SubjectExactlyOnEmail();
    var m := Templates()[i];
    if m.subject.Some? {
      FillNamesPosition(m.subject.value, phrase, NamePlaceholder, PositionPlaceholder, LinkPlaceholder);
    }
  }

  // ---------------------------------------------------------------------
  // extractCandidateName
  // ---------------------------------------------------------------------

  /** Whether `s` ends with `suffix`, ignoring the case of ASCII letters. */
  predicate EndsWithFolded(s: string, suffix: string)
  {
    |suffix| <= |s| && forall i :: 0 <= i < |suffix| ==> LowerChar(s[|s| - |suffix| + i]) == suffix[i]
  }

  /** `replace(/\.(pdf|docx?|txt)$/i, '')`. */
  function StripExtension(s: string): (r: string)
    ensures |r| <= |s| && r == s[..|r|]
  {
    if EndsWithFolded(s, ".docx") then s[..|s| - 5]
    else if EndsWithFolded(s, ".pdf") || EndsWithFolded(s, ".doc") || EndsWithFolded(s, ".txt") then s[..|s| - 4]
    else s
  }

  /** Whether `word` starts `s`, ignoring the case of ASCII letters. */
  predicate StartsWithFolded(s: string, word: string)
  {
    |word| <= |s| && forall i :: 0 <= i < |word| ==> LowerChar(s[i]) == word[i]
  }

  /** `replace(/resume|cv|application/gi, '')`: left to right, the alternatives tried in order. */
  function RemoveWords(s: string): (r: string)
    ensures |r| <= |s|
  {
    if s == [] then []
    else if StartsWithFolded(s, "resume") then RemoveWords(s[6..])
    else if StartsWithFolded(s, "cv") then RemoveWords(s[2..])
    else if StartsWithFolded(s, "application") then RemoveWords(s[11..])
    else [s[0]] + RemoveWords(s[1..])
  }

  /** `word.charAt(0).toUpperCase() + word.slice(1).toLowerCase()`. */
  function Capitalize(word: string): (r: string)
  {
    if word == [] then [] else [UpperChar(word[0])] + ToLower(word[1..])
  }

  /** The words capitalized, in order. */
  function CapitalizeAll(words: seq<string>): (r: seq<string>)
    ensures |r| == |words|
    ensures forall i :: 0 <= i < |r| ==> r[i] == Capitalize(words[i])
  {
    if words == [] then [] else [Capitalize(words[0])] + CapitalizeAll(words[1..])
  }

  const FallbackName: string := "Candidate"

  predicate IsUnderscore(c: char) { c == '_' }
  predicate IsDash(c: char) { c == '-' }

  /** The file name without its extension, the resume words, and the outer underscores and then dashes. */
  function Cleaned(filename: string): (r: string)
    ensures |r| <= |filename|
  {
    TrimWith(TrimWith(RemoveWords(StripExtension(filename)), IsUnderscore), IsDash)
  }

  /** `replace(/[_-]/g, ' ')`. */
  function WithSpaces(s: string): (r: string)
    ensures |r| == |s| && '_' !in r && '-' !in r
  {
    MapChars(s, c => if c == '_' || c == '-' then ' ' else c)
  }

  /** `split(' ').filter(word => word.length > 0).map(capitalize).join(' ')`. */
  function CapitalizeWords(s: string): string
  {
    Join(CapitalizeAll(FilterNonEmpty(SplitAt(s, ' '))), " ")
  }

  /** `extractCandidateName`. */
  function ExtractCandidateName(filename: string): string
  {
    var t := Trim(CapitalizeWords(WithSpaces(Cleaned(filename))));
    if t == "" then FallbackName else t
  }

  predicate IsUpper(c: char) { 'A' <= c <= 'Z' }
  predicate IsLower(c: char) { 'a' <= c <= 'z' }

  /**
   * Position `i` of capitalized text: a character right after a space is
   * not a lower-case letter, and an upper-case letter is either the first
   * character or follows a space.
   */
  predicate CapitalizedAt(s: string, i: nat)
    requires i < |s|
  {
    && (i > 0 && s[i - 1] == ' ' ==> !IsLower(s[i]))
    && (IsUpper(s[i]) ==> i == 0 || s[i - 1] == ' ')
  }

  predicate Capitalized(s: string)
  {
    forall i :: 0 <= i < |s| ==> CapitalizedAt(s, i)
  }

  /** A capitalized word starts with a non-lower-case character and has no other capitals. */
  lemma CapitalizeWord(w: string)
    requires w != [] && ' ' !in w
    ensures var c := Capitalize(w); |c| == |w| && ' ' !in c && !IsLower(c[0]) && Capitalized(c)
  {
    var c := Capitalize(w);
    assert c[0] == UpperChar(w[0]);
    forall i | 0 <= i < |c| ensures c[i] != ' ' && CapitalizedAt(c, i) {
      if i > 0 {
        assert c[i] == LowerChar(w[1..][i - 1]);
        assert w[1..][i - 1] == w[i];
      }
    }
  }

  /** Joining capitalized words that have no spaces with single spaces gives capitalized text. */
  lemma {:induction false} JoinCapitalized(words: seq<string>)
    requires forall k :: 0 <= k < |words| ==>
      words[k] != [] && ' ' !in words[k] && !IsLower(words[k][0]) && Capitalized(words[k])
    ensures var s := Join(words, " "); Capitalized(s) && (s != [] ==> !IsLower(s[0]))
  {
    if |words| > 1 {
      var head, tail := words[0], Join(words[1..], " ");
      JoinCapitalized(words[1..]);
      var s := head + " " + tail;
      assert Join(words, " ") == s;
      assert ' ' !in head;
      forall i | 0 <= i < |s| ensures CapitalizedAt(s, i) {
        if i < |head| {
          assert s[i] == head[i] && CapitalizedAt(head, i);
          if i > 0 { assert s[i - 1] == head[i - 1]; }
        } else if i > |head| {
          var j := i - |head| - 1;
          assert s[i] == tail[j] && CapitalizedAt(tail, j);
          if j > 0 { assert s[i - 1] == tail[j - 1]; }
        }
      }
    }
  }

  /** Trimming whitespace off capitalized text leaves it capitalized. */
  lemma TrimCapitalized(s: string)
    requires Capitalized(s)
    ensures Capitalized(Trim(s))
  {
    var r, k := Trim(s), TrimOffset(s, IsJsSpace);
    forall i | 0 <= i < |r| ensures CapitalizedAt(r, i) {
      assert r[i] == s[k + i] && CapitalizedAt(s, k + i);
      if i > 0 { assert r[i - 1] == s[k + i - 1]; }
    }
  }

  /** Splitting on spaces and capitalizing each non-empty word gives capitalized text. */
  lemma CapitalizeWordsCapitalized(s: string)
    ensures Capitalized(CapitalizeWords(s))
  {
    var words := FilterNonEmpty(SplitAt(s, ' '));
    var caps := CapitalizeAll(words);
    forall k | 0 <= k < |caps|
      ensures caps[k] != [] && ' ' !in caps[k] && !IsLower(caps[k][0]) && Capitalized(caps[k])
    {
      assert words[k] in words;
      CapitalizeWord(words[k]);
    }
    JoinCapitalized(caps);
  }

  /** The fallback is a single capitalized word. */
  lemma FallbackCapitalized()
    ensures FallbackName != "" && !IsLower(FallbackName[0]) && Capitalized(FallbackName)
  {
    forall i | 0 <= i < |FallbackName| ensures CapitalizedAt(FallbackName, i) {
    }
  }

  /**
   * The extracted name is never empty, and no word of it but the first can
   * start in lower case or has a capital after its first letter.
   */
  lemma ExtractedNameCapitalized(filename: string)
    ensures ExtractCandidateName(filename) != ""
    ensures Capitalized(ExtractCandidateName(filename))
  {
    var words := WithSpaces(Cleaned(filename));
    CapitalizeWordsCapitalized(words);
    TrimCapitalized(CapitalizeWords(words));
    FallbackCapitalized();
  }

  // The file names documented above `extractCandidateName` have three
  // shapes: `<first>_<last>_Resume.pdf`, `<first>-<last>.pdf` and
  // `Resume_<first>_<last>.pdf`. The lemmas below prove each shape for every
  // pair of name words, step by step through the cleaning pipeline.

  /** `c` cannot be the first letter of "resume", "cv" or "application", in any case. */
  predicate NoWordLetter(c: char)
  {
    LowerChar(c) != 'r' && LowerChar(c) != 'c' && LowerChar(c) != 'a'
  }

  /** `c` then `d` cannot begin "resume", "cv" or "application", in any case. */
  predicate NoWordPair(c: char, d: char)
  {
    NoWordLetter(c) || LowerChar(d) != (if LowerChar(c) == 'r' then 'e' else if LowerChar(c) == 'c' then 'v' else 'p')
  }

  /** No removed word starts anywhere in `a`, whatever follows it. */
  predicate Plain(a: string)
  {
    if |a| <= 1 then a == [] || NoWordLetter(a[0])
    else NoWordPair(a[0], a[1]) && Plain(a[1..])
  }

  /** A word of ASCII letters only. */
  predicate Letters(w: string)
  {
    forall i :: 0 <= i < |w| ==> IsLower(w[i]) || IsUpper(w[i])
  }

  /** A text with the ".pdf" extension, in that case, loses exactly those four characters. */
  lemma {:induction false} PdfStem(f: string, stem: string)
    requires f == stem + ".pdf"
    ensures StripExtension(f) == stem
  {
    if 5 <= |f| {
      assert f[|f| - 5 + 4] == 'f' && ".docx"[4] == 'x';
    }
    forall i | 0 <= i < 4 ensures LowerChar(f[|f| - 4 + i]) == ".pdf"[i] {
      assert f[|f| - 4 + i] == ".pdf"[i];
    }
    assert f[..|f| - 4] == stem;
  }

  /** The first character of a plain text is kept, and removal goes on after it. */
  lemma {:induction false} RemoveWordsCons(a: string, t: string)
    requires a != [] && Plain(a)
    ensures RemoveWords(a + t) == [a[0]] + RemoveWords(a[1..] + t)
  {
    var s := a + t;
    assert s[0] == a[0] && s[1..] == a[1..] + t;
    assert !StartsWithFolded(s, "resume") && !StartsWithFolded(s, "cv") && !StartsWithFolded(s, "application") by {
      if |a| >= 2 {
        assert NoWordPair(a[0], a[1]) && s[1] == a[1];
      }
    }
  }

  /** A plain prefix passes through the removal unchanged. */
  lemma {:induction false} RemoveWordsPlain(a: string, b: string)
    requires Plain(a)
    ensures RemoveWords(a + b) == a + RemoveWords(b)
  {
    if a == [] {
      assert a + b == b;
    } else {
      calc {
        RemoveWords(a + b);
        { RemoveWordsCons(a, b); }
        [a[0]] + RemoveWords(a[1..] + b);
        { RemoveWordsPlain(a[1..], b); }
        [a[0]] + (a[1..] + RemoveWords(b));
        { assert a == [a[0]] + a[1..]; }
        a + RemoveWords(b);
      }
    }
  }

  /** A plain text is left as it is. */
  lemma {:induction false} RemoveWordsNone(a: string)
    requires Plain(a)
    ensures RemoveWords(a) == a
  {
    RemoveWordsPlain(a, []);
    assert a + [] == a;
  }

  /** The word "resume", in any case, is removed from the front of a text. */
  lemma {:induction false} RemoveWordsAfter(w: string, t: string)
    requires |w| == 6 && StartsWithFolded(w, "resume")
    ensures RemoveWords(w + t) == RemoveWords(t)
  {
    var s := w + t;
    forall i | 0 <= i < 6 ensures LowerChar(s[i]) == "resume"[i] {
      assert s[i] == w[i];
    }
    assert s[6..] == t;
  }

  /** A plain text followed by the word "resume", in any case, keeps only the text. */
  lemma {:induction false} RemoveWordsBefore(n: string, w: string)
    requires Plain(n) && |w| == 6 && StartsWithFolded(w, "resume")
    ensures RemoveWords(n + w) == n
  {
    RemoveWordsPlain(n, w);
    assert w[6..] == [];
    assert n + [] == n;
  }

  /** Once the words are removed, `_` around a name that neither starts nor ends with `_` or `-` is trimmed. */
  lemma {:induction false} CleanedAround(f: string, p: string, name: string, q: string)
    requires RemoveWords(StripExtension(f)) == p + name + q
    requires forall j :: 0 <= j < |p| ==> p[j] == '_'
    requires forall j :: 0 <= j < |q| ==> q[j] == '_'
    requires name != [] && name[0] !in "_-" && name[|name| - 1] !in "_-"
    ensures Cleaned(f) == name
  {
    assert TrimWith(p + name + q, IsUnderscore) == name by {
      TrimAround(p, name, q, IsUnderscore);
    }
    assert TrimWith(name, IsDash) == name by {
      TrimAround("", name, "", IsDash);
      assert "" + name + "" == name;
    }
  }

  /** Two words separated by one space are each capitalized. */
  lemma {:induction false} CapitalizeTwoWords(a: string, b: string)
    requires a != [] && b != [] && ' ' !in a && ' ' !in b
    ensures CapitalizeWords(a + " " + b) == Capitalize(a) + " " + Capitalize(b)
  {
    var w := [a, b];
    assert SplitAt(a + " " + b, ' ') == w by {
      SplitAtNone(b, ' ');
      SplitAtFirst(a, b, ' ');
      assert a + " " + b == a + [' '] + b;
    }
    assert FilterNonEmpty(w) == w by {
      assert w[1..] == [b];
      assert FilterNonEmpty([b]) == [b];
    }
    var c := CapitalizeAll(w);
    assert c == [Capitalize(a), Capitalize(b)];
    assert Join(c, " ") == Capitalize(a) + " " + Capitalize(b);
  }

  /** Underscores and dashes between two words of letters become one space. */
  lemma {:induction false} WithSpacesTwo(a: string, sep: char, b: string)
    requires sep == '_' || sep == '-'
    requires Letters(a) && Letters(b)
    ensures WithSpaces(a + [sep] + b) == a + " " + b
  {
    var c := a + [sep] + b;
    var spaced := WithSpaces(c);
    forall i | 0 <= i < |c| ensures spaced[i] == (a + " " + b)[i] {
      if i < |a| { assert c[i] == a[i]; } else if i > |a| { assert c[i] == b[i - |a| - 1]; }
    }
  }

  /** Capitalizing a word of ASCII letters keeps it a word of ASCII letters of the same length. */
  lemma CapitalizeLetters(w: string)
    requires Letters(w)
    ensures Letters(Capitalize(w)) && |Capitalize(w)| == |w|
  {
  }

  /** Two non-empty words of letters joined by a space have nothing to trim. */
  lemma {:induction false} TrimTwoWords(ca: string, cb: string)
    requires ca != [] && cb != [] && Letters(ca) && Letters(cb)
    ensures Trim(ca + " " + cb) == ca + " " + cb
  {
    var t := ca + " " + cb;
    assert !IsJsSpace(t[0]) && !IsJsSpace(t[|t| - 1]) by {
      assert t[0] == ca[0] && t[|t| - 1] == cb[|cb| - 1];
    }
    assert "" + t + "" == t;
    TrimAround("", t, "", IsJsSpace);
  }

  /** Two words of letters joined by `_` or `-` become the two words capitalized, with one space. */
  lemma {:induction false} TwoWordsSpaced(a: string, sep: char, b: string)
    requires sep == '_' || sep == '-'
    requires a != [] && b != [] && Letters(a) && Letters(b)
    ensures Trim(CapitalizeWords(WithSpaces(a + [sep] + b))) == Capitalize(a) + " " + Capitalize(b)
  {
    WithSpacesTwo(a, sep, b);
    CapitalizeTwoWords(a, b);
    CapitalizeLetters(a);
    CapitalizeLetters(b);
    TrimTwoWords(Capitalize(a), Capitalize(b));
  }

  /**
   * A file name that cleans to two words of ASCII letters joined by an
   * underscore or a dash gives those two words capitalized, with one space.
   */
  lemma {:induction false} ExtractTwoWords(f: string, a: string, sep: char, b: string)
    requires sep == '_' || sep == '-'
    requires a != [] && b != [] && Letters(a) && Letters(b)
    requires Cleaned(f) == a + [sep] + b
    ensures ExtractCandidateName(f) == Capitalize(a) + " " + Capitalize(b)
  {
    TwoWordsSpaced(a, sep, b);
  }

  lemma {:induction false} NameThenResumeCleaned(a: string, b: string, w: string)
    requires a != [] && b != [] && a[0] !in "_-" && b[|b| - 1] !in "_-" && Plain(a + "_" + b + "_")
    requires |w| == 6 && StartsWithFolded(w, "resume")
    ensures Cleaned(a + "_" + b + "_" + w + ".pdf") == a + ['_'] + b
  {
    var f := a + "_" + b + "_" + w + ".pdf";
    var name := a + ['_'] + b;
    var stem := name + "_" + w;
    assert f == stem + ".pdf" by { assert a + "_" + b == name; }
    PdfStem(f, stem);
    assert RemoveWords(stem) == "" + name + "_" by {
      assert a + "_" + b + "_" == name + "_" == "" + name + "_";
      RemoveWordsBefore(name + "_", w);
    }
    assert name[0] == a[0] && name[|name| - 1] == b[|b| - 1];
    CleanedAround(f, "", name, "_");
  }

  /** `John_Doe_Resume.pdf` gives "John Doe": the word after the name is dropped, whatever its case. */
  lemma {:induction false} NameThenResume(a: string, b: string, w: string)
    requires a != [] && b != [] && Letters(a) && Letters(b) && Plain(a + "_" + b + "_")
    requires |w| == 6 && StartsWithFolded(w, "resume")
    ensures ExtractCandidateName(a + "_" + b + "_" + w + ".pdf") == Capitalize(a) + " " + Capitalize(b)
  {
    NameThenResumeCleaned(a, b, w);
    ExtractTwoWords(a + "_" + b + "_" + w + ".pdf", a, '_', b);
  }

  lemma {:induction false} DashedNameCleaned(a: string, b: string)
    requires a != [] && b != [] && a[0] !in "_-" && b[|b| - 1] !in "_-" && Plain(a + "-" + b)
    ensures Cleaned(a + "-" + b + ".pdf") == a + ['-'] + b
  {
    var name := a + ['-'] + b;
    assert name[0] == a[0] && name[|name| - 1] == b[|b| - 1];
    assert StripExtension(name + ".pdf") == name by {
      PdfStem(name + ".pdf", name);
    }
    assert RemoveWords(name) == "" + name + "" by {
      RemoveWordsNone(name);
      assert name == "" + name + "";
    }
    CleanedAround(name + ".pdf", "", name, "");
  }

  /** `jane-smith.pdf` gives "Jane Smith": the dash becomes the space between the capitalized words. */
  lemma {:induction false} DashedName(a: string, b: string)
    requires a != [] && b != [] && Letters(a) && Letters(b) && Plain(a + "-" + b)
    ensures ExtractCandidateName(a + "-" + b + ".pdf") == Capitalize(a) + " " + Capitalize(b)
  {
    DashedNameCleaned(a, b);
    ExtractTwoWords(a + "-" + b + ".pdf", a, '-', b);
  }

  /** Appending to a text with a front part is appending after the front part. */
  lemma AppendAfterFront(w: string, x: string, y: string)
    ensures w + x + y == w + (x + y)
  {
  }

  lemma {:induction false} ResumeStemRemoved(w: string, a: string, b: string)
    requires Plain("_" + a + "_" + b)
    requires |w| == 6 && StartsWithFolded(w, "resume")
    ensures RemoveWords(w + "_" + a + "_" + b) == "_" + (a + ['_'] + b) + ""
  {
    var rest := "_" + a + "_" + b;
    calc {
      RemoveWords(w + "_" + a + "_" + b);
      { AppendAfterFront(w, "_" + a + "_", b); AppendAfterFront(w, "_" + a, "_"); AppendAfterFront(w, "_", a); }
      RemoveWords(w + rest);
      { RemoveWordsAfter(w, rest); }
      RemoveWords(rest);
      { RemoveWordsNone(rest); }
      rest;
      "_" + (a + ['_'] + b) + "";
    }
  }

  lemma {:induction false} ResumeThenNameCleaned(w: string, a: string, b: string)
    requires a != [] && b != [] && a[0] !in "_-" && b[|b| - 1] !in "_-" && Plain("_" + a + "_" + b)
    requires |w| == 6 && StartsWithFolded(w, "resume")
    ensures Cleaned(w + "_" + a + "_" + b + ".pdf") == a + ['_'] + b
  {
    var f := w + "_" + a + "_" + b + ".pdf";
    var name := a + ['_'] + b;
    var stem := w + "_" + a + "_" + b;
    assert StripExtension(f) == stem by {
      PdfStem(f, stem);
    }
    ResumeStemRemoved(w, a, b);
    assert name[0] !in "_-" && name[|name| - 1] !in "_-" by {
      assert name[0] == a[0] && name[|name| - 1] == b[|b| - 1];
    }
    CleanedAround(f, "_", name, "");
  }

  /** `Resume_Bob_Johnson.pdf` gives "Bob Johnson": the word before the name is dropped, whatever its case. */
  lemma {:induction false} ResumeThenName(w: string, a: string, b: string)
    requires a != [] && b != [] && Letters(a) && Letters(b) && Plain("_" + a + "_" + b)
    requires |w| == 6 && StartsWithFolded(w, "resume")
    ensures ExtractCandidateName(w + "_" + a + "_" + b + ".pdf") == Capitalize(a) + " " + Capitalize(b)
  {
    ResumeThenNameCleaned(w, a, b);
    ExtractTwoWords(w + "_" + a + "_" + b + ".pdf", a, '_', b);
  }

  // ---------------------------------------------------------------------
  // Option lists
  // ---------------------------------------------------------------------

  /** `getInterviewTypes`: each type with its label, video first. */
  function InterviewTypeOptions(): (r: seq<(InterviewType, string)>)
  {
    [(Video, "Video Interview"), (Phone, "Phone Screen"), (InPerson, "In-Person")]
  }

  /** `getTones`: each tone with its label, conversational first. */
  function ToneOptions(): (r: seq<(Tone, string)>)
  {
    [(Conversational, "Conversational"), (Friendly, "Friendly"), (Professional, "Professional")]
  }

  /** Every interview type is offered exactly once, in the table's order, with a label. */
  lemma InterviewTypeOptionsCover()
    ensures |InterviewTypeOptions()| == 3
    ensures forall i :: 0 <= i < 3 ==> TypeRank(InterviewTypeOptions()[i].0) == i && InterviewTypeOptions()[i].1 != ""
    ensures forall t: InterviewType :: InterviewTypeOptions()[TypeRank(t)].0 == t
  {
  }

  /** Every tone is offered exactly once, in the table's order, labelled with its own name. */
  lemma ToneOptionsCover()
    ensures |ToneOptions()| == 3
    ensures forall i :: 0 <= i < 3 ==> ToneRank(ToneOptions()[i].0) == i && ToneOptions()[i].1 != ""
    ensures forall t: Tone :: ToneOptions()[ToneRank(t)].0 == t
  {
  }
}

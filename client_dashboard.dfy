// frontend/src/components/ClientDashboard.tsx: the signed-in client's home
// page — the e-mail read from the session token, the job counts, the
// pipeline funnel, the jobs with new candidates and the top candidates.
// `atob` and `JSON.parse` are parameters that fail by returning `None`.

module ClientDashboard {
  import opened Common
  import Js

  // ---------------------------------------------------------------------
  // decodeEmail
  // ---------------------------------------------------------------------

  /** The base64url alphabet turned into base64: `-` to `+` and `_` to `/`. */
  function Base64Char(c: char): (d: char)
  {
    if c == '-' then '+' else if c == '_' then '/' else c
  }

  /**
   * `decodeEmail` given the stored token: no token or an empty one, a token
   * without a second `.`-separated part, a payload `atob` or `JSON.parse`
   * rejects, and a payload without a truthy `email` all give `''`.
   */
  function DecodeEmail(token: Option<string>, atob: string -> Option<string>, parse: string -> Option<Js.Value>): (email: Js.Value)
  {
    if token.None? || token.value == "" then Js.Str("")
    else
      var parts := SplitAt(token.value, '.');
      if |parts| < 2 then Js.Str("")
      else match atob(MapChars(parts[1], Base64Char))
        case None => Js.Str("")
        case Some(text) => match parse(text)
          case None => Js.Str("")
          case Some(payload) => Js.Or(Js.Get(payload, "email"), Js.Str(""))
  }

  /**
   * The result is the payload's `email` when the token has a payload part
   * that decodes and parses to an object with a truthy `email`; in every
   * other case it is the empty text, never an exception.
   */
  lemma DecodeEmailCases(token: Option<string>, atob: string -> Option<string>, parse: string -> Option<Js.Value>)
    ensures var e := DecodeEmail(token, atob, parse);
      e == Js.Str("") || Js.Truthy(e)
    ensures token.None? || token.value == "" || '.' !in token.value ==> DecodeEmail(token, atob, parse) == Js.Str("")
    ensures token.Some? && token.value != "" && |SplitAt(token.value, '.')| >= 2 ==>
      var decoded := atob(MapChars(SplitAt(token.value, '.')[1], Base64Char));
      var parsed := if decoded.Some? then parse(decoded.value) else None;
      DecodeEmail(token, atob, parse) ==
        if parsed.Some? && Js.Truthy(Js.Get(parsed.value, "email")) then Js.Get(parsed.value, "email") else Js.Str("")
  {
    if token.Some? && token.value != "" && '.' !in token.value {
      SplitWithout(token.value, '.');
    }
  }

  /** Splitting a text that does not hold the separator gives the text alone. */
  lemma {:induction false} SplitWithout(s: string, c: char)
    requires c !in s
    ensures SplitAt(s, c) == [s]
  {
    if s != [] {
      SplitWithout(s[1..], c);
      assert SplitOn(s[1..], x => x == c) == [s[1..]];
      assert [s[0]] + s[1..] == s;
    }
  }

  // ---------------------------------------------------------------------
  // friendlyName
  // ---------------------------------------------------------------------

  /** The position of the last `.` in `s`. */
  function LastDot(s: string): (r: Option<nat>)
    ensures r.Some? ==> r.value < |s| && s[r.value] == '.' && forall j :: r.value < j < |s| ==> s[j] != '.'
    ensures r.None? ==> '.' !in s
  {
    if s == [] then None
    else if s[|s| - 1] == '.' then Some(|s| - 1)
    else
      var r := LastDot(s[..|s| - 1]);
      assert r.None? ==> forall j :: 0 <= j < |s| - 1 ==> s[j] != '.';
      r
  }

  /** `.replace(/\.[^.]+$/, '')`: a final `.` with at least one character after it goes, with those characters. */
  function StripExtension(s: string): (r: string)
    ensures |r| <= |s| && r == s[..|r|]
    ensures |r| < |s| ==> s[|r|] == '.' && |s| - |r| >= 2 && forall j :: |r| < j < |s| ==> s[j] != '.'
    ensures |r| == |s| ==> '.' !in s || s[|s| - 1] == '.'
  {
    match LastDot(s)
    case Some(d) =>
      if d < |s| - 1 then s[..d]
      else s
    case None => s
  }

  /** `.replace(/[-_]/g, ' ')`. */
  function DashToSpace(c: char): (d: char)
  {
    if c == '-' || c == '_' then ' ' else c
  }

  /** The regular-expression class `\w`. */
  predicate IsWordChar(c: char)
  {
    'a' <= c <= 'z' || 'A' <= c <= 'Z' || '0' <= c <= '9' || c == '_'
  }

  /** A `\b\w` match: a word character with no word character before it. */
  predicate WordStart(s: string, i: nat)
    requires i < |s|
  {
    IsWordChar(s[i]) && (i == 0 || !IsWordChar(s[i - 1]))
  }

  /** Capitalises from position `i` on, `afterWord` telling whether `s[i - 1]` is a word character. */
  function CapitalizeFrom(s: string, i: nat, afterWord: bool): (r: string)
    requires i <= |s|
    requires i == 0 ==> !afterWord
    requires i > 0 ==> afterWord == IsWordChar(s[i - 1])
    ensures |r| == |s| - i
    ensures forall j :: i <= j < |s| ==> r[j - i] == if WordStart(s, j) then UpperChar(s[j]) else s[j]
    decreases |s| - i
  {
    if i == |s| then ""
    else [if IsWordChar(s[i]) && !afterWord then UpperChar(s[i]) else s[i]] + CapitalizeFrom(s, i + 1, IsWordChar(s[i]))
  }

  /** `.replace(/\b\w/g, c => c.toUpperCase())`. */
  function CapitalizeWords(s: string): (r: string)
    ensures |r| == |s|
    ensures forall j :: 0 <= j < |s| ==> r[j] == if WordStart(s, j) then UpperChar(s[j]) else s[j]
  {
    CapitalizeFrom(s, 0, false)
  }

  /** `friendlyName`: extension off, dashes and underscores to spaces, words capitalised, trimmed. */
  function FriendlyName(filename: string): (name: string)
  {
    Trim(CapitalizeWords(MapChars(StripExtension(filename), DashToSpace)))
  }

  /** No word starts with a lower-case letter. */
  predicate NoLowerWordStart(s: string)
  {
    forall i :: 0 <= i < |s| && WordStart(s, i) ==> !('a' <= s[i] <= 'z')
  }

  /** Capitalising leaves no word starting with a lower-case letter, and adds no `-` or `_`. */
  lemma CapitalizedWords(u: string)
    ensures NoLowerWordStart(CapitalizeWords(u))
    ensures '-' !in u && '_' !in u ==> '-' !in CapitalizeWords(u) && '_' !in CapitalizeWords(u)
  {
    var t := CapitalizeWords(u);
    assert forall j :: 0 <= j < |t| ==> (IsWordChar(t[j]) <==> IsWordChar(u[j]));
    forall i | 0 <= i < |t| && WordStart(t, i)
      ensures !('a' <= t[i] <= 'z')
    {
      assert WordStart(u, i);
    }
  }

  /** Trimming drops only spaces, which are not word characters, so every word start stays one. */
  lemma TrimKeepsWordStarts(t: string)
    requires NoLowerWordStart(t)
    ensures NoLowerWordStart(TrimWith(t, IsJsSpace))
    ensures forall c :: c in TrimWith(t, IsJsSpace) ==> c in t
  {
    var n := TrimWith(t, IsJsSpace);
    var off := TrimOffset(t, IsJsSpace);
    forall i | 0 <= i < |n| && WordStart(n, i)
      ensures !('a' <= n[i] <= 'z')
    {
      assert n[i] == t[off + i];
      if i > 0 {
        assert n[i - 1] == t[off + i - 1];
      } else if off > 0 {
        assert IsJsSpace(t[off - 1]);
      }
      assert WordStart(t, off + i);
    }
    forall c | c in n ensures c in t {
      var i :| 0 <= i < |n| && n[i] == c;
      assert t[off + i] == c;
    }
  }

  /**
   * The name holds no `-` and no `_`, starts and ends on a non-space, and no
   * word in it starts with a lower-case letter.
   */
  lemma FriendlyNameShape(filename: string)
    ensures var n := FriendlyName(filename);
      && '-' !in n && '_' !in n
      && (n == [] || (!IsJsSpace(n[0]) && !IsJsSpace(n[|n| - 1])))
      && NoLowerWordStart(n)
  {
    var u := MapChars(StripExtension(filename), DashToSpace);
    assert forall j :: 0 <= j < |u| ==> u[j] != '-' && u[j] != '_';
    var t := CapitalizeWords(u);
    CapitalizedWords(u);
    assert FriendlyName(filename) == TrimWith(t, IsJsSpace);
    TrimKeepsWordStarts(t);
  }

  // ---------------------------------------------------------------------
  // Jobs, stats and the funnel
  // ---------------------------------------------------------------------

  /** The fields of a job the dashboard reads. */
  datatype Job = Job(id: int, title: string, status: string, newCandidateCount: int)

  /** `statusBreakdown`, in the order `Object.values` lists it. */
  datatype StatusBreakdown = StatusBreakdown(newCount: nat, approved: nat, contacted: nat, backup: nat, rejected: nat)

  datatype Stats = Stats(total: nat, green: nat, statusBreakdown: StatusBreakdown)

  /** `activeJobs`: every job not deleted, in order. */
  function ActiveJobs(jobs: seq<Job>): (r: seq<Job>)
    ensures forall j :: j in r <==> j in jobs && j.status != "deleted"
    ensures |r| <= |jobs|
  {
    if jobs == [] then []
    else (if jobs[0].status != "deleted" then [jobs[0]] else []) + ActiveJobs(jobs[1..])
  }

  /** The filter of `needsAttention`: active jobs with at least one new candidate. */
  function WithNewCandidates(jobs: seq<Job>): (r: seq<Job>)
    ensures forall j :: j in r <==> j in jobs && j.newCandidateCount > 0
    ensures multiset(r) <= multiset(jobs)
  {
    if jobs == [] then []
    else
      assert jobs == [jobs[0]] + jobs[1..];
      (if jobs[0].newCandidateCount > 0 then [jobs[0]] else []) + WithNewCandidates(jobs[1..])
  }

  function NewCount(j: Job): int { j.newCandidateCount }

  /** `needsAttention`. */
  function NeedsAttention(jobs: seq<Job>): (r: seq<Job>)
  {
    SortDesc(WithNewCandidates(ActiveJobs(jobs)), NewCount)
  }

  /**
   * The jobs needing attention are exactly the active jobs with new
   * candidates, each as often as it is listed, the most new candidates first.
   */
  lemma NeedsAttentionCorrect(jobs: seq<Job>)
    ensures forall j :: j in NeedsAttention(jobs) <==> j in jobs && j.status != "deleted" && j.newCandidateCount > 0
    ensures multiset(NeedsAttention(jobs)) == multiset(WithNewCandidates(ActiveJobs(jobs)))
    ensures forall i, k :: 0 <= i < k < |NeedsAttention(jobs)| ==>
      NeedsAttention(jobs)[i].newCandidateCount >= NeedsAttention(jobs)[k].newCandidateCount
  {
    var w := WithNewCandidates(ActiveJobs(jobs));
    SortDescCorrect(w, NewCount);
    forall j ensures j in NeedsAttention(jobs) <==> j in w {
      assert j in NeedsAttention(jobs) <==> j in multiset(NeedsAttention(jobs));
      assert j in w <==> j in multiset(w);
    }
  }

  /** `statusTotal`: the five counts added up; no stats give 0. */
  function StatusTotal(stats: Option<Stats>): (total: nat)
    ensures stats.None? ==> total == 0
    ensures stats.Some? ==> var b := stats.value.statusBreakdown;
      total >= b.newCount && total >= b.approved && total >= b.contacted && total >= b.backup && total >= b.rejected
    ensures stats.Some? && total == 0 ==> var b := stats.value.statusBreakdown;
      b.newCount == 0 && b.approved == 0 && b.contacted == 0 && b.backup == 0 && b.rejected == 0
  {
    match stats
    case None => 0
    case Some(s) =>
      var b := s.statusBreakdown;
      b.newCount + b.approved + b.contacted + b.backup + b.rejected
  }

  /** JavaScript `a + b` on numbers and strings: a string on either side joins the texts, two numbers add. */
  function Plus(a: Js.Value, b: Js.Value): (r: Js.Value)
    requires (a.Num? || a.Str?) && (b.Num? || b.Str?)
    ensures r.Num? <==> a.Num? && b.Num?
  {
    if a.Num? && b.Num? then Js.Num(a.n + b.n) else Js.Str(Js.ToText(a) + Js.ToText(b))
  }

  /** Every count arrived as a number or as text. */
  predicate NumbersOrTexts(counts: seq<Js.Value>)
  {
    forall i :: 0 <= i < |counts| ==> counts[i].Num? || counts[i].Str?
  }

  /** The running `reduce` of `+` from `sum`. */
  function SumFrom(sum: Js.Value, counts: seq<Js.Value>): (total: Js.Value)
    requires sum.Num? || sum.Str?
    requires NumbersOrTexts(counts)
    ensures total.Num? || total.Str?
    decreases |counts|
  {
    if counts == [] then sum else SumFrom(Plus(sum, counts[0]), counts[1..])
  }

  /**
   * `statusTotal` as written, on the values `statusBreakdown` actually holds:
   * `Object.values(...).reduce((sum, v) => sum + v, 0)`.
   */
  function StatusTotalAsWritten(counts: seq<Js.Value>): (total: Js.Value)
    requires NumbersOrTexts(counts)
  {
    SumFrom(Js.Num(0.0), counts)
  }

  /**
   * When the counts arrive as text, as a database driver returns `COUNT(*)`
   * for a 64-bit count, the reduce joins them: three new and five approved
   * candidates give `"035"`, read as 35 by the later division, where the
   * counts add up to 8.
   */
  lemma TextCountsJoined()
    ensures StatusTotalAsWritten([Js.Str("3"), Js.Str("5")]) == Js.Str("035")
    ensures StatusTotal(Some(Stats(8, 0, StatusBreakdown(3, 5, 0, 0, 0)))) == 8
  {
    assert Js.ToText(Js.Num(0.0)) == "0" by {
      assert IntToString(0) == "0";
    }
  }

  /** One funnel bar's width: `Math.round(count / total * 100)`, or 0 for an empty pipeline. */
  function FunnelPercent(count: nat, total: nat): (pct: int)
  {
    if total > 0 then Round(count as real / total as real * 100.0) else 0
  }

  /** Dividing by a positive total keeps the order of the counts. */
  lemma DivideKeepsOrder(a: real, b: real, t: real)
    requires t > 0.0 && a <= b
    ensures a / t <= b / t
  {
    var d := b - a;
    assert b / t == a / t + d / t;
    assert d / t >= 0.0;
  }

  /** A share of a positive total: between 0 and 1, 1 for the whole, and growing with the count. */
  lemma ShareBounds(count: nat, other: nat, total: nat)
    requires count <= total && total > 0
    ensures 0.0 <= count as real / total as real <= 1.0
    ensures count == total ==> count as real / total as real == 1.0
    ensures count <= other ==> count as real / total as real <= other as real / total as real
  {
    var t := total as real;
    DivideKeepsOrder(0.0, count as real, t);
    DivideKeepsOrder(count as real, t, t);
    if count <= other {
      DivideKeepsOrder(count as real, other as real, t);
    }
  }

  /**
   * A bar is between 0 and 100 for a count within the total, 100 for the
   * whole total, 0 for none, and a larger count never gets a shorter bar.
   */
  lemma FunnelPercentBounds(count: nat, other: nat, total: nat)
    requires count <= total
    ensures 0 <= FunnelPercent(count, total) <= 100
    ensures count == total && total > 0 ==> FunnelPercent(count, total) == 100
    ensures count == 0 ==> FunnelPercent(count, total) == 0
    ensures count <= other ==> FunnelPercent(count, total) <= FunnelPercent(other, total)
  {
    if total > 0 {
      ShareBounds(count, other, total);
      var x := count as real / total as real * 100.0;
      RoundMonotone(0.0, x);
      RoundMonotone(x, 100.0);
      if count <= other {
        RoundMonotone(x, other as real / total as real * 100.0);
      }
    }
  }

  /** The funnel card is drawn only for stats whose pipeline is not empty. */
  predicate ShowsFunnel(stats: Option<Stats>)
  {
    stats.Some? && StatusTotal(stats) > 0
  }

  /** Every bar the drawn funnel shows is within 0..100. */
  lemma FunnelBarsBounded(stats: Option<Stats>)
    requires ShowsFunnel(stats)
    ensures var b := stats.value.statusBreakdown; var t := StatusTotal(stats);
      && 0 <= FunnelPercent(b.newCount, t) <= 100
      && 0 <= FunnelPercent(b.approved, t) <= 100
      && 0 <= FunnelPercent(b.contacted, t) <= 100
      && 0 <= FunnelPercent(b.backup, t) <= 100
      && 0 <= FunnelPercent(b.rejected, t) <= 100
  {
    var b := stats.value.statusBreakdown;
    var t := StatusTotal(stats);
    FunnelPercentBounds(b.newCount, 0, t);
    FunnelPercentBounds(b.approved, 0, t);
    FunnelPercentBounds(b.contacted, 0, t);
    FunnelPercentBounds(b.backup, 0, t);
    FunnelPercentBounds(b.rejected, 0, t);
  }

  // ---------------------------------------------------------------------
  // The page
  // ---------------------------------------------------------------------

  /** The fields of a top candidate the page reads. */
  datatype Candidate = Candidate(pipelineId: int, filename: string, tier: string)

  /** A reply of one of the three requests: `success` with its data, or any other status. */
  datatype Fetched<T> = Success(data: T) | Other

  class Dashboard {
    var jobs: seq<Job>
    var stats: Option<Stats>
    var topCandidates: seq<Candidate>
    var loading: bool

    constructor ()
      ensures jobs == [] && stats.None? && topCandidates == [] && loading
    {
      jobs := [];
      stats := None;
      topCandidates := [];
      loading := true;
    }

    /**
     * The mount effect, given the three replies, or `None` when one of the
     * requests threw: each `success` reply sets its part (a missing list
     * reads as empty), the others keep theirs, and a throw sets nothing.
     * `loading` is false afterwards.
     */
    method Load(replies: Option<(Fetched<Option<seq<Job>>>, Fetched<Stats>, Fetched<Option<seq<Candidate>>>)>)
      modifies this
      ensures replies.Some? && replies.value.0.Success? ==>
        jobs == (if replies.value.0.data.Some? then replies.value.0.data.value else [])
      ensures replies.Some? && replies.value.1.Success? ==> stats == Some(replies.value.1.data)
      ensures replies.Some? && replies.value.2.Success? ==>
        topCandidates == (if replies.value.2.data.Some? then replies.value.2.data.value else [])
      ensures replies.None? || replies.value.0.Other? ==> jobs == old(jobs)
      ensures replies.None? || replies.value.1.Other? ==> stats == old(stats)
      ensures replies.None? || replies.value.2.Other? ==> topCandidates == old(topCandidates)
      ensures !loading
    {
      if replies.Some? {
        var (js, st, cs) := replies.value;
        if js.Success? {
          jobs := if js.data.Some? then js.data.value else [];
        }
        if st.Success? {
          stats := Some(st.data);
        }
        if cs.Success? {
          topCandidates := if cs.data.Some? then cs.data.value else [];
        }
      }
      loading := false;
    }
  }
}

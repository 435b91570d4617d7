// frontend/src/components/TalentPoolManager.tsx: the table of every candidate
// in the talent pool, with filters, sortable columns and a star rating per
// row. The page state is a class; each fetch is given its reply.

module TalentPoolManager {
  import opened Common

  const LoadFailed := "Failed to load talent pool"
  const ConnectionFailed := "Error connecting to server"

  /** The full and the half star of the rating column. */
  const FullStar: char := '★'
  const HalfStar: char := '☆'

  /** The fields of a talent-pool row the page reads. */
  datatype Candidate = Candidate(pipelineId: int, tier: string, starRating: real)

  /** How `fetchTalentPool`'s request ends. */
  datatype PoolReply = Threw | Listed(candidates: seq<Candidate>) | NotListed

  /** The summary counts shown above the table (only the total and the tier counts are modelled). */
  datatype PoolStats = PoolStats(total: int, green: Option<int>, yellow: Option<int>, red: Option<int>)

  /** How `fetchStats`'s request ends: a thrown error, or a reply with its status and data. */
  datatype StatsReply = StatsThrew | StatsReplied(status: string, data: PoolStats)

  /** `Math.trunc`, the whole part of `x` rounded toward zero. */
  function Trunc(x: real): (k: int)
    ensures x >= 0.0 ==> k as real <= x < k as real + 1.0
    ensures x < 0.0 ==> k as real - 1.0 < x <= k as real
  {
    if x >= 0.0 then x.Floor else -((-x).Floor)
  }

  /** JavaScript's `x % 1`: the remainder keeps the sign of `x`. */
  function FracJs(x: real): (f: real)
    ensures x >= 0.0 ==> 0.0 <= f < 1.0 && f == x - x.Floor as real
    ensures x < 0.0 ==> -1.0 < f <= 0.0
  {
    x - Trunc(x) as real
  }

  /**
   * `renderStarRating`: one full star per whole point, pushed in a loop,
   * then a half star when `rating % 1` is at least one half.
   */
  method RenderStarRating(rating: real) returns (stars: string)
    ensures rating >= 0.0 ==> |stars| == rating.Floor + (if rating - rating.Floor as real >= 0.5 then 1 else 0)
    ensures rating < 0.0 ==> stars == ""
    ensures forall i :: 0 <= i < |stars| && i < rating.Floor ==> stars[i] == FullStar
    ensures forall i :: 0 <= i < |stars| && i >= rating.Floor ==> stars[i] == HalfStar
  {
    var fullStars := rating.Floor;
    var hasHalfStar := FracJs(rating) >= 0.5;
    stars := "";
    var i := 0;
    while i < fullStars
      invariant 0 <= i <= (if fullStars >= 0 then fullStars else 0)
      invariant |stars| == i
      invariant forall j :: 0 <= j < i ==> stars[j] == FullStar
    {
      stars := stars + [FullStar];
      i := i + 1;
    }
    assert hasHalfStar <==> rating >= 0.0 && rating - rating.Floor as real >= 0.5;
    if hasHalfStar {
      stars := stars + [HalfStar];
    }
  }

  /** The filters and the sort of the table. */
  datatype Filters = Filters(tier: string, position: string, status: string, minScore: string, maxScore: string,
                             sortBy: string, sortOrder: string)

  /** The filters in the order `fetchTalentPool` appends them, each under its query name. */
  function Entries(f: Filters): (es: seq<(string, string)>)
    ensures |es| == 7
    ensures forall i, j :: 0 <= i < j < |es| ==> es[i].0 != es[j].0
  {
    [("tier", f.tier), ("position", f.position), ("status", f.status), ("minScore", f.minScore),
     ("maxScore", f.maxScore), ("sortBy", f.sortBy), ("sortOrder", f.sortOrder)]
  }

  /** The appends, in order: a pair goes into the query only when its value is not empty. */
  function NonEmptyPairs(es: seq<(string, string)>): (ps: seq<(string, string)>)
    ensures forall p :: p in ps ==> p in es && p.1 != ""
    ensures forall p :: p in es && p.1 != "" ==> p in ps
  {
    if es == [] then []
    else (if es[0].1 != "" then [es[0]] else []) + NonEmptyPairs(es[1..])
  }

  /** The query string of `fetchTalentPool`, as its (name, value) pairs in order. */
  function PoolParams(f: Filters): (ps: seq<(string, string)>)
  {
    NonEmptyPairs(Entries(f))
  }

  /** The value a query gives for `name`, if it carries it. */
  function ParamValue(ps: seq<(string, string)>, name: string): (r: Option<string>)
    ensures r.Some? <==> exists i :: 0 <= i < |ps| && ps[i].0 == name
    ensures r.Some? ==> (name, r.value) in ps
  {
    if ps == [] then None
    else if ps[0].0 == name then Some(ps[0].1)
    else ParamValue(ps[1..], name)
  }

  /** With every name listed once, the query gives a name its value exactly when that value is not empty. */
  lemma {:induction false} NonEmptyPairsValue(es: seq<(string, string)>, name: string)
    requires forall i, j :: 0 <= i < j < |es| ==> es[i].0 != es[j].0
    ensures ParamValue(NonEmptyPairs(es), name) ==
      match ParamValue(es, name)
      case Some(v) => if v != "" then Some(v) else None
      case None => None
  {
    if es != [] {
      var tail := es[1..];
      var head := if es[0].1 != "" then [es[0]] else [];
      var rest := NonEmptyPairs(tail);
      assert NonEmptyPairs(es) == head + rest;
      assert forall i, j :: 0 <= i < j < |tail| ==> tail[i].0 != tail[j].0 by {
        forall i, j | 0 <= i < j < |tail| ensures tail[i].0 != tail[j].0 {
          assert tail[i] == es[i + 1] && tail[j] == es[j + 1];
        }
      }
      NonEmptyPairsValue(tail, name);
      if es[0].1 != "" {
        assert (head + rest)[0] == es[0] && (head + rest)[1..] == rest;
      } else {
        assert head + rest == rest;
      }
    }
  }

  /**
   * Every filter is sent under its own name exactly when it is set, and then
   * with its own value; nothing with an empty value is sent.
   */
  lemma PoolParamsCarry(f: Filters, k: nat)
    requires k < 7
    ensures ParamValue(PoolParams(f), Entries(f)[k].0) == if Entries(f)[k].1 != "" then Some(Entries(f)[k].1) else None
    ensures forall p :: p in PoolParams(f) ==> p.1 != ""
  {
    var es := Entries(f);
    NonEmptyPairsValue(es, es[k].0);
    FirstValue(es, k);
  }

  /** In a query that lists every name once, the value of the name at `k` is the one at `k`. */
  lemma {:induction false} FirstValue(es: seq<(string, string)>, k: nat)
    requires k < |es|
    requires forall i, j :: 0 <= i < j < |es| ==> es[i].0 != es[j].0
    ensures ParamValue(es, es[k].0) == Some(es[k].1)
  {
    if k > 0 {
      FirstValue(es[1..], k - 1);
    }
  }

  /** The page. */
  class Manager {
    var candidates: seq<Candidate>
    var loading: bool
    var error: Option<string>
    var filters: Filters
    var stats: Option<PoolStats>

    /** The page as it mounts: loading, no statistics, sorted by score, descending, no filter. */
    constructor ()
      ensures candidates == [] && loading && error.None? && stats.None?
      ensures filters == Filters("", "", "", "", "", "score", "desc")
    {
      candidates := [];
      loading := true;
      error := None;
      stats := None;
      filters := Filters("", "", "", "", "", "score", "desc");
    }

    /**
     * A column header: the current column flips between ascending and
     * descending (anything but `asc` becomes `asc`); another column becomes
     * the sort, descending. The filters stay.
     */
    method HandleSort(field: string)
      modifies `filters
      ensures filters == Clicked(old(filters), field)
    {
      if filters.sortBy == field {
        filters := filters.(sortOrder := if filters.sortOrder == "asc" then "desc" else "asc");
      } else {
        filters := filters.(sortBy := field, sortOrder := "desc");
      }
    }

    /**
     * `fetchTalentPool`, given its reply: the query for the current filters
     * is returned; a listing replaces the rows and clears the error, a
     * reply without one or a thrown error sets its message and keeps the
     * rows. `loading` is false afterwards.
     */
    method FetchTalentPool(reply: PoolReply) returns (query: seq<(string, string)>)
      modifies `candidates, `loading, `error
      ensures query == PoolParams(filters)
      ensures reply.Listed? ==> candidates == reply.candidates && error.None?
      ensures reply.NotListed? ==> candidates == old(candidates) && error == Some(LoadFailed)
      ensures reply.Threw? ==> candidates == old(candidates) && error == Some(ConnectionFailed)
      ensures !loading
    {
      loading := true;
      query := PoolParams(filters);
      match reply {
        case Listed(cs) =>
          candidates := cs;
          error := None;
        case NotListed =>
          error := Some(LoadFailed);
        case Threw =>
          error := Some(ConnectionFailed);
      }
      loading := false;
    }

    /**
     * `fetchStats`, given its reply: a success reply stores its data; any
     * other reply or a thrown error keeps what was shown.
     */
    method FetchStats(reply: StatsReply)
      modifies `stats
      ensures reply.StatsReplied? && reply.status == "success" ==> stats == Some(reply.data)
      ensures !(reply.StatsReplied? && reply.status == "success") ==> stats == old(stats)
    {
      if reply.StatsReplied? && reply.status == "success" {
        stats := Some(reply.data);
      }
    }
  }

  /**
   * The filters after a click on the header of `field`: the current column
   * flips between ascending and descending (anything but `asc` becomes
   * `asc`); another column becomes the sort, descending.
   */
  function Clicked(f: Filters, field: string): (g: Filters)
    ensures g.sortBy == field
    ensures g.(sortBy := f.sortBy, sortOrder := f.sortOrder) == f
    ensures f.sortBy != field ==> g.sortOrder == "desc"
    ensures f.sortBy == field ==> (g.sortOrder == "asc" <==> f.sortOrder != "asc")
  {
    if f.sortBy == field then f.(sortOrder := if f.sortOrder == "asc" then "desc" else "asc")
    else f.(sortBy := field, sortOrder := "desc")
  }

  /**
   * Clicking the same header twice returns to the order it started from when
   * that was `asc` or `desc`; clicking a new header twice sorts it ascending.
   */
  lemma ClickTwice(f: Filters, field: string)
    ensures f.sortBy == field && f.sortOrder in {"asc", "desc"} ==> Clicked(Clicked(f, field), field) == f
    ensures f.sortBy != field ==> Clicked(Clicked(f, field), field).sortOrder == "asc"
  {
  }
}

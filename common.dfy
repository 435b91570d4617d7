// Shared vocabulary for the whole model: optional values, error results,
// the string operations the JavaScript, Java and Python sources lean on
// (trim, replace, split, decimal rendering) and the stable descending sort
// that `Array.prototype.sort` performs with a `b.key - a.key` comparator.

module Common {

  datatype Option<T> = None | Some(value: T)

  datatype Result<T> = Ok(value: T) | Err(error: string)

  // ---------------------------------------------------------------------
  // Whitespace classes
  // ---------------------------------------------------------------------

  /** Characters removed by JavaScript's `String.prototype.trim`. */
  predicate IsJsSpace(c: char)
  {
    c == ' ' || ('\t' <= c <= '\r') || c == '\U{A0}' || c == '\U{1680}'
    || ('\U{2000}' <= c <= '\U{200A}') || c == '\U{2028}' || c == '\U{2029}'
    || c == '\U{202F}' || c == '\U{205F}' || c == '\U{3000}' || c == '\U{FEFF}'
  }

  /** Characters removed by Java's `String.trim`: every code unit up to U+0020. */
  predicate IsJavaSpace(c: char)
  {
    c <= ' '
  }

  /** Characters removed by Python's `str.strip()` (the `str.isspace` class). */
  predicate IsPySpace(c: char)
  {
    c == ' ' || ('\t' <= c <= '\r') || ('\U{1C}' <= c <= '\U{1F}') || c == '\U{85}'
    || c == '\U{A0}' || c == '\U{1680}' || ('\U{2000}' <= c <= '\U{200A}')
    || c == '\U{2028}' || c == '\U{2029}' || c == '\U{202F}' || c == '\U{205F}' || c == '\U{3000}'
  }

  predicate AllSatisfy(s: string, p: char -> bool)
  {
    forall i :: 0 <= i < |s| ==> p(s[i])
  }

  // ---------------------------------------------------------------------
  // Trimming
  // ---------------------------------------------------------------------

  /** The first index at or after `i` that does not hold an `sp` character. */
  function SkipForward(s: string, sp: char -> bool, i: nat): (k: nat)
    requires i <= |s|
    ensures i <= k <= |s|
    ensures forall j :: i <= j < k ==> sp(s[j])
    ensures k == |s| || !sp(s[k])
    decreases |s| - i
  {
    if i < |s| && sp(s[i]) then SkipForward(s, sp, i + 1) else i
  }

  /** The end of `s[lo..e]` once the run of `sp` characters before `e` is dropped. */
  function SkipBackward(s: string, sp: char -> bool, lo: nat, e: nat): (k: nat)
    requires lo <= e <= |s|
    ensures lo <= k <= e
    ensures forall j :: k <= j < e ==> sp(s[j])
    ensures k == lo || !sp(s[k - 1])
    decreases e - lo
  {
    if lo < e && sp(s[e - 1]) then SkipBackward(s, sp, lo, e - 1) else e
  }

  /** How many leading `sp` characters trimming removes. */
  function TrimOffset(s: string, sp: char -> bool): (k: nat)
    ensures k <= |s|
  {
    SkipForward(s, sp, 0)
  }

  /** Removes the longest prefix of `sp` characters. */
  function TrimStartWith(s: string, sp: char -> bool): (r: string)
    ensures r == [] || !sp(r[0])
  {
    s[TrimOffset(s, sp)..]
  }

  /** Removes the longest suffix of `sp` characters. */
  function TrimEndWith(s: string, sp: char -> bool): (r: string)
    ensures r == [] || !sp(r[|r| - 1])
  {
    s[..SkipBackward(s, sp, 0, |s|)]
  }

  /**
   * Removes the longest prefix and suffix of `sp` characters: what is left
   * is the middle part of `s` from `TrimOffset`, starting and ending on a
   * non-space, with only spaces around it.
   */
  function TrimWith(s: string, sp: char -> bool): (r: string)
    ensures TrimOffset(s, sp) + |r| <= |s|
    ensures forall j :: 0 <= j < |r| ==> r[j] == s[TrimOffset(s, sp) + j]
    ensures forall j :: 0 <= j < TrimOffset(s, sp) ==> sp(s[j])
    ensures forall j :: TrimOffset(s, sp) + |r| <= j < |s| ==> sp(s[j])
    ensures r == [] || (!sp(r[0]) && !sp(r[|r| - 1]))
  {
    var k := TrimOffset(s, sp);
    s[k..SkipBackward(s, sp, k, |s|)]
  }

  /** Trimming removes exactly the runs around a middle that starts and ends on a kept character. */
  lemma {:induction false} TrimAround(p: string, m: string, q: string, sp: char -> bool)
    requires forall j :: 0 <= j < |p| ==> sp(p[j])
    requires forall j :: 0 <= j < |q| ==> sp(q[j])
    requires m != [] && !sp(m[0]) && !sp(m[|m| - 1])
    ensures TrimWith(p + m + q, sp) == m
  {
    var s := p + m + q;
    var k := TrimOffset(s, sp);
    assert s[|p|] == m[0];
    assert k == |p|;
    var e := SkipBackward(s, sp, k, |s|);
    assert s[|p| + |m| - 1] == m[|m| - 1];
    assert e == |p| + |m|;
    assert s[k..e] == m;
  }

  function Trim(s: string): string { TrimWith(s, IsJsSpace) }
  function JavaTrim(s: string): string { TrimWith(s, IsJavaSpace) }
  function PyStrip(s: string): string { TrimWith(s, IsPySpace) }

  /** JavaScript's `text || fallback` for an optional string: a missing or empty text gives the fallback. */
  function TextOr(text: Option<string>, fallback: string): (r: string)
    ensures text.Some? && text.value != "" ==> r == text.value
    ensures text.None? || text.value == "" ==> r == fallback
  {
    if text.Some? && text.value != "" then text.value else fallback
  }

  /** A string trims to nothing exactly when all of its characters are spaces. */
  lemma TrimEmptyIff(s: string, sp: char -> bool)
    ensures TrimWith(s, sp) == [] <==> AllSatisfy(s, sp)
  {
    var r := TrimWith(s, sp);
    if r != [] {
      assert s[TrimOffset(s, sp)] == r[0];
    }
  }

  /** Trimming is idempotent. */
  lemma TrimIdempotent(s: string, sp: char -> bool)
    ensures TrimWith(TrimWith(s, sp), sp) == TrimWith(s, sp)
  {
    var r := TrimWith(s, sp);
    if r != [] {
      assert TrimOffset(r, sp) == 0;
      assert SkipBackward(r, sp, 0, |r|) == |r|;
      assert r[0..|r|] == r;
    }
  }

  // ---------------------------------------------------------------------
  // Case mapping (ASCII letters)
  // ---------------------------------------------------------------------

  function LowerChar(c: char): (d: char)
  {
    if 'A' <= c <= 'Z' then (c as int + 32) as char else c
  }

  function UpperChar(c: char): (d: char)
  {
    if 'a' <= c <= 'z' then (c as int - 32) as char else c
  }

  function ToLower(s: string): (r: string)
    ensures |r| == |s| && forall i :: 0 <= i < |s| ==> r[i] == LowerChar(s[i])
  {
    if s == [] then [] else [LowerChar(s[0])] + ToLower(s[1..])
  }

  function ToUpper(s: string): (r: string)
    ensures |r| == |s| && forall i :: 0 <= i < |s| ==> r[i] == UpperChar(s[i])
  {
    if s == [] then [] else [UpperChar(s[0])] + ToUpper(s[1..])
  }

  /** Lower-casing works character by character, so it distributes over concatenation. */
  lemma ToLowerAppend(a: string, b: string)
    ensures ToLower(a + b) == ToLower(a) + ToLower(b)
  {
    var l, r := ToLower(a + b), ToLower(a) + ToLower(b);
    forall i | 0 <= i < |a + b| ensures l[i] == r[i] {
      if i >= |a| { assert (a + b)[i] == b[i - |a|]; }
    }
  }

  lemma ToLowerNoUpper(s: string)
    ensures forall i :: 0 <= i < |s| ==> !('A' <= ToLower(s)[i] <= 'Z')
  {
  }

  // ---------------------------------------------------------------------
  // Substrings
  // ---------------------------------------------------------------------

  predicate StartsWith(s: string, p: string)
  {
    |p| <= |s| && s[..|p|] == p
  }

  predicate EndsWith(s: string, p: string)
  {
    |p| <= |s| && s[|s| - |p|..] == p
  }

  predicate OccursAt(s: string, p: string, i: int)
  {
    0 <= i && i + |p| <= |s| && s[i..i + |p|] == p
  }

  predicate Contains(s: string, p: string)
  {
    exists i :: 0 <= i <= |s| && OccursAt(s, p, i)
  }

  /** The middle part of a three-part concatenation occurs right after the first. */
  lemma OccursBetween(a: string, b: string, c: string)
    ensures OccursAt(a + b + c, b, |a|)
  {
    assert (a + b + c)[|a|..|a| + |b|] == b;
  }

  /** The middle part of a three-part concatenation is contained in it. */
  lemma ContainsBetween(a: string, b: string, c: string)
    ensures Contains(a + b + c, b)
  {
    OccursBetween(a, b, c);
  }

  /** A concatenation ends with its last part. */
  lemma EndsWithLast(a: string, b: string)
    ensures EndsWith(a + b, b)
  {
    assert (a + b)[|a + b| - |b|..] == b;
  }

  /**
   * Position-by-position test for `p` starting at `i`, used by the scanning
   * functions below; it agrees with `OccursAt`.
   */
  function MatchesAt(s: string, p: string, i: nat): (b: bool)
    requires i <= |s|
    ensures b <==> OccursAt(s, p, i)
  {
    i + |p| <= |s| && s[i..i + |p|] == p
  }

  /** The first index at which `p` occurs in `s`, scanning from `from`. */
  function IndexOfFrom(s: string, p: string, from: nat): (r: Option<nat>)
    requires from <= |s|
    decreases |s| - from
    ensures r.Some? ==> from <= r.value && OccursAt(s, p, r.value)
                        && forall j :: from <= j < r.value ==> !OccursAt(s, p, j)
    ensures r.None? ==> forall j :: from <= j <= |s| ==> !OccursAt(s, p, j)
  {
    if MatchesAt(s, p, from) then Some(from)
    else if from == |s| then None
    else IndexOfFrom(s, p, from + 1)
  }

  // ---------------------------------------------------------------------
  // Replacement
  // ---------------------------------------------------------------------

  /**
   * `s.replace(/p/g, r)`: scans left to right, replacing each
   * non-overlapping occurrence of `p`.
   */
  function ReplaceAll(s: string, p: string, r: string): (t: string)
    requires |p| > 0
  {
    if |s| < |p| then s
    else if s[..|p|] == p then r + ReplaceAll(s[|p|..], p, r)
    else [s[0]] + ReplaceAll(s[1..], p, r)
  }

  /** A pattern that does not occur leaves the text untouched. */
  lemma {:induction false} ReplaceAllAbsent(s: string, p: string, r: string)
    requires |p| > 0 && !Contains(s, p)
    ensures ReplaceAll(s, p, r) == s
  {
    if |s| >= |p| {
      assert !OccursAt(s, p, 0);
      if !Contains(s[1..], p) {
        ReplaceAllAbsent(s[1..], p, r);
      } else {
        var i :| 0 <= i <= |s[1..]| && OccursAt(s[1..], p, i);
        assert s[1..][i..i + |p|] == s[i + 1..i + 1 + |p|];
        assert OccursAt(s, p, i + 1);
      }
    }
  }

  /** Replacing a pattern by itself is the identity. */
  lemma {:induction false} ReplaceAllSelf(s: string, p: string)
    requires |p| > 0
    ensures ReplaceAll(s, p, p) == s
  {
    if |s| >= |p| {
      if s[..|p|] == p {
        ReplaceAllSelf(s[|p|..], p);
        assert s == s[..|p|] + s[|p|..];
      } else {
        ReplaceAllSelf(s[1..], p);
        assert s == [s[0]] + s[1..];
      }
    }
  }

  /** `s.replace(p, r)` with a string pattern: only the first occurrence. */
  function ReplaceFirst(s: string, p: string, r: string): (t: string)
  {
    match IndexOfFrom(s, p, 0)
    case None => s
    case Some(i) => s[..i] + r + s[i + |p|..]
  }

  /** Replaces each occurrence of the character `c` by `r`. */
  function ReplaceChar(s: string, c: char, r: string): (t: string)
  {
    if s == [] then []
    else (if s[0] == c then r else [s[0]]) + ReplaceChar(s[1..], c, r)
  }

  lemma {:induction false} ReplaceCharAppend(a: string, b: string, c: char, r: string)
    ensures ReplaceChar(a + b, c, r) == ReplaceChar(a, c, r) + ReplaceChar(b, c, r)
  {
    if a != [] {
      assert (a + b)[1..] == a[1..] + b;
      ReplaceCharAppend(a[1..], b, c, r);
    } else {
      assert a + b == b;
    }
  }

  lemma {:induction false} ReplaceCharAbsent(s: string, c: char, r: string)
    requires c !in s
    ensures ReplaceChar(s, c, r) == s
  {
    if s != [] {
      ReplaceCharAbsent(s[1..], c, r);
    }
  }

  lemma ReplaceCharSingle(c: char, d: char, r: string)
    ensures ReplaceChar([c], d, r) == if c == d then r else [c]
  {
    assert [c][1..] == [];
  }

  /** After replacing every `c` by a text without `c`, no `c` is left. */
  lemma {:induction false} ReplaceCharRemoves(s: string, c: char, r: string)
    requires c !in r
    ensures c !in ReplaceChar(s, c, r)
  {
    if s != [] {
      ReplaceCharRemoves(s[1..], c, r);
      assert ReplaceChar(s, c, r) == (if s[0] == c then r else [s[0]]) + ReplaceChar(s[1..], c, r);
    }
  }

  /** Maps every character through `f`. */
  function MapChars(s: string, f: char -> char): (r: string)
    ensures |r| == |s| && forall i :: 0 <= i < |s| ==> r[i] == f(s[i])
  {
    if s == [] then [] else [f(s[0])] + MapChars(s[1..], f)
  }

  // ---------------------------------------------------------------------
  // Splitting and joining
  // ---------------------------------------------------------------------

  /**
   * `s.split(sep)` where `sep` is a one-character class: the pieces between
   * separators, always at least one (possibly empty) piece.
   */
  function SplitOn(s: string, isSep: char -> bool): (parts: seq<string>)
    ensures |parts| >= 1
    ensures forall k :: 0 <= k < |parts| ==> forall i :: 0 <= i < |parts[k]| ==> !isSep(parts[k][i])
  {
    if s == [] then [""]
    else
      var rest := SplitOn(s[1..], isSep);
      if isSep(s[0]) then [""] + rest
      else [[s[0]] + rest[0]] + rest[1..]
  }

  /** `s.split(c)` for a single character `c`. */
  function SplitAt(s: string, c: char): (parts: seq<string>)
    ensures |parts| >= 1
    ensures forall k :: 0 <= k < |parts| ==> c !in parts[k]
  {
    SplitOn(s, x => x == c)
  }

  /** A text without the separator is a single piece. */
  lemma {:induction false} SplitAtNone(s: string, c: char)
    requires c !in s
    ensures SplitAt(s, c) == [s]
  {
    if s != [] {
      assert c !in s[1..];
      SplitAtNone(s[1..], c);
      assert [s[0]] + s[1..] == s;
    }
  }

  /** Splitting a text whose first separator follows `a` gives `a`, then the pieces of the rest. */
  lemma {:induction false} SplitAtFirst(a: string, b: string, c: char)
    requires c !in a
    ensures SplitAt(a + [c] + b, c) == [a] + SplitAt(b, c)
  {
    var s := a + [c] + b;
    if a == [] {
      assert s[0] == c && s[1..] == b;
    } else {
      assert s[0] == a[0] && s[1..] == a[1..] + [c] + b;
      assert c !in a[1..];
      SplitAtFirst(a[1..], b, c);
      assert [a[0]] + a[1..] == a;
    }
  }

  /** `parts.join(sep)`. */
  function Join(parts: seq<string>, sep: string): (r: string)
  {
    if parts == [] then ""
    else if |parts| == 1 then parts[0]
    else parts[0] + sep + Join(parts[1..], sep)
  }

  /** Splitting on a single character and joining back with it is the identity. */
  lemma {:induction false} SplitJoin(s: string, c: char)
    ensures Join(SplitAt(s, c), [c]) == s
  {
    if s != [] {
      var rest := SplitOn(s[1..], x => x == c);
      SplitJoin(s[1..], c);
      if s[0] == c {
        assert SplitOn(s, x => x == c) == [""] + rest;
        assert ([""] + rest)[1..] == rest;
      } else {
        var parts := SplitOn(s, x => x == c);
        assert parts == [[s[0]] + rest[0]] + rest[1..];
        if |rest| == 1 {
          assert Join(parts, [c]) == [s[0]] + rest[0];
        } else {
          assert parts[1..] == rest[1..];
          assert Join(rest, [c]) == rest[0] + [c] + Join(rest[1..], [c]);
        }
      }
    }
  }

  function FilterNonEmpty(parts: seq<string>): (r: seq<string>)
    ensures forall k :: 0 <= k < |r| ==> r[k] != ""
    ensures forall x :: x in r <==> x in parts && x != ""
  {
    if parts == [] then []
    else (if parts[0] == "" then [] else [parts[0]]) + FilterNonEmpty(parts[1..])
  }

  // ---------------------------------------------------------------------
  // Decimal numerals
  // ---------------------------------------------------------------------

  function DigitChar(d: nat): (c: char)
    requires d < 10
    ensures '0' <= c <= '9'
  {
    ('0' as int + d) as char
  }

  predicate IsDigit(c: char) { '0' <= c <= '9' }

  function NatToString(n: nat): (s: string)
    ensures |s| >= 1 && forall i :: 0 <= i < |s| ==> IsDigit(s[i])
  {
    if n < 10 then [DigitChar(n)] else NatToString(n / 10) + [DigitChar(n % 10)]
  }

  /** `String(n)` for an integer-valued JavaScript number. */
  function IntToString(n: int): (s: string)
    ensures |s| >= 1 && (s[0] == '-' || IsDigit(s[0]))
  {
    if n < 0 then "-" + NatToString(-n) else NatToString(n)
  }

  /** The value of a string of decimal digits. */
  function DigitsValue(s: string): (n: nat)
    requires forall i :: 0 <= i < |s| ==> IsDigit(s[i])
  {
    if s == [] then 0
    else
      assert IsDigit(s[|s| - 1]);
      DigitsValue(s[..|s| - 1]) * 10 + (s[|s| - 1] as int - '0' as int)
  }

  /** Reading back a rendered natural number gives the number. */
  lemma {:induction false} NatToStringRoundTrip(n: nat)
    ensures DigitsValue(NatToString(n)) == n
  {
    if n >= 10 {
      NatToStringRoundTrip(n / 10);
      var s := NatToString(n);
      assert s[..|s| - 1] == NatToString(n / 10);
    }
  }

  /** Distinct numbers render as distinct numerals. */
  lemma NatToStringInjective(m: nat, n: nat)
    requires NatToString(m) == NatToString(n)
    ensures m == n
  {
    NatToStringRoundTrip(m);
    NatToStringRoundTrip(n);
  }

  // ---------------------------------------------------------------------
  // JavaScript rounding
  // ---------------------------------------------------------------------

  /** `Math.round(x)`: the nearest integer, halves rounded up. */
  function Round(x: real): (n: int)
    ensures x - 1.0 / 2.0 < n as real <= x + 1.0 / 2.0
  {
    (x + 1.0 / 2.0).Floor
  }

  lemma RoundMonotone(x: real, y: real)
    requires x <= y
    ensures Round(x) <= Round(y)
  {
  }

  function Clamp(x: real, lo: real, hi: real): (r: real)
    requires lo <= hi
    ensures lo <= r <= hi
    ensures lo <= x <= hi ==> r == x
    ensures x < lo ==> r == lo
    ensures x > hi ==> r == hi
  {
    if x < lo then lo else if x > hi then hi else x
  }

  // ---------------------------------------------------------------------
  // Stable descending sort by an integer key
  // ---------------------------------------------------------------------

  predicate SortedDesc<T>(s: seq<T>, key: T -> int)
  {
    forall i, j :: 0 <= i < j < |s| ==> key(s[i]) >= key(s[j])
  }

  /**
   * Inserts `x` after every element whose key is at least `key(x)`, so that
   * earlier elements with equal keys stay in front (stability).
   */
  function InsertDesc<T>(s: seq<T>, x: T, key: T -> int): (r: seq<T>)
    ensures multiset(r) == multiset(s) + multiset{x}
    ensures |r| == |s| + 1
  {
    if s == [] then [x]
    else if key(s[0]) >= key(x) then
      var t := InsertDesc(s[1..], x, key);
      assert s == [s[0]] + s[1..];
      [s[0]] + t
    else [x] + s
  }

  lemma {:induction false} InsertDescSorted<T>(s: seq<T>, x: T, key: T -> int)
    requires SortedDesc(s, key)
    ensures SortedDesc(InsertDesc(s, x, key), key)
  {
    if s != [] && key(s[0]) >= key(x) {
      InsertDescSorted(s[1..], x, key);
      InsertDescBelow(s[1..], x, key, key(s[0]));
      var t := InsertDesc(s[1..], x, key);
      var r := [s[0]] + t;
      forall i, j | 0 <= i < j < |r| ensures key(r[i]) >= key(r[j]) {
        assert r[j] == t[j - 1];
        if i > 0 { assert r[i] == t[i - 1]; }
      }
    }
  }

  /** Inserting below a bound keeps every key below it. */
  lemma {:induction false} InsertDescBelow<T>(s: seq<T>, x: T, key: T -> int, b: int)
    requires forall i :: 0 <= i < |s| ==> key(s[i]) <= b
    requires key(x) <= b
    ensures forall i :: 0 <= i < |InsertDesc(s, x, key)| ==> key(InsertDesc(s, x, key)[i]) <= b
  {
    if s != [] && key(s[0]) >= key(x) {
      InsertDescBelow(s[1..], x, key, b);
      var t := InsertDesc(s[1..], x, key);
      assert InsertDesc(s, x, key) == [s[0]] + t;
    }
  }

  /**
   * The sort `Array.prototype.sort((a, b) => key(b) - key(a))` performs:
   * a stable insertion sort, highest key first.
   */
  function SortDesc<T>(s: seq<T>, key: T -> int): (r: seq<T>)
    ensures |r| == |s|
  {
    if s == [] then [] else InsertDesc(SortDesc(s[..|s| - 1], key), s[|s| - 1], key)
  }

  /** The sort is ordered highest key first and is a permutation of its input. */
  lemma SortDescCorrect<T>(s: seq<T>, key: T -> int)
    ensures SortedDesc(SortDesc(s, key), key)
    ensures multiset(SortDesc(s, key)) == multiset(s)
  {
    SortDescSorted(s, key);
    SortDescPermutes(s, key);
  }

  lemma {:induction false} SortDescSorted<T>(s: seq<T>, key: T -> int)
    ensures SortedDesc(SortDesc(s, key), key)
  {
    if s != [] {
      SortDescSorted(s[..|s| - 1], key);
      InsertDescSorted(SortDesc(s[..|s| - 1], key), s[|s| - 1], key);
    }
  }

  lemma {:induction false} SortDescPermutes<T>(s: seq<T>, key: T -> int)
    ensures multiset(SortDesc(s, key)) == multiset(s)
  {
    if s != [] {
      SortDescPermutes(s[..|s| - 1], key);
      assert s == s[..|s| - 1] + [s[|s| - 1]];
    }
  }

  // ---------------------------------------------------------------------
  // Text built item by item
  // ---------------------------------------------------------------------

  /** The texts `f` gives the items, concatenated in order. */
  function ConcatMap<T>(f: T -> string, items: seq<T>): string
  {
    if items == [] then "" else ConcatMap(f, items[..|items| - 1]) + f(items[|items| - 1])
  }

  /** Concatenating over two lists is concatenating over each; one item gives its own text. */
  lemma {:induction false} ConcatMapAppend<T>(f: T -> string, a: seq<T>, b: seq<T>)
    ensures ConcatMap(f, a + b) == ConcatMap(f, a) + ConcatMap(f, b)
    ensures |b| == 1 ==> ConcatMap(f, b) == f(b[0])
    decreases |b|
  {
    if |b| == 1 {
      assert b[..0] == [];
    }
    if b == [] {
      assert a + b == a;
    } else {
      var b' := b[..|b| - 1];
      assert (a + b)[..|a + b| - 1] == a + b';
      ConcatMapAppend(f, a, b');
    }
  }

  /** A `text += f(item)` loop over the items. */
  method AppendAll<T>(start: string, f: T -> string, items: seq<T>) returns (text: string)
    ensures text == start + ConcatMap(f, items)
  {
    text := start;
    var i := 0;
    while i < |items|
      invariant 0 <= i <= |items|
      invariant text == start + ConcatMap(f, items[..i])
    {
      assert items[..i + 1][..i] == items[..i];
      text := text + f(items[i]);
      i := i + 1;
    }
    assert items[..i] == items;
  }
}

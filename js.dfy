// JavaScript values as the Node backend and the React frontend see them, with
// the coercions the sources rely on: truthiness (`||`, `!!`, `if (x)`),
// `Number(x)`, `parseFloat(x)` and `String(x)` for numbers.

module Js {
  import opened Common

  datatype Value =
    | Undefined
    | Null
    | Bool(b: bool)
    | Num(n: real)
    | NaN
    | Str(s: string)
    | Arr(items: seq<Value>)
    | Obj(entries: seq<(string, Value)>)

  /** JavaScript truthiness: `undefined`, `null`, `false`, `0`, `NaN` and `''` are falsy. */
  predicate Truthy(v: Value)
  {
    match v
    case Undefined => false
    case Null => false
    case Bool(b) => b
    case Num(n) => n != 0.0
    case NaN => false
    case Str(s) => s != ""
    case Arr(_) => true
    case Obj(_) => true
  }

  /** `a || b`: the first operand when it is truthy, else the second. */
  function Or(a: Value, b: Value): (r: Value)
    ensures Truthy(a) ==> r == a
    ensures !Truthy(a) ==> r == b
  {
    if Truthy(a) then a else b
  }

  predicate IsNullish(v: Value) { v == Null || v == Undefined }

  /** Looks a property up in an object; a missing property reads as `undefined`. */
  function Get(v: Value, key: string): (r: Value)
  {
    match v
    case Obj(entries) => Lookup(entries, key)
    case _ => Undefined
  }

  function Lookup(entries: seq<(string, Value)>, key: string): (r: Value)
    ensures r != Undefined ==> exists i :: 0 <= i < |entries| && entries[i].0 == key
  {
    if entries == [] then Undefined
    else if entries[0].0 == key then entries[0].1
    else Lookup(entries[1..], key)
  }

  /** `obj[key] = v`: overwrites the key where it is, or appends it. */
  function Assign(entries: seq<(string, Value)>, key: string, v: Value): (r: seq<(string, Value)>)
    ensures Lookup(r, key) == v
    ensures forall k :: k != key ==> Lookup(r, k) == Lookup(entries, k)
  {
    if entries == [] then [(key, v)]
    else if entries[0].0 == key then [(key, v)] + entries[1..]
    else [entries[0]] + Assign(entries[1..], key, v)
  }

  /** The property found is the first entry with that key. */
  lemma {:induction false} LookupAt(entries: seq<(string, Value)>, key: string, i: nat)
    requires i < |entries| && entries[i].0 == key
    requires forall j :: 0 <= j < i ==> entries[j].0 != key
    ensures Lookup(entries, key) == entries[i].1
  {
    if i > 0 {
      LookupAt(entries[1..], key, i - 1);
    }
  }

  /** A key no entry has reads as `undefined`. */
  lemma {:induction false} LookupMissing(entries: seq<(string, Value)>, key: string)
    requires forall j :: 0 <= j < |entries| ==> entries[j].0 != key
    ensures Lookup(entries, key) == Undefined
  {
    if entries != [] {
      LookupMissing(entries[1..], key);
    }
  }

  // ---------------------------------------------------------------------
  // Decimal literals
  // ---------------------------------------------------------------------

  /** The end of the run of decimal digits that starts at `i`. */
  function DigitRunEnd(s: string, i: nat): (j: nat)
    requires i <= |s|
    ensures i <= j <= |s|
    ensures forall k :: i <= k < j ==> IsDigit(s[k])
    ensures j == |s| || !IsDigit(s[j])
    decreases |s| - i
  {
    if i < |s| && IsDigit(s[i]) then DigitRunEnd(s, i + 1) else i
  }

  function Pow10(k: nat): (p: nat)
    ensures p >= 1
  {
    if k == 0 then 1 else 10 * Pow10(k - 1)
  }

  /**
   * The longest run `digits? ('.' digits?)?` starting at `i` with at least
   * one digit: its value and the index where it ends.
   */
  function ScanUnsigned(s: string, i: nat): (r: Option<(real, nat)>)
    requires i <= |s|
    ensures r.Some? ==> i < r.value.1 <= |s|
  {
    var intEnd := DigitRunEnd(s, i);
    var hasDot := intEnd < |s| && s[intEnd] == '.';
    var fracEnd := if hasDot then DigitRunEnd(s, intEnd + 1) else intEnd;
    var intDigits := s[i..intEnd];
    var fracDigits := if hasDot then s[intEnd + 1..fracEnd] else "";
    if |intDigits| + |fracDigits| == 0 then None
    else
      Some((DigitsValue(intDigits) as real + DigitsValue(fracDigits) as real / Pow10(|fracDigits|) as real,
            fracEnd))
  }

  /**
   * The longest prefix of `s` that reads as `[+-]? digits? ('.' digits?)?`
   * with at least one digit: its value and its length.
   */
  function ScanDecimal(s: string): (r: Option<(real, nat)>)
    ensures r.Some? ==> 0 < r.value.1 <= |s|
  {
    var signed := |s| > 0 && (s[0] == '+' || s[0] == '-');
    match ScanUnsigned(s, if signed then 1 else 0)
    case None => None
    case Some((m, e)) => Some((if signed && s[0] == '-' then -m else m, e))
  }

  /** `parseFloat(s)`: skips leading white space and reads the longest decimal prefix. */
  function ParseFloat(s: string): (r: Option<real>)
  {
    match ScanDecimal(TrimStartWith(s, IsJsSpace))
    case None => None
    case Some((x, _)) => Some(x)
  }

  /** `Number(s)` for a string: blank is 0, otherwise the whole trimmed text must be a literal. */
  function StringToNumber(s: string): (r: Option<real>)
    ensures Trim(s) == "" ==> r == Some(0.0)
  {
    var t := Trim(s);
    if t == "" then Some(0.0)
    else match ScanDecimal(t)
      case Some((x, n)) => if n == |t| then Some(x) else None
      case None => None
  }

  /** `Number(v)`; `None` stands for `NaN`. */
  function ToNumber(v: Value): (r: Option<real>)
    ensures v.Num? ==> r == Some(v.n)
    ensures v == Undefined || v == NaN ==> r == None
  {
    match v
    case Undefined => None
    case Null => Some(0.0)
    case Bool(b) => Some(if b then 1.0 else 0.0)
    case Num(n) => Some(n)
    case NaN => None
    case Str(s) => StringToNumber(s)
    case Arr(_) => None
    case Obj(_) => None
  }

  /** `parseFloat(v)`: the value is first converted to a string. */
  function ParseFloatValue(v: Value): (r: Option<real>)
    ensures v.Num? ==> r == Some(v.n)
  {
    match v
    case Num(n) => Some(n)
    case Str(s) => ParseFloat(s)
    case _ => None
  }

  /**
   * `parseInt(s)` in base ten: skips leading white space, reads an optional
   * sign and the digits after it; no digit there gives `NaN` (`None`).
   */
  function ParseInt(s: string): (r: Option<int>)
  {
    var t := TrimStartWith(s, IsJsSpace);
    var start := if |t| > 0 && (t[0] == '+' || t[0] == '-') then 1 else 0;
    var end := DigitRunEnd(t, start);
    if end == start then None
    else
      var m: int := DigitsValue(t[start..end]);
      Some(if start == 1 && t[0] == '-' then -m else m)
  }

  /** `parseInt(v)` as a JavaScript number: a string is parsed, anything else is `NaN`. */
  function ParseIntValue(v: Value): (r: Value)
    ensures r == NaN || (r.Num? && r.n == r.n.Floor as real)
    ensures v.Str? && ParseInt(v.s).Some? ==> r == Num(ParseInt(v.s).value as real)
  {
    match v
    case Str(s) => (match ParseInt(s) case Some(n) => Num(n as real) case None => NaN)
    case _ => NaN
  }

  /** `parseInt` reads back every integer that `String` renders. */
  lemma ParseIntRoundTrip(n: int)
    ensures ParseInt(IntToString(n)) == Some(n)
  {
    var m: nat := if n < 0 then -n else n;
    var digits := NatToString(m);
    NatToStringRoundTrip(m);
    if n < 0 {
      ParseIntMinus(IntToString(n), digits);
    } else {
      ParseIntUnsigned(digits);
    }
  }

  /** A run of digits parses as its value. */
  lemma ParseIntUnsigned(s: string)
    requires |s| > 0 && forall k :: 0 <= k < |s| ==> IsDigit(s[k])
    ensures ParseInt(s) == Some(DigitsValue(s) as int)
  {
    NumeralTrimmed(s);
    assert !(s[0] == '+' || s[0] == '-');
    DigitRunToEnd(s, 0);
    assert s[0..|s|] == s;
  }

  /** A minus sign followed by a run of digits parses as the negated value. */
  lemma ParseIntMinus(s: string, d: string)
    requires |d| > 0 && forall k :: 0 <= k < |d| ==> IsDigit(d[k])
    requires s == "-" + d
    ensures ParseInt(s) == Some(-(DigitsValue(d) as int))
  {
    SignedDigits(s, d);
    NumeralTrimmed(s);
    DigitRunToEnd(s, 1);
    assert s[1..|s|] == d;
  }

  lemma {:induction false} DigitRunToEnd(s: string, i: nat)
    requires i <= |s|
    requires forall k :: i <= k < |s| ==> IsDigit(s[k])
    ensures DigitRunEnd(s, i) == |s|
    decreases |s| - i
  {
    if i < |s| { DigitRunToEnd(s, i + 1); }
  }

  lemma ScanAllDigits(s: string, i: nat)
    requires i < |s| && forall k :: i <= k < |s| ==> IsDigit(s[k])
    ensures ScanUnsigned(s, i) == Some((DigitsValue(s[i..]) as real, |s|))
  {
    DigitRunToEnd(s, i);
    assert s[i..|s|] == s[i..];
    assert DigitsValue("") == 0 && Pow10(0) == 1;
  }

  lemma ScanDigits(d: string)
    requires |d| > 0 && forall k :: 0 <= k < |d| ==> IsDigit(d[k])
    ensures ScanDecimal(d) == Some((DigitsValue(d) as real, |d|))
  {
    ScanAllDigits(d, 0);
    assert d[0..] == d;
    ScanPlain(d, DigitsValue(d) as real, |d|);
  }

  /** Without a sign the unsigned reading is the reading. */
  lemma ScanPlain(s: string, m: real, e: nat)
    requires |s| > 0 && IsDigit(s[0]) && ScanUnsigned(s, 0) == Some((m, e))
    ensures ScanDecimal(s) == Some((m, e))
  {
  }

  lemma ScanNegativeDigits(d: string)
    requires |d| > 0 && forall k :: 0 <= k < |d| ==> IsDigit(d[k])
    ensures ScanDecimal("-" + d) == Some((-(DigitsValue(d) as real), |d| + 1))
  {
    var s := "-" + d;
    SignedDigits(s, d);
    ScanAllDigits(s, 1);
    ScanMinus(s, DigitsValue(d) as real, |s|);
  }

  /** After a leading minus sign the unsigned reading is negated. */
  lemma ScanMinus(s: string, m: real, e: nat)
    requires |s| > 0 && s[0] == '-' && ScanUnsigned(s, 1) == Some((m, e))
    ensures ScanDecimal(s) == Some((-m, e))
  {
  }

  lemma SignedDigits(s: string, d: string)
    requires |d| > 0 && forall k :: 0 <= k < |d| ==> IsDigit(d[k])
    requires s == "-" + d
    ensures s[0] == '-' && s[1..] == d && forall k :: 1 <= k < |s| ==> IsDigit(s[k])
  {
    forall k | 1 <= k < |s| ensures IsDigit(s[k]) { assert s[k] == d[k - 1]; }
  }

  lemma NumeralTrimmed(s: string)
    requires |s| > 0 && (IsDigit(s[0]) || s[0] == '-') && IsDigit(s[|s| - 1])
    ensures TrimStartWith(s, IsJsSpace) == s
    ensures Trim(s) == s
  {
    assert !IsJsSpace(s[0]);
    assert !IsJsSpace(s[|s| - 1]);
    assert TrimOffset(s, IsJsSpace) == 0;
    assert SkipBackward(s, IsJsSpace, 0, |s|) == |s|;
    assert s[0..] == s[0..|s|] == s;
  }

  /** `parseFloat` and `Number` read back every integer that `String` renders. */
  lemma IntegerTextRoundTrip(n: int)
    ensures ParseFloat(IntToString(n)) == Some(n as real)
    ensures StringToNumber(IntToString(n)) == Some(n as real)
  {
    var s := IntToString(n);
    var m: nat := if n < 0 then -n else n;
    var digits := NatToString(m);
    NatToStringRoundTrip(m);
    if n < 0 {
      assert s == "-" + digits;
      ScanNegativeDigits(digits);
    } else {
      assert s == digits;
      ScanDigits(digits);
    }
    NumeralReads(s, n as real);
  }

  /** A numeral that scans whole reads as its value under both `parseFloat` and `Number`. */
  lemma NumeralReads(s: string, x: real)
    requires |s| > 0 && (IsDigit(s[0]) || s[0] == '-') && IsDigit(s[|s| - 1])
    requires ScanDecimal(s) == Some((x, |s|))
    ensures ParseFloat(s) == Some(x) && StringToNumber(s) == Some(x)
  {
    NumeralTrimmed(s);
  }


  // ---------------------------------------------------------------------
  // Rendering numbers
  // ---------------------------------------------------------------------

  /** Up to `fuel` decimal digits of a fraction `0 <= f < 1`, stopping once it is exhausted. */
  function FractionDigits(f: real, fuel: nat): (s: string)
    requires 0.0 <= f < 1.0
    ensures forall i :: 0 <= i < |s| ==> IsDigit(s[i])
    decreases fuel
  {
    if fuel == 0 || f == 0.0 then ""
    else
      var d := (f * 10.0).Floor;
      [DigitChar(d)] + FractionDigits(f * 10.0 - d as real, fuel - 1)
  }

  /**
   * `String(x)` for a finite number: integers exactly; other values as the
   * integer part, a dot and up to twenty fraction digits.
   */
  function NumberToString(x: real): (s: string)
    ensures |s| >= 1 && (s[0] == '-' || IsDigit(s[0]))
    ensures x == x.Floor as real ==> s == IntToString(x.Floor)
  {
    if x == x.Floor as real then IntToString(x.Floor)
    else
      var a := if x < 0.0 then -x else x;
      var whole := a.Floor;
      (if x < 0.0 then "-" else "") + NatToString(whole) + "." + FractionDigits(a - whole as real, 20)
  }

  /** `String(v)` for the primitive values the sources stringify. */
  function ToText(v: Value): (s: string)
    ensures v.Str? ==> s == v.s
  {
    match v
    case Undefined => "undefined"
    case Null => "null"
    case Bool(b) => if b then "true" else "false"
    case Num(n) => NumberToString(n)
    case NaN => "NaN"
    case Str(s) => s
    case Arr(items) => JoinTexts(items)
    case Obj(_) => "[object Object]"
  }

  /** `String(array)`: the elements joined with commas, null and undefined as empty. */
  function JoinTexts(items: seq<Value>): (s: string)
  {
    if items == [] then ""
    else
      (if IsNullish(items[0]) then "" else ToText(items[0]))
      + (if |items| == 1 then "" else "," + JoinTexts(items[1..]))
  }
}

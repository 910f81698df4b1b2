/**
 * The dynamic Python values that the export records hold, and the few Python
 * operations the reshaping code applies to them: `dict.get`, truthiness, `or`,
 * `==`, the `in` operator, subscription `[0]` and `str()` inside an f-string.
 */
module PyValues {
  import opened Wrappers

  /** A JSON-like Python value as found in an export record. */
  datatype Value =
    | VNull
    | VBool(b: bool)
    | VInt(i: int)
    | VStr(s: string)
    | VList(items: seq<Value>)

  /** An export record: an open-ended dictionary from key to value. */
  type Record = map<string, Value>

  /** The exceptions that abort a run of the reshaping code. */
  datatype Error =
    | KeyError(key: string)
    | TypeError(reason: string)
    | IndexError
    | ValidationError(model: string, field: string)

  /** `rec.get(key)`: the value under `key`, or None when the key is missing. */
  function Get(rec: Record, key: string): (v: Value)
    ensures key !in rec ==> v == VNull
    ensures key in rec ==> v == rec[key]
  {
    if key in rec then rec[key] else VNull
  }

  /** Python truthiness: None, False, 0, "" and [] are false, everything else is true. */
  predicate Truthy(v: Value) {
    match v
    case VNull => false
    case VBool(b) => b
    case VInt(i) => i != 0
    case VStr(s) => s != []
    case VList(xs) => xs != []
  }

  /** `a or b`: the first operand when it is truthy, otherwise the second. */
  function Or(a: Value, b: Value): (r: Value)
    ensures Truthy(a) ==> r == a
    ensures !Truthy(a) ==> r == b
  {
    if Truthy(a) then a else b
  }

  function BoolToInt(b: bool): int { if b then 1 else 0 }

  /** Python `==` on these values: structural, except that True == 1 and False == 0. */
  predicate PyEq(a: Value, b: Value)
    decreases a
  {
    match a
    case VNull => b.VNull?
    case VBool(x) => (b.VBool? && b.b == x) || (b.VInt? && b.i == BoolToInt(x))
    case VInt(x) => (b.VInt? && b.i == x) || (b.VBool? && BoolToInt(b.b) == x)
    case VStr(x) => b.VStr? && b.s == x
    case VList(xs) =>
      b.VList? && |xs| == |b.items| &&
      forall k :: 0 <= k < |xs| ==> PyEq(xs[k], b.items[k])
  }

  /** Two strings or two ints compare equal exactly when they are the same value. */
  lemma PyEqOnScalars(a: Value, b: Value)
    requires (a.VStr? && b.VStr?) || (a.VInt? && b.VInt?)
    ensures PyEq(a, b) <==> a == b
  {
  }

  // ---------------------------------------------------------------------------
  // Substring containment: `needle in hay` for two strings
  // ---------------------------------------------------------------------------

  /** `needle` occurs in `hay` starting at index `i`. */
  ghost predicate OccursAt(hay: string, needle: string, i: int) {
    0 <= i && i + |needle| <= |hay| && hay[i..i + |needle|] == needle
  }

  /** A left-to-right scan for `needle` inside `hay`. */
  predicate Contains(hay: string, needle: string)
    decreases |hay|
  {
    if |needle| > |hay| then false
    else if hay[..|needle|] == needle then true
    else Contains(hay[1..], needle)
  }

  /** The scan answers exactly the question "does `needle` occur somewhere in `hay`". */
  lemma {:induction false} ContainsIffOccurs(hay: string, needle: string)
    ensures Contains(hay, needle) <==> exists i :: OccursAt(hay, needle, i)
    decreases |hay|
  {
    if |needle| > |hay| {
      forall i | OccursAt(hay, needle, i) ensures false { }
    } else if hay[..|needle|] == needle {
      assert OccursAt(hay, needle, 0);
    } else {
      var tail := hay[1..];
      ContainsIffOccurs(tail, needle);
      if Contains(tail, needle) {
        var i :| OccursAt(tail, needle, i);
        assert hay[i + 1..i + 1 + |needle|] == tail[i..i + |needle|];
        assert OccursAt(hay, needle, i + 1);
      } else {
        forall i | OccursAt(hay, needle, i) ensures false {
          assert i != 0;
          assert tail[i - 1..i - 1 + |needle|] == hay[i..i + |needle|];
          assert OccursAt(tail, needle, i - 1);
        }
      }
    }
  }

  /** Whatever surrounds an occurrence, the scan still finds it. */
  lemma ContainsInContext(prefix: string, needle: string, suffix: string)
    ensures Contains(prefix + needle + suffix, needle)
  {
    var hay := prefix + needle + suffix;
    assert hay[|prefix|..|prefix| + |needle|] == needle;
    assert OccursAt(hay, needle, |prefix|);
    ContainsIffOccurs(hay, needle);
  }

  /** `needle in v` with a string needle: substring test on a string, membership test on a list. */
  function StrIn(needle: string, v: Value): (r: Result<bool, Error>)
    ensures v.VStr? ==> r.Ok? && (r.value <==> exists i :: OccursAt(v.s, needle, i))
    ensures v.VStr? ==> r == Ok(Contains(v.s, needle))
    ensures v.VList? ==> r.Ok? && (r.value <==> exists k :: 0 <= k < |v.items| && PyEq(VStr(needle), v.items[k]))
    ensures !v.VStr? && !v.VList? ==> r.Err? && r.error.TypeError?
  {
    match v
    case VStr(s) =>
      ContainsIffOccurs(s, needle);
      Ok(Contains(s, needle))
    case VList(xs) => Ok(exists k :: 0 <= k < |xs| && PyEq(VStr(needle), xs[k]))
    case _ => Err(TypeError("argument is not iterable"))
  }

  /** `v[0]`: the first element of a list, the first character of a string. */
  function First(v: Value): (r: Result<Value, Error>)
    ensures v.VList? && v.items != [] ==> r == Ok(v.items[0])
    ensures v.VStr? && v.s != [] ==> r == Ok(VStr([v.s[0]]))
    ensures (v.VList? && v.items == []) || (v.VStr? && v.s == []) ==> r == Err(IndexError)
    ensures !v.VList? && !v.VStr? ==> r.Err? && r.error.TypeError?
  {
    match v
    case VList(xs) => if xs == [] then Err(IndexError) else Ok(xs[0])
    case VStr(s) => if s == [] then Err(IndexError) else Ok(VStr([s[0]]))
    case _ => Err(TypeError("object is not subscriptable"))
  }

  // ---------------------------------------------------------------------------
  // str() of a value, as an f-string renders it
  // ---------------------------------------------------------------------------

  predicate IsDigit(c: char) { '0' <= c <= '9' }

  /** The number a decimal digit stands for. */
  function DigitValue(c: char): int {
    c as int - 48
  }

  function DigitChar(d: nat): (c: char)
    requires d < 10
    ensures IsDigit(c) && DigitValue(c) == d
  {
    (48 + d) as char
  }

  /** The number a string of decimal digits spells, most significant digit first. */
  ghost function DecimalValue(s: string): int
    decreases |s|
  {
    if s == [] then 0 else 10 * DecimalValue(s[..|s| - 1]) + DigitValue(s[|s| - 1])
  }

  /** A decimal numeral without leading zeros: `0` itself, or digits that do not start with `0`. */
  ghost predicate Canonical(s: string) {
    && |s| >= 1
    && (forall k :: 0 <= k < |s| ==> IsDigit(s[k]))
    && (|s| > 1 ==> s[0] != '0')
  }

  /** The decimal numeral of a natural number, without leading zeros. */
  function NatToDecimal(n: nat): (r: string)
    ensures Canonical(r) && DecimalValue(r) == n
    ensures n < 10 <==> |r| == 1
  {
    if n < 10 then [DigitChar(n)]
    else
      var r := NatToDecimal(n / 10) + [DigitChar(n % 10)];
      assert r[..|r| - 1] == NatToDecimal(n / 10);
      r
  }

  /** `str(i)` for an int: a minus sign for negatives, then the decimal numeral. */
  function IntToDecimal(i: int): (r: string)
    ensures |r| >= 1 && (i < 0 <==> r[0] == '-')
    ensures i < 0 ==> Canonical(r[1..]) && DecimalValue(r[1..]) == -i
    ensures i >= 0 ==> Canonical(r) && DecimalValue(r) == i
  {
    if i < 0 then
      var r := "-" + NatToDecimal(-i);
      assert r[1..] == NatToDecimal(-i);
      r
    else NatToDecimal(i)
  }

  /** A canonical numeral is at least its leading digit. */
  lemma {:induction false} DecimalValueLead(s: string)
    requires |s| >= 1 && forall k :: 0 <= k < |s| ==> IsDigit(s[k])
    ensures DecimalValue(s) >= DigitValue(s[0])
    decreases |s|
  {
    if |s| > 1 {
      var p := s[..|s| - 1];
      assert forall k :: 0 <= k < |p| ==> IsDigit(p[k]) by {
        forall k | 0 <= k < |p| ensures IsDigit(p[k]) { assert p[k] == s[k]; }
      }
      DecimalValueLead(p);
    }
  }

  /** The rendering is the only canonical numeral of its number. */
  lemma {:induction false} NatToDecimalCanonical(s: string, n: nat)
    requires Canonical(s) && DecimalValue(s) == n
    ensures NatToDecimal(n) == s
    decreases |s|
  {
    var last := s[|s| - 1];
    if |s| == 1 {
      assert s == [last];
      assert DigitChar(n) == last;
    } else {
      var p := s[..|s| - 1];
      assert forall k :: 0 <= k < |p| ==> IsDigit(p[k]) by {
        forall k | 0 <= k < |p| ensures IsDigit(p[k]) { assert p[k] == s[k]; }
      }
      DecimalValueLead(p);
      assert p[0] == s[0];
      var m := DecimalValue(p);
      assert m >= 1;
      assert n / 10 == m && n % 10 == DigitValue(last);
      NatToDecimalCanonical(p, m);
      assert DigitChar(n % 10) == last;
      assert s == p + [last];
    }
  }

  lemma {:induction false} NatToDecimalInjective(a: nat, b: nat)
    requires NatToDecimal(a) == NatToDecimal(b)
    ensures a == b
  {
    var ra, rb := NatToDecimal(a), NatToDecimal(b);
    if a < 10 && b < 10 {
      assert ra[0] == DigitChar(a) && rb[0] == DigitChar(b);
    } else if 10 <= a && 10 <= b {
      assert ra[..|ra| - 1] == NatToDecimal(a / 10);
      assert rb[..|rb| - 1] == NatToDecimal(b / 10);
      NatToDecimalInjective(a / 10, b / 10);
      assert ra[|ra| - 1] == DigitChar(a % 10) && rb[|rb| - 1] == DigitChar(b % 10);
    }
  }

  /** Distinct ints have distinct decimal renderings. */
  lemma IntToDecimalInjective(a: int, b: int)
    requires IntToDecimal(a) == IntToDecimal(b)
    ensures a == b
  {
    var ra, rb := IntToDecimal(a), IntToDecimal(b);
    assert (a < 0) == (ra[0] == '-') && (b < 0) == (rb[0] == '-');
    if a < 0 && b < 0 {
      assert ra[1..] == NatToDecimal(-a) && rb[1..] == NatToDecimal(-b);
      NatToDecimalInjective(-a, -b);
    } else if a >= 0 && b >= 0 {
      NatToDecimalInjective(a, b);
    }
  }

  function Join(parts: seq<string>, sep: string): string {
    if |parts| == 0 then ""
    else if |parts| == 1 then parts[0]
    else parts[0] + sep + Join(parts[1..], sep)
  }

  /** `repr(v)`: how a value is written inside a rendered list. */
  function Repr(v: Value): string
    decreases v
  {
    match v
    case VNull => "None"
    case VBool(b) => if b then "True" else "False"
    case VInt(i) => IntToDecimal(i)
    case VStr(s) => "'" + s + "'"
    case VList(xs) => "[" + Join(seq(|xs|, k requires 0 <= k < |xs| => Repr(xs[k])), ", ") + "]"
  }

  /** `str(v)`, which is what an f-string inserts: a string as itself, anything else as its repr. */
  function Render(v: Value): string {
    if v.VStr? then v.s else Repr(v)
  }

  // ---------------------------------------------------------------------------
  // Typed values written back as dynamic ones (the shape `model_dump` gives)
  // ---------------------------------------------------------------------------

  function OfOptStr(o: Option<string>): Value {
    if o.Some? then VStr(o.value) else VNull
  }

  function OfOptInt(o: Option<int>): Value {
    if o.Some? then VInt(o.value) else VNull
  }

  function OfStrList(ss: seq<string>): Value {
    VList(seq(|ss|, k requires 0 <= k < |ss| => VStr(ss[k])))
  }
}

/**
 * The slice of PHP's value model that the refund request touches: the values a
 * normalised response or a setter argument can hold, `empty()`, the `(int)`
 * cast, loose comparison with 1 and conversion to string (PHP 8 rules).
 */
module Php {
  import opened Wrappers
  import opened Decimal

  /** An array key: PHP arrays are keyed by integers or strings. */
  datatype Key = IntKey(i: int) | StrKey(s: string)

  /** A PHP value; `Arr` is an array, both lists and associative arrays. */
  datatype Value =
    | Null
    | Bool(b: bool)
    | Int(i: int)
    | Str(s: string)
    | Arr(entries: map<Key, Value>)

  /** `empty($v)`: null, false, 0, "", "0" and the empty array. */
  predicate Empty(v: Value) {
    match v
    case Null => true
    case Bool(b) => !b
    case Int(i) => i == 0
    case Str(s) => s == "" || s == "0"
    case Arr(m) => m == map[]
  }

  /** `isset($a[$k])` on an array: the key is present and not null. */
  predicate IsSet(a: map<Key, Value>, k: Key) {
    k in a && a[k] != Null
  }

  /**
   * Reading `$v[$k]`: the entry when `v` is an array holding `k`, otherwise
   * null (PHP warns and yields null for a missing key or a non-string scalar;
   * reading a string's offset is not modelled and also gives null).
   */
  function Index(v: Value, k: Key): (r: Value)
    ensures v.Arr? && k in v.entries ==> r == v.entries[k]
    ensures r != Null ==> v.Arr? && k in v.entries && r == v.entries[k]
  {
    if v.Arr? && k in v.entries then v.entries[k] else Null
  }

  /** The whitespace PHP allows around a numeric string: " \t\n\r\v\f". */
  predicate IsWhitespace(c: char) {
    c == ' ' || c == '\t' || c == '\n' || c == '\r' || c as int == 11 || c as int == 12
  }

  predicate AllWhitespace(s: string) {
    forall i :: 0 <= i < |s| ==> IsWhitespace(s[i])
  }

  /** `s` without its leading whitespace. */
  function SkipWhitespace(s: string): (r: string)
    ensures |r| <= |s| && r == s[|s| - |r|..]
    ensures r == [] || !IsWhitespace(r[0])
    decreases |s|
  {
    if s != [] && IsWhitespace(s[0]) then SkipWhitespace(s[1..]) else s
  }

  /** The run of digits that starts `s`. */
  function TakeDigits(s: string): (r: string)
    ensures AllDigits(r)
    decreases |s|
  {
    if s != [] && IsDigit(s[0]) then [s[0]] + TakeDigits(s[1..]) else []
  }

  /** What follows the run of digits that starts `s`. */
  function DropDigits(s: string): (r: string)
    ensures r == [] || !IsDigit(r[0])
    decreases |s|
  {
    if s != [] && IsDigit(s[0]) then DropDigits(s[1..]) else s
  }

  /**
   * PHP's "leading-numeric" reading of `s`: after leading whitespace, an
   * optional sign and at least one digit. Gives the value and the unread rest.
   */
  function LeadingInteger(s: string): Option<(int, string)> {
    var t := SkipWhitespace(s);
    var negative := t != [] && t[0] == '-';
    var body := if t != [] && (t[0] == '-' || t[0] == '+') then t[1..] else t;
    var digits := TakeDigits(body);
    if digits == [] then None
    else
      var magnitude := DigitsValue(digits);
      Some((if negative then -(magnitude as int) else magnitude, DropDigits(body)))
  }

  /** `(int)$v`. */
  function IntCast(v: Value): int {
    match v
    case Null => 0
    case Bool(b) => if b then 1 else 0
    case Int(i) => i
    case Str(s) => if LeadingInteger(s).Some? then LeadingInteger(s).value.0 else 0
    case Arr(m) => if m == map[] then 0 else 1
  }

  /** An integer numeric string: whitespace, sign, digits, whitespace and nothing else. */
  predicate IsIntegerString(s: string) {
    LeadingInteger(s).Some? && AllWhitespace(LeadingInteger(s).value.1)
  }

  /** `$v == 1` under PHP 8 loose comparison. */
  predicate LooseEqOne(v: Value) {
    match v
    case Null => false
    case Bool(b) => b
    case Int(i) => i == 1
    case Str(s) => IsIntegerString(s) && LeadingInteger(s).value.0 == 1
    case Arr(_) => false
  }

  /** The decimal rendering PHP gives an integer. */
  function IntToString(n: int): (s: string)
    ensures |s| > 0 && (IsDigit(s[0]) || s[0] == '-')
  {
    if n < 0 then "-" + NatToString(-n) else NatToString(n)
  }

  /** `(string)$v`, as used by the `.` operator. */
  function ToPhpString(v: Value): string {
    match v
    case Null => ""
    case Bool(b) => if b then "1" else ""
    case Int(i) => IntToString(i)
    case Str(s) => s
    case Arr(_) => "Array"
  }

  lemma {:induction false} SkipWhitespaceOf(w: string, x: string)
    requires AllWhitespace(w) && (x == [] || !IsWhitespace(x[0]))
    ensures SkipWhitespace(w + x) == x
    decreases |w|
  {
    if w == [] {
      assert w + x == x;
    } else {
      assert (w + x)[1..] == w[1..] + x;
      SkipWhitespaceOf(w[1..], x);
    }
  }

  lemma {:induction false} DigitsOf(d: string, t: string)
    requires AllDigits(d) && (t == [] || !IsDigit(t[0]))
    ensures TakeDigits(d + t) == d && DropDigits(d + t) == t
    decreases |d|
  {
    if d == [] {
      assert d + t == t;
    } else {
      assert (d + t)[1..] == d[1..] + t;
      DigitsOf(d[1..], t);
      assert [d[0]] + d[1..] == d;
    }
  }

  /** The scan of `s`, given what each of its stages reads. */
  lemma LeadingIntegerFrom(s: string, u: string, body: string, negative: bool, d: string, t: string)
    requires SkipWhitespace(s) == u
    requires if u != [] && (u[0] == '-' || u[0] == '+') then u[1..] == body else u == body
    requires negative <==> u != [] && u[0] == '-'
    requires TakeDigits(body) == d && d != [] && DropDigits(body) == t
    ensures LeadingInteger(s) == Some((if negative then -(DigitsValue(d) as int) else DigitsValue(d), t))
  {
    var signed := u != [] && (u[0] == '-' || u[0] == '+');
    assert (if signed then u[1..] else u) == body;
  }

  /** A string starting with anything but whitespace, a sign or a digit has no leading integer. */
  lemma NoLeadingInteger(s: string)
    requires s != [] && !IsWhitespace(s[0]) && !IsDigit(s[0]) && s[0] != '-' && s[0] != '+'
    ensures LeadingInteger(s).None?
  {
    assert SkipWhitespace(s) == s;
    assert TakeDigits(s) == [];
  }

  /** Whitespace, an optional sign, digits, then a non-digit: the scan reads the digits. */
  lemma ScanInteger(w: string, sign: string, d: string, t: string)
    requires AllWhitespace(w) && (sign == "" || sign == "+" || sign == "-")
    requires |d| > 0 && AllDigits(d) && (t == [] || !IsDigit(t[0]))
    ensures LeadingInteger(w + (sign + (d + t)))
         == Some((if sign == "-" then -(DigitsValue(d) as int) else DigitsValue(d), t))
  {
    var body := d + t;
    var x := sign + body;
    assert x != [] && !IsWhitespace(x[0]) by {
      if sign == "" { assert x[0] == d[0]; } else { assert x[0] == sign[0]; }
    }
    SkipWhitespaceOf(w, x);
    DigitsOf(d, t);
    assert body[0] == d[0];
    if sign == "" {
      assert x == body;
    } else {
      assert x[1..] == body;
    }
    LeadingIntegerFrom(w + x, x, body, sign == "-", d, t);
  }

  /** Digits followed by text that is not whitespace do not make an integer string. */
  lemma DigitsThenText(d: string, t: string)
    requires |d| > 0 && AllDigits(d) && t != [] && !IsDigit(t[0]) && !IsWhitespace(t[0])
    ensures !IsIntegerString(d + t)
  {
    ScanInteger("", "", d, t);
    assert "" + ("" + (d + t)) == d + t;
  }

  /** Scanning PHP's rendering of an integer reads back that integer and nothing after it. */
  lemma ScanRendered(n: int)
    ensures LeadingInteger(IntToString(n)) == Some((n, ""))
  {
    var m: nat := if n < 0 then -n else n;
    var d, sign := NatToString(m), if n < 0 then "-" else "";
    NatToStringRoundTrip(m);
    ScanInteger("", sign, d, "");
    assert IntToString(n) == "" + (sign + (d + ""));
  }

  /** `(int)` undoes PHP's rendering of an integer, and the rendering is an integer string. */
  lemma IntCastRoundTrip(n: int)
    ensures LeadingInteger(IntToString(n)) == Some((n, ""))
    ensures IsIntegerString(IntToString(n))
    ensures IntCast(Str(ToPhpString(Int(n)))) == n
  {
    ScanRendered(n);
    assert AllWhitespace("");
  }

  /** A rendered integer is loosely equal to 1 exactly when it is 1. */
  lemma LooseEqOneRendered(n: int)
    ensures LooseEqOne(Str(IntToString(n))) <==> n == 1
  {
    IntCastRoundTrip(n);
  }

  /**
   * A decimal numeral with any leading zeros and any surrounding whitespace
   * is an integer string, and it compares loosely equal to 1 exactly when
   * its value is 1.
   */
  lemma LooseEqOnePadded(w1: string, k: nat, n: nat, w2: string)
    requires AllWhitespace(w1) && AllWhitespace(w2)
    ensures IsIntegerString(w1 + Zeros(k) + NatToString(n) + w2)
    ensures LooseEqOne(Str(w1 + Zeros(k) + NatToString(n) + w2)) <==> n == 1
  {
    var d := NatToString(n);
    NatToStringRoundTrip(n);
    LeadingZerosIgnored(k, d);
    assert w2 == [] || !IsDigit(w2[0]);
    ScanInteger(w1, "", Zeros(k) + d, w2);
    Regroup(w1, Zeros(k), d, w2);
  }

  /** The grouping the scan lemma reads its argument in. */
  lemma Regroup(w: string, z: string, one: string, t: string)
    ensures w + z + one + t == w + ("" + ((z + one) + t))
  {
    assert "" + ((z + one) + t) == z + one + t;
  }
}

/**
 * The part of JavaScript's value semantics that the mini app's decision logic relies on:
 * truthiness and the `||`, `&&` and `??` operators, property reads, `String(v)`,
 * numeric coercion, `<` and `-`, and `String.prototype.trim`.
 *
 * Numbers are integers (fractions and infinities are not modelled); `NaN` is kept
 * because `undefined - 1` produces it.
 */
module Js {

  /** A JavaScript value as the app sees it after `res.json()` or in its own objects. */
  datatype Value =
    | Undefined
    | Null
    | Bool(b: bool)
    | Num(n: int)
    | NaN
    | Str(s: string)
    | List(items: seq<Value>)
    | Record(fields: map<string, Value>)

  /** JavaScript's ToBoolean. */
  predicate Truthy(v: Value)
  {
    match v
    case Undefined => false
    case Null => false
    case Bool(b) => b
    case Num(n) => n != 0
    case NaN => false
    case Str(s) => s != ""
    case List(_) => true
    case Record(_) => true
  }

  /** The values that `??` and optional chaining skip. */
  predicate Nullish(v: Value)
  {
    v.Undefined? || v.Null?
  }

  /** `a || b` */
  function Or(a: Value, b: Value): (r: Value)
    ensures Truthy(a) ==> r == a
    ensures !Truthy(a) ==> r == b
    ensures Truthy(r) <==> Truthy(a) || Truthy(b)
  {
    if Truthy(a) then a else b
  }

  /** `a && b` */
  function And(a: Value, b: Value): (r: Value)
    ensures !Truthy(a) ==> r == a
    ensures Truthy(a) ==> r == b
    ensures Truthy(r) <==> Truthy(a) && Truthy(b)
  {
    if Truthy(a) then b else a
  }

  /** `a ?? b` */
  function Coalesce(a: Value, b: Value): (r: Value)
    ensures !Nullish(a) ==> r == a
    ensures Nullish(a) ==> r == b
    ensures Nullish(r) <==> Nullish(a) && Nullish(b)
  {
    if Nullish(a) then b else a
  }

  /** `v.key` on a value that is not `null` or `undefined`: an absent property reads as `undefined`. */
  function Get(v: Value, key: string): Value
  {
    if v.Record? && key in v.fields then v.fields[key] else Undefined
  }

  // ---------------------------------------------------------------------------------------
  // Decimal digits

  predicate IsDigit(c: char)
  {
    '0' <= c <= '9'
  }

  predicate AllDigits(s: string)
  {
    forall i :: 0 <= i < |s| ==> IsDigit(s[i])
  }

  function DigitChar(d: nat): (c: char)
    requires d < 10
    ensures IsDigit(c)
  {
    (48 + d) as char
  }

  function DigitValue(c: char): (d: nat)
    requires IsDigit(c)
    ensures d < 10
  {
    c as int - 48
  }

  /** The shortest decimal spelling of `n`, as `String(n)` writes a non-negative integer. */
  function DecimalString(n: nat): (r: string)
    ensures |r| >= 1 && AllDigits(r)
  {
    if n < 10 then [DigitChar(n)] else DecimalString(n / 10) + [DigitChar(n % 10)]
  }

  /** The value of a string of decimal digits, most significant first. */
  function ParseDecimal(s: string): nat
    requires AllDigits(s)
  {
    if s == [] then 0 else ParseDecimal(s[..|s| - 1]) * 10 + DigitValue(s[|s| - 1])
  }

  lemma {:induction false} ParseDecimalString(n: nat)
    ensures ParseDecimal(DecimalString(n)) == n
  {
    if n >= 10 {
      ParseDecimalString(n / 10);
      var s := DecimalString(n);
      assert s[..|s| - 1] == DecimalString(n / 10);
      assert DigitValue(s[|s| - 1]) == n % 10;
    }
  }

  /** `String(n)` for an integer. */
  function NumberString(n: int): string
  {
    if n < 0 then "-" + DecimalString(-n) else DecimalString(n)
  }

  // ---------------------------------------------------------------------------------------
  // Whitespace and trim

  /** The WhiteSpace and LineTerminator code points that `trim` removes. */
  predicate IsSpace(c: char)
  {
    if c < '\U{00A0}' then '\t' <= c <= '\r' || c == ' '
    else
      || c == '\U{00A0}' || c == '\U{1680}' || '\U{2000}' <= c <= '\U{200A}'
      || c == '\U{2028}' || c == '\U{2029}' || c == '\U{202F}' || c == '\U{205F}'
      || c == '\U{3000}' || c == '\U{FEFF}'
  }

  /** Drops leading whitespace. */
  function TrimStart(s: string): (r: string)
    ensures |r| <= |s| && (r == [] || !IsSpace(r[0]))
    ensures s != [] && !IsSpace(s[0]) ==> r == s
  {
    if s != [] && IsSpace(s[0]) then TrimStart(s[1..]) else s
  }

  /** Drops trailing whitespace; a non-empty result starts where `s` does. */
  function TrimEnd(s: string): (r: string)
    ensures |r| <= |s| && (r == [] || (!IsSpace(r[|r| - 1]) && r[0] == s[0]))
    ensures s != [] && !IsSpace(s[|s| - 1]) ==> r == s
  {
    if s != [] && IsSpace(s[|s| - 1]) then TrimEnd(s[..|s| - 1]) else s
  }

  /** `s.trim()` */
  function Trim(s: string): (r: string)
    ensures r == [] || (!IsSpace(r[0]) && !IsSpace(r[|r| - 1]))
    ensures (forall i :: 0 <= i < |s| ==> !IsSpace(s[i])) ==> r == s
  {
    TrimEnd(TrimStart(s))
  }

  /** What `TrimStart` keeps is a suffix. */
  lemma {:induction false} TrimStartSuffix(s: string)
    ensures TrimStart(s) == s[|s| - |TrimStart(s)|..]
  {
    if s != [] && IsSpace(s[0]) {
      TrimStartSuffix(s[1..]);
    }
  }

  /** What `TrimStart` drops is whitespace. */
  lemma {:induction false} TrimStartDropsSpaces(s: string)
    ensures forall i :: 0 <= i < |s| - |TrimStart(s)| ==> IsSpace(s[i])
  {
    if s != [] && IsSpace(s[0]) {
      TrimStartDropsSpaces(s[1..]);
    }
  }

  /** What `TrimEnd` keeps is a prefix. */
  lemma {:induction false} TrimEndPrefix(s: string)
    ensures TrimEnd(s) == s[..|TrimEnd(s)|]
  {
    if s != [] && IsSpace(s[|s| - 1]) {
      TrimEndPrefix(s[..|s| - 1]);
    }
  }

  /** What `TrimEnd` drops is whitespace. */
  lemma {:induction false} TrimEndDropsSpaces(s: string)
    ensures forall i :: |TrimEnd(s)| <= i < |s| ==> IsSpace(s[i])
  {
    if s != [] && IsSpace(s[|s| - 1]) {
      TrimEndDropsSpaces(s[..|s| - 1]);
    }
  }

  /** A string that starts and ends with non-whitespace is its own trim. */
  lemma TrimWord(s: string)
    requires s != [] && !IsSpace(s[0]) && !IsSpace(s[|s| - 1])
    ensures Trim(s) == s
  {
    assert TrimStart(s) == s;
  }

  /** A prefix of a suffix is a slice. */
  lemma PrefixOfSuffix(s: string, a: nat, r: string)
    requires a <= |s| && |r| <= |s| - a && r == s[a..][..|r|]
    ensures r == s[a..a + |r|]
  {
  }

  /** The trimmed string is the slice of `s` after its leading whitespace. */
  lemma TrimSlice(s: string)
    ensures |s| - |TrimStart(s)| + |Trim(s)| <= |s|
    ensures Trim(s) == s[|s| - |TrimStart(s)|..|s| - |TrimStart(s)| + |Trim(s)|]
  {
    var t := TrimStart(s);
    var r := TrimEnd(t);
    TrimStartSuffix(s);
    TrimEndPrefix(t);
    PrefixOfSuffix(s, |s| - |t|, r);
  }

  /** What follows the trimmed slice is whitespace. */
  lemma TrimSuffixSpaces(s: string)
    ensures forall i :: |s| - |TrimStart(s)| + |Trim(s)| <= i < |s| ==> IsSpace(s[i])
  {
    var t := TrimStart(s);
    var a := |s| - |t|;
    TrimStartSuffix(s);
    TrimEndDropsSpaces(t);
    var r := TrimEnd(t);
    forall i | a + |r| <= i < |s|
      ensures IsSpace(s[i])
    {
      assert s[i] == t[i - a];
    }
  }

  /**
   * `trim` removes exactly the leading and the trailing whitespace: the result is the slice
   * `s[a..b]` with only whitespace in `s[..a]` and in `s[b..]`.
   */
  lemma TrimIsInnerSlice(s: string)
    ensures var a := |s| - |TrimStart(s)|; var b := a + |Trim(s)|;
      && a <= b <= |s| && Trim(s) == s[a..b]
      && (forall i :: 0 <= i < a ==> IsSpace(s[i]))
      && (forall i :: b <= i < |s| ==> IsSpace(s[i]))
  {
    TrimStartDropsSpaces(s);
    TrimSlice(s);
    TrimSuffixSpaces(s);
  }

  /** A word followed by one space trims back to the word. */
  lemma TrimTrailingSpace(w: string)
    requires w != [] && !IsSpace(w[0]) && !IsSpace(w[|w| - 1])
    ensures Trim(w + " ") == w
  {
    var t := w + " ";
    assert TrimStart(t) == t;
    assert t[..|t| - 1] == w;
    assert TrimEnd(t) == TrimEnd(w);
  }

  // ---------------------------------------------------------------------------------------
  // String(v)

  /** `String(v)` */
  function ToString(v: Value): string
    decreases v, 1
  {
    match v
    case Undefined => "undefined"
    case Null => "null"
    case Bool(b) => if b then "true" else "false"
    case Num(n) => NumberString(n)
    case NaN => "NaN"
    case Str(s) => s
    case List(items) => JoinComma(items)
    case Record(_) => "[object Object]"
  }

  /** `items.join(',')`, where `null` and `undefined` elements become empty. */
  function JoinComma(items: seq<Value>): string
    decreases items, 0
  {
    if items == [] then ""
    else
      var head := if Nullish(items[0]) then "" else ToString(items[0]);
      if |items| == 1 then head else head + "," + JoinComma(items[1..])
  }

  // ---------------------------------------------------------------------------------------
  // Numeric coercion, `<` and `-`

  /** ToPrimitive with the default hint: arrays and objects become their strings. */
  function ToPrimitive(v: Value): (r: Value)
    ensures !r.List? && !r.Record?
  {
    match v
    case List(_) => Str(ToString(v))
    case Record(_) => Str("[object Object]")
    case _ => v
  }

  /**
   * `Number(s)` for the strings the model reads: blank is 0, an optionally signed run of
   * decimal digits is that integer, anything else is NaN.
   */
  function StringToNumber(s: string): (r: Value)
    ensures r.Num? || r.NaN?
  {
    var t := Trim(s);
    if t == "" then Num(0)
    else if AllDigits(t) then Num(ParseDecimal(t))
    else if |t| > 1 && (t[0] == '-' || t[0] == '+') && AllDigits(t[1..]) then
      var m: int := ParseDecimal(t[1..]);
      if t[0] == '-' then Num(-m) else Num(m)
    else NaN
  }

  /** ToNumber: always a number or NaN. */
  function ToNumber(v: Value): (r: Value)
    ensures r.Num? || r.NaN?
  {
    match v
    case Undefined => NaN
    case Null => Num(0)
    case Bool(b) => Num(if b then 1 else 0)
    case Num(_) => v
    case NaN => NaN
    case Str(s) => StringToNumber(s)
    case List(_) => StringToNumber(ToString(v))
    case Record(_) => NaN
  }

  /** A signed decimal spelling starts and ends with a non-space, so trimming keeps it. */
  lemma TrimNumberString(n: int)
    ensures Trim(NumberString(n)) == NumberString(n)
  {
    var s := NumberString(n);
    var d := DecimalString(if n < 0 then -n else n);
    assert s[|s| - 1] == d[|d| - 1] && IsDigit(d[|d| - 1]);
    TrimWord(s);
  }

  /** `Number` reads a minus sign before a run of digits as a negative integer. */
  lemma NegatedDigits(d: string)
    requires d != [] && AllDigits(d) && Trim("-" + d) == "-" + d
    ensures StringToNumber("-" + d) == Num(-(ParseDecimal(d) as int))
  {
    var s := "-" + d;
    assert s[1..] == d;
    assert !AllDigits(s) by { assert !IsDigit(s[0]); }
  }

  /** `Number(String(n)) === n` for a negative integer. */
  lemma NegativeStringRoundTrip(n: int)
    requires n < 0
    ensures StringToNumber(NumberString(n)) == Num(n)
  {
    TrimNumberString(n);
    ParseDecimalString(-n);
    NegatedDigits(DecimalString(-n));
  }

  /** `Number(String(n)) === n` for every integer. */
  lemma NumberStringRoundTrip(n: int)
    ensures ToNumber(Str(NumberString(n))) == Num(n)
  {
    if n < 0 {
      NegativeStringRoundTrip(n);
    } else {
      TrimNumberString(n);
      ParseDecimalString(n);
    }
  }

  /** A balance held as the decimal string of `b` compares with a numeric price `c` as `b` does. */
  lemma NumericStringLess(b: int, c: int)
    ensures Less(Str(NumberString(b)), Num(c)) <==> b < c
    ensures Less(Num(c), Str(NumberString(b))) <==> c < b
  {
    NumberStringRoundTrip(b);
  }

  /** Code-unit order on strings, as `<` compares two strings. */
  predicate LexLess(a: string, b: string)
  {
    if b == [] then false
    else if a == [] then true
    else if a[0] != b[0] then a[0] < b[0]
    else LexLess(a[1..], b[1..])
  }

  /** `a < b`: two strings compare by code unit, anything else numerically, and NaN is never less. */
  predicate Less(a: Value, b: Value)
  {
    var pa, pb := ToPrimitive(a), ToPrimitive(b);
    if pa.Str? && pb.Str? then LexLess(pa.s, pb.s)
    else
      var na, nb := ToNumber(pa), ToNumber(pb);
      na.Num? && nb.Num? && na.n < nb.n
  }

  /** `a - b` */
  function Sub(a: Value, b: Value): (r: Value)
    ensures r.Num? || r.NaN?
    ensures a.Num? && b.Num? ==> r == Num(a.n - b.n)
  {
    var na, nb := ToNumber(ToPrimitive(a)), ToNumber(ToPrimitive(b));
    if na.Num? && nb.Num? then Num(na.n - nb.n) else NaN
  }
}

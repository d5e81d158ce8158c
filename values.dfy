/** The conventional optional value. */
module Wrappers {
  datatype Option<+T> = None | Some(value: T)
}

/**
 * The dynamically typed values a webhook handler receives: the JSON that the
 * dialog platform sends, decoded into Python values, together with the few
 * Python built-ins the handlers apply to them (truthiness, `str`, `float`,
 * `str.isdigit`, `dict.get`) and the shared "scalar or list" normalisation.
 */
module PyValues {
  import opened Wrappers

  /** A decoded JSON value. Python's `int` and `float` are kept apart because
      `str` renders them differently. A dict keeps its entries in insertion
      order, as `str(dict)` shows them; its keys are distinct. */
  datatype Value =
    | Null
    | Str(s: string)
    | Int(i: int)
    | Float(x: real)
    | List(items: seq<Value>)
    | Dict(entries: seq<Entry>)

  datatype Entry = Entry(key: string, val: Value)

  /** Python truthiness: None, "", 0, 0.0, [] and {} are false. */
  predicate Truthy(v: Value) {
    match v
    case Null => false
    case Str(s) => s != ""
    case Int(i) => i != 0
    case Float(x) => x != 0.0
    case List(items) => items != []
    case Dict(entries) => entries != []
  }

  /** `d.get(key, default)` on a parameter dictionary. */
  function Get(d: map<string, Value>, key: string, default: Value): (r: Value)
    ensures key in d ==> r == d[key]
    ensures key !in d ==> r == default
  {
    if key in d then d[key] else default
  }

  /** The idiom `if isinstance(x, list): x = x[0] if x else empty` that every
      handler applies to a parameter that may arrive as a scalar or as a list. */
  function FirstIfList(v: Value, empty: Value): (r: Value)
    ensures v.List? && v.items != [] ==> r == v.items[0]
    ensures v.List? && v.items == [] ==> r == empty
    ensures !v.List? ==> r == v
  {
    match v
    case List(items) => if items != [] then items[0] else empty
    case _ => v
  }

  /** A scalar and the one-element list holding it normalise alike. */
  lemma ScalarOrSingleton(v: Value, empty: Value)
    requires !v.List?
    ensures FirstIfList(List([v]), empty) == FirstIfList(v, empty) == v
  {
  }

  /** The falsy values are exactly None, "", 0, 0.0, [] and {}. */
  lemma FalsyValues(v: Value)
    ensures !Truthy(v) <==>
      v == Null || v == Str("") || v == Int(0) || v == Float(0.0) || v == List([]) || v == Dict([])
  {
  }

  /** Dict lookup by key (`'name' in d`, `d['name']`). */
  function Lookup(entries: seq<Entry>, key: string): (r: Option<Value>)
    ensures r.None? <==> forall e <- entries :: e.key != key
    ensures r.Some? ==> Entry(key, r.value) in entries
  {
    if entries == [] then None
    else if entries[0].key == key then Some(entries[0].val)
    else Lookup(entries[1..], key)
  }

  // ---------------------------------------------------------------------
  // Decimal text

  predicate IsDigit(c: char) {
    '0' <= c <= '9'
  }

  predicate AllDigits(s: string) {
    forall c <- s :: IsDigit(c)
  }

  function DigitChar(d: nat): (c: char)
    requires d < 10
    ensures IsDigit(c) && c as int - '0' as int == d
  {
    ('0' as int + d) as char
  }

  /** The decimal digits of a natural number, without leading zeros. */
  function NatText(n: nat): (s: string)
    decreases n
  {
    if n < 10 then [DigitChar(n)] else NatText(n / 10) + [DigitChar(n % 10)]
  }

  /** The value of a string of decimal digits (`int(s)`, with "" read as 0). */
  function DigitsValue(s: string): nat
    requires AllDigits(s)
  {
    if s == [] then 0
    else
      assert s[|s| - 1] in s;
      DigitsValue(s[..|s| - 1]) * 10 + (s[|s| - 1] as int - '0' as int)
  }

  lemma {:induction false} NatTextRoundTrip(n: nat)
    ensures AllDigits(NatText(n)) && NatText(n) != []
    ensures DigitsValue(NatText(n)) == n
  {
    if n >= 10 {
      NatTextRoundTrip(n / 10);
      var s := NatText(n);
      assert s[..|s| - 1] == NatText(n / 10);
    }
  }

  function Pow10(k: nat): (p: nat)
    ensures p >= 1
  {
    if k == 0 then 1 else 10 * Pow10(k - 1)
  }

  /** `str(i)` for a Python int. */
  function IntText(i: int): string {
    if i < 0 then "-" + NatText(-i) else NatText(i)
  }

  /** The fractional digits of `f` in [0, 1), at most `fuel` of them. */
  function FracText(f: real, fuel: nat): string
    requires 0.0 <= f < 1.0
    decreases fuel
  {
    if fuel == 0 || f == 0.0 then ""
    else
      var d := (f * 10.0).Floor;
      [DigitChar(d)] + FracText(f * 10.0 - d as real, fuel - 1)
  }

  /** `str(x)` for a Python float: "4.0" for a whole number, otherwise the
      exact decimal expansion of `x` cut off after 17 places. */
  function FloatText(x: real): string {
    var a := if x < 0.0 then -x else x;
    var w := a.Floor;
    var f := a - w as real;
    (if x < 0.0 then "-" else "") + NatText(w) + "."
      + (if f == 0.0 then "0" else FracText(f, 17))
  }

  function Join(parts: seq<string>, sep: string): string {
    if |parts| == 0 then ""
    else if |parts| == 1 then parts[0]
    else parts[0] + sep + Join(parts[1..], sep)
  }

  /** `str(v)`. */
  function PyStr(v: Value): string
    decreases v, 0
  {
    match v
    case Null => "None"
    case Str(s) => s
    case Int(i) => IntText(i)
    case Float(x) => FloatText(x)
    case List(items) =>
      "[" + Join(seq(|items|, k requires 0 <= k < |items| => PyRepr(items[k])), ", ") + "]"
    case Dict(entries) =>
      "{" + Join(seq(|entries|, k requires 0 <= k < |entries| =>
                   "'" + entries[k].key + "': " + PyRepr(entries[k].val)), ", ") + "}"
  }

  /** `repr(v)`, as `str` renders the members of a list or dict. */
  function PyRepr(v: Value): string
    decreases v, 1
  {
    if v.Str? then "'" + v.s + "'" else PyStr(v)
  }

  /** `''.join(filter(str.isdigit, s))`. */
  function Digits(s: string): (r: string)
    ensures AllDigits(r)
    ensures AllDigits(s) ==> r == s
  {
    if s == [] then []
    else (if IsDigit(s[0]) then [s[0]] else []) + Digits(s[1..])
  }

  /** Digit extraction works piecewise: the digits of a text are the digits
      of its parts, in order. */
  lemma {:induction false} DigitsConcat(a: string, b: string)
    ensures Digits(a + b) == Digits(a) + Digits(b)
  {
    if a == [] {
      assert a + b == b;
    } else {
      assert (a + b)[0] == a[0];
      assert (a + b)[1..] == a[1..] + b;
      DigitsConcat(a[1..], b);
    }
  }

  /** A text without digits contributes nothing. */
  lemma {:induction false} DigitsOfNonDigits(t: string)
    requires forall c <- t :: !IsDigit(c)
    ensures Digits(t) == ""
  {
    if t != [] {
      assert t[0] in t;
      assert forall c <- t[1..] :: c in t;
      DigitsOfNonDigits(t[1..]);
    }
  }

  /** `str(n)` for a non-negative int is its decimal text. */
  lemma StrOfInt(n: nat)
    ensures PyStr(Int(n)) == NatText(n)
  {
  }

  /** `str(x)` of a whole, non-negative float ends in ".0", as in "4.0". */
  lemma StrOfWholeFloat(n: nat)
    ensures PyStr(Float(n as real)) == NatText(n) + ".0"
  {
    assert (n as real).Floor == n;
  }

  // ---------------------------------------------------------------------
  // float()

  predicate IsSpace(c: char) {
    c == ' ' || c == '\t' || c == '\n' || c == '\r' || c == '\U{0B}' || c == '\U{0C}'
  }

  function StripLeft(s: string): string {
    if s != [] && IsSpace(s[0]) then StripLeft(s[1..]) else s
  }

  function StripRight(s: string): string {
    if s != [] && IsSpace(s[|s| - 1]) then StripRight(s[..|s| - 1]) else s
  }

  /** The index of the first '.', or |s| when there is none. */
  function DotIndex(s: string): (k: nat)
    ensures k <= |s|
    ensures k < |s| ==> s[k] == '.'
    ensures forall j :: 0 <= j < k ==> s[j] != '.'
  {
    if s == [] || s[0] == '.' then 0 else 1 + DotIndex(s[1..])
  }

  /** The value of the decimal literal `whole.frac`. */
  function DecimalValue(whole: string, frac: string): real
    requires AllDigits(whole) && AllDigits(frac)
  {
    DigitsValue(whole) as real + DigitsValue(frac) as real / Pow10(|frac|) as real
  }

  /** Unsigned decimal literal: digits with an optional '.', at least one digit. */
  function ParseUnsigned(b: string): Option<real> {
    var k := DotIndex(b);
    var whole := b[..k];
    var frac := if k < |b| then b[k + 1..] else "";
    if AllDigits(whole) && AllDigits(frac) && |whole| + |frac| > 0 then
      Some(DecimalValue(whole, frac))
    else None
  }

  /** `float(s)` for a string: surrounding white space, an optional sign and a
      plain decimal literal. */
  function ParseFloatText(s: string): Option<real> {
    var t := StripRight(StripLeft(s));
    var neg := |t| > 0 && t[0] == '-';
    var body := if |t| > 0 && (t[0] == '-' || t[0] == '+') then t[1..] else t;
    match ParseUnsigned(body)
    case None => None
    case Some(x) => Some(if neg then -x else x)
  }

  /** `float(v)`; None stands for the ValueError or TypeError it raises. */
  function ParseFloat(v: Value): (r: Option<real>)
    ensures v.Int? ==> r == Some(v.i as real)
    ensures v.Float? ==> r == Some(v.x)
    ensures v.Null? || v.List? || v.Dict? ==> r.None?
  {
    match v
    case Int(i) => Some(i as real)
    case Float(x) => Some(x)
    case Str(s) => ParseFloatText(s)
    case _ => None
  }

  /** The first '.' of "W.F" is the one after W when W has none. */
  lemma {:induction false} DotAfterWhole(w: string, f: string)
    requires AllDigits(w)
    ensures DotIndex(w + "." + f) == |w|
  {
    if w != [] {
      assert w[0] in w;
      assert (w + "." + f)[1..] == w[1..] + "." + f;
      assert forall c <- w[1..] :: c in w;
      DotAfterWhole(w[1..], f);
    }
  }

  /** Stripping changes nothing when neither end is white space. */
  lemma StripNothing(s: string)
    requires s != [] && !IsSpace(s[0]) && !IsSpace(s[|s| - 1])
    ensures StripRight(StripLeft(s)) == s
  {
  }

  /** Without surrounding white space or a sign, `float` reads the literal. */
  lemma ParseUnsignedText(s: string)
    requires s != [] && !IsSpace(s[0]) && !IsSpace(s[|s| - 1]) && s[0] != '-' && s[0] != '+'
    ensures ParseFloatText(s) == ParseUnsigned(s)
  {
    StripNothing(s);
  }

  lemma ParseUnsignedDecimal(w: string, f: string)
    requires AllDigits(w) && AllDigits(f) && |w| + |f| > 0
    ensures ParseUnsigned(w + "." + f)
         == Some(DecimalValue(w, f))
  {
    var s := w + "." + f;
    DotAfterWhole(w, f);
    var k := DotIndex(s);
    assert k == |w| < |s|;
    assert s[..k] == w;
    assert s[k + 1..] == f;
  }

  /** `float` of a plain decimal text "W.F" is W + F / 10^|F|; either side of
      the point may be empty, not both. */
  lemma ParseDecimalText(w: string, f: string)
    requires AllDigits(w) && AllDigits(f) && |w| + |f| > 0
    ensures ParseFloatText(w + "." + f)
         == Some(DecimalValue(w, f))
  {
    var s := w + "." + f;
    if w != [] { assert w[0] in w && s[0] == w[0]; } else { assert s[0] == '.'; }
    if f != [] { assert f[|f| - 1] in f && s[|s| - 1] == f[|f| - 1]; } else { assert s[|s| - 1] == '.'; }
    ParseUnsignedText(s);
    ParseUnsignedDecimal(w, f);
  }

  /** A rating typed as a whole number parses to that number. */
  lemma {:induction false} ParseWholeNumber(n: nat)
    ensures ParseFloat(Str(NatText(n))) == Some(n as real)
  {
    var s := NatText(n);
    NatTextRoundTrip(n);
    assert s[0] in s && s[|s| - 1] in s;
    assert StripLeft(s) == s;
    assert StripRight(s) == s;
    var k := DotIndex(s);
    assert forall j :: 0 <= j < |s| ==> s[j] != '.' by {
      forall j | 0 <= j < |s| ensures s[j] != '.' { assert s[j] in s; }
    }
    assert s[..k] == s;
  }
}

/** JavaScript values and the few built-in operations the BonusBoost services
    apply to them: truthiness and `||`, property lookup, `===`, string
    conversion, the `+` operator, `parseInt`, `trim`, `toLowerCase` and
    `includes`.

    Numbers are mathematical integers: the application never stores a
    fraction in the values modelled here, and floating point is not part of
    this model. `NaN` is kept because `parseInt` produces it. */
module JsValues {

  datatype Option<+T> = None | Some(value: T)

  /** A JavaScript value. Objects are plain property maps; arrays are
      sequences. */
  datatype Value =
    | Undefined
    | Null
    | Bool(b: bool)
    | Num(n: int)
    | NaN
    | Str(s: string)
    | Obj(fields: map<string, Value>)
    | Arr(elems: seq<Value>)

  /** A plain JavaScript object, as the mock tables store them. */
  type Record = map<string, Value>

  /** What a thrown exception carries. */
  datatype Thrown =
    | Error(message: string)   // `new Error(message)`
    | TypeError                // reading a property of `undefined`
    | Foreign(reason: Value)   // whatever a call into the backend SDK threw

  /** How a JavaScript call completes: with a value, or by throwing. */
  datatype Completion<+T> = Return(value: T) | Throw(exception: Thrown)

  // ---------------------------------------------------------------------
  // Truthiness, `||`, property access, `===`

  /** ToBoolean: `undefined`, `null`, `false`, `0`, `NaN` and `""` are falsy. */
  predicate Truthy(v: Value) {
    match v
    case Undefined => false
    case Null => false
    case Bool(b) => b
    case Num(n) => n != 0
    case NaN => false
    case Str(s) => s != ""
    case Obj(_) => true
    case Arr(_) => true
  }

  /** `a || b`: the left operand when it is truthy, otherwise the right one. */
  function Or(a: Value, b: Value): Value {
    if Truthy(a) then a else b
  }

  /** `obj[key]`: a missing property reads as `undefined`. */
  function Get(obj: Record, key: string): Value {
    if key in obj then obj[key] else Undefined
  }

  /** `a === b` on the values of this model: `NaN` equals nothing, other
      values are equal when they are the same value. */
  predicate StrictEquals(a: Value, b: Value) {
    !a.NaN? && a == b
  }

  // ---------------------------------------------------------------------
  // Number to string

  function DigitChar(d: nat): char
    requires d < 10
  {
    "0123456789"[d]
  }

  /** Decimal digits of a natural number, most significant first. */
  function NatToString(n: nat): string
    decreases n
  {
    if n < 10 then [DigitChar(n)] else NatToString(n / 10) + [DigitChar(n % 10)]
  }

  /** Number::toString for integers. */
  function IntToString(i: int): string {
    if i < 0 then "-" + NatToString(-i) else NatToString(i)
  }

  /** ToString of any value (arrays join their elements with commas, with
      `undefined` and `null` elements written as empty strings). */
  function ToJsString(v: Value): string
    decreases v
  {
    match v
    case Undefined => "undefined"
    case Null => "null"
    case Bool(b) => if b then "true" else "false"
    case Num(n) => IntToString(n)
    case NaN => "NaN"
    case Str(s) => s
    case Obj(_) => "[object Object]"
    case Arr(elems) =>
      JoinWithCommas(seq(|elems|, i requires 0 <= i < |elems| =>
        if elems[i].Undefined? || elems[i].Null? then "" else ToJsString(elems[i])))
  }

  function JoinWithCommas(parts: seq<string>): string
    decreases |parts|
  {
    if |parts| == 0 then ""
    else if |parts| == 1 then parts[0]
    else JoinWithCommas(parts[..|parts| - 1]) + "," + parts[|parts| - 1]
  }

  // ---------------------------------------------------------------------
  // The `+` operator

  /** ToPrimitive with the default hint: plain objects and arrays become
      their string form, primitives stay as they are. */
  function ToPrimitive(v: Value): (r: Value)
    ensures !r.Obj? && !r.Arr?
  {
    if v.Obj? || v.Arr? then Str(ToJsString(v)) else v
  }

  /** ToNumber of a primitive that is not a string (`None` stands for NaN). */
  function ToNumber(v: Value): Option<int>
    requires !v.Str? && !v.Obj? && !v.Arr?
  {
    match v
    case Undefined => None
    case Null => Some(0)
    case Bool(b) => Some(if b then 1 else 0)
    case Num(n) => Some(n)
    case NaN => None
  }

  /** `a + b`: string concatenation when either primitive operand is a
      string, numeric addition otherwise. */
  function Add(a: Value, b: Value): Value {
    var pa, pb := ToPrimitive(a), ToPrimitive(b);
    if pa.Str? || pb.Str? then Str(ToJsString(pa) + ToJsString(pb))
    else
      match (ToNumber(pa), ToNumber(pb))
      case (Some(x), Some(y)) => Num(x + y)
      case _ => NaN
  }

  /** `(v || 0) + 1`, the counter step of trackView and trackClick. */
  function Increment(v: Value): Value {
    Add(Or(v, Num(0)), Num(1))
  }

  /** A counter field the aggregations can add up: a number, or a falsy
      value that `|| 0` turns into 0. */
  predicate NumericCounter(v: Value) {
    v.Num? || !Truthy(v)
  }

  /** The number `v || 0` stands for, for a numeric counter. */
  function Count(v: Value): int {
    if v.Num? then v.n else 0
  }

  /** For a numeric counter, `(v || 0) + 1` is one more than `v || 0`, and
      `v || 0` itself is that number. */
  lemma IncrementNumeric(v: Value)
    requires NumericCounter(v)
    ensures Increment(v) == Num(Count(v) + 1)
    ensures Or(v, Num(0)) == Num(Count(v))
    ensures NumericCounter(Increment(v))
  {
  }

  /** A string counter is concatenated with "1", as JavaScript does. */
  lemma IncrementString(s: string)
    requires s != ""
    ensures Increment(Str(s)) == Str(s + "1")
  {
  }

  // ---------------------------------------------------------------------
  // parseInt

  /** WhiteSpace and LineTerminator code points of ECMAScript (the set that
      `trim` removes and `parseInt` skips). */
  predicate IsWhiteSpace(c: char) {
    c == '\t' || c == '\n' || c == '\U{000B}' || c == '\U{000C}' || c == '\r' ||
    c == ' ' || c == '\U{00A0}' || c == '\U{1680}' || ('\U{2000}' <= c <= '\U{200A}') ||
    c == '\U{2028}' || c == '\U{2029}' || c == '\U{202F}' || c == '\U{205F}' ||
    c == '\U{3000}' || c == '\U{FEFF}'
  }

  /** The value of `c` as a digit in base `radix` (2..36), if it is one. */
  function DigitValue(c: char, radix: nat): Option<nat> {
    var d: int :=
      if '0' <= c <= '9' then c as int - '0' as int
      else if 'a' <= c <= 'z' then c as int - 'a' as int + 10
      else if 'A' <= c <= 'Z' then c as int - 'A' as int + 10
      else 36;
    if d < radix then Some(d) else None
  }

  /** Length of the longest prefix of `s` made of digits of base `radix`. */
  function DigitRun(s: string, radix: nat): (k: nat)
    ensures k <= |s|
    decreases |s|
  {
    if |s| == 0 || DigitValue(s[0], radix).None? then 0 else 1 + DigitRun(s[1..], radix)
  }

  /** The number that a string of base-`radix` digits denotes. */
  function DigitsValue(s: string, radix: nat): nat
    requires forall i :: 0 <= i < |s| ==> DigitValue(s[i], radix).Some?
    decreases |s|
  {
    if |s| == 0 then 0
    else
      var high := DigitsValue(s[..|s| - 1], radix);
      ProductNonNegative(high, radix);
      high * radix + DigitValue(s[|s| - 1], radix).value
  }

  /** Helper: the product of two naturals is a natural, which the
      nonlinear arithmetic of `DigitsValue` does not find unaided. */
  lemma ProductNonNegative(a: nat, b: nat)
    ensures a * b >= 0
  {
  }

  lemma DigitRunAllDigits(s: string, radix: nat)
    ensures forall i :: 0 <= i < DigitRun(s, radix) ==> DigitValue(s[i], radix).Some?
    decreases |s|
  {
    if |s| > 0 && DigitValue(s[0], radix).Some? {
      DigitRunAllDigits(s[1..], radix);
      forall i | 0 < i < DigitRun(s, radix) ensures DigitValue(s[i], radix).Some? {
        assert s[i] == s[1..][i - 1];
      }
    }
  }

  function TrimStart(s: string): (r: string)
    decreases |s|
  {
    if |s| > 0 && IsWhiteSpace(s[0]) then TrimStart(s[1..]) else s
  }

  function TrimEnd(s: string): (r: string)
    decreases |s|
  {
    if |s| > 0 && IsWhiteSpace(s[|s| - 1]) then TrimEnd(s[..|s| - 1]) else s
  }

  /** String.prototype.trim. */
  function Trim(s: string): string {
    TrimEnd(TrimStart(s))
  }

  /** parseInt(string) with no radix: skip leading white space, read an
      optional sign, then the magnitude; no digits at all gives NaN (`None`). */
  function ParseInt(str: string): Option<int> {
    var s := TrimStart(str);
    var negative := |s| > 0 && s[0] == '-';
    var unsigned := if |s| > 0 && (s[0] == '-' || s[0] == '+') then s[1..] else s;
    match ParseMagnitude(unsigned)
    case None => None
    case Some(m) => Some(if negative then -(m as int) else m as int)
  }

  /** The digits after the sign: a "0x"/"0X" prefix switches to base 16,
      then the longest run of digits is read; an empty run gives `None`. */
  function ParseMagnitude(unsigned: string): Option<nat> {
    var hex := |unsigned| >= 2 && unsigned[0] == '0' && (unsigned[1] == 'x' || unsigned[1] == 'X');
    var radix := if hex then 16 else 10;
    var body := if hex then unsigned[2..] else unsigned;
    var k := DigitRun(body, radix);
    if k == 0 then None
    else
      DigitRunAllDigits(body, radix);
      Some(DigitsValue(body[..k], radix))
  }

  /** parseInt(v) on any value converts it to a string first. */
  function ParseIntValue(v: Value): Option<int> {
    ParseInt(ToJsString(v))
  }

  /** The number parseInt produces, as a value (NaN when it finds no digits). */
  function ParsedNumber(v: Value): (r: Value)
    ensures r.Num? || r.NaN?
  {
    match ParseIntValue(v)
    case Some(n) => Num(n)
    case None => NaN
  }

  lemma NatToStringDigits(n: nat)
    ensures |NatToString(n)| > 0
    ensures forall i :: 0 <= i < |NatToString(n)| ==> '0' <= NatToString(n)[i] <= '9'
    ensures n > 0 ==> NatToString(n)[0] != '0'
    decreases n
  {
    if n >= 10 {
      NatToStringDigits(n / 10);
      var s := NatToString(n / 10);
      assert NatToString(n) == s + [DigitChar(n % 10)];
      assert NatToString(n)[0] == s[0];
    }
  }

  lemma {:induction false} NatToStringValue(n: nat)
    ensures forall i :: 0 <= i < |NatToString(n)| ==> DigitValue(NatToString(n)[i], 10).Some?
    ensures DigitsValue(NatToString(n), 10) == n
    decreases n
  {
    NatToStringDigits(n);
    var s := NatToString(n);
    if n >= 10 {
      NatToStringValue(n / 10);
      var t := NatToString(n / 10);
      assert s == t + [DigitChar(n % 10)];
      assert s[..|s| - 1] == t;
      assert DigitValue(s[|s| - 1], 10).value == n % 10;
    } else {
      assert s[..|s| - 1] == [];
    }
  }

  lemma DigitRunWhole(s: string, radix: nat)
    requires forall i :: 0 <= i < |s| ==> DigitValue(s[i], radix).Some?
    ensures DigitRun(s, radix) == |s|
    decreases |s|
  {
    if |s| > 0 {
      DigitRunWhole(s[1..], radix);
    }
  }

  /** The decimal digits of a natural number read back as that number. */
  lemma MagnitudeOfDigits(m: nat)
    ensures ParseMagnitude(NatToString(m)) == Some(m)
  {
    var digits := NatToString(m);
    NatToStringDigits(m);
    NatToStringValue(m);
    DigitRunWhole(digits, 10);
    assert digits[..|digits|] == digits;
  }

  /** parseInt reads back exactly the integer whose string form it is given:
      a number id passed to parseInt, or converted by it, keeps its value. */
  lemma {:induction false} ParseIntRoundTrip(n: int)
    ensures ParseInt(IntToString(n)) == Some(n)
  {
    var m: nat := if n < 0 then -n else n;
    var digits := NatToString(m);
    NatToStringDigits(m);
    MagnitudeOfDigits(m);
    var s := IntToString(n);
    assert TrimStart(s) == s;
    if n < 0 {
      assert s[1..] == digits;
    }
  }

  /** The same for the values parseInt is handed: the number itself, or
      its decimal string. */
  lemma ParseIntValueRoundTrip(n: int)
    ensures ParseIntValue(Num(n)) == Some(n)
    ensures ParseIntValue(Str(IntToString(n))) == Some(n)
  {
    ParseIntRoundTrip(n);
    assert ToJsString(Num(n)) == IntToString(n);
  }

  /** Two integers print the same only if they are equal. */
  lemma IntToStringInjective(a: int, b: int)
    requires IntToString(a) == IntToString(b)
    ensures a == b
  {
    ParseIntRoundTrip(a);
    ParseIntRoundTrip(b);
  }

  /** A string that starts with a letter other than a hex prefix has no
      digits for parseInt to read: page ids such as "page_17..." parse as NaN. */
  lemma ParseIntOfWordIsNaN(w: string)
    requires |w| > 0 && (('g' <= w[0] <= 'z') || ('G' <= w[0] <= 'Z') || w[0] == '_')
    ensures ParseInt(w) == None
  {
    assert !IsWhiteSpace(w[0]);
    assert TrimStart(w) == w;
  }

  // ---------------------------------------------------------------------
  // trim, toLowerCase, includes

  lemma {:induction false} TrimStartEmpty(s: string)
    ensures TrimStart(s) == "" <==> forall i :: 0 <= i < |s| ==> IsWhiteSpace(s[i])
    ensures TrimStart(s) != "" ==> !IsWhiteSpace(TrimStart(s)[0])
    decreases |s|
  {
    if |s| > 0 && IsWhiteSpace(s[0]) {
      TrimStartEmpty(s[1..]);
      if forall i :: 0 <= i < |s[1..]| ==> IsWhiteSpace(s[1..][i]) {
        forall i | 0 <= i < |s| ensures IsWhiteSpace(s[i]) {
          if i > 0 { assert s[i] == s[1..][i - 1]; }
        }
      } else {
        var i :| 0 <= i < |s[1..]| && !IsWhiteSpace(s[1..][i]);
        assert s[i + 1] == s[1..][i];
      }
    }
  }

  lemma {:induction false} TrimEndKeepsFirst(s: string)
    requires |s| > 0 && !IsWhiteSpace(s[0])
    ensures TrimEnd(s) != "" && TrimEnd(s)[0] == s[0]
    decreases |s|
  {
    if IsWhiteSpace(s[|s| - 1]) {
      assert |s| > 1;
      TrimEndKeepsFirst(s[..|s| - 1]);
    }
  }

  /** `s.trim()` is empty exactly when `s` consists of white space only. */
  lemma {:induction false} TrimEmptyIffBlank(s: string)
    ensures Trim(s) == "" <==> forall i :: 0 <= i < |s| ==> IsWhiteSpace(s[i])
  {
    TrimStartEmpty(s);
    var t := TrimStart(s);
    if t != "" {
      TrimEndKeepsFirst(t);
    }
  }

  /** String.prototype.toLowerCase on ASCII letters; other characters are
      left as they are. */
  function LowerChar(c: char): char {
    if 'A' <= c <= 'Z' then (c as int - 'A' as int + 'a' as int) as char else c
  }

  function ToLower(s: string): (r: string)
    ensures |r| == |s|
    ensures forall i :: 0 <= i < |s| ==> r[i] == LowerChar(s[i])
  {
    seq(|s|, i requires 0 <= i < |s| => LowerChar(s[i]))
  }

  /** `needle` occurs in `hay` starting at position `i`. */
  predicate OccursAt(hay: string, needle: string, i: int) {
    0 <= i <= |hay| - |needle| && hay[i..i + |needle|] == needle
  }

  /** String.prototype.includes: `needle` occurs somewhere in `hay`. */
  predicate Includes(hay: string, needle: string) {
    exists i :: 0 <= i <= |hay| - |needle| && OccursAt(hay, needle, i)
  }
}

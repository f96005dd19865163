/** Values shared by the network service and the logger: JavaScript values as the
    service sees them, their truthiness, the structured errors produced by the
    `getError` utility, and the few string operations the service performs
    (`parseInt(s, 10)`, `s.split('/').pop()`, number-to-string conversion). */
module Common {

  datatype Option<+T> = None | Some(value: T)

  datatype Result<+T> = Ok(value: T) | Fail(error: Error)

  datatype Outcome = Pass | Abort(error: Error)

  /** A JavaScript value as it reaches the service: a request body, a parsed JSON
      response, a log message or argument. Numbers are integers; `NaN` is kept
      because it is falsy. Object fields are listed in `for...in` order, and their
      keys are distinct, as the keys of a JavaScript object are. A blob is opaque
      and known only by an identity. */
  datatype Value =
    | Undefined
    | Null
    | Bool(b: bool)
    | Num(n: int)
    | NaN
    | Str(s: string)
    | Arr(items: seq<Value>)
    | Obj(fields: seq<Field>)
    | BlobData(blob: nat)

  datatype Field = Field(key: string, val: Value)

  /** JavaScript truthiness: `undefined`, `null`, `false`, `0`, `NaN` and `''`
      are falsy, every other value (including every object and array) is truthy. */
  predicate Truthy(v: Value) {
    match v
    case Undefined => false
    case Null => false
    case Bool(b) => b
    case Num(n) => n != 0
    case NaN => false
    case Str(s) => s != []
    case _ => true
  }

  /** An error built by `getError`: an application error with a message and an
      optional HTTP-like status code, a server-reported error payload passed on
      as is, or the runtime `TypeError` raised by calling something that is not
      a function. */
  datatype Error =
    | AppError(message: string, statusCode: Option<int>)
    | RemoteError(payload: Value)
    | TypeError

  /** Property access `v?.key`: only objects have own fields here; on every
      other value, `null` and `undefined` included, the access gives `undefined`. */
  function Property(v: Value, key: string): (r: Value)
    ensures !v.Obj? ==> r == Undefined
    ensures v.Obj? && r != Undefined ==> Field(key, r) in v.fields
    ensures v.Obj? ==> forall i ::
      (0 <= i < |v.fields| && v.fields[i].key == key && forall j :: 0 <= j < i ==> v.fields[j].key != key)
      ==> r == v.fields[i].val
  {
    match v
    case Obj(fs) => FieldValue(fs, key)
    case _ => Undefined
  }

  function FieldValue(fs: seq<Field>, key: string): (r: Value)
    ensures r != Undefined ==> Field(key, r) in fs
    ensures (forall i :: 0 <= i < |fs| ==> fs[i].key != key) ==> r == Undefined
    ensures forall i ::
      (0 <= i < |fs| && fs[i].key == key && forall j :: 0 <= j < i ==> fs[j].key != key)
      ==> r == fs[i].val
  {
    if fs == [] then Undefined
    else if fs[0].key == key then fs[0].val
    else FieldValue(fs[1..], key)
  }

  // ---------------------------------------------------------------------------
  // Decimal digits

  predicate IsDigit(c: char) {
    '0' <= c <= '9'
  }

  function DigitValue(c: char): (d: nat)
    requires IsDigit(c)
    ensures d < 10
  {
    (c - '0') as nat
  }

  function DigitChar(d: nat): (c: char)
    requires d < 10
    ensures IsDigit(c) && DigitValue(c) == d
  {
    ('0' as int + d) as char
  }

  /** Decimal representation of a natural number, as `String(n)` gives it:
      digits only, no sign, no leading zero. */
  function NatToString(n: nat): (s: string)
    ensures |s| > 0 && (forall i :: 0 <= i < |s| ==> IsDigit(s[i]))
    ensures |s| > 1 ==> s[0] != '0'
  {
    if n < 10 then [DigitChar(n)] else NatToString(n / 10) + [DigitChar(n % 10)]
  }

  /** The number a non-empty run of decimal digits denotes. */
  function DigitsValue(s: string): nat
    requires forall i :: 0 <= i < |s| ==> IsDigit(s[i])
  {
    if s == [] then 0 else DigitsValue(s[..|s| - 1]) * 10 + DigitValue(s[|s| - 1])
  }

  lemma {:induction false} DigitsValueOfNatToString(n: nat)
    ensures DigitsValue(NatToString(n)) == n
  {
    var s := NatToString(n);
    if n >= 10 {
      DigitsValueOfNatToString(n / 10);
      assert s[..|s| - 1] == NatToString(n / 10);
    }
  }

  // ---------------------------------------------------------------------------
  // parseInt(s, 10)

  /** The characters `parseInt` strips from the front of its argument: the
      ECMAScript WhiteSpace (tab, vertical tab, form feed, the byte order mark
      and the Unicode space separators) and LineTerminator code points. */
  predicate IsJsWhitespace(c: char) {
    || c == '\U{0009}' || c == '\U{000B}' || c == '\U{000C}' || c == '\U{FEFF}'
    || c == '\U{0020}' || c == '\U{00A0}' || c == '\U{1680}'
    || ('\U{2000}' <= c <= '\U{200A}')
    || c == '\U{202F}' || c == '\U{205F}' || c == '\U{3000}'
    || c == '\U{000A}' || c == '\U{000D}' || c == '\U{2028}' || c == '\U{2029}'
  }

  function TrimStart(s: string): (r: string)
    ensures |r| <= |s| && r == s[|s| - |r|..]
    ensures r != [] ==> !IsJsWhitespace(r[0])
    ensures forall i :: 0 <= i < |s| - |r| ==> IsJsWhitespace(s[i])
  {
    if s != [] && IsJsWhitespace(s[0]) then TrimStart(s[1..]) else s
  }

  /** The longest prefix of `s` made of decimal digits. */
  function DigitPrefix(s: string): (r: string)
    ensures r <= s
    ensures forall i :: 0 <= i < |r| ==> IsDigit(r[i])
    ensures |r| < |s| ==> !IsDigit(s[|r|])
  {
    if s != [] && IsDigit(s[0]) then [s[0]] + DigitPrefix(s[1..]) else []
  }

  /** `parseInt(s, 10)`: skip leading white space, read an optional sign, then
      the longest run of decimal digits. `None` stands for `NaN` (no digit at
      all). A `-0` result is `0`, which is falsy like `-0`. */
  function ParseInt(s: string): (r: Option<int>)
    ensures (forall i :: 0 <= i < |s| ==> !IsDigit(s[i])) ==> r.None?
    ensures s != [] && IsDigit(s[0]) ==> r.Some? && r.value >= 0
  {
    var t := TrimStart(s);
    var negative := t != [] && t[0] == '-';
    var unsigned := if t != [] && (t[0] == '-' || t[0] == '+') then t[1..] else t;
    var digits := DigitPrefix(unsigned);
    if digits == [] then None
    else if negative then Some(-(DigitsValue(digits) as int))
    else Some(DigitsValue(digits))
  }

  lemma ParseIntOfDigits(s: string)
    requires s != [] && forall i :: 0 <= i < |s| ==> IsDigit(s[i])
    ensures ParseInt(s) == Some(DigitsValue(s) as int)
  {
    assert !IsJsWhitespace(s[0]);
    assert TrimStart(s) == s;
    assert DigitPrefix(s) == s;
  }

  /** `parseInt` reads back every number `String` writes. */
  lemma ParseIntNatToString(n: nat)
    ensures ParseInt(NatToString(n)) == Some(n as int)
  {
    ParseIntOfDigits(NatToString(n));
    DigitsValueOfNatToString(n);
  }

  // ---------------------------------------------------------------------------
  // s.split('/').pop()

  /** The last piece of `s.split(sep)`: everything after the last `sep`, or the
      whole string when `sep` does not occur. */
  function LastSegment(s: string, sep: char): (r: string)
    ensures |r| <= |s| && r == s[|s| - |r|..]
    ensures sep !in r
    ensures |r| < |s| ==> s[|s| - |r| - 1] == sep
  {
    if s == [] then []
    else if s[|s| - 1] == sep then []
    else LastSegment(s[..|s| - 1], sep) + [s[|s| - 1]]
  }

  lemma {:induction false} LastSegmentAfterSeparator(prefix: string, sep: char, tail: string)
    requires sep !in tail
    ensures LastSegment(prefix + [sep] + tail, sep) == tail
  {
    var s := prefix + [sep] + tail;
    var r := LastSegment(s, sep);
    assert s[|s| - |tail| - 1] == sep;
    assert forall i :: |s| - |tail| <= i < |s| ==> s[i] == tail[i - (|s| - |tail|)];
  }
}

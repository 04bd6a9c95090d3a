/** JavaScript values as the stores and the dashboard see them once a JSON
    body or file has been parsed, and the handful of JavaScript coercions the
    source relies on: truthiness, `String(v)`, `Number(v)`, `parseInt(v)`,
    `String.prototype.includes`, `trim` and `split`.

    Numbers are integers: the model keeps scores, ids and amounts integral.
    A parsed object is a `Record`, a map from property names to values, so
    that the object spread `{...a, ...b}` is the map union `a + b`. */
module JsonValues {

  datatype Option<T> = None | Some(value: T)

  datatype Json =
    | Undefined
    | Null
    | Bool(b: bool)
    | Num(n: int)
    | Str(s: string)
    | Arr(items: seq<Json>)
    | Obj(fields: Record)

  type Record = map<string, Json>

  /** The message of the TypeError JavaScript raises when a property of
      `null` or `undefined` is read, or a string method is called on a
      non-string. All such errors share this one message in the model. */
  const TypeErrorMessage := "TypeError"

  /** `r.k` on an object: `undefined` when the property is absent. */
  function Field(r: Record, k: string): (v: Json)
    ensures k !in r ==> v == Undefined
    ensures k in r ==> v == r[k]
  {
    if k in r then r[k] else Undefined
  }

  /** `v.k` on a value that is not `null` or `undefined`: only objects carry
      the properties the source reads. */
  function Prop(v: Json, k: string): (p: Json)
    ensures !v.Obj? ==> p == Undefined
  {
    if v.Obj? then Field(v.fields, k) else Undefined
  }

  predicate Nullish(v: Json) {
    v.Undefined? || v.Null?
  }

  /** JavaScript truthiness (the model has no NaN). */
  predicate Truthy(v: Json) {
    match v
    case Undefined => false
    case Null => false
    case Bool(b) => b
    case Num(n) => n != 0
    case Str(s) => s != []
    case Arr(_) => true
    case Obj(_) => true
  }

  /** `a || b` */
  function Or(a: Json, b: Json): (r: Json)
    ensures Truthy(a) ==> r == a
    ensures !Truthy(a) ==> r == b
  {
    if Truthy(a) then a else b
  }

  /** The own properties `{...v}` copies out of a value: an object's
      fields, an array's elements or a string's characters under their
      indices, and nothing from any other value. */
  function Spread(v: Json): (r: Record)
    ensures v.Obj? ==> r == v.fields
    ensures !v.Obj? ==> forall k :: k in r ==> IsIndexKey(k)
  {
    match v
    case Obj(fields) => fields
    case Arr(items) => IndexedFields(items)
    case Str(s) => IndexedFields(Characters(s))
    case _ => map[]
  }

  /** What spreading a value that is not an object gives. */
  lemma SpreadIndexed(v: Json)
    ensures v.Arr? ==> forall i :: 0 <= i < |v.items| ==> IntToString(i) in Spread(v) && Spread(v)[IntToString(i)] == v.items[i]
    ensures v.Str? ==> forall i :: 0 <= i < |v.s| ==> IntToString(i) in Spread(v) && Spread(v)[IntToString(i)] == Str([v.s[i]])
    ensures !v.Obj? && !v.Arr? && !v.Str? ==> Spread(v) == map[]
  {
  }

  /** The values `for (const x of v)` visits: an array's elements, a
      string's characters; anything else is not iterable and raises. */
  function Iterated(v: Json): (r: Option<seq<Json>>)
    ensures v.Arr? ==> r == Some(v.items)
    ensures v.Str? ==> r.Some? && |r.value| == |v.s| && forall i :: 0 <= i < |v.s| ==> r.value[i] == Str([v.s[i]])
    ensures !v.Arr? && !v.Str? ==> r.None?
  {
    match v
    case Arr(items) => Some(items)
    case Str(s) => Some(Characters(s))
    case _ => None
  }

  /** A key that is a non-negative index, written out. */
  predicate IsIndexKey(k: string) {
    k != [] && IsDigit(k[0])
  }

  /** A string as the sequence of its one-character strings. */
  function Characters(s: string): (r: seq<Json>)
    ensures |r| == |s| && forall i :: 0 <= i < |s| ==> r[i] == Str([s[i]])
  {
    seq(|s|, i requires 0 <= i < |s| => Str([s[i]]))
  }

  /** The elements of `xs` keyed by their indices, as `{...xs}` lays them
      out. */
  function IndexedFields(xs: seq<Json>): (r: Record)
    ensures forall i :: 0 <= i < |xs| ==> IntToString(i) in r && r[IntToString(i)] == xs[i]
    ensures forall k :: k in r ==> IsIndexKey(k)
    decreases |xs|
  {
    if xs == [] then map[]
    else
      var n := |xs| - 1;
      var prior := IndexedFields(xs[..n]);
      forall i | 0 <= i < n
        ensures IntToString(i) != IntToString(n)
      {
        ParseIntOfIntToString(i);
        ParseIntOfIntToString(n);
      }
      prior[IntToString(n) := xs[n]]
  }

  // ---------------------------------------------------------------------
  // Decimal text

  predicate IsDigit(c: char) {
    '0' <= c <= '9'
  }

  predicate AllDigits(s: string) {
    forall i :: 0 <= i < |s| ==> IsDigit(s[i])
  }

  function DigitChar(d: nat): (c: char)
    requires d < 10
    ensures IsDigit(c) && c as int - '0' as int == d
  {
    (d + '0' as int) as char
  }

  function DigitValue(c: char): (d: nat)
    requires IsDigit(c)
    ensures d < 10
  {
    c as int - '0' as int
  }

  /** The decimal digits of `n`, without leading zeros. */
  function Digits(n: nat): (s: string)
    ensures s != [] && AllDigits(s)
  {
    if n < 10 then [DigitChar(n)] else Digits(n / 10) + [DigitChar(n % 10)]
  }

  /** The value of a run of decimal digits. */
  function DigitsValue(s: string): nat
    requires AllDigits(s)
  {
    if s == [] then 0 else DigitsValue(s[..|s| - 1]) * 10 + DigitValue(s[|s| - 1])
  }

  /** `String(n)` for an integer `n`. */
  function IntToString(n: int): (s: string)
    ensures s != []
    ensures n < 0 <==> s[0] == '-'
  {
    if n < 0 then "-" + Digits(-n) else Digits(n)
  }

  /** Length of the longest run of digits at the start of `s`. */
  function DigitRun(s: string): (k: nat)
    ensures k <= |s| && AllDigits(s[..k])
    ensures k < |s| ==> !IsDigit(s[k])
  {
    if s == [] || !IsDigit(s[0]) then 0
    else
      var k := 1 + DigitRun(s[1..]);
      assert s[..k] == [s[0]] + s[1..][..k - 1];
      k
  }

  /** The white space `trim` and `parseInt` skip: ASCII white space, the
      line and paragraph separators, the BOM, and the space separators of
      Unicode (no-break, Ogham, the en quad to hair space run, narrow
      no-break, medium mathematical and ideographic spaces). */
  predicate IsSpace(c: char) {
    c == ' ' || c == '\t' || c == '\n' || c == '\r' || c == '\U{B}' || c == '\U{C}'
    || c == '\U{A0}' || c == '\U{1680}' || '\U{2000}' <= c <= '\U{200A}' || c == '\U{2028}' || c == '\U{2029}'
    || c == '\U{202F}' || c == '\U{205F}' || c == '\U{3000}' || c == '\U{FEFF}'
  }

  function TrimStart(s: string): (t: string)
    ensures |t| <= |s| && t == s[|s| - |t|..]
    ensures t != [] ==> !IsSpace(t[0])
  {
    if s != [] && IsSpace(s[0]) then TrimStart(s[1..]) else s
  }

  function TrimEnd(s: string): (t: string)
    ensures |t| <= |s| && t == s[..|t|]
    ensures t != [] ==> !IsSpace(t[|t| - 1])
  {
    if s != [] && IsSpace(s[|s| - 1]) then TrimEnd(s[..|s| - 1]) else s
  }

  /** `s.trim()` */
  function Trim(s: string): (t: string)
    ensures t != [] ==> !IsSpace(t[0]) && !IsSpace(t[|t| - 1])
  {
    TrimEnd(TrimStart(s))
  }

  /** An optional sign followed by digits: the sign and the rest. */
  function SplitSign(s: string): (int, string)
  {
    if s != [] && s[0] == '-' then (-1, s[1..])
    else if s != [] && s[0] == '+' then (1, s[1..])
    else (1, s)
  }

  /** `parseInt(s)` with the default radix on a decimal string: skip leading
      white space, read an optional sign, then the longest run of digits;
      `None` is NaN (no digit at all). */
  function ParseInt(s: string): (r: Option<int>)
  {
    var (sign, rest) := SplitSign(TrimStart(s));
    var k := DigitRun(rest);
    if k == 0 then None else Some(sign * DigitsValue(rest[..k]))
  }

  /** `Number(s)` on a string: white space around an optional sign and a
      digit run; the empty (or blank) string is 0; anything else is NaN. */
  function StringToNumber(s: string): (r: Option<int>)
    ensures Trim(s) == [] ==> r == Some(0)
  {
    var t := Trim(s);
    if t == [] then Some(0)
    else
      var (sign, rest) := SplitSign(t);
      if rest != [] && AllDigits(rest) then Some(sign * DigitsValue(rest)) else None
  }

  /** Joins strings with a separator, like `Array.prototype.join`. */
  function Join(parts: seq<string>, sep: string): string
  {
    if parts == [] then ""
    else if |parts| == 1 then parts[0]
    else parts[0] + sep + Join(parts[1..], sep)
  }

  /** `String(v)`. An array is the comma-joined strings of its elements,
      with `null` and `undefined` elements as empty strings. */
  function JsString(v: Json): string
    decreases v
  {
    match v
    case Undefined => "undefined"
    case Null => "null"
    case Bool(b) => if b then "true" else "false"
    case Num(n) => IntToString(n)
    case Str(s) => s
    case Obj(_) => "[object Object]"
    case Arr(items) =>
      Join(seq(|items|, i requires 0 <= i < |items| =>
        if Nullish(items[i]) then "" else JsString(items[i])), ",")
  }

  /** `Number(v)`; `None` is NaN. Arrays convert through their string form. */
  function ToNumber(v: Json): (r: Option<int>)
    ensures v.Num? ==> r == Some(v.n)
    ensures v.Undefined? || v.Obj? ==> r == None
  {
    match v
    case Undefined => None
    case Null => Some(0)
    case Bool(b) => Some(if b then 1 else 0)
    case Num(n) => Some(n)
    case Str(s) => StringToNumber(s)
    case Obj(_) => None
    case Arr(_) => StringToNumber(JsString(v))
  }

  /** `parseInt(v)`: the argument is converted with `String` first. */
  function ParseIntOf(v: Json): Option<int>
  {
    ParseInt(JsString(v))
  }

  /** `s.includes(t)` */
  predicate Includes(s: string, t: string) {
    exists i | 0 <= i <= |s| :: t <= s[i..]
  }

  /** `s.split(sep)` for a one-character separator. */
  function Split(s: string, sep: char): (parts: seq<string>)
    ensures |parts| >= 1
    ensures forall k :: 0 <= k < |parts| ==> sep !in parts[k]
  {
    SplitFrom(s, sep, [])
  }

  /** Splits `s`, with `acc` already read as the start of the first part. */
  function SplitFrom(s: string, sep: char, acc: string): (parts: seq<string>)
    requires sep !in acc
    ensures |parts| >= 1
    ensures forall k :: 0 <= k < |parts| ==> sep !in parts[k]
    decreases |s|
  {
    if s == [] then [acc]
    else if s[0] == sep then [acc] + SplitFrom(s[1..], sep, [])
    else SplitFrom(s[1..], sep, acc + [s[0]])
  }

  // ---------------------------------------------------------------------
  // Lemmas

  lemma {:induction false} DigitsValueOfDigits(n: nat)
    ensures DigitsValue(Digits(n)) == n
  {
    if n >= 10 {
      DigitsValueOfDigits(n / 10);
      var s := Digits(n);
      assert s[..|s| - 1] == Digits(n / 10);
    }
  }

  lemma {:induction false} DigitRunOfDigits(s: string)
    requires AllDigits(s)
    ensures DigitRun(s) == |s|
  {
    if s != [] {
      DigitRunOfDigits(s[1..]);
    }
  }

  /** Parsing a sign-free run of digits gives its value. */
  lemma ParseDigits(rest: string)
    requires AllDigits(rest) && rest != []
    requires SplitSign(rest) == (1, rest)
    ensures ParseInt(rest) == Some(DigitsValue(rest))
  {
    assert !IsSpace(rest[0]);
    assert TrimStart(rest) == rest;
    DigitRunOfDigits(rest);
    assert rest[..|rest|] == rest;
  }

  /** The id generator of the in-memory store writes ids with `String(n)`
      and reads them back with `parseInt`: the two are inverse. */
  lemma ParseIntOfIntToString(n: int)
    ensures ParseInt(IntToString(n)) == Some(n)
  {
    var m: nat := if n < 0 then -n else n;
    var d := Digits(m);
    DigitsValueOfDigits(m);
    DigitRunOfDigits(d);
    assert IsDigit(d[0]);
    if n < 0 {
      var s := IntToString(n);
      assert s == "-" + d;
      assert !IsSpace(s[0]);
      assert TrimStart(s) == s;
      assert SplitSign(s) == (-1, d);
      assert d[..|d|] == d;
    } else {
      ParseDigits(d);
    }
  }

  lemma ParseIntOfNum(n: int)
    ensures ParseIntOf(Num(n)) == Some(n)
  {
    ParseIntOfIntToString(n);
  }
}

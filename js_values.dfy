/** JavaScript values as the job-card screens see them.

    Job cards, the signed-in user and submission payloads are plain JavaScript
    objects; they are modelled as maps from field name to a primitive value.
    A field that is absent reads as `Undefined`, so the source's strict
    equality `card.department === user.department` is `==` on `Value`. */
module JsValues {

  datatype Option<+T> = None | Some(value: T)

  datatype Value =
    | Undefined
    | Null
    | Bool(b: bool)
    | Num(n: int)
    | Str(s: string)

  /** A plain object with primitive fields. */
  type Record = map<string, Value>

  /** Property read `r.key`. */
  function Get(r: Record, key: string): Value
  {
    if key in r then r[key] else Undefined
  }

  /** JavaScript truthiness (`Boolean(v)`, `!v`, `a || b`). */
  predicate Truthy(v: Value)
  {
    match v
    case Undefined => false
    case Null => false
    case Bool(b) => b
    case Num(n) => n != 0
    case Str(s) => s != ""
  }

  /** `a || b` on values: the first operand when it is truthy, else the second. */
  function Or(a: Value, b: Value): (r: Value)
    ensures Truthy(a) ==> r == a
    ensures !Truthy(a) ==> r == b
  {
    if Truthy(a) then a else b
  }

  // ---------------------------------------------------------------- dates

  /** A valid Date as the screens read it: its time value in milliseconds and
      its local calendar fields (`getFullYear`, `getMonth`, `getDate`, `getDay`). */
  datatype Moment = Moment(epochMs: int, year: int, month: int, day: int, weekday: int)

  /** How `new Date(...)` reads a value: the parser for date strings and the
      local calendar reading of a time value. Both depend on the host's time
      zone, so they are inputs of the model. */
  datatype Calendar = Calendar(parse: string -> Option<Moment>, fromEpoch: int -> Moment)

  /** `new Date(v)`; `None` is an Invalid Date, whose every comparison is false. */
  function DateOf(v: Value, cal: Calendar): (d: Option<Moment>)
    ensures v == Undefined ==> d == None
  {
    match v
    case Undefined => None
    case Null => Some(cal.fromEpoch(0))
    case Bool(b) => Some(cal.fromEpoch(if b then 1 else 0))
    case Num(n) => Some(cal.fromEpoch(n))
    case Str(s) => cal.parse(s)
  }

  // ---------------------------------------------------------------- strings

  /** The characters `String.prototype.trim` removes: WhiteSpace and LineTerminator. */
  predicate IsWhitespace(c: char)
  {
    var n := c as int;
    n == 0x09 || n == 0x0A || n == 0x0B || n == 0x0C || n == 0x0D || n == 0x20
    || n == 0xA0 || n == 0x1680 || (0x2000 <= n <= 0x200A) || n == 0x2028
    || n == 0x2029 || n == 0x202F || n == 0x205F || n == 0x3000 || n == 0xFEFF
  }

  function TrimStart(s: string): (t: string)
    ensures |t| <= |s| && t == s[|s| - |t|..]
    ensures t == [] || !IsWhitespace(t[0])
    ensures forall i :: 0 <= i < |s| - |t| ==> IsWhitespace(s[i])
  {
    if s != [] && IsWhitespace(s[0]) then TrimStart(s[1..]) else s
  }

  function TrimEnd(s: string): (t: string)
    ensures |t| <= |s| && t == s[..|t|]
    ensures t == [] || !IsWhitespace(t[|t| - 1])
    ensures forall i :: |t| <= i < |s| ==> IsWhitespace(s[i])
  {
    if s != [] && IsWhitespace(s[|s| - 1]) then TrimEnd(s[..|s| - 1]) else s
  }

  /** `s.trim()` */
  function Trim(s: string): string
  {
    TrimEnd(TrimStart(s))
  }

  /** `!s.trim()`: nothing is left once the string is trimmed. */
  predicate Blank(s: string)
  {
    Trim(s) == ""
  }

  /** A string is blank exactly when every character of it is whitespace. */
  lemma BlankIffAllWhitespace(s: string)
    ensures Blank(s) <==> forall i :: 0 <= i < |s| ==> IsWhitespace(s[i])
  {
    var t := TrimStart(s);
    if t != [] {
      assert !IsWhitespace(t[0]);
      assert t[0] == s[|s| - |t|];
      assert TrimEnd(t) != [];
    }
  }

  /** A string with no surrounding whitespace is its own trim. */
  lemma TrimUnpadded(s: string)
    requires s != [] && !IsWhitespace(s[0]) && !IsWhitespace(s[|s| - 1])
    ensures Trim(s) == s
  {
  }

  // ---------------------------------------------------------------- numbers

  predicate IsDigit(c: char)
  {
    '0' <= c <= '9'
  }

  predicate AllDigits(s: string)
  {
    forall i :: 0 <= i < |s| ==> IsDigit(s[i])
  }

  /** The value of a string of decimal digits, most significant first. */
  function DigitsValue(ds: string): nat
    requires AllDigits(ds)
  {
    if ds == [] then 0
    else DigitsValue(ds[..|ds| - 1]) * 10 + (ds[|ds| - 1] as int - '0' as int)
  }

  /** `Number(s)` for strings: surrounding whitespace is ignored, a blank string
      is 0, and an optionally signed run of decimal digits is its integer value.
      `None` stands for NaN. */
  function NumberOf(s: string): (r: Option<int>)
    ensures Blank(s) ==> r == Some(0)
  {
    var t := Trim(s);
    if t == [] then Some(0)
    else if t[0] == '-' && |t| > 1 && AllDigits(t[1..]) then Some(0 - DigitsValue(t[1..]) as int)
    else if t[0] == '+' && |t| > 1 && AllDigits(t[1..]) then Some(DigitsValue(t[1..]))
    else if AllDigits(t) then Some(DigitsValue(t))
    else None
  }

  /** Decimal digits of a natural number, as `String(n)` writes them. */
  function NatDigits(n: nat): (ds: string)
    ensures ds != [] && AllDigits(ds)
  {
    if n < 10 then ['0' + n as char]
    else NatDigits(n / 10) + ['0' + (n % 10) as char]
  }

  /** `String(n)` for an integer. */
  function Decimal(n: int): string
  {
    if n < 0 then "-" + NatDigits(-n) else NatDigits(n)
  }

  lemma {:induction false} DigitsValueOfNatDigits(n: nat)
    ensures DigitsValue(NatDigits(n)) == n
  {
    var ds := NatDigits(n);
    if n >= 10 {
      DigitsValueOfNatDigits(n / 10);
      assert ds[..|ds| - 1] == NatDigits(n / 10);
    }
  }

  /** `Number(String(n)) === n` for every integer. */
  lemma NumberOfDecimal(n: int)
    ensures NumberOf(Decimal(n)) == Some(n)
  {
    var s := Decimal(n);
    var ds := NatDigits(if n < 0 then -n else n);
    assert !IsWhitespace(s[0]) && !IsWhitespace(s[|s| - 1]);
    TrimUnpadded(s);
    DigitsValueOfNatDigits(if n < 0 then -n else n);
    if n < 0 {
      assert s[1..] == ds;
    } else {
      assert !(s[0] == '-') && !(s[0] == '+');
    }
  }
}

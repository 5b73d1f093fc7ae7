/** The JavaScript values that flow through a workflow: parsed tool arguments, tool
    results and node outputs. Numbers are integers; see README for what that leaves out. */
module Values {
  import opened Wrappers

  datatype Value =
    | Undefined
    | Null
    | Bool(b: bool)
    | Num(n: int)
    | NaN
    | Str(s: string)
    | Arr(items: seq<Value>)
    | Obj(fields: map<string, Value>)

  /** The property keys the orchestration layer reads; none of them is `length` or an
      array index, so on a string or an array they are simply missing. */
  const PlainKeys: set<string> := {"options", "a", "b", "type", "output"}

  /** `v[key]`: `None` when `v` is `undefined` or `null`, where JavaScript throws a TypeError. */
  function Property(v: Value, key: string): Option<Value>
    requires key in PlainKeys
  {
    match v
    case Undefined => None
    case Null => None
    case Obj(fields) => Some(if key in fields then fields[key] else Undefined)
    case _ => Some(Undefined)
  }

  /** A record with a single field, such as `{output: ...}` or `{type: 'manual'}`. */
  function Record(key: string, v: Value): Value {
    Obj(map[key := v])
  }

  // ---------------------------------------------------------------------------
  // String conversion, as done by a template literal `${v}`.

  function DigitChar(d: int): (c: char)
    requires 0 <= d < 10
    ensures '0' <= c <= '9' && c as int - '0' as int == d
  {
    "0123456789"[d]
  }

  /** Decimal digits of a natural number, most significant first. */
  function NatToString(n: nat): (s: string)
    ensures |s| >= 1
    ensures forall i :: 0 <= i < |s| ==> '0' <= s[i] <= '9'
    decreases n
  {
    if n < 10 then [DigitChar(n)] else NatToString(n / 10) + [DigitChar(n % 10)]
  }

  function IntToString(i: int): string {
    if i < 0 then "-" + NatToString(-i) else NatToString(i)
  }

  /** `String(v)` where it does not throw (see `ConversionThrows`). An array is joined with commas, `null` and `undefined` elements
      becoming empty text; a plain object becomes "[object Object]". */
  function ToString(v: Value): string
    decreases v
  {
    match v
    case Undefined => "undefined"
    case Null => "null"
    case Bool(b) => if b then "true" else "false"
    case Num(n) => IntToString(n)
    case NaN => "NaN"
    case Str(s) => s
    case Arr(items) =>
      JoinWithCommas(seq(|items|, i requires 0 <= i < |items| =>
        if items[i].Undefined? || items[i].Null? then "" else ToString(items[i])))
    case Obj(_) => "[object Object]"
  }

  /** Whether `String(v)` throws a TypeError. JSON text can give an object its own
      `toString` key, whose value is then not callable: converting that object to a
      primitive finds no callable `toString` and a `valueOf` that returns the object
      itself. An array's text joins the texts of its elements, so it throws when one of
      theirs does. The same conversion is the first step of `a + b` and `a * b` on an
      object or an array. */
  predicate ConversionThrows(v: Value)
    decreases v
  {
    match v
    case Obj(fields) => "toString" in fields
    case Arr(items) => exists i :: 0 <= i < |items| && ConversionThrows(items[i])
    case _ => false
  }

  /** `${v}`: its text, or `None` where the conversion throws. */
  function Text(v: Value): Option<string> {
    if ConversionThrows(v) then None else Some(ToString(v))
  }

  function JoinWithCommas(parts: seq<string>): string {
    if |parts| == 0 then ""
    else if |parts| == 1 then parts[0]
    else parts[0] + "," + JoinWithCommas(parts[1..])
  }

  // ---------------------------------------------------------------------------
  // A reference reader for decimal text: the partner of `IntToString`.

  function ParseDigits(s: string): int
    decreases |s|
  {
    if s == [] then 0 else ParseDigits(s[..|s| - 1]) * 10 + (s[|s| - 1] as int - '0' as int)
  }

  function ParseInt(s: string): int {
    if |s| > 0 && s[0] == '-' then -ParseDigits(s[1..]) else ParseDigits(s)
  }

  lemma {:induction false} NatToStringRoundTrip(n: nat)
    ensures ParseDigits(NatToString(n)) == n
    decreases n
  {
    if n >= 10 {
      NatToStringRoundTrip(n / 10);
      var s := NatToString(n);
      assert s[..|s| - 1] == NatToString(n / 10);
    }
  }

  /** The text of an integer result reads back as that integer. */
  lemma NumToStringRoundTrip(i: int)
    ensures ParseInt(ToString(Num(i))) == i
  {
    if i < 0 {
      NatToStringRoundTrip(-i);
      assert ("-" + NatToString(-i))[1..] == NatToString(-i);
    } else {
      NatToStringRoundTrip(i);
    }
  }
}

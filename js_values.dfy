/** Untyped JavaScript values as the frontend receives them from forms and
    from JSON bodies, with the coercions the components rely on: truthiness,
    `||`, `??`, property lookup, `Number(…)` and `String(…)`. */
module JsValues {
  import opened Text

  datatype Option<+T> = None | Some(value: T)

  /** A value held by a form field or a JSON property. A missing property
      reads as `Undefined`. Numbers are integers (fractions are not modelled). */
  datatype Value =
    | Undefined
    | Null
    | Bool(b: bool)
    | Num(n: int)
    | NotANumber
    | Str(s: string)
    | Arr(items: seq<Value>)
    | File(fileName: string)

  /** A plain object such as a react-hook-form values record or a JSON body. */
  type Record = map<string, Value>

  /** A JavaScript number: an integer or NaN, which absorbs every operation. */
  datatype Number = Int(i: int) | NaN {
    function Plus(other: Number): (r: Number)
      ensures r.Int? <==> Int? && other.Int?
      ensures r.Int? ==> r.i == i + other.i
    {
      if Int? && other.Int? then Int(i + other.i) else NaN
    }

    function Times(k: int): (r: Number)
      ensures r.Int? <==> Int?
      ensures r.Int? ==> r.i == i * k
    {
      if Int? then Int(i * k) else NaN
    }

    function AsValue(): Value {
      if Int? then Num(i) else NotANumber
    }
  }

  /** Whether a value passes react-hook-form's `required` rule: `undefined`,
      `null`, `""`, the empty array and the boolean `false` count as missing. */
  predicate RequiredMet(v: Value) {
    !(v.Undefined? || v.Null? || v == Str("") || v == Arr([]) || v == Bool(false))
  }

  /** JavaScript truthiness: `undefined`, `null`, `false`, `0`, `NaN` and `""`
      are falsy; arrays (even empty ones) and files are truthy. */
  predicate Truthy(v: Value) {
    match v
    case Undefined => false
    case Null => false
    case Bool(b) => b
    case Num(n) => n != 0
    case NotANumber => false
    case Str(s) => s != ""
    case Arr(_) => true
    case File(_) => true
  }

  /** `v || fallback` */
  function Or(v: Value, fallback: Value): Value {
    if Truthy(v) then v else fallback
  }

  /** `v ?? fallback` */
  function Coalesce(v: Value, fallback: Value): Value {
    if v.Undefined? || v.Null? then fallback else v
  }

  /** `data.key` */
  function Get(data: Record, key: string): Value {
    if key in data then data[key] else Undefined
  }

  /** A nullable string read through `x || ""`-style tests: `null` and `""` are falsy. */
  predicate Present(s: Option<string>) {
    s.Some? && s.value != ""
  }

  /** `Number(s)` for a string: surrounding whitespace is ignored, the empty
      string is 0, a run of decimal digits is its value and anything else is NaN. */
  function StringToNumber(s: string): (r: Number)
    ensures r.Int? ==> r.i >= 0
    ensures AllDigits(s) ==> r == Int(ParseDigits(s))
  {
    TrimOfDigits(s);
    var t := Trim(s);
    if t == "" then Int(0)
    else if AllDigits(t) then Int(ParseDigits(t))
    else NaN
  }

  /** `Number(v)` */
  function ToNumber(v: Value): (r: Number)
    ensures v.Num? ==> r == Int(v.n)
    ensures v.Undefined? || v.NotANumber? || v.File? ==> r == NaN
  {
    match v
    case Undefined => NaN
    case Null => Int(0)
    case Bool(b) => Int(if b then 1 else 0)
    case Num(n) => Int(n)
    case NotANumber => NaN
    case Str(s) => StringToNumber(s)
    case Arr(items) =>
      if |items| == 0 then Int(0)
      else if |items| == 1 then StringToNumber(ToText(items[0]))
      else NaN
    case File(_) => NaN
  }

  /** The decimal text of an integer, with a leading '-' when negative. */
  function IntText(n: int): (r: string)
    ensures n >= 0 ==> r == DigitString(n)
  {
    if n < 0 then "-" + DigitString(-n) else DigitString(n)
  }

  /** `String(v)`, which is also what a template literal `${v}` inserts.
      Inside an array, `null` and `undefined` elements print as "". */
  function ToText(v: Value): (r: string)
    decreases v
  {
    match v
    case Undefined => "undefined"
    case Null => "null"
    case Bool(b) => if b then "true" else "false"
    case Num(n) => IntText(n)
    case NotANumber => "NaN"
    case Str(s) => s
    case Arr(items) => JoinWithCommas(seq(|items|, i requires 0 <= i < |items| =>
                         if items[i].Undefined? || items[i].Null? then "" else ToText(items[i])))
    case File(_) => "[object File]"
  }

  function JoinWithCommas(parts: seq<string>): string {
    if |parts| == 0 then ""
    else if |parts| == 1 then parts[0]
    else JoinWithCommas(parts[..|parts| - 1]) + "," + parts[|parts| - 1]
  }
}

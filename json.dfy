/** Parsed JSON values and the JavaScript operations the ad routes apply to
    request payloads: property access, truthiness, `||`, `??` and `String(v)`. */
module JsonValues {
  import opened Common

  /** A parsed JSON value. Numbers are integers here. */
  datatype Json =
    | Null
    | Bool(b: bool)
    | Num(n: int)
    | Str(s: string)
    | Arr(items: seq<Json>)
    | Obj(fields: map<string, Json>)

  /** JavaScript truthiness of a value that may be `undefined` (None). */
  predicate JsTruthy(v: Option<Json>) {
    match v
    case None => false
    case Some(Null) => false
    case Some(Bool(b)) => b
    case Some(Num(n)) => n != 0
    case Some(Str(s)) => s != ""
    case Some(Arr(_)) => true
    case Some(Obj(_)) => true
  }

  /** `undefined` or `null`: what `??` replaces. */
  predicate Nullish(v: Option<Json>) {
    v.None? || v == Some(Null)
  }

  /** `v?.key`, and `(payload || {}).key`: a key of an object; anything else
      has no such property. */
  function Field(v: Option<Json>, key: string): (r: Option<Json>)
    ensures r.Some? <==> v.Some? && v.value.Obj? && key in v.value.fields
  {
    if v.Some? && v.value.Obj? && key in v.value.fields then Some(v.value.fields[key]) else None
  }

  /** `v || d` */
  function OrDefault(v: Option<Json>, d: Json): (r: Json)
    ensures JsTruthy(v) ==> r == v.value
    ensures !JsTruthy(v) ==> r == d
  {
    if JsTruthy(v) then v.value else d
  }

  /** `v ?? d` */
  function Coalesce(v: Option<Json>, d: Json): (r: Json)
    ensures !Nullish(v) ==> r == v.value
    ensures Nullish(v) ==> r == d
  {
    if Nullish(v) then d else v.value
  }

  function DigitChar(d: int): char
    requires 0 <= d < 10
  {
    "0123456789"[d]
  }

  /** The decimal digits of a natural number, without leading zeros. */
  function NatDecimal(n: nat): (r: string)
    ensures |r| > 0
    ensures forall i :: 0 <= i < |r| ==> '0' <= r[i] <= '9'
    ensures r[0] == '0' ==> n == 0
  {
    if n < 10 then [DigitChar(n)] else NatDecimal(n / 10) + [DigitChar(n % 10)]
  }

  /** `String(n)` for an integer. */
  function IntDecimal(n: int): string {
    if n < 0 then "-" + NatDecimal(-n) else NatDecimal(n)
  }

  /** `String(v)`: arrays join their elements with commas (null as the
      empty string), objects print as "[object Object]". */
  function ToJsString(v: Json): string
    decreases v, 1
  {
    match v
    case Null => "null"
    case Bool(b) => if b then "true" else "false"
    case Num(n) => IntDecimal(n)
    case Str(s) => s
    case Arr(items) => JoinItems(v, items)
    case Obj(_) => "[object Object]"
  }

  function JoinItems(parent: Json, items: seq<Json>): string
    requires forall x :: x in items ==> x < parent
    decreases parent, 0, |items|
  {
    if items == [] then ""
    else
      assert items[0] in items;
      assert forall x :: x in items[1..] ==> x in items;
      var first := if items[0] == Null then "" else ToJsString(items[0]);
      if |items| == 1 then first else first + "," + JoinItems(parent, items[1..])
  }
}

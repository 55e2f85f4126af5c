/** JSON values as JavaScript holds them after `JSON.parse`, and the three JavaScript operations the
    server applies to them: truthiness, reading a property of a value that may be absent, and
    conversion to a string (`String(x)`, `${x}`, `new Error(x).message`). */
module JsonValues {
  import opened Wrappers

  /** A parsed JSON value. Numbers are integers; fractional numbers are not modelled. Object key
      order is not kept. */
  datatype Json =
    | JNull
    | JBool(b: bool)
    | JNumber(n: int)
    | JString(s: string)
    | JArray(items: seq<Json>)
    | JObject(fields: map<string, Json>)

  /** JavaScript truthiness of a JSON value: `null`, `false`, `0` and `""` are falsy. */
  predicate Truthy(j: Json) {
    match j
    case JNull => false
    case JBool(b) => b
    case JNumber(n) => n != 0
    case JString(s) => s != ""
    case JArray(_) => true
    case JObject(_) => true
  }

  /** Truthiness of a value that may be `undefined`. */
  predicate Present(v: Option<Json>) {
    v.Some? && Truthy(v.value)
  }

  /** `(x || {})[key]`: reading a named property of a request body that may be absent or falsy.
      Only objects carry the named properties the server reads; arrays and primitives have none. */
  function Prop(x: Option<Json>, key: string): Option<Json> {
    if x.Some? && x.value.JObject? && key in x.value.fields then Some(x.value.fields[key]) else None
  }

  /** The decimal digits of `n`, as JavaScript prints a non-negative integer. */
  function NatToDecimal(n: nat): (r: string)
    ensures |r| >= 1 && IsDecimal(r)
    ensures |r| > 1 || n > 0 ==> r[0] != '0'
  {
    if n < 10 then [Digit(n)] else NatToDecimal(n / 10) + [Digit(n % 10)]
  }

  function Digit(d: nat): char
    requires d < 10
  {
    "0123456789"[d]
  }

  predicate IsDecimal(s: string) {
    forall k :: 0 <= k < |s| ==> '0' <= s[k] <= '9'
  }

  /** The number that a string of decimal digits denotes. */
  function DecimalValue(s: string): nat
    requires IsDecimal(s)
  {
    if s == [] then 0 else 10 * DecimalValue(s[..|s| - 1]) + (s[|s| - 1] as int - '0' as int)
  }

  /** Printing a number and reading it back gives the number. */
  lemma {:induction false} DecimalRoundTrip(n: nat)
    ensures DecimalValue(NatToDecimal(n)) == n
  {
    var r := NatToDecimal(n);
    if n >= 10 {
      DecimalRoundTrip(n / 10);
      assert r[..|r| - 1] == NatToDecimal(n / 10);
    }
  }

  /** `String(n)` for an integer: a minus sign before the digits of a negative number. */
  function NumberToString(n: int): (r: string)
    ensures n >= 0 ==> |r| >= 1 && IsDecimal(r) && DecimalValue(r) == n && (|r| > 1 ==> r[0] != '0')
    ensures n == 0 ==> r == "0"
    ensures n < 0 ==> |r| > 1 && r[0] == '-' && r[1] != '0' && IsDecimal(r[1..]) && DecimalValue(r[1..]) == -n
  {
    if n < 0 then
      DecimalRoundTrip(-n);
      assert ("-" + NatToDecimal(-n))[1..] == NatToDecimal(-n);
      "-" + NatToDecimal(-n)
    else
      DecimalRoundTrip(n);
      NatToDecimal(n)
  }

  /** The message of the TypeError that converting an object to a string throws when the object has
      its own `toString` property: a parsed value is never callable, so the conversion falls back to
      `valueOf`, which gives back the object itself. */
  const NoPrimitiveValue: string := "Cannot convert object to primitive value"

  /** The outcome of converting a value to a string: its text, or the message of the error thrown. */
  datatype Conversion = Converted(text: string) | ConversionError(message: string)

  /** `String(j)` (also a template-literal substitution and the argument of `new Error`). */
  function ToJsString(j: Json): (r: Conversion)
    ensures j.JNull? ==> r == Converted("null")
    ensures j.JBool? ==> r == Converted(if j.b then "true" else "false")
    ensures j.JNumber? ==> r == Converted(NumberToString(j.n))
    ensures j.JString? ==> r == Converted(j.s)
    ensures j.JObject? && "toString" in j.fields ==> r == ConversionError(NoPrimitiveValue)
    ensures j.JObject? && "toString" !in j.fields ==> r == Converted("[object Object]")
    ensures j.JArray? ==> r == JoinElements(j.items, 0)
    decreases j, 1, 0
  {
    match j
    case JNull => Converted("null")
    case JBool(b) => Converted(if b then "true" else "false")
    case JNumber(n) => Converted(NumberToString(n))
    case JString(s) => Converted(s)
    case JArray(items) => JoinElements(items, 0)
    case JObject(fields) =>
      if "toString" in fields then ConversionError(NoPrimitiveValue) else Converted("[object Object]")
  }

  /** How `Array.prototype.join` converts one element: `null` becomes the empty string. */
  function ElementString(e: Json): Conversion
    decreases e, 2, 0
  {
    if e == JNull then Converted("") else ToJsString(e)
  }

  /** `items[i..].join(",")`, converting the elements from left to right; the first element whose
      conversion throws makes the whole join throw. */
  function JoinElements(items: seq<Json>, i: nat): Conversion
    requires i <= |items|
    decreases JArray(items), 0, |items| - i
  {
    if i == |items| then Converted("")
    else
      var e := ElementString(items[i]);
      if e.ConversionError? || i + 1 == |items| then e
      else
        var rest := JoinElements(items, i + 1);
        if rest.ConversionError? then rest else Converted(e.text + "," + rest.text)
  }

  /** Joining fails exactly when converting one of the elements fails; otherwise an empty array gives
      the empty string, one element gives its own string, and several are separated by commas. */
  lemma {:induction false} JoinElementsCases(items: seq<Json>, i: nat)
    requires i <= |items|
    ensures JoinElements(items, i).ConversionError? <==>
      exists k :: i <= k < |items| && ElementString(items[k]).ConversionError?
    ensures i == |items| ==> JoinElements(items, i) == Converted("")
    ensures i + 1 == |items| ==> JoinElements(items, i) == ElementString(items[i])
    ensures i + 1 < |items| && JoinElements(items, i).Converted? ==>
      JoinElements(items, i).text ==
        ElementString(items[i]).text + "," + JoinElements(items, i + 1).text
    decreases |items| - i
  {
    if i < |items| {
      var e := ElementString(items[i]);
      if e.ConversionError? {
        assert JoinElements(items, i) == e;
      } else if i + 1 < |items| {
        JoinElementsCases(items, i + 1);
        if exists k :: i <= k < |items| && ElementString(items[k]).ConversionError? {
          var k :| i <= k < |items| && ElementString(items[k]).ConversionError?;
          assert i + 1 <= k;
        }
      }
    }
  }
}

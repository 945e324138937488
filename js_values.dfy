/** The JavaScript values a JSON request body can hold, and the few
    language operations the handler applies to them: truthiness (`!code`),
    conversion to text of a value interpolated into a template literal, and the value
    a `catch` clause receives. */
module JsValues {

  /** A value produced by `JSON.parse`. Numbers are modelled as integers. */
  datatype Json =
    | JNull
    | JBool(b: bool)
    | JNumber(n: int)
    | JString(s: string)
    | JArray(elems: seq<Json>)
    | JObject(fields: map<string, Json>)

  /** What a `catch` clause can receive: an `Error` object, whose `message`
      the handler reports, or any other thrown value. */
  datatype Thrown = ErrorObject(message: string) | NonErrorValue

  /** The result of evaluating a call that may throw. */
  datatype Completion<+T> = Returned(value: T) | Threw(thrown: Thrown)

  /** JavaScript truthiness of a JSON value. `undefined` (an absent
      property) is falsy too; see `Requests.Request.HasCode`. */
  predicate Truthy(v: Json) {
    match v
    case JNull => false
    case JBool(b) => b
    case JNumber(n) => n != 0
    case JString(s) => s != ""
    case JArray(_) => true
    case JObject(_) => true
  }

  /** The text of a decimal digit. */
  function Digit(d: nat): (c: char)
    requires d < 10
    ensures '0' <= c <= '9'
    ensures c as int - '0' as int == d
  {
    "0123456789"[d]
  }

  /** Plain decimal notation of a natural number, most significant digit first. */
  function NatToString(n: nat): (r: string)
    ensures |r| > 0
    ensures forall i :: 0 <= i < |r| ==> '0' <= r[i] <= '9'
  {
    if n < 10 then [Digit(n)] else NatToString(n / 10) + [Digit(n % 10)]
  }

  /** `String(n)` for an integer: an optional minus sign, then the digits. */
  function IntToString(n: int): (r: string)
    ensures |r| > 0
    ensures forall i :: 0 <= i < |r| ==> r[i] == '-' || '0' <= r[i] <= '9'
    ensures forall i :: 0 < i < |r| ==> r[i] != '-'
    ensures (n < 0) <==> r[0] == '-'
  {
    if n < 0 then "-" + NatToString(-n) else NatToString(n)
  }

  /** The value of a decimal digit; any other character reads as 0. */
  function DigitValue(c: char): (d: nat)
    ensures '0' <= c <= '9' ==> d == c as int - '0' as int
  {
    if '0' <= c <= '9' then c as int - '0' as int else 0
  }

  /** The value of a run of decimal digits (the partner of `NatToString`). */
  function ParseNat(s: string): nat {
    if s == [] then 0
    else ParseNat(s[..|s| - 1]) * 10 + DigitValue(s[|s| - 1])
  }

  /** The value of an optional minus sign followed by decimal digits. */
  function ParseInt(s: string): int {
    if s != [] && s[0] == '-' then 0 - ParseNat(s[1..]) as int else ParseNat(s)
  }

  /** Reading back what `NatToString` printed yields the number. */
  lemma {:induction false} NatToStringRoundTrip(n: nat)
    ensures ParseNat(NatToString(n)) == n
  {
    if n >= 10 {
      var s := NatToString(n);
      assert s[..|s| - 1] == NatToString(n / 10);
      NatToStringRoundTrip(n / 10);
    }
  }

  /** Reading back a minus sign and the decimal text of `m` gives `-m`. */
  lemma NegativeRead(m: nat)
    ensures ParseInt("-" + NatToString(m)) == 0 - m
  {
    MinusRead(NatToString(m));
    NatToStringRoundTrip(m);
  }

  /** A leading minus sign negates the value of what follows it. */
  lemma MinusRead(d: string)
    ensures ParseInt("-" + d) == 0 - ParseNat(d) as int
  {
    assert ("-" + d)[1..] == d;
  }

  /** Reading back what `IntToString` printed yields the number. */
  lemma IntToStringRoundTrip(n: int)
    ensures ParseInt(IntToString(n)) == n
  {
    if n < 0 {
      NegativeRead(-n);
    } else {
      NatToStringRoundTrip(n);
    }
  }

  /** V8's TypeError when an object has no usable conversion to text. */
  const NoPrimitiveMessage: string := "Cannot convert object to primitive value"

  /** `String(v)` as a template literal applies it: `null` and booleans by
      name, numbers in decimal, strings verbatim, arrays as their elements
      joined by commas (with `null` elements empty), plain objects as
      "[object Object]". A parsed object that has its own `toString` key
      holds a non-callable value there, and its inherited `valueOf` returns
      the object itself, so the conversion throws a TypeError; inside an
      array the same happens through `join`. */
  function ToStr(v: Json): (r: Completion<string>)
    ensures r.Threw? ==> r.thrown == ErrorObject(NoPrimitiveMessage)
  {
    match v
    case JNull => Returned("null")
    case JBool(b) => Returned(if b then "true" else "false")
    case JNumber(n) => Returned(IntToString(n))
    case JString(s) => Returned(s)
    case JArray(es) => JoinElements(es)
    case JObject(fields) =>
      if "toString" in fields then Threw(ErrorObject(NoPrimitiveMessage)) else Returned("[object Object]")
  }

  /** `Array.prototype.join(",")` over the elements of an array, converting
      them left to right and stopping at the first that throws. */
  function JoinElements(es: seq<Json>): (r: Completion<string>)
    ensures r.Threw? ==> r.thrown == ErrorObject(NoPrimitiveMessage)
  {
    if es == [] then Returned("")
    else
      var head := if es[0].JNull? then Returned("") else ToStr(es[0]);
      if head.Threw? || |es| == 1 then head
      else
        match JoinElements(es[1..])
        case Threw(e) => Threw(e)
        case Returned(rest) => Returned(head.value + "," + rest)
  }

  /** The values `String(v)` converts without throwing: every value but an
      object with its own `toString` key, or an array holding one at any
      depth. */
  predicate Printable(v: Json) {
    match v
    case JArray(es) => forall i :: 0 <= i < |es| ==> Printable(es[i])
    case JObject(fields) => "toString" !in fields
    case _ => true
  }

  /** `String(v)` throws exactly for the values that are not printable, and
      a number converts to its decimal text. */
  lemma {:induction false} ToStrThrowsIff(v: Json)
    ensures ToStr(v).Threw? <==> !Printable(v)
    ensures v.JNumber? ==> ToStr(v) == Returned(IntToString(v.n))
    ensures v.JString? ==> ToStr(v) == Returned(v.s)
  {
    if v.JArray? {
      JoinThrowsIff(v.elems);
    }
  }

  /** `join` throws exactly when some element is not printable. */
  lemma {:induction false} JoinThrowsIff(es: seq<Json>)
    ensures JoinElements(es).Threw? <==> exists i :: 0 <= i < |es| && !Printable(es[i])
    decreases es, 0
  {
    if es != [] {
      if !es[0].JNull? {
        ToStrThrowsIff(es[0]);
      }
      if |es| > 1 {
        JoinThrowsIff(es[1..]);
        if exists i :: 0 <= i < |es| - 1 && !Printable(es[1..][i]) {
          var i :| 0 <= i < |es| - 1 && !Printable(es[1..][i]);
          assert es[i + 1] == es[1..][i];
        }
        if exists i :: 0 <= i < |es| && !Printable(es[i]) {
          var i :| 0 <= i < |es| && !Printable(es[i]);
          if i > 0 {
            assert es[1..][i - 1] == es[i];
          }
        }
      }
    }
  }

  /** The text the handler reports for a caught value. */
  function ErrorText(e: Thrown): string
  {
    match e
    case ErrorObject(m) => m
    case NonErrorValue => "Render failed"
  }
}

/** JavaScript values as the server handles them: request queries and bodies,
    response templates, generated mock data and response bodies. Numbers are
    integers; objects keep their keys but not their key order. */
module Json {
  import opened Common
  import opened Text

  datatype Value =
    | Undefined
    | Null
    | Bool(b: bool)
    | Num(n: int)
    | Str(s: string)
    | Arr(items: seq<Value>)
    | Obj(fields: map<string, Value>)

  /** JavaScript truthiness. */
  predicate Truthy(v: Value) {
    match v
    case Undefined => false
    case Null => false
    case Bool(b) => b
    case Num(n) => n != 0
    case Str(s) => s != ""
    case Arr(_) => true
    case Obj(_) => true
  }

  /** `String(v)`: the string a regular-expression test or a template literal
      sees. Array elements that are null or undefined print as nothing. */
  function JsString(v: Value): string
    decreases v, 1
  {
    match v
    case Undefined => "undefined"
    case Null => "null"
    case Bool(b) => if b then "true" else "false"
    case Num(n) => if n < 0 then "-" + NatToString(-n) else NatToString(n)
    case Str(s) => s
    case Arr(items) => JoinItems(v, items)
    case Obj(_) => "[object Object]"
  }

  function JoinItems(ghost whole: Value, items: seq<Value>): string
    requires forall k :: 0 <= k < |items| ==> items[k] < whole
    decreases whole, 0, |items|
  {
    if items == [] then ""
    else
      var head := if items[0].Null? || items[0].Undefined? then "" else JsString(items[0]);
      if |items| == 1 then head else head + "," + JoinItems(whole, items[1..])
  }

  /** The string of a number is a digit string exactly when it is not negative. */
  lemma NumStringDigits(n: int)
    ensures IsDigits(JsString(Num(n))) <==> n >= 0
  {
    if n < 0 {
      assert JsString(Num(n))[0] == '-';
    }
  }

  /** `/^\d+$/.test(v)`. */
  predicate IsDigitValue(v: Value) {
    IsDigits(JsString(v))
  }

  /** What the response-template getter does to one code value: a truthy value
      whose string is all digits becomes `parseInt` of it; anything else stays. */
  function NormaliseCode(c: Value): (r: Value)
    ensures r == c || (IsDigitValue(c) && r.Num? && r.n >= 0)
  {
    if Truthy(c) && IsDigitValue(c) then Num(ParseDigits(JsString(c))) else c
  }

  /** An integer code is left as it is. */
  lemma NormaliseKeepsNumbers(n: int)
    ensures NormaliseCode(Num(n)) == Num(n)
  {
    NumStringDigits(n);
    if n > 0 {
      ParseNatToString(n);
    }
  }

  /** A digit string becomes its integer value (`"007"` becomes 7). */
  lemma NormaliseDigitString(s: string)
    requires IsDigits(s)
    ensures NormaliseCode(Str(s)) == Num(ParseDigits(s))
  {
  }

  /** Any value whose string is not all digits is left as it is. */
  lemma NormaliseKeepsNonDigits(c: Value)
    requires !IsDigitValue(c)
    ensures NormaliseCode(c) == c
  {
  }

  /** Applying the getter twice gives the same value as applying it once. */
  lemma NormaliseIdempotent(c: Value)
    ensures NormaliseCode(NormaliseCode(c)) == NormaliseCode(c)
  {
    var r := NormaliseCode(c);
    if r.Num? {
      NormaliseKeepsNumbers(r.n);
    }
  }

  /** How the exported document writes a code value: bare when its string is
      all digits, in double quotes otherwise. */
  function RenderCode(v: Value): string {
    if IsDigitValue(v) then JsString(v) else "\"" + JsString(v) + "\""
  }

  /** A rendered code starts with a quote exactly when its string is not all
      digits, and between the quotes stands that string. */
  lemma RenderCodeQuoted(v: Value)
    ensures RenderCode(v) != [] && (RenderCode(v)[0] == '"' <==> !IsDigitValue(v))
    ensures !IsDigitValue(v) ==> RenderCode(v)[1..|RenderCode(v)| - 1] == JsString(v)
  {
  }

  /** An integer code that is not negative is written bare. */
  lemma RenderCodeOfInteger(n: nat)
    ensures RenderCode(Num(n)) == NatToString(n)
  {
  }

  /** The rendered code of the getter's output for a digit string is the
      decimal integer, without its leading zeros. */
  lemma RenderNormalisedDigits(s: string)
    requires IsDigits(s)
    ensures RenderCode(NormaliseCode(Str(s))) == NatToString(ParseDigits(s))
  {
  }

  /** `Number(s)` for decimal integers: white space around the number is
      ignored, a blank string is 0, a sign may precede the digits; any other
      string is read as NaN (`None`). */
  function NumberOf(s: string): (r: Option<int>)
  {
    NumberOfTrimmed(Trim(s))
  }

  /** `Number` on a string already stripped of its white space. */
  function NumberOfTrimmed(t: string): (r: Option<int>)
  {
    if t == "" then Some(0)
    else if t[0] == '-' && IsDigits(t[1..]) then Some(0 - ParseDigits(t[1..]))
    else if t[0] == '+' && IsDigits(t[1..]) then Some(ParseDigits(t[1..]))
    else if IsDigits(t) then Some(ParseDigits(t))
    else None
  }

  /** A decimal rendering reads back as its number, with or without a
      minus sign. */
  lemma NumberOfDecimal(n: nat)
    ensures NumberOf(NatToString(n)) == Some(n)
    ensures n > 0 ==> NumberOf("-" + NatToString(n)) == Some(0 - n)
  {
    ParseNatToString(n);
    NumberOfDigits(NatToString(n), n);
  }

  /** A digit string reads as its value, and with a minus sign before it as
      the negated value. */
  lemma NumberOfDigits(s: string, n: int)
    requires IsDigits(s) && ParseDigits(s) == n
    ensures NumberOf(s) == Some(n)
    ensures NumberOf("-" + s) == Some(0 - n)
  {
    assert IsDigit(s[0]) && IsDigit(s[|s| - 1]);
    TrimOfTrimmed(s);
    NegatedIsTrimmed(s);
    NumberOfSigned(s, n);
  }

  lemma NegatedIsTrimmed(s: string)
    requires IsDigits(s)
    ensures Trim("-" + s) == "-" + s
  {
    var m := "-" + s;
    assert m[0] == '-' && IsDigit(m[|m| - 1]);
    TrimOfTrimmed(m);
  }

  lemma NumberOfSigned(s: string, n: int)
    requires IsDigits(s) && ParseDigits(s) == n
    ensures NumberOfTrimmed("-" + s) == Some(0 - n)
  {
    var m := "-" + s;
    assert m[0] == '-' && m[1..] == s;
  }
}

/** The JavaScript values that flow through the client: response bodies, query-parameter
    values and entity fields, together with the few language rules the code relies on —
    truthiness, property reads, `||`, `String(v)` and `Array.prototype.join`. */
module Js {
  import opened Wrappers
  import opened Strings

  /** A JavaScript value. Numbers are integers or `NaN`; non-integral numbers are not modelled. */
  datatype Value =
    | Undefined
    | Null
    | Bool(b: bool)
    | Num(n: int)
    | NaN
    | Str(s: string)
    | Arr(items: seq<Value>)
    | Obj(fields: map<string, Value>)

  /** `undefined` or `null`: the values `?.`, `??` and the query builder treat as absent. */
  predicate Nullish(v: Value) {
    v.Undefined? || v.Null?
  }

  /** JavaScript truthiness: `undefined`, `null`, `false`, `0`, `NaN` and `""` are falsy. */
  predicate Truthy(v: Value) {
    match v
    case Undefined => false
    case Null => false
    case Bool(b) => b
    case Num(n) => n != 0
    case NaN => false
    case Str(s) => s != ""
    case Arr(_) => true
    case Obj(_) => true
  }

  /** `a || b`. */
  function Or(a: Value, b: Value): (r: Value)
    ensures Truthy(a) ==> r == a
    ensures !Truthy(a) ==> r == b
  {
    if Truthy(a) then a else b
  }

  /** `v.key`: the property of an object, `undefined` for a missing one or for a primitive,
      and a `TypeError` (written `None`) when `v` is `null` or `undefined`. */
  function Get(v: Value, key: string): (r: Option<Value>)
    ensures r.None? <==> Nullish(v)
    ensures v.Obj? && key !in v.fields ==> r == Some(Undefined)
  {
    match v
    case Undefined => None
    case Null => None
    case Obj(f) => Some(if key in f then f[key] else Undefined)
    case _ => Some(Undefined)
  }

  /** `v?.key`: like `Get`, but `undefined` instead of a `TypeError`. */
  function GetOpt(v: Value, key: string): (r: Value)
    ensures Nullish(v) ==> r == Undefined
    ensures !Nullish(v) ==> Some(r) == Get(v, key)
  {
    if Nullish(v) then Undefined else Get(v, key).value
  }

  /** `String(v)`, which is also what template literals and `toString` produce. Array
      elements that are `null` or `undefined` print as the empty string. */
  function ToStr(v: Value): string
    decreases v, 2
  {
    match v
    case Undefined => "undefined"
    case Null => "null"
    case Bool(b) => if b then "true" else "false"
    case Num(n) => IntToString(n)
    case NaN => "NaN"
    case Str(s) => s
    case Arr(items) => Join(ElementTexts(items), ",")
    case Obj(_) => "[object Object]"
  }

  /** The text `join` uses for each element, in order. */
  function ElementTexts(items: seq<Value>): (r: seq<string>)
    ensures |r| == |items|
    ensures forall i :: 0 <= i < |items| ==> r[i] == ElementText(items[i])
    decreases Arr(items), 1
  {
    seq(|items|, i requires 0 <= i < |items| => assert items[i] < Arr(items); ElementText(items[i]))
  }

  /** The text of one array element: empty for `null` and `undefined`. */
  function ElementText(v: Value): string
    decreases v, 3
  {
    if Nullish(v) then "" else ToStr(v)
  }

  /** `items.join(sep)`. */
  function JoinValues(items: seq<Value>, sep: string): (r: string)
    ensures |items| == 0 ==> r == ""
  {
    Join(ElementTexts(items), sep)
  }

  /** Strings print as themselves, so joining a string array and joining its texts agree. */
  lemma JoinStrings(ss: seq<string>, sep: string)
    ensures JoinValues(StrValues(ss), sep) == Join(ss, sep)
  {
    var texts := ElementTexts(StrValues(ss));
    forall i | 0 <= i < |ss|
      ensures texts[i] == ss[i]
    {
      assert StrValues(ss)[i] == Str(ss[i]);
      assert ElementText(Str(ss[i])) == ToStr(Str(ss[i])) == ss[i];
    }
    assert texts == ss;
  }

  /** A string array as a JavaScript array value. */
  function StrValues(ss: seq<string>): (r: seq<Value>)
    ensures |r| == |ss| && forall i :: 0 <= i < |ss| ==> r[i] == Str(ss[i])
  {
    seq(|ss|, i requires 0 <= i < |ss| => Str(ss[i]))
  }

  /** Printing an integer and reading it back with `parseInt` gives the same integer, so
      integer-valued parameters survive the trip through the query string. */
  lemma NumToStrRoundTrip(n: int)
    ensures ParseInt(ToStr(Num(n))) == Some(n)
  {
    ParseIntOfIntToString(n);
  }

  /** `Number(v)` for the values the model holds: strings are read as optionally signed
      decimal integers after trimming (the empty string is `0`); arrays and objects, whose
      conversion goes through their printed form, count as `NaN`. */
  function ToNumber(v: Value): (r: Value)
    ensures r.Num? || r.NaN?
    ensures v.Num? ==> r == v
  {
    match v
    case Undefined => NaN
    case Null => Num(0)
    case Bool(b) => Num(if b then 1 else 0)
    case Num(n) => Num(n)
    case NaN => NaN
    case Str(s) =>
      var t := Trim(s);
      var neg := |t| > 0 && t[0] == '-';
      var body := if |t| > 0 && (t[0] == '-' || t[0] == '+') then t[1..] else t;
      if t == "" then Num(0)
      else if |body| > 0 && AllDigits(body) then
        var n: int := DigitsValue(body);
        Num(if neg then -n else n)
      else NaN
    case Arr(_) => NaN
    case Obj(_) => NaN
  }

  /** A printed integer has no white space at either end, so trimming keeps it whole. */
  lemma TrimPrinted(n: int)
    ensures Trim(IntToString(n)) == IntToString(n)
  {
    var s := IntToString(n);
    DigitNotWhite(s[|s| - 1]);
    if n >= 0 {
      DigitNotWhite(s[0]);
    }
    TrimNoWhite(s);
  }

  /** A printed integer converts back to itself. */
  lemma ToNumberOfPrinted(n: int)
    ensures ToNumber(Str(IntToString(n))) == Num(n)
  {
    TrimPrinted(n);
    if n < 0 {
      NegativePrinted(n);
    } else {
      NonNegativePrinted(n);
    }
  }

  lemma NegativePrinted(n: int)
    requires n < 0 && Trim(IntToString(n)) == IntToString(n)
    ensures ToNumber(Str(IntToString(n))) == Num(n)
  {
    var s := IntToString(n);
    NatToStringRoundTrip(-n);
    assert s[0] == '-' && s[1..] == NatToString(-n);
  }

  lemma NonNegativePrinted(n: int)
    requires n >= 0 && Trim(IntToString(n)) == IntToString(n)
    ensures ToNumber(Str(IntToString(n))) == Num(n)
  {
    var s := IntToString(n);
    NatToStringRoundTrip(n);
    assert s == NatToString(n);
    assert s[0] != '-' && s[0] != '+';
  }
}

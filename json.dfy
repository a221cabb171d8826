/** gson's JSON tree, reduced to what the loot-function serialisers read and write. */
module Json {
  import opened Wrappers

  datatype Json =
    | JObject(fields: map<string, Json>)
    | JArray(elements: seq<Json>)
    | JString(str: string)
    | JNumber(num: int)
    | JBool(b: bool)
    | JNull

  /** The decimal digits of a natural number, most significant first. */
  function DigitsOf(n: nat): (r: string)
    ensures |r| > 0 && forall i :: 0 <= i < |r| ==> '0' <= r[i] <= '9'
    decreases n
  {
    if n < 10 then [('0' as int + n) as char] else DigitsOf(n / 10) + [('0' as int + n % 10) as char]
  }

  /** The value of a string of decimal digits. */
  function ValueOf(digits: string): int
    decreases |digits|
  {
    if digits == [] then 0
    else 10 * ValueOf(digits[..|digits| - 1]) + (digits[|digits| - 1] as int - '0' as int)
  }

  /** Reading the digits back gives the number. */
  lemma {:induction false} ValueOfDigits(n: nat)
    ensures ValueOf(DigitsOf(n)) == n
    decreases n
  {
    if n >= 10 {
      ValueOfDigits(n / 10);
      var d := DigitsOf(n);
      assert d[..|d| - 1] == DigitsOf(n / 10);
    }
  }

  /** JsonPrimitive.getAsString of a number: its decimal text, with a leading minus when negative. */
  function NumberText(num: int): string {
    if num < 0 then "-" + DigitsOf(-num) else DigitsOf(num)
  }

  /** The value of a number's text: an optional minus, then decimal digits. */
  function ParseNumber(text: string): int {
    if |text| > 0 && text[0] == '-' then -ValueOf(text[1..]) else ValueOf(text)
  }

  /** A number's text reads back as the number. */
  lemma NumberTextParses(num: int)
    ensures ParseNumber(NumberText(num)) == num
  {
    if num < 0 {
      ValueOfDigits(-num);
      assert NumberText(num)[1..] == DigitsOf(-num);
    } else {
      ValueOfDigits(num);
    }
  }

  /**
   * JsonUtils.getString(element, what): the text of any JSON primitive (a string, a number, a
   * boolean), otherwise (null, an array or an object) a JsonSyntaxException.
   */
  function GetString(element: Json): (r: Result<string>)
    ensures r.Ok? <==> element.JString? || element.JNumber? || element.JBool?
    ensures element.JString? ==> r == Ok(element.str)
    ensures element.JBool? ==> r == Ok(if element.b then "true" else "false")
    ensures element.JNumber? ==> r.Ok? && ParseNumber(r.value) == element.num
  {
    match element
    case JString(str) => Ok(str)
    case JNumber(num) => NumberTextParses(num); Ok(NumberText(num))
    case JBool(b) => Ok(if b then "true" else "false")
    case _ => Err(JsonSyntax)
  }

  /** A list of names as JSON string primitives, in order; each reads back as its name. */
  function Strings(names: seq<string>): (r: seq<Json>)
    ensures |r| == |names|
    ensures forall i :: 0 <= i < |names| ==> r[i] == JString(names[i]) && GetString(r[i]) == Ok(names[i])
  {
    seq(|names|, i requires 0 <= i < |names| => JString(names[i]))
  }

  /** JsonUtils.getJsonArray(json, key): the array stored under key, otherwise a JsonSyntaxException. */
  function GetArray(fields: map<string, Json>, key: string): (r: Result<seq<Json>>)
    ensures r.Ok? <==> key in fields && fields[key].JArray?
    ensures r.Ok? ==> r.value == fields[key].elements
  {
    if key in fields && fields[key].JArray? then Ok(fields[key].elements) else Err(JsonSyntax)
  }
}

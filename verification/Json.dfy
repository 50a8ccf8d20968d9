/** JSON values as Go decodes them into `any`, and the accessors the gateway reads them with. */
module Json {
  import opened Wrappers
  import opened Text

  datatype Json =
    | Null
    | Bool(b: bool)
    | Num(n: int)
    | Str(s: string)
    | Arr(items: seq<Json>)
    | Obj(fields: map<string, Json>)

  /** `mapValue(value)[key]`: an absent key, or a value that is no object, reads as null. */
  function Field(value: Json, key: string): Json {
    if value.Obj? && key in value.fields then value.fields[key] else Null
  }

  /** `mapValue`: anything but an object counts as no value. */
  function MapValue(value: Json): Json {
    if value.Obj? then value else Null
  }

  function Items(value: Json): seq<Json> {
    if value.Arr? then value.items else []
  }

  /** `stringValue`: the trimmed text of a string, the empty string for anything else. */
  function StringValue(value: Json): string {
    if value.Str? then Trim(value.s) else ""
  }

  /** `firstStringValue` for two keys. */
  function FirstString(value: Json, key1: string, key2: string): string {
    var text := StringValue(Field(value, key1));
    if text != "" then text else StringValue(Field(value, key2))
  }

  const MIN_INT64 := -0x8000_0000_0000_0000
  const MAX_INT64 := 0x7fff_ffff_ffff_ffff

  predicate IsDigit(c: char) {
    '0' <= c <= '9'
  }

  function DigitsValue(s: string): int {
    if s == "" then 0
    else 10 * DigitsValue(s[..|s| - 1]) + (if IsDigit(s[|s| - 1]) then s[|s| - 1] as int - '0' as int else 0)
  }

  /** `strconv.ParseInt(s, 10, 64)` with its error ignored: 0 on bad syntax, clamped when out of range. */
  function ParseInt64(s: string): int {
    var signed := s != "" && (s[0] == '-' || s[0] == '+');
    var digits := if signed then s[1..] else s;
    if digits == "" || exists i :: 0 <= i < |digits| && !IsDigit(digits[i]) then 0
    else
      var v := if signed && s[0] == '-' then -DigitsValue(digits) else DigitsValue(digits);
      if v < MIN_INT64 then MIN_INT64 else if v > MAX_INT64 then MAX_INT64 else v
  }

  /** `int64Value`. */
  function IntValue(value: Json): int {
    match value
    case Num(n) => n
    case Str(s) => ParseInt64(Trim(s))
    case _ => 0
  }

  /** `fmt.Sprintf("%d", n)`. */
  function Decimal(n: int): (s: string)
    ensures s != "" && forall i :: 0 <= i < |s| ==> IsDigit(s[i]) || s[i] == '-'
    decreases n < 0, if n < 0 then -n else n
  {
    if n < 0 then "-" + Decimal(-n)
    else if n < 10 then [('0' as int + n) as char]
    else Decimal(n / 10) + [('0' as int + n % 10) as char]
  }

  /**
   * JSON text, taken as a reversible map: an object is encoded on one line between braces and
   * decodes to itself. `decode` answers None for text that is not JSON.
   */
  datatype Codec = Codec(encode: Json -> string, decode: string -> Option<Json>)

  ghost predicate ValidCodec(c: Codec) {
    forall j: Json {:trigger c.encode(j)} :: j.Obj? ==>
      && |c.encode(j)| >= 2 && c.encode(j)[0] == '{' && c.encode(j)[|c.encode(j)| - 1] == '}'
      && '\n' !in c.encode(j)
      && c.decode(c.encode(j)) == Some(j)
  }

  lemma EncodedIsMessage(c: Codec, j: Json)
    requires ValidCodec(c) && j.Obj?
    ensures Trim(c.encode(j)) == c.encode(j) && !Blank(c.encode(j))
    ensures c.encode(j) != "[DONE]" && '\n' !in c.encode(j)
    ensures c.decode(c.encode(j)) == Some(j)
  {
    var e := c.encode(j);
    TrimFixed(e);
    assert "[DONE]"[0] != e[0];
  }
}

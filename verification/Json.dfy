/** JSON values and a reader for RFC 8259 sections 2 to 7. */
module Json {
  import opened Wrappers
  import opened Decimals
  import opened GoFloat

  datatype Json<N> =
    | Null
    | Bool(b: bool)
    | Number(n: N)
    | String(text: string)
    | Array(items: seq<Json<N>>)
    | Object(fields: seq<(string, Json<N>)>)

  /** A number as serde_json holds it: its integer reading, and its float64 reading. */
  datatype JsonNumber = JsonNumber(index: Option<int>, float: Option<Float64>)

  type Value = Json<JsonNumber>

  datatype Gate = Gate(kind: string, params: Value)

  // ---------------------------------------------------------------------
  // Strings: RFC 8259 section 7
  // ---------------------------------------------------------------------

  predicate IsHex(c: char) {
    IsDigit(c) || 'a' <= c <= 'f' || 'A' <= c <= 'F'
  }

  function HexOf(c: char): (h: nat)
    requires IsHex(c)
    ensures h < 16
  {
    if IsDigit(c) then DigitOf(c)
    else if 'a' <= c <= 'f' then 10 + (c as int - 'a' as int)
    else 10 + (c as int - 'A' as int)
  }

  function ReadHex4(s: string): (r: Read<nat>)
    ensures r.Got? ==> r.value < 0x10000 && |r.rest| < |s|
  {
    if |s| >= 4 && IsHex(s[0]) && IsHex(s[1]) && IsHex(s[2]) && IsHex(s[3]) then
      Got(0x1000 * HexOf(s[0]) + 0x100 * HexOf(s[1]) + 0x10 * HexOf(s[2]) + HexOf(s[3]), s[4..])
    else
      Fail
  }

  /** The four hexadecimal digits after `\u`; two of them for a surrogate pair. */
  function ReadUnicode(s: string): (r: Read<char>)
    ensures r.Got? ==> |r.rest| < |s|
  {
    match ReadHex4(s)
    case Fail => Fail
    case Got(unit, rest) =>
      if unit < 0xD800 || 0xE000 <= unit then
        Got(unit as char, rest)
      else if unit < 0xDC00 && |rest| >= 2 && rest[0] == '\\' && rest[1] == 'u' then
        match ReadHex4(rest[2..])
        case Fail => Fail
        case Got(low, after) =>
          if 0xDC00 <= low < 0xE000
          then Got((0x10000 + 0x400 * (unit - 0xD800) + (low - 0xDC00)) as char, after)
          else Fail
      else
        Fail
  }

  /** One character inside a string, escaped or not. */
  function ReadChar(s: string): (r: Read<char>)
    requires s != ""
    ensures r.Got? ==> |r.rest| < |s|
  {
    if s[0] != '\\' then
      if s[0] < ' ' || s[0] == '\"' then Fail else Got(s[0], s[1..])
    else if |s| < 2 then
      Fail
    else
      match s[1]
      case '\"' => Got('\"', s[2..])
      case '\\' => Got('\\', s[2..])
      case '/' => Got('/', s[2..])
      case 'b' => Got('\U{8}', s[2..])
      case 'f' => Got('\U{c}', s[2..])
      case 'n' => Got('\n', s[2..])
      case 'r' => Got('\r', s[2..])
      case 't' => Got('\t', s[2..])
      case 'u' => ReadUnicode(s[2..])
      case _ => Fail
  }

  /** The rest of a string after its opening quotation mark. */
  function ReadString(s: string): (r: Read<string>)
    ensures r.Got? ==> |r.rest| < |s|
    decreases |s|
  {
    if s == "" then
      Fail
    else if s[0] == '\"' then
      Got("", s[1..])
    else
      match ReadChar(s)
      case Fail => Fail
      case Got(c, rest) =>
        match ReadString(rest)
        case Fail => Fail
        case Got(text, after) => Got([c] + text, after)
  }

  // ---------------------------------------------------------------------
  // Values: RFC 8259 sections 2 to 6
  // ---------------------------------------------------------------------

  predicate IsSpace(c: char) {
    c == ' ' || c == '\t' || c == '\n' || c == '\r'
  }

  function SkipSpace(s: string): (r: string)
    ensures |r| <= |s|
  {
    if s != "" && IsSpace(s[0]) then SkipSpace(s[1..]) else s
  }

  function ReadLiteral(s: string, word: string, v: Json<Decimal>): (r: Read<Json<Decimal>>)
    requires word != ""
    ensures r.Got? ==> |r.rest| < |s|
  {
    if |word| <= |s| && s[..|word|] == word then Got(v, s[|word|..]) else Fail
  }

  function ReadValue(s: string): (r: Read<Json<Decimal>>)
    ensures r.Got? ==> |r.rest| < |s|
    decreases |s|, 1
  {
    var t := SkipSpace(s);
    if t == "" then
      Fail
    else
      match t[0]
      case '\"' =>
        (match ReadString(t[1..])
         case Fail => Fail
         case Got(text, rest) => Got(String(text), rest))
      case '[' =>
        if StartsWith(SkipSpace(t[1..]), ']') then
          Got(Array([]), SkipSpace(t[1..])[1..])
        else
          (match ReadItems(t[1..])
           case Fail => Fail
           case Got(items, rest) => Got(Array(items), rest))
      case '{' =>
        if StartsWith(SkipSpace(t[1..]), '}') then
          Got(Object([]), SkipSpace(t[1..])[1..])
        else
          (match ReadFields(t[1..])
           case Fail => Fail
           case Got(fields, rest) => Got(Object(fields), rest))
      case 'n' => ReadLiteral(t, "null", Null)
      case 't' => ReadLiteral(t, "true", Bool(true))
      case 'f' => ReadLiteral(t, "false", Bool(false))
      case _ =>
        (match ReadNumber(t)
         case Fail => Fail
         case Got(n, rest) => Got(Number(n), rest))
  }

  /** One or more values separated by commas, up to the closing bracket. */
  function ReadItems(s: string): (r: Read<seq<Json<Decimal>>>)
    ensures r.Got? ==> |r.rest| < |s|
    decreases |s|, 2
  {
    match ReadValue(s)
    case Fail => Fail
    case Got(item, rest) =>
      var t := SkipSpace(rest);
      if StartsWith(t, ',') then
        (match ReadItems(t[1..])
         case Fail => Fail
         case Got(items, after) => Got([item] + items, after))
      else if StartsWith(t, ']') then
        Got([item], t[1..])
      else
        Fail
  }

  /** One or more members separated by commas, up to the closing brace. */
  function ReadFields(s: string): (r: Read<seq<(string, Json<Decimal>)>>)
    ensures r.Got? ==> |r.rest| < |s|
    decreases |s|, 2
  {
    match ReadMember(s)
    case Fail => Fail
    case Got(field, rest) =>
      var t := SkipSpace(rest);
      if StartsWith(t, ',') then
        (match ReadFields(t[1..])
         case Fail => Fail
         case Got(fields, after) => Got([field] + fields, after))
      else if StartsWith(t, '}') then
        Got([field], t[1..])
      else
        Fail
  }

  /** member = string name-separator value */
  function ReadMember(s: string): (r: Read<(string, Json<Decimal>)>)
    ensures r.Got? ==> |r.rest| < |s|
    decreases |s|, 1
  {
    var t := SkipSpace(s);
    if !StartsWith(t, '\"') then
      Fail
    else
      match ReadString(t[1..])
      case Fail => Fail
      case Got(key, rest) =>
        var u := SkipSpace(rest);
        if !StartsWith(u, ':') then
          Fail
        else
          match ReadValue(u[1..])
          case Fail => Fail
          case Got(v, after) => Got((key, v), after)
  }
}

/**
 The circuit as the orchestrator signs it (src/domain/p2p.rs): JSON text the
 way Go `encoding/json` writes it, and its relation to a reader of RFC 8259.
 */
module GoJson {
  import opened Wrappers
  import opened Decimals
  import opened GoFloat
  import opened Json

  // ---------------------------------------------------------------------
  // Strings
  // ---------------------------------------------------------------------

  /** Characters written as `\u` and four hexadecimal digits. */
  predicate Unicoded(c: char) {
    c < ' ' || c == '<' || c == '>' || c == '&' || c == '\U{2028}' || c == '\U{2029}'
  }

  function HexDigit(d: nat): (c: char)
    requires d < 16
    ensures IsHex(c) && HexOf(c) == d && c != '\"' && c != '\\' && !Unicoded(c)
  {
    if d < 10 then ('0' as int + d) as char else ('a' as int + (d - 10)) as char
  }

  /** `{:04x}` */
  function Hex4(n: nat): (s: string)
    requires n < 0x10000
    ensures |s| == 4
  {
    [HexDigit(n / 0x1000), HexDigit(n / 0x100 % 0x10), HexDigit(n / 0x10 % 0x10), HexDigit(n % 0x10)]
  }

  function Escape(c: char): string {
    match c
    case '\"' => "\\\""
    case '\\' => "\\\\"
    case '\U{8}' => "\\b"
    case '\U{c}' => "\\f"
    case '\n' => "\\n"
    case '\r' => "\\r"
    case '\t' => "\\t"
    case _ => if Unicoded(c) then "\\u" + Hex4(c as int) else [c]
  }

  function EscapeAll(text: string): string {
    if text == "" then "" else Escape(text[0]) + EscapeAll(text[1..])
  }

  function Quote(text: string): string {
    "\"" + (EscapeAll(text) + "\"")
  }

  method WriteGoJsonString(out: string, text: string) returns (written: string)
    ensures written == out + Quote(text)
  {
    written := out + "\"";
    for i := 0 to |text|
      invariant written + EscapeAll(text[i..]) == (out + "\"") + EscapeAll(text)
    {
      EscapeNext(written, text[i..]);
      assert text[i..][1..] == text[i + 1..];
      written := written + Escape(text[i]);
    }
    EmptyText(written);
    QuoteFromParts(out, EscapeAll(text));
    written := written + "\"";
  }

  lemma EscapeNext(written: string, text: string)
    requires text != ""
    ensures written + EscapeAll(text) == (written + Escape(text[0])) + EscapeAll(text[1..])
  {
    Concat(written, Escape(text[0]), EscapeAll(text[1..]));
  }

  lemma QuoteFromParts(out: string, body: string)
    ensures ((out + "\"") + body) + "\"" == out + ("\"" + (body + "\""))
  {
  }

  lemma Hex4Value(n: nat)
    requires n < 0x10000
    ensures 0x1000 * (n / 0x1000) + 0x100 * (n / 0x100 % 0x10) + 0x10 * (n / 0x10 % 0x10) + n % 0x10 == n
  {
    assert n / 0x100 == n / 0x10 / 0x10 && n / 0x1000 == n / 0x100 / 0x10;
  }

  lemma ReadHex4Of(a: char, b: char, c: char, d: char, rest: string)
    requires IsHex(a) && IsHex(b) && IsHex(c) && IsHex(d)
    ensures ReadHex4([a, b, c, d] + rest) == Got(0x1000 * HexOf(a) + 0x100 * HexOf(b) + 0x10 * HexOf(c) + HexOf(d), rest)
  {
    hide HexOf;
    DropHead([a, b, c, d], rest);
  }

  lemma Hex4Reads(n: nat, rest: string)
    requires n < 0x10000
    ensures ReadHex4(Hex4(n) + rest) == Got(n, rest)
  {
    hide ReadHex4, HexOf;
    Hex4Value(n);
    ReadHex4Of(HexDigit(n / 0x1000), HexDigit(n / 0x100 % 0x10), HexDigit(n / 0x10 % 0x10), HexDigit(n % 0x10), rest);
  }

  lemma UnicodedIsSmall(c: char)
    requires Unicoded(c)
    ensures (c as int) < 0xD800
  {
  }

  lemma ReadUnicoded(c: char, rest: string)
    requires Unicoded(c)
    ensures ReadChar(("\\u" + Hex4(c as int)) + rest) == Got(c, rest)
  {
    hide Hex4, ReadHex4;
    var n := c as int;
    UnicodedIsSmall(c);
    Hex4Reads(n, rest);
    Concat("\\u", Hex4(n), rest);
    DropHead("\\u", Hex4(n) + rest);
  }

  lemma ReadEscape(c: char, rest: string)
    ensures Escape(c) + rest != ""
    ensures ReadChar(Escape(c) + rest) == Got(c, rest)
    ensures (Escape(c) + rest)[0] != '\"'
  {
    DropHead(Escape(c), rest);
    if Unicoded(c) && c != '\n' && c != '\r' && c != '\t' && c != '\U{8}' && c != '\U{c}' {
      ReadUnicoded(c, rest);
    }
  }

  /**
   Which escape a character gets: none, the two-character form of quote,
   backslash, \b, \f, \n, \r and \t, or four lower-case hexadecimal digits for the
   other control characters, `<`, `>`, `&` and the two line separators.
   */
  lemma EscapesExactly(c: char)
    ensures Escape(c) == [c] <==> c >= ' ' && c != '\"' && c != '\\' && c != '<' && c != '>' && c != '&' && c != '\U{2028}' && c != '\U{2029}'
    ensures |Escape(c)| == 2 <==> c == '\"' || c == '\\' || c == '\U{8}' || c == '\U{c}' || c == '\n' || c == '\r' || c == '\t'
    ensures |Escape(c)| in {1, 2, 6}
    ensures |Escape(c)| == 6 ==> forall i :: 2 <= i < 6 ==> '0' <= Escape(c)[i] <= '9' || 'a' <= Escape(c)[i] <= 'f'
  {
  }

  /** Unescaping what was escaped gives the text back and stops at the closing quote. */
  lemma {:induction false} StringRoundTrip(text: string, rest: string)
    ensures ReadString(EscapeAll(text) + ("\"" + rest)) == Got(text, rest)
    decreases |text|
  {
    hide Escape, ReadChar;
    if text == "" {
      EmptyText("\"" + rest);
      DropHead("\"", rest);
    } else {
      var tail := EscapeAll(text[1..]) + ("\"" + rest);
      StringRoundTrip(text[1..], rest);
      Concat(Escape(text[0]), EscapeAll(text[1..]), "\"" + rest);
      ReadEscape(text[0], tail);
      assert [text[0]] + text[1..] == text;
    }
  }

  /** A run of plain characters, short escapes and `\u` escapes; nothing HTML could interpret. */
  predicate SafeBody(s: string)
    decreases |s|
  {
    if s == "" then
      true
    else if s[0] == '\\' then
      && |s| >= 2
      && (if s[1] == 'u'
          then |s| >= 6 && IsHex(s[2]) && IsHex(s[3]) && IsHex(s[4]) && IsHex(s[5]) && SafeBody(s[6..])
          else s[1] in "\"\\bfnrt" && SafeBody(s[2..]))
    else
      s[0] != '\"' && !Unicoded(s[0]) && SafeBody(s[1..])
  }

  predicate NothingRaw(s: string) {
    forall i :: 0 <= i < |s| ==> !Unicoded(s[i])
  }

  lemma EscapeIsSafe(c: char, rest: string)
    requires SafeBody(rest)
    ensures SafeBody(Escape(c) + rest)
  {
    DropHead(Escape(c), rest);
  }

  /** No raw quote or control character, and nothing that HTML gives a meaning. */
  lemma {:induction false} EscapedBodyIsSafe(text: string)
    ensures SafeBody(EscapeAll(text)) && NothingRaw(EscapeAll(text))
    decreases |text|
  {
    if text != "" {
      EscapedBodyIsSafe(text[1..]);
      EscapeIsSafe(text[0], EscapeAll(text[1..]));
      assert NothingRaw(Escape(text[0]));
    }
  }

  // ---------------------------------------------------------------------
  // Values
  // ---------------------------------------------------------------------

  /** The first number, in printing order, that has no float64 reading. */
  function FirstNotFloat(v: Value): Option<JsonNumber>
    decreases v
  {
    match v
    case Number(n) => if n.float.Some? then None else Some(n)
    case Array(items) => FirstNotFloatIn(items)
    case Object(fields) => FirstNotFloatOf(fields)
    case _ => None
  }

  function FirstNotFloatIn(items: seq<Value>): Option<JsonNumber>
    decreases items
  {
    if items == [] then None
    else if FirstNotFloat(items[0]).Some? then FirstNotFloat(items[0])
    else FirstNotFloatIn(items[1..])
  }

  function FirstNotFloatOf(fields: seq<(string, Value)>): Option<JsonNumber>
    decreases fields
  {
    if fields == [] then None
    else if assert (fields[0] decreases to fields[0].1); FirstNotFloat(fields[0].1).Some? then FirstNotFloat(fields[0].1)
    else FirstNotFloatOf(fields[1..])
  }

  function Comma(first: bool): string {
    if first then "" else ","
  }

  function ValueText(v: Value): string
    requires FirstNotFloat(v).None?
    decreases v
  {
    match v
    case Null => "null"
    case Bool(b) => if b then "true" else "false"
    case Number(n) => GoJsonFloat(n.float.value)
    case String(text) => Quote(text)
    case Array(items) => "[" + (ItemsText(items, true) + "]")
    case Object(fields) => "{" + (FieldsText(fields, true) + "}")
  }

  function ItemsText(items: seq<Value>, first: bool): string
    requires FirstNotFloatIn(items).None?
    decreases items
  {
    if items == [] then "" else Comma(first) + (ValueText(items[0]) + ItemsText(items[1..], false))
  }

  function MemberText(field: (string, Value)): string
    requires FirstNotFloat(field.1).None?
    decreases field
  {
    Quote(field.0) + (":" + ValueText(field.1))
  }

  function FieldsText(fields: seq<(string, Value)>, first: bool): string
    requires FirstNotFloatOf(fields).None?
    decreases fields
  {
    if fields == [] then "" else Comma(first) + (MemberText(fields[0]) + FieldsText(fields[1..], false))
  }

  /** The text appended to `out`, or the number that made the printer give up. */
  function Appended(out: string, v: Value): Result<string, JsonNumber> {
    match FirstNotFloat(v)
    case Some(n) => Err(n)
    case None => Ok(out + ValueText(v))
  }

  lemma ItemsStep(out: string, items: seq<Value>, first: bool)
    requires items != [] && FirstNotFloatIn(items).None?
    ensures out + ItemsText(items, first) == ((out + Comma(first)) + ValueText(items[0])) + ItemsText(items[1..], false)
  {
    var value, rest := ValueText(items[0]), ItemsText(items[1..], false);
    Concat(out, Comma(first), value + rest);
    Concat(out + Comma(first), value, rest);
  }

  lemma FieldsStep(out: string, fields: seq<(string, Value)>, first: bool)
    requires fields != [] && FirstNotFloatOf(fields).None?
    ensures out + FieldsText(fields, first)
            == ((((out + Comma(first)) + Quote(fields[0].0)) + ":") + ValueText(fields[0].1)) + FieldsText(fields[1..], false)
  {
    var key, value, rest := Quote(fields[0].0), ValueText(fields[0].1), FieldsText(fields[1..], false);
    Concat(out, Comma(first), MemberText(fields[0]) + rest);
    Concat(out + Comma(first), MemberText(fields[0]), rest);
    Concat(out + Comma(first), key, ":" + value);
    Concat((out + Comma(first)) + key, ":", value);
  }

  method WriteGoJsonValue(out: string, value: Value) returns (written: Result<string, JsonNumber>)
    ensures written == Appended(out, value)
    decreases value
  {
    match value {
      case Null => return Ok(out + "null");
      case Bool(b) => return Ok(out + (if b then "true" else "false"));
      case Number(n) =>
        match n.float {
          case Some(f) => return Ok(out + GoJsonFloat(f));
          case None => return Err(n);
        }
      case String(text) =>
        var quoted := WriteGoJsonString(out, text);
        return Ok(quoted);
      case Array(items) =>
        var inner := WriteItems(out + "[", items);
        if inner.Err? {
          return inner;
        }
        BracketText(out, "[", ItemsText(items, true), "]");
        return Ok(inner.value + "]");
      case Object(fields) =>
        var inner := WriteFields(out + "{", fields);
        if inner.Err? {
          return inner;
        }
        BracketText(out, "{", FieldsText(fields, true), "}");
        return Ok(inner.value + "}");
    }
  }

  lemma BracketText(out: string, open: string, body: string, close: string)
    ensures ((out + open) + body) + close == out + (open + (body + close))
  {
  }

  method WriteItems(out: string, items: seq<Value>) returns (written: Result<string, JsonNumber>)
    ensures written == match FirstNotFloatIn(items)
                       case Some(n) => Err(n)
                       case None => Ok(out + ItemsText(items, true))
    decreases items
  {
    var text := out;
    for i := 0 to |items|
      invariant FirstNotFloatIn(items) == FirstNotFloatIn(items[i..])
      invariant FirstNotFloatIn(items).None? ==> text + ItemsText(items[i..], i == 0) == out + ItemsText(items, true)
    {
      assert items[i..][1..] == items[i + 1..];
      if FirstNotFloatIn(items).None? {
        ItemsStep(text, items[i..], i == 0);
      }
      if i > 0 {
        text := text + ",";
      } else {
        EmptyText(text);
      }
      var item := WriteGoJsonValue(text, items[i]);
      if item.Err? {
        return item;
      }
      text := item.value;
    }
    EmptyText(text);
    return Ok(text);
  }

  method WriteFields(out: string, fields: seq<(string, Value)>) returns (written: Result<string, JsonNumber>)
    ensures written == match FirstNotFloatOf(fields)
                       case Some(n) => Err(n)
                       case None => Ok(out + FieldsText(fields, true))
    decreases fields
  {
    var text := out;
    for i := 0 to |fields|
      invariant FirstNotFloatOf(fields) == FirstNotFloatOf(fields[i..])
      invariant FirstNotFloatOf(fields).None? ==> text + FieldsText(fields[i..], i == 0) == out + FieldsText(fields, true)
    {
      assert fields[i..][1..] == fields[i + 1..];
      if FirstNotFloatOf(fields).None? {
        FieldsStep(text, fields[i..], i == 0);
      }
      if i > 0 {
        text := text + ",";
      } else {
        EmptyText(text);
      }
      text := WriteGoJsonString(text, fields[i].0);
      text := text + ":";
      assert (fields[i] decreases to fields[i].1);
      var item := WriteGoJsonValue(text, fields[i].1);
      if item.Err? {
        return item;
      }
      text := item.value;
    }
    EmptyText(text);
    return Ok(text);
  }

  // ---------------------------------------------------------------------
  // Reading a value back
  // ---------------------------------------------------------------------

  /** The JSON a value stands for: its numbers as float64, everything else as it is. */
  function Denote(v: Value): Json<Decimal>
    requires FirstNotFloat(v).None?
    decreases v
  {
    match v
    case Null => Null
    case Bool(b) => Bool(b)
    case Number(n) => Number(FloatMeaning(n.float.value))
    case String(text) => String(text)
    case Array(items) => Array(DenoteItems(items))
    case Object(fields) => Object(DenoteFields(fields))
  }

  function DenoteItems(items: seq<Value>): (r: seq<Json<Decimal>>)
    requires FirstNotFloatIn(items).None?
    ensures |r| == |items|
    decreases items
  {
    if items == [] then [] else [Denote(items[0])] + DenoteItems(items[1..])
  }

  function DenoteField(field: (string, Value)): (string, Json<Decimal>)
    requires FirstNotFloat(field.1).None?
    decreases field
  {
    (field.0, Denote(field.1))
  }

  function DenoteFields(fields: seq<(string, Value)>): (r: seq<(string, Json<Decimal>)>)
    requires FirstNotFloatOf(fields).None?
    ensures |r| == |fields|
    decreases fields
  {
    if fields == [] then [] else [DenoteField(fields[0])] + DenoteFields(fields[1..])
  }

  /** The characters a printed value can begin with. */
  predicate BeginsValue(s: string) {
    s != "" && !IsSpace(s[0]) && s[0] != ']' && s[0] != '}' && s[0] != ','
  }

  lemma NumberBegins(s: string)
    requires ReadNumber(s).Got?
    ensures s != "" && (s[0] == '-' || IsDigit(s[0]))
  {
  }

  lemma FloatBegins(f: Float64)
    ensures GoJsonFloat(f) != "" && (GoJsonFloat(f)[0] == '-' || IsDigit(GoJsonFloat(f)[0]))
  {
    hide GoJsonFloat;
    FloatRoundTrip(f, "");
    EmptyText(GoJsonFloat(f));
    NumberBegins(GoJsonFloat(f));
  }

  lemma ValueBegins(v: Value)
    requires FirstNotFloat(v).None?
    ensures BeginsValue(ValueText(v))
  {
    if v.Number? {
      FloatBegins(v.n.float.value);
    }
  }

  lemma BeginsWith(a: string, rest: string)
    requires BeginsValue(a)
    ensures BeginsValue(a + rest) && SkipSpace(a + rest) == a + rest
  {
  }

  /** What follows a value inside a list: a comma, a closing bracket, or nothing. */
  predicate Separated(rest: string) {
    rest == "" || rest[0] == ',' || rest[0] == ']' || rest[0] == '}'
  }

  lemma ReadValueNumber(s: string)
    requires ReadNumber(s).Got?
    ensures ReadValue(s) == Got(Number(ReadNumber(s).value), ReadNumber(s).rest)
  {
    NumberBegins(s);
    hide ReadNumber, ReadLiteral, ReadString, ReadItems, ReadFields;
    assert SkipSpace(s) == s;
  }

  lemma ReadValueString(text: string, rest: string)
    ensures ReadValue(Quote(text) + rest) == Got(String(text), rest)
  {
    hide EscapeAll, ReadString;
    StringRoundTrip(text, rest);
    QuotedText(EscapeAll(text), rest);
  }

  lemma QuotedText(body: string, rest: string)
    ensures var s := ("\"" + (body + "\"")) + rest; s != "" && s[0] == '\"' && s[1..] == body + ("\"" + rest)
  {
  }

  lemma ReadValueArray(s: string, items: seq<Json<Decimal>>, rest: string)
    requires s != "" && s[0] == '['
    requires BeginsValue(s[1..]) && ReadItems(s[1..]) == Got(items, rest)
    ensures ReadValue(s) == Got(Array(items), rest)
  {
    hide ReadItems;
  }

  lemma ReadValueObject(s: string, fields: seq<(string, Json<Decimal>)>, rest: string)
    requires s != "" && s[0] == '{'
    requires BeginsValue(s[1..]) && ReadFields(s[1..]) == Got(fields, rest)
    ensures ReadValue(s) == Got(Object(fields), rest)
  {
    hide ReadFields;
  }

  lemma ReadValueEmpty(s: string)
    requires |s| >= 2
    ensures s[0] == '[' && s[1] == ']' ==> ReadValue(s) == Got(Array([]), s[2..])
    ensures s[0] == '{' && s[1] == '}' ==> ReadValue(s) == Got(Object([]), s[2..])
  {
  }

  lemma ReadItemsStep(s: string, item: Json<Decimal>, rest: string)
    requires ReadValue(s) == Got(item, rest) && rest != ""
    ensures rest[0] == ']' ==> ReadItems(s) == Got([item], rest[1..])
    ensures rest[0] == ',' && ReadItems(rest[1..]).Got? ==>
              ReadItems(s) == Got([item] + ReadItems(rest[1..]).value, ReadItems(rest[1..]).rest)
  {
    hide ReadValue;
  }

  lemma ReadFieldsStep(s: string, field: (string, Json<Decimal>), rest: string)
    requires ReadMember(s) == Got(field, rest) && rest != ""
    ensures rest[0] == '}' ==> ReadFields(s) == Got([field], rest[1..])
    ensures rest[0] == ',' && ReadFields(rest[1..]).Got? ==>
              ReadFields(s) == Got([field] + ReadFields(rest[1..]).value, ReadFields(rest[1..]).rest)
  {
    hide ReadMember;
  }

  lemma ReadMemberOf(key: string, after: string, v: Json<Decimal>, rest: string)
    requires ReadValue(after) == Got(v, rest)
    ensures ReadMember(Quote(key) + (":" + after)) == Got((key, v), rest)
  {
    hide EscapeAll, ReadString, ReadValue;
    StringRoundTrip(key, ":" + after);
    QuotedText(EscapeAll(key), ":" + after);
    DropHead(":", after);
  }

  lemma LiteralRead(word: string, v: Json<Decimal>, rest: string)
    requires word != ""
    ensures ReadLiteral(word + rest, word, v) == Got(v, rest)
  {
    DropHead(word, rest);
  }

  lemma ReadValueLiteral(rest: string)
    ensures ReadValue("null" + rest) == Got(Null, rest)
    ensures ReadValue("true" + rest) == Got(Bool(true), rest)
    ensures ReadValue("false" + rest) == Got(Bool(false), rest)
  {
    hide ReadLiteral;
    LiteralRead("null", Null, rest);
    LiteralRead("true", Bool(true), rest);
    LiteralRead("false", Bool(false), rest);
  }

  lemma {:induction false} ValueRoundTrip(v: Value, rest: string)
    requires FirstNotFloat(v).None? && Delimited(rest)
    ensures ReadValue(ValueText(v) + rest) == Got(Denote(v), rest)
    decreases v
  {
    hide ReadValue, ReadNumber, Quote, GoJsonFloat, FloatMeaning, ItemsText, FieldsText, DenoteItems, DenoteFields;
    match v
    case Null => ReadValueLiteral(rest);
    case Bool(_) => ReadValueLiteral(rest);
    case Number(n) =>
      FloatRoundTrip(n.float.value, rest);
      ReadValueNumber(GoJsonFloat(n.float.value) + rest);
    case String(text) => ReadValueString(text, rest);
    case Array(items) => ArrayRoundTrip(items, rest);
    case Object(fields) => ObjectRoundTrip(fields, rest);
  }

  lemma BracketRest(open: string, body: string, close: string, rest: string)
    requires |open| == 1 && |close| == 1
    ensures var s := (open + (body + close)) + rest;
            s != "" && s[0] == open[0] && s[1..] == body + (close + rest)
  {
  }

  lemma {:induction false} ArrayRoundTrip(items: seq<Value>, rest: string)
    requires FirstNotFloatIn(items).None?
    ensures ReadValue(("[" + (ItemsText(items, true) + "]")) + rest) == Got(Array(DenoteItems(items)), rest)
    decreases items, 1
  {
    hide ReadValue, ReadItems;
    var s := ("[" + (ItemsText(items, true) + "]")) + rest;
    BracketRest("[", ItemsText(items, true), "]", rest);
    if items == [] {
      EmptyText("]" + rest);
      ReadValueEmpty(s);
      DropHead("]", rest);
      assert s[1..][1..] == s[2..];
    } else {
      ItemsRoundTrip(items, rest);
      ItemsBegin(items, "]" + rest);
      ReadValueArray(s, DenoteItems(items), rest);
    }
  }

  lemma ItemsBegin(items: seq<Value>, rest: string)
    requires items != [] && FirstNotFloatIn(items).None?
    ensures BeginsValue(ItemsText(items, true) + rest)
  {
    hide ValueText;
    ValueBegins(items[0]);
    EmptyText(ValueText(items[0]) + ItemsText(items[1..], false));
    BeginsWith(ValueText(items[0]), ItemsText(items[1..], false));
    BeginsWith(ItemsText(items, true), rest);
  }

  lemma {:induction false} ItemsRoundTrip(items: seq<Value>, rest: string)
    requires items != [] && FirstNotFloatIn(items).None?
    ensures ReadItems(ItemsText(items, true) + ("]" + rest)) == Got(DenoteItems(items), rest)
    decreases items, 0
  {
    hide ReadItems, ReadValue, ValueText, Denote;
    ItemsUnfold(items, true);
    var value, more := ValueText(items[0]), ItemsText(items[1..], false);
    var after := more + ("]" + rest);
    EmptyText(value + more);
    Concat(value, more, "]" + rest);
    MoreItems(items[1..], rest);
    ValueRoundTrip(items[0], after);
    ReadItemsStep(value + after, Denote(items[0]), after);
    if items[1..] == [] {
      EmptyText("]" + rest);
      DropHead("]", rest);
      assert [Denote(items[0])] + [] == [Denote(items[0])];
    } else {
      ItemsRoundTrip(items[1..], rest);
    }
  }

  lemma ItemsUnfold(items: seq<Value>, first: bool)
    requires items != [] && FirstNotFloatIn(items).None?
    ensures ItemsText(items, first) == Comma(first) + (ValueText(items[0]) + ItemsText(items[1..], false))
    ensures DenoteItems(items) == [Denote(items[0])] + DenoteItems(items[1..])
  {
    hide ValueText, Denote;
  }

  lemma FieldsUnfold(fields: seq<(string, Value)>, first: bool)
    requires fields != [] && FirstNotFloatOf(fields).None?
    ensures FieldsText(fields, first) == Comma(first) + (MemberText(fields[0]) + FieldsText(fields[1..], false))
    ensures DenoteFields(fields) == [DenoteField(fields[0])] + DenoteFields(fields[1..])
  {
    hide MemberText, DenoteField;
  }

  lemma MoreItems(items: seq<Value>, rest: string)
    requires FirstNotFloatIn(items).None?
    ensures var after := ItemsText(items, false) + ("]" + rest);
      && Separated(after) && Delimited(after) && after != ""
      && (items == [] ==> after[0] == ']')
      && (items != [] ==> after[0] == ',' && after[1..] == ItemsText(items, true) + ("]" + rest))
  {
    if items != [] {
      var body := ValueText(items[0]) + ItemsText(items[1..], false);
      EmptyText(body);
      Concat(",", body, "]" + rest);
      DropHead(",", body + ("]" + rest));
    } else {
      EmptyText("]" + rest);
    }
  }

  lemma {:induction false} ObjectRoundTrip(fields: seq<(string, Value)>, rest: string)
    requires FirstNotFloatOf(fields).None?
    ensures ReadValue(("{" + (FieldsText(fields, true) + "}")) + rest) == Got(Object(DenoteFields(fields)), rest)
    decreases fields, 1
  {
    hide ReadValue, ReadFields;
    var s := ("{" + (FieldsText(fields, true) + "}")) + rest;
    BracketRest("{", FieldsText(fields, true), "}", rest);
    if fields == [] {
      EmptyText("}" + rest);
      ReadValueEmpty(s);
      DropHead("}", rest);
      assert s[1..][1..] == s[2..];
    } else {
      FieldsRoundTrip(fields, rest);
      FieldsBegin(fields, "}" + rest);
      ReadValueObject(s, DenoteFields(fields), rest);
    }
  }

  lemma FieldsBegin(fields: seq<(string, Value)>, rest: string)
    requires fields != [] && FirstNotFloatOf(fields).None?
    ensures BeginsValue(FieldsText(fields, true) + rest)
  {
    hide ValueText, FieldsText, EscapeAll;
    EmptyText(MemberText(fields[0]) + FieldsText(fields[1..], false));
    FieldsUnfold(fields, true);
    BeginsWith(MemberText(fields[0]), FieldsText(fields[1..], false));
    BeginsWith(FieldsText(fields, true), rest);
  }

  lemma {:induction false} FieldsRoundTrip(fields: seq<(string, Value)>, rest: string)
    requires fields != [] && FirstNotFloatOf(fields).None?
    ensures ReadFields(FieldsText(fields, true) + ("}" + rest)) == Got(DenoteFields(fields), rest)
    decreases fields, 0
  {
    hide ReadFields, ReadMember, MemberText, DenoteField;
    FieldsUnfold(fields, true);
    var member, more := MemberText(fields[0]), FieldsText(fields[1..], false);
    var after := more + ("}" + rest);
    EmptyText(member + more);
    Concat(member, more, "}" + rest);
    MoreFields(fields[1..], rest);
    MemberRoundTrip(fields[0], after);
    ReadFieldsStep(member + after, DenoteField(fields[0]), after);
    if fields[1..] == [] {
      EmptyText("}" + rest);
      DropHead("}", rest);
      assert [DenoteField(fields[0])] + [] == [DenoteField(fields[0])];
    } else {
      FieldsRoundTrip(fields[1..], rest);
    }
  }

  lemma {:induction false} MemberRoundTrip(field: (string, Value), rest: string)
    requires FirstNotFloat(field.1).None? && Delimited(rest)
    ensures ReadMember(MemberText(field) + rest) == Got(DenoteField(field), rest)
    decreases field
  {
    hide ReadMember, ReadValue, ValueText, Quote, Denote;
    var value := ValueText(field.1);
    ValueRoundTrip(field.1, rest);
    ReadMemberOf(field.0, value + rest, Denote(field.1), rest);
    Concat(Quote(field.0), ":" + value, rest);
    Concat(":", value, rest);
  }

  lemma MoreFields(fields: seq<(string, Value)>, rest: string)
    requires FirstNotFloatOf(fields).None?
    ensures var after := FieldsText(fields, false) + ("}" + rest);
      && Separated(after) && Delimited(after) && after != ""
      && (fields == [] ==> after[0] == '}')
      && (fields != [] ==> after[0] == ',' && after[1..] == FieldsText(fields, true) + ("}" + rest))
  {
    if fields != [] {
      var body := MemberText(fields[0]) + FieldsText(fields[1..], false);
      EmptyText(body);
      Concat(",", body, "}" + rest);
      DropHead(",", body + ("}" + rest));
    } else {
      EmptyText("}" + rest);
    }
  }

  // ---------------------------------------------------------------------
  // One text for one meaning
  // ---------------------------------------------------------------------

  lemma {:induction false} SameMeaningSameText(v: Value, w: Value)
    requires FirstNotFloat(v).None? && FirstNotFloat(w).None? && Denote(v) == Denote(w)
    ensures ValueText(v) == ValueText(w)
    decreases v
  {
    hide GoJsonFloat, FloatMeaning, Quote;
    match v
    case Number(n) => FloatTextCanonical(n.float.value, w.n.float.value);
    case Array(items) => SameItemsSameText(items, w.items, true);
    case Object(fields) => SameFieldsSameText(fields, w.fields, true);
    case _ =>
  }

  lemma SameItems(items: seq<Value>, others: seq<Value>)
    requires items != [] && FirstNotFloatIn(items).None? && FirstNotFloatIn(others).None?
    requires DenoteItems(items) == DenoteItems(others)
    ensures others != [] && Denote(items[0]) == Denote(others[0]) && DenoteItems(items[1..]) == DenoteItems(others[1..])
  {
    hide Denote;
    assert |DenoteItems(items)| == |DenoteItems(others)|;
    assert DenoteItems(items) == [Denote(items[0])] + DenoteItems(items[1..]);
    assert DenoteItems(others) == [Denote(others[0])] + DenoteItems(others[1..]);
    SameHeads(Denote(items[0]), DenoteItems(items[1..]), Denote(others[0]), DenoteItems(others[1..]));
  }

  lemma SameFields(fields: seq<(string, Value)>, others: seq<(string, Value)>)
    requires fields != [] && FirstNotFloatOf(fields).None? && FirstNotFloatOf(others).None?
    requires DenoteFields(fields) == DenoteFields(others)
    ensures others != [] && DenoteField(fields[0]) == DenoteField(others[0])
    ensures DenoteFields(fields[1..]) == DenoteFields(others[1..])
  {
    hide DenoteField;
    assert |DenoteFields(fields)| == |DenoteFields(others)|;
    assert DenoteFields(fields) == [DenoteField(fields[0])] + DenoteFields(fields[1..]);
    assert DenoteFields(others) == [DenoteField(others[0])] + DenoteFields(others[1..]);
    SameHeads(DenoteField(fields[0]), DenoteFields(fields[1..]), DenoteField(others[0]), DenoteFields(others[1..]));
  }

  lemma SameHeads<T>(a: T, s: seq<T>, b: T, t: seq<T>)
    requires [a] + s == [b] + t
    ensures a == b && s == t
  {
    assert ([a] + s)[0] == a && ([b] + t)[0] == b;
    assert ([a] + s)[1..] == s && ([b] + t)[1..] == t;
  }

  lemma {:induction false} SameItemsSameText(items: seq<Value>, others: seq<Value>, first: bool)
    requires FirstNotFloatIn(items).None? && FirstNotFloatIn(others).None? && DenoteItems(items) == DenoteItems(others)
    ensures ItemsText(items, first) == ItemsText(others, first)
    decreases items
  {
    hide Denote, ValueText;
    if items != [] {
      SameItems(items, others);
      SameMeaningSameText(items[0], others[0]);
      SameItemsSameText(items[1..], others[1..], false);
    }
  }

  lemma {:induction false} SameFieldsSameText(fields: seq<(string, Value)>, others: seq<(string, Value)>, first: bool)
    requires FirstNotFloatOf(fields).None? && FirstNotFloatOf(others).None? && DenoteFields(fields) == DenoteFields(others)
    ensures FieldsText(fields, first) == FieldsText(others, first)
    decreases fields
  {
    hide Denote, ValueText, Quote;
    if fields != [] {
      SameFields(fields, others);
      assert (fields[0] decreases to fields[0].1);
      SameMeaningSameText(fields[0].1, others[0].1);
      SameFieldsSameText(fields[1..], others[1..], false);
    }
  }

  // ---------------------------------------------------------------------
  // Circuits
  // ---------------------------------------------------------------------

  function FirstNotFloatGate(circuit: seq<Gate>): Option<JsonNumber> {
    if circuit == [] then None
    else if FirstNotFloat(circuit[0].params).Some? then FirstNotFloat(circuit[0].params)
    else FirstNotFloatGate(circuit[1..])
  }

  const TYPE_LABEL: string := "{\"type\":"
  const PARAMS_LABEL: string := ",\"params\":"

  function GateText(gate: Gate): string
    requires FirstNotFloat(gate.params).None?
  {
    TYPE_LABEL + (Quote(gate.kind) + (PARAMS_LABEL + (ValueText(gate.params) + "}")))
  }

  function GatesText(circuit: seq<Gate>, first: bool): string
    requires FirstNotFloatGate(circuit).None?
    decreases |circuit|
  {
    if circuit == [] then "" else Comma(first) + (GateText(circuit[0]) + GatesText(circuit[1..], false))
  }

  /** `[{"type":…,"params":…}]` */
  function CircuitText(circuit: seq<Gate>): string
    requires FirstNotFloatGate(circuit).None?
  {
    "[" + (GatesText(circuit, true) + "]")
  }

  lemma GatesStep(out: string, circuit: seq<Gate>, first: bool)
    requires circuit != [] && FirstNotFloatGate(circuit).None?
    ensures out + GatesText(circuit, first) == ((out + Comma(first)) + GateText(circuit[0])) + GatesText(circuit[1..], false)
  {
    hide GateText;
    var gate, rest := GateText(circuit[0]), GatesText(circuit[1..], false);
    Concat(out, Comma(first), gate + rest);
    Concat(out + Comma(first), gate, rest);
  }

  lemma GateFromParts(out: string, kind: string, params: string)
    ensures ((((out + TYPE_LABEL) + kind) + PARAMS_LABEL) + params) + "}"
            == out + (TYPE_LABEL + (kind + (PARAMS_LABEL + (params + "}"))))
  {
    hide *;
    var params' := params + "}";
    Concat(((out + TYPE_LABEL) + kind) + PARAMS_LABEL, params, "}");
    Concat((out + TYPE_LABEL) + kind, PARAMS_LABEL, params');
    Concat(out + TYPE_LABEL, kind, PARAMS_LABEL + params');
    Concat(out, TYPE_LABEL, kind + (PARAMS_LABEL + params'));
  }

  method CircuitSigningJson(circuit: seq<Gate>) returns (written: Result<string, JsonNumber>)
    ensures written == match FirstNotFloatGate(circuit)
                       case Some(n) => Err(n)
                       case None => Ok(CircuitText(circuit))
  {
    var out := "[";
    for i := 0 to |circuit|
      invariant FirstNotFloatGate(circuit) == FirstNotFloatGate(circuit[i..])
      invariant FirstNotFloatGate(circuit).None? ==> out + GatesText(circuit[i..], i == 0) == "[" + GatesText(circuit, true)
    {
      assert circuit[i..][1..] == circuit[i + 1..];
      if FirstNotFloatGate(circuit).None? {
        GatesStep(out, circuit[i..], i == 0);
      }
      if i > 0 {
        out := out + ",";
      } else {
        EmptyText(out);
      }
      ghost var before := out;
      out := out + TYPE_LABEL;
      out := WriteGoJsonString(out, circuit[i].kind);
      out := out + PARAMS_LABEL;
      var params := WriteGoJsonValue(out, circuit[i].params);
      if params.Err? {
        return params;
      }
      GateFromParts(before, Quote(circuit[i].kind), ValueText(circuit[i].params));
      out := params.value + "}";
    }
    EmptyText(out);
    Concat("[", GatesText(circuit, true), "]");
    return Ok(out + "]");
  }

  /** The circuit as a plain JSON value. */
  function GateValue(gate: Gate): Value {
    Object([KindField(gate), ParamsField(gate)])
  }

  function KindField(gate: Gate): (string, Value) {
    ("type", String(gate.kind))
  }

  function ParamsField(gate: Gate): (string, Value) {
    ("params", gate.params)
  }

  function GateValues(circuit: seq<Gate>): (r: seq<Value>)
    ensures |r| == |circuit|
  {
    if circuit == [] then [] else [GateValue(circuit[0])] + GateValues(circuit[1..])
  }

  lemma LabelsQuoted()
    ensures TYPE_LABEL == "{" + (Quote("type") + ":")
    ensures PARAMS_LABEL == "," + (Quote("params") + ":")
  {
    hide EscapeAll;
    EscapeLabel("type");
    EscapeLabel("params");
    assert "{" + (("\"" + ("type" + "\"")) + ":") == TYPE_LABEL;
    assert "," + (("\"" + ("params" + "\"")) + ":") == PARAMS_LABEL;
  }

  lemma {:induction false} EscapeLabel(text: string)
    requires forall i :: 0 <= i < |text| ==> 'a' <= text[i] <= 'z'
    ensures EscapeAll(text) == text
    decreases |text|
  {
    if text != "" {
      EscapeLabel(text[1..]);
      assert [text[0]] + text[1..] == text;
    }
  }

  lemma TwoFields(a: (string, Value), b: (string, Value))
    ensures [a, b][1..] == [b] && [b][1..] == []
    ensures FirstNotFloatOf([b]) == FirstNotFloat(b.1)
    ensures FirstNotFloat(a.1).None? ==> FirstNotFloatOf([a, b]) == FirstNotFloat(b.1)
  {
    hide FirstNotFloat;
    assert [a, b][1..] == [b];
    assert [b][1..] == [];
  }

  lemma FieldsOfGate(gate: Gate)
    requires FirstNotFloat(gate.params).None?
    ensures FirstNotFloat(GateValue(gate)).None?
    ensures ValueText(GateValue(gate)) == "{" + (("" + (MemberText(KindField(gate)) + ("," + (MemberText(ParamsField(gate)) + "")))) + "}")
  {
    hide MemberText;
    TwoFields(KindField(gate), ParamsField(gate));
    FieldsUnfold([KindField(gate), ParamsField(gate)], true);
    FieldsUnfold([ParamsField(gate)], false);
  }

  lemma GateRegroup(a: string, b: string, c: string, d: string)
    ensures "{" + (("" + ((a + (":" + b)) + ("," + ((c + (":" + d)) + "")))) + "}")
            == ("{" + (a + ":")) + (b + (("," + (c + ":")) + (d + "}")))
  {
    var left := "{" + (("" + ((a + (":" + b)) + ("," + ((c + (":" + d)) + "")))) + "}");
    assert left == (("{" + (a + ":")) + b) + ((("," + (c + ":")) + d) + "}");
  }

  lemma GateTextIsValueText(gate: Gate)
    requires FirstNotFloat(gate.params).None?
    ensures FirstNotFloat(GateValue(gate)).None?
    ensures GateText(gate) == ValueText(GateValue(gate))
  {
    FieldsOfGate(gate);
    LabelsQuoted();
    GateRegroup(Quote("type"), Quote(gate.kind), Quote("params"), ValueText(gate.params));
  }

  lemma {:induction false} GatesTextIsItemsText(circuit: seq<Gate>, first: bool)
    ensures FirstNotFloatIn(GateValues(circuit)) == FirstNotFloatGate(circuit)
    ensures FirstNotFloatGate(circuit).None? ==> GatesText(circuit, first) == ItemsText(GateValues(circuit), first)
    decreases |circuit|
  {
    hide GateText, ValueText;
    if circuit != [] {
      GatesTextIsItemsText(circuit[1..], false);
      GateNotFloat(circuit[0]);
      var values := GateValues(circuit);
      assert values[0] == GateValue(circuit[0]) && values[1..] == GateValues(circuit[1..]);
      if FirstNotFloatGate(circuit).None? {
        GateTextIsValueText(circuit[0]);
        ItemsUnfold(values, first);
      }
    }
  }

  lemma GateNotFloat(gate: Gate)
    ensures FirstNotFloat(GateValue(gate)) == FirstNotFloat(gate.params)
  {
    TwoFields(KindField(gate), ParamsField(gate));
  }

  function DenoteGate(gate: Gate): (string, Json<Decimal>)
    requires FirstNotFloat(gate.params).None?
  {
    (gate.kind, Denote(gate.params))
  }

  /** The circuit with its numbers read as float64. */
  function DenoteCircuit(circuit: seq<Gate>): seq<(string, Json<Decimal>)>
    requires FirstNotFloatGate(circuit).None?
  {
    if circuit == [] then [] else [DenoteGate(circuit[0])] + DenoteCircuit(circuit[1..])
  }

  function GateJson(gate: (string, Json<Decimal>)): Json<Decimal> {
    Object([("type", String(gate.0)), ("params", gate.1)])
  }

  function CircuitJson(circuit: seq<(string, Json<Decimal>)>): (r: seq<Json<Decimal>>)
    ensures |r| == |circuit|
    ensures forall i :: 0 <= i < |circuit| ==> r[i] == GateJson(circuit[i])
  {
    if circuit == [] then [] else [GateJson(circuit[0])] + CircuitJson(circuit[1..])
  }

  lemma DenoteTwoFields(a: (string, Value), b: (string, Value))
    requires FirstNotFloat(a.1).None? && FirstNotFloat(b.1).None?
    ensures FirstNotFloatOf([a, b]).None? && DenoteFields([a, b]) == [DenoteField(a), DenoteField(b)]
  {
    hide FirstNotFloat, DenoteField;
    TwoFields(a, b);
    FieldsUnfold([a, b], true);
    FieldsUnfold([b], false);
    assert DenoteFields([]) == [];
  }

  lemma DenoteGateValue(gate: Gate)
    requires FirstNotFloat(gate.params).None?
    ensures FirstNotFloat(GateValue(gate)).None?
    ensures Denote(GateValue(gate)) == GateJson(DenoteGate(gate))
  {
    GateNotFloat(gate);
    DenoteTwoFields(KindField(gate), ParamsField(gate));
    hide DenoteFields;
  }

  lemma {:induction false} DenoteGateValues(circuit: seq<Gate>)
    requires FirstNotFloatGate(circuit).None?
    ensures FirstNotFloatIn(GateValues(circuit)).None?
    ensures DenoteItems(GateValues(circuit)) == CircuitJson(DenoteCircuit(circuit))
    decreases |circuit|
  {
    GatesTextIsItemsText(circuit, true);
    if circuit != [] {
      DenoteGateValues(circuit[1..]);
      DenoteGateValue(circuit[0]);
      var values := GateValues(circuit);
      assert values[0] == GateValue(circuit[0]) && values[1..] == GateValues(circuit[1..]);
      ItemsUnfold(values, true);
      assert DenoteCircuit(circuit)[1..] == DenoteCircuit(circuit[1..]);
    }
  }

  /** The signing text, read as JSON, is the circuit: gate by gate, number by number. */
  lemma CircuitRoundTrip(circuit: seq<Gate>, rest: string)
    requires FirstNotFloatGate(circuit).None?
    ensures ReadValue(CircuitText(circuit) + rest) == Got(Array(CircuitJson(DenoteCircuit(circuit))), rest)
  {
    hide ReadValue, DenoteItems, CircuitJson, DenoteCircuit, FirstNotFloatIn, ItemsText, GatesText;
    DenoteGateValues(circuit);
    GatesTextIsItemsText(circuit, true);
    ArrayRoundTrip(GateValues(circuit), rest);
  }

  lemma SameJsonSameCircuit(a: seq<(string, Json<Decimal>)>, b: seq<(string, Json<Decimal>)>)
    requires CircuitJson(a) == CircuitJson(b)
    ensures a == b
  {
    assert |a| == |b|;
    forall i | 0 <= i < |a| ensures a[i] == b[i] {
      var x, y := CircuitJson(a)[i], CircuitJson(b)[i];
      assert x == GateJson(a[i]) && y == GateJson(b[i]);
      assert x.fields[0].1 == y.fields[0].1 && x.fields[1].1 == y.fields[1].1;
    }
  }

  lemma {:induction false} SameCircuitSameText(a: seq<Gate>, b: seq<Gate>, first: bool)
    requires FirstNotFloatGate(a).None? && FirstNotFloatGate(b).None?
    requires DenoteCircuit(a) == DenoteCircuit(b)
    ensures GatesText(a, first) == GatesText(b, first)
    decreases |a|
  {
    if a != [] {
      assert DenoteCircuit(a)[0] == DenoteGate(a[0]) && DenoteCircuit(b)[0] == DenoteGate(b[0]);
      assert DenoteCircuit(a)[1..] == DenoteCircuit(a[1..]) && DenoteCircuit(b)[1..] == DenoteCircuit(b[1..]);
      SameMeaningSameText(a[0].params, b[0].params);
      SameCircuitSameText(a[1..], b[1..], false);
    }
  }

  /** Two circuits have the same signing text exactly when they are the same circuit. */
  lemma CircuitTextCanonical(a: seq<Gate>, b: seq<Gate>)
    requires FirstNotFloatGate(a).None? && FirstNotFloatGate(b).None?
    ensures CircuitText(a) == CircuitText(b) <==> DenoteCircuit(a) == DenoteCircuit(b)
  {
    if DenoteCircuit(a) == DenoteCircuit(b) {
      SameCircuitSameText(a, b, true);
    } else if CircuitText(a) == CircuitText(b) {
      CircuitRoundTrip(a, "");
      CircuitRoundTrip(b, "");
      SameJsonSameCircuit(DenoteCircuit(a), DenoteCircuit(b));
    }
  }
}

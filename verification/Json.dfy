/** The part of encoding/json the preserved-state block needs: the compact printer Go's Marshal is,
    a reader of its output, and what a reader sees that starts in the middle of a printed string. */
module Json {
  import opened Text

  datatype Json = Number(n: nat) | Text(text: string) | Array(items: Items) | Object(fields: Fields)
  datatype Items = NoItems | Item(head: Json, tail: Items)
  datatype Fields = NoFields | Field(key: string, value: Json, tail: Fields)

  /* Printing. */

  const HEX := "0123456789abcdef"

  function Hex4(n: nat): string
    requires n < 0x10000
  {
    [HEX[n / 0x1000], HEX[n / 0x100 % 0x10], HEX[n / 0x10 % 0x10], HEX[n % 0x10]]
  }

  /** The letter of a two-character escape, if the character has one. */
  function Short(c: char): Option<char> {
    if c == '\"' || c == '\\' then Some(c)
    else if c == '\n' then Some('n')
    else if c == '\r' then Some('r')
    else if c == '\t' then Some('t')
    else if c == '\U{8}' then Some('b')
    else if c == '\U{C}' then Some('f')
    else None
  }

  /** The other characters that are written as a code: controls, and what HTML or JavaScript would read. */
  predicate Coded(c: char) {
    c < ' ' || c == '<' || c == '>' || c == '&' || c == '\U{2028}' || c == '\U{2029}'
  }

  predicate Plain(c: char) { Short(c) == None && !Coded(c) }

  function EscapeChar(c: char): string {
    if Short(c).Some? then ['\\', Short(c).value]
    else if Coded(c) then ['\\', 'u'] + Hex4(c as int)
    else [c]
  }

  function Escape(s: string): string {
    if s == "" then "" else EscapeChar(s[0]) + Escape(s[1..])
  }

  function Quote(s: string): string { ['\"'] + (Escape(s) + ['\"']) }

  function Print(j: Json): string {
    match j
    case Number(n) => Numeral(n)
    case Text(s) => Quote(s)
    case Array(items) => ['['] + (PrintItems(items) + [']'])
    case Object(fields) => ['{'] + (PrintFields(fields) + ['}'])
  }

  function PrintItems(items: Items): string {
    match items
    case NoItems => ""
    case Item(head, NoItems) => Print(head)
    case Item(head, tail) => Print(head) + ([','] + PrintItems(tail))
  }

  function PrintFields(fields: Fields): string {
    match fields
    case NoFields => ""
    case Field(key, value, NoFields) => Quote(key) + ([':'] + Print(value))
    case Field(key, value, tail) => Quote(key) + ([':'] + (Print(value) + ([','] + PrintFields(tail))))
  }

  /* Reading. */

  predicate Begins(s: string, c: char) { s != "" && s[0] == c }

  function HexValue(c: char): Option<nat> {
    if '0' <= c <= '9' then Some(c as int - '0' as int)
    else if 'a' <= c <= 'f' then Some(c as int - 'a' as int + 10)
    else if 'A' <= c <= 'F' then Some(c as int - 'A' as int + 10)
    else None
  }

  function HexNumber(s: string): (r: Option<nat>)
    requires |s| == 4
    ensures r.Some? ==> r.value < 0x10000
  {
    var a, b, c, d := HexValue(s[0]), HexValue(s[1]), HexValue(s[2]), HexValue(s[3]);
    if a.None? || b.None? || c.None? || d.None? then None
    else Some(a.value * 0x1000 + b.value * 0x100 + c.value * 0x10 + d.value)
  }

  function LongToChar(n: nat): char
    requires n < 0x10000
  {
    if 0xD800 <= n < 0xE000 then '\U{FFFD}' else n as char
  }

  function ShortToChar(c: char): Option<char> {
    if c == '\"' || c == '\\' || c == '/' then Some(c)
    else if c == 'n' then Some('\n')
    else if c == 'r' then Some('\r')
    else if c == 't' then Some('\t')
    else if c == 'b' then Some('\U{8}')
    else if c == 'f' then Some('\U{C}')
    else None
  }

  /** The character a literal begins with and what follows it. */
  function ReadChar(s: string): (r: Option<(char, string)>)
    requires s != "" && s[0] != '\"'
    ensures r.Some? ==> |r.value.1| < |s|
  {
    if s[0] < ' ' then None
    else if s[0] != '\\' then Some((s[0], s[1..]))
    else if |s| >= 6 && s[1] == 'u' then
      match HexNumber(s[2..6])
      case None => None
      case Some(n) => Some((LongToChar(n), s[6..]))
    else if |s| >= 2 && ShortToChar(s[1]).Some? then Some((ShortToChar(s[1]).value, s[2..]))
    else None
  }

  /** The rest of a string literal, after its opening quote. */
  function ReadText(s: string): (r: Option<(string, string)>)
    ensures r.Some? ==> |r.value.1| < |s|
    decreases |s|
  {
    if s == "" then None
    else if s[0] == '\"' then Some(("", s[1..]))
    else
      match ReadChar(s)
      case None => None
      case Some((c, rest)) =>
        match ReadText(rest)
        case None => None
        case Some((text, after)) => Some(([c] + text, after))
  }

  function ReadValue(s: string): (r: Option<(Json, string)>)
    ensures r.Some? ==> |r.value.1| < |s|
    decreases |s|, 1
  {
    if s == "" then None
    else if s[0] == '\"' then
      match ReadText(s[1..])
      case None => None
      case Some((text, rest)) => Some((Text(text), rest))
    else if s[0] == '[' then
      if Begins(s[1..], ']') then Some((Array(NoItems), s[2..]))
      else match ReadItems(s[1..])
        case None => None
        case Some((items, rest)) => Some((Array(items), rest))
    else if s[0] == '{' then
      if Begins(s[1..], '}') then Some((Object(NoFields), s[2..]))
      else match ReadFields(s[1..])
        case None => None
        case Some((fields, rest)) => Some((Object(fields), rest))
    else if Digits(s) > 0 then Some((Number(Value(s, Digits(s))), s[Digits(s)..]))
    else None
  }

  /** One or more values and the bracket that closes them. */
  function ReadItems(s: string): (r: Option<(Items, string)>)
    ensures r.Some? ==> |r.value.1| < |s|
    decreases |s|, 2
  {
    match ReadValue(s)
    case None => None
    case Some((head, rest)) =>
      if Begins(rest, ']') then Some((Item(head, NoItems), rest[1..]))
      else if !Begins(rest, ',') then None
      else match ReadItems(rest[1..])
        case None => None
        case Some((tail, after)) => Some((Item(head, tail), after))
  }

  /** One or more fields and the brace that closes them. */
  function ReadFields(s: string): (r: Option<(Fields, string)>)
    ensures r.Some? ==> |r.value.1| < |s|
    decreases |s|, 2
  {
    if !Begins(s, '\"') then None
    else match ReadText(s[1..])
      case None => None
      case Some((key, colon)) =>
        if !Begins(colon, ':') then None
        else match ReadValue(colon[1..])
          case None => None
          case Some((value, rest)) =>
            if Begins(rest, '}') then Some((Field(key, value, NoFields), rest[1..]))
            else if !Begins(rest, ',') then None
            else match ReadFields(rest[1..])
              case None => None
              case Some((tail, after)) => Some((Field(key, value, tail), after))
  }

  /* Reading back what was printed. */

  lemma HexReads(n: nat)
    requires n < 0x10000
    ensures HexNumber(Hex4(n)) == Some(n)
  {
    hide HexValue;
    HexDigit(n / 0x1000);
    HexDigit(n / 0x100 % 0x10);
    HexDigit(n / 0x10 % 0x10);
    HexDigit(n % 0x10);
    assert n / 0x100 == n / 0x1000 * 0x10 + n / 0x100 % 0x10;
    assert n / 0x10 == n / 0x100 * 0x10 + n / 0x10 % 0x10;
  }

  lemma HexDigit(d: nat)
    requires d < 16
    ensures HexValue(HEX[d]) == Some(d)
  {
  }

  lemma CharReads(c: char, rest: string)
    ensures EscapeChar(c)[0] != '\"' && ReadChar(EscapeChar(c) + rest) == Some((c, rest))
  {
    var s := EscapeChar(c) + rest;
    if Short(c).Some? {
      assert s[2..] == rest;
    } else if Coded(c) {
      assert s[2..6] == Hex4(c as int) && s[6..] == rest;
      HexReads(c as int);
    } else {
      assert s[1..] == rest;
    }
  }

  lemma {:induction false} TextReads(s: string, rest: string)
    ensures ReadText(Escape(s) + (['\"'] + rest)) == Some((s, rest))
  {
    var close := ['\"'] + rest;
    if s == "" {
      assert Escape(s) + close == close && close[1..] == rest;
    } else {
      assert Escape(s) + close == EscapeChar(s[0]) + (Escape(s[1..]) + close);
      CharReads(s[0], Escape(s[1..]) + close);
      TextReads(s[1..], rest);
      assert [s[0]] + s[1..] == s;
    }
  }

  lemma QuoteReads(s: string, rest: string)
    ensures Begins(Quote(s) + rest, '\"') && ReadText((Quote(s) + rest)[1..]) == Some((s, rest))
  {
    TextReads(s, rest);
    assert (Quote(s) + rest)[1..] == Escape(s) + (['\"'] + rest);
  }

  lemma {:induction false} ValueReads(j: Json, rest: string)
    requires rest != "" ==> !IsDigit(rest[0])
    ensures ReadValue(Print(j) + rest) == Some((j, rest))
    decreases j, 0
  {
    hide Quote, Numeral, Digits, Value;
    var s := Print(j) + rest;
    match j
    case Number(n) =>
      NumeralReads(n, rest);
      assert s[Digits(s)..] == rest;
      assert IsDigit(s[0]);
    case Text(t) =>
      QuoteReads(t, rest);
    case Array(items) =>
      ArrayReads(items, rest);
    case Object(fields) =>
      ObjectReads(fields, rest);
  }

  lemma {:induction false} FirstChar(j: Json)
    ensures Print(j) != "" && Print(j)[0] != ']'
  {
    if j.Number? {
      assert IsDigit(Print(j)[0]);
    }
  }

  lemma {:induction false} ArrayReads(items: Items, rest: string)
    ensures ReadValue(Print(Array(items)) + rest) == Some((Array(items), rest))
    decreases items, 1
  {
    var s := Print(Array(items)) + rest;
    if items.NoItems? {
      assert s[1..] == [']'] + rest && s[2..] == rest;
    } else {
      assert s[1..] == PrintItems(items) + ([']'] + rest);
      FirstChar(items.head);
      assert s[1..][0] == PrintItems(items)[0] == Print(items.head)[0];
      ItemsRead(items, rest);
    }
  }

  lemma {:induction false} ItemsRead(items: Items, rest: string)
    requires items.Item?
    ensures ReadItems(PrintItems(items) + ([']'] + rest)) == Some((items, rest))
    decreases items, 0
  {
    var close := [']'] + rest;
    var s := PrintItems(items) + close;
    if items.tail.NoItems? {
      ValueReads(items.head, close);
      assert close[1..] == rest;
    } else {
      var more := [','] + (PrintItems(items.tail) + close);
      assert s == Print(items.head) + more;
      ValueReads(items.head, more);
      assert more[1..] == PrintItems(items.tail) + close;
      ItemsRead(items.tail, rest);
    }
  }

  lemma {:induction false} ObjectReads(fields: Fields, rest: string)
    ensures ReadValue(Print(Object(fields)) + rest) == Some((Object(fields), rest))
    decreases fields, 1
  {
    var s := Print(Object(fields)) + rest;
    if fields.NoFields? {
      assert s[1..] == ['}'] + rest && s[2..] == rest;
    } else {
      assert s[1..] == PrintFields(fields) + (['}'] + rest);
      assert s[1..][0] == PrintFields(fields)[0] == '\"';
      FieldsRead(fields, rest);
    }
  }

  lemma {:induction false} FieldsRead(fields: Fields, rest: string)
    requires fields.Field?
    ensures ReadFields(PrintFields(fields) + (['}'] + rest)) == Some((fields, rest))
    decreases fields, 0
  {
    hide Quote;
    var close := ['}'] + rest;
    var s := PrintFields(fields) + close;
    var follow := if fields.tail.NoFields? then close else [','] + (PrintFields(fields.tail) + close);
    var colon := [':'] + (Print(fields.value) + follow);
    assert s == Quote(fields.key) + colon;
    QuoteReads(fields.key, colon);
    assert colon[1..] == Print(fields.value) + follow;
    ValueReads(fields.value, follow);
    if fields.tail.NoFields? {
      assert follow[1..] == rest;
    } else {
      assert follow[1..] == PrintFields(fields.tail) + close;
      FieldsRead(fields.tail, rest);
    }
  }

  /* Printed JSON is one line. */

  lemma EscapeCharOneLine(c: char)
    ensures '\n' !in EscapeChar(c)
  {
    assert forall d | 0 <= d < 16 :: HEX[d] != '\n';
  }

  lemma {:induction false} EscapeOneLine(s: string)
    ensures '\n' !in Escape(s)
  {
    if s != "" {
      EscapeCharOneLine(s[0]);
      EscapeOneLine(s[1..]);
    }
  }

  lemma {:induction false} PrintOneLine(j: Json)
    ensures '\n' !in Print(j)
    decreases j
  {
    match j
    case Number(n) =>
    case Text(s) => EscapeOneLine(s);
    case Array(items) => ItemsOneLine(items);
    case Object(fields) => FieldsOneLine(fields);
  }

  lemma {:induction false} ItemsOneLine(items: Items)
    ensures '\n' !in PrintItems(items)
    decreases items
  {
    if items.Item? {
      PrintOneLine(items.head);
      ItemsOneLine(items.tail);
    }
  }

  lemma {:induction false} FieldsOneLine(fields: Fields)
    ensures '\n' !in PrintFields(fields)
    decreases fields
  {
    if fields.Field? {
      EscapeOneLine(fields.key);
      PrintOneLine(fields.value);
      FieldsOneLine(fields.tail);
    }
  }
}

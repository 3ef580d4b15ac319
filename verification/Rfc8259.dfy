/**
  JSON trees and a reference parser for the grammar of RFC 8259, over byte strings (each char
  stands for one byte of a std::string). It is independent of the printer.
 */
module Rfc8259 {
  import opened Prelude

  /** A number is its token; an object its members in printing order. */
  datatype Json =
    | Null
    | Boolean(b: bool)
    | Number(token: string)
    | Str(s: string)
    | Array(items: Items)
    | Object(members: Members)

  datatype Items = NoItems | Item(head: Json, tail: Items)

  datatype Members = NoMembers | Member(key: string, value: Json, rest: Members)

  datatype Parsed<+T> = Parsed(value: T, rest: string)

  // ---- Section 2: white space ----

  predicate IsSpace(c: char) {
    c == ' ' || c == '\t' || c == '\n' || c == '\r'
  }

  function SkipSpace(t: string): (r: string)
    ensures |r| <= |t|
    ensures r != "" ==> !IsSpace(r[0])
    decreases |t|
  {
    if t != "" && IsSpace(t[0]) then SkipSpace(t[1..]) else t
  }

  // ---- Section 6: numbers ----

  predicate IsDigit(c: char) {
    '0' <= c <= '9'
  }

  predicate IsNumberChar(c: char) {
    IsDigit(c) || c == '-' || c == '+' || c == '.' || c == 'e' || c == 'E'
  }

  function SkipDigits(t: string): string
    decreases |t|
  {
    if t != "" && IsDigit(t[0]) then SkipDigits(t[1..]) else t
  }

  /** One or more digits up to the end. */
  predicate AllDigits(t: string) {
    t != "" && IsDigit(t[0]) && SkipDigits(t) == ""
  }

  /** An optional exponent up to the end. */
  predicate IsExponent(t: string) {
    t == "" ||
    ((t[0] == 'e' || t[0] == 'E') &&
     AllDigits(if |t| > 1 && (t[1] == '+' || t[1] == '-') then t[2..] else t[1..]))
  }

  /** An optional fraction and exponent up to the end. */
  predicate IsFraction(t: string) {
    if t != "" && t[0] == '.' then |t| > 1 && IsDigit(t[1]) && IsExponent(SkipDigits(t[1..]))
    else IsExponent(t)
  }

  /** number = [ minus ] int [ frac ] [ exp ] */
  predicate IsNumber(t: string) {
    var u := if t != "" && t[0] == '-' then t[1..] else t;
    u != "" && IsDigit(u[0]) && IsFraction(if u[0] == '0' then u[1..] else SkipDigits(u))
  }

  /** How many leading chars could belong to a number. */
  function NumberSpan(t: string): (n: nat)
    ensures n <= |t|
    decreases |t|
  {
    if t != "" && IsNumberChar(t[0]) then 1 + NumberSpan(t[1..]) else 0
  }

  // ---- Section 7: strings ----

  function HexValue(c: char): Option<nat> {
    if '0' <= c <= '9' then Some(c as int - '0' as int)
    else if 'A' <= c <= 'F' then Some(c as int - 'A' as int + 10)
    else if 'a' <= c <= 'f' then Some(c as int - 'a' as int + 10)
    else None
  }

  /** Four hexadecimal digits as a code unit. */
  function CodeUnit(t: string): (r: Option<nat>)
    ensures r.Some? ==> |t| >= 4 && r.value < 0x1_0000
  {
    if |t| < 4 then None
    else
      var a, b, c, d := HexValue(t[0]), HexValue(t[1]), HexValue(t[2]), HexValue(t[3]);
      if a.Some? && b.Some? && c.Some? && d.Some? then
        Some(4096 * a.value + 256 * b.value + 16 * c.value + d.value)
      else None
  }

  function Byte(n: nat): char
    requires n < 256
  {
    n as char
  }

  /** The UTF-8 form of a code point (section 3 of RFC 3629). */
  function Utf8(p: nat): string
    requires p < 0x11_0000
  {
    if p < 0x80 then [Byte(p)]
    else if p < 0x800 then [Byte(0xC0 + p / 0x40), Byte(0x80 + p % 0x40)]
    else if p < 0x1_0000 then [Byte(0xE0 + p / 0x1000), Byte(0x80 + p / 0x40 % 0x40), Byte(0x80 + p % 0x40)]
    else [Byte(0xF0 + p / 0x4_0000), Byte(0x80 + p / 0x1000 % 0x40),
        Byte(0x80 + p / 0x40 % 0x40), Byte(0x80 + p % 0x40)]
  }

  /** What a two-character escape stands for. */
  function ShortEscape(c: char): Option<char> {
    match c
    case '"' => Some('"')
    case '\\' => Some('\\')
    case '/' => Some('/')
    case 'b' => Some(8 as char)
    case 'f' => Some(12 as char)
    case 'n' => Some('\n')
    case 'r' => Some('\r')
    case 't' => Some('\t')
    case _ => None
  }

  /** The escape after a backslash: the bytes it stands for and what follows. */
  function ParseEscape(t: string): (r: Option<Parsed<string>>)
    ensures r.Some? ==> |r.value.rest| < |t|
  {
    if t == "" then None
    else if t[0] != 'u' then
      (match ShortEscape(t[0])
       case None => None
       case Some(c) => Some(Parsed([c], t[1..])))
    else
      var u := CodeUnit(t[1..]);
      if u.None? || 0xDC00 <= u.value < 0xE000 then None
      else if u.value < 0xD800 || u.value >= 0xE000 then Some(Parsed(Utf8(u.value), t[5..]))
      else if |t| < 7 || t[5] != '\\' || t[6] != 'u' then None
      else
        var v := CodeUnit(t[7..]);
        if v.None? || v.value < 0xDC00 || v.value >= 0xE000 then None
        else Some(Parsed(Utf8(0x1_0000 + (u.value - 0xD800) * 0x400 + (v.value - 0xDC00)), t[11..]))
  }

  /** The rest of a string after its opening quote. */
  function ParseChars(t: string): (r: Option<Parsed<string>>)
    ensures r.Some? ==> |r.value.rest| < |t|
    decreases |t|
  {
    if t == "" then None
    else if t[0] == '"' then Some(Parsed("", t[1..]))
    else if t[0] as int < 0x20 then None
    else if t[0] != '\\' then
      (match ParseChars(t[1..])
       case None => None
       case Some(p) => Some(Parsed([t[0]] + p.value, p.rest)))
    else
      match ParseEscape(t[1..])
      case None => None
      case Some(e) =>
        match ParseChars(e.rest)
        case None => None
        case Some(p) => Some(Parsed(e.value + p.value, p.rest))
  }

  // ---- Sections 3 to 5: values, objects, arrays ----

  function ParseValue(text: string): (r: Option<Parsed<Json>>)
    ensures r.Some? ==> |r.value.rest| < |text|
    decreases |text|, 0
  {
    var t := SkipSpace(text);
    if t == "" then None
    else if t[0] == '{' then
      var u := SkipSpace(t[1..]);
      if u != "" && u[0] == '}' then Some(Parsed(Object(NoMembers), u[1..]))
      else (match ParseMembers(u)
            case None => None
            case Some(p) => Some(Parsed(Object(p.value), p.rest)))
    else if t[0] == '[' then
      var u := SkipSpace(t[1..]);
      if u != "" && u[0] == ']' then Some(Parsed(Array(NoItems), u[1..]))
      else (match ParseItems(u)
            case None => None
            case Some(p) => Some(Parsed(Array(p.value), p.rest)))
    else if t[0] == '"' then
      (match ParseChars(t[1..])
       case None => None
       case Some(p) => Some(Parsed(Str(p.value), p.rest)))
    else if "true" <= t then Some(Parsed(Boolean(true), t[4..]))
    else if "false" <= t then Some(Parsed(Boolean(false), t[5..]))
    else if "null" <= t then Some(Parsed(Null, t[4..]))
    else
      var n := NumberSpan(t);
      if IsNumber(t[..n]) then Some(Parsed(Number(t[..n]), t[n..])) else None
  }

  /** One or more items and the closing bracket. */
  function ParseItems(t: string): (r: Option<Parsed<Items>>)
    ensures r.Some? ==> |r.value.rest| < |t|
    decreases |t|, 1
  {
    match ParseValue(t)
    case None => None
    case Some(p) =>
      var u := SkipSpace(p.rest);
      if u == "" then None
      else if u[0] == ']' then Some(Parsed(Item(p.value, NoItems), u[1..]))
      else if u[0] == ',' then
        (match ParseItems(u[1..])
         case None => None
         case Some(q) => Some(Parsed(Item(p.value, q.value), q.rest)))
      else None
  }

  /** One or more members and the closing brace. */
  function ParseMembers(text: string): (r: Option<Parsed<Members>>)
    ensures r.Some? ==> |r.value.rest| < |text|
    decreases |text|, 1
  {
    var t := SkipSpace(text);
    if t == "" || t[0] != '"' then None
    else match ParseChars(t[1..])
      case None => None
      case Some(key) =>
        var u := SkipSpace(key.rest);
        if u == "" || u[0] != ':' then None
        else match ParseValue(u[1..])
          case None => None
          case Some(p) =>
            var w := SkipSpace(p.rest);
            if w == "" then None
            else if w[0] == '}' then Some(Parsed(Member(key.value, p.value, NoMembers), w[1..]))
            else if w[0] == ',' then
              (match ParseMembers(w[1..])
               case None => None
               case Some(q) => Some(Parsed(Member(key.value, p.value, q.value), q.rest)))
            else None
  }

  /** A JSON text: one value and nothing but white space around it. */
  function Parse(text: string): Option<Json> {
    match ParseValue(text)
    case None => None
    case Some(p) => if SkipSpace(p.rest) == "" then Some(p.value) else None
  }

  // ---- Number tokens ----

  /** Every number token of the tree is a number of the grammar. */
  predicate NumbersOk(v: Json) {
    match v
    case Number(token) => IsNumber(token)
    case Array(items) => NumbersOkInItems(items)
    case Object(members) => NumbersOkInMembers(members)
    case _ => true
  }

  predicate NumbersOkInItems(items: Items) {
    items.Item? ==> NumbersOk(items.head) && NumbersOkInItems(items.tail)
  }

  predicate NumbersOkInMembers(members: Members) {
    members.Member? ==> NumbersOk(members.value) && NumbersOkInMembers(members.rest)
  }

  /** The parser yields only such trees. */
  lemma {:induction false} ParsedNumbersOk(t: string)
    ensures ParseValue(t).Some? ==> NumbersOk(ParseValue(t).value.value)
    decreases |t|, 0
  {
    var u := SkipSpace(t);
    if u != "" {
      ParsedMembersOk(SkipSpace(u[1..]));
      ParsedItemsOk(SkipSpace(u[1..]));
    }
  }

  lemma {:induction false} ParsedItemsOk(t: string)
    ensures ParseItems(t).Some? ==> NumbersOkInItems(ParseItems(t).value.value)
    decreases |t|, 1
  {
    ParsedNumbersOk(t);
    var p := ParseValue(t);
    if p.Some? && SkipSpace(p.value.rest) != "" {
      ParsedItemsOk(SkipSpace(p.value.rest)[1..]);
    }
  }

  lemma {:induction false} ParsedMembersOk(text: string)
    ensures ParseMembers(text).Some? ==> NumbersOkInMembers(ParseMembers(text).value.value)
    decreases |text|, 1
  {
    var t := SkipSpace(text);
    if t != "" && ParseChars(t[1..]).Some? {
      var u := SkipSpace(ParseChars(t[1..]).value.rest);
      if u != "" {
        ParsedNumbersOk(u[1..]);
        var p := ParseValue(u[1..]);
        if p.Some? && SkipSpace(p.value.rest) != "" {
          ParsedMembersOk(SkipSpace(p.value.rest)[1..]);
        }
      }
    }
  }
}

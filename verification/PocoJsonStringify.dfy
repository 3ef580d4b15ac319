/**
  The JSON printer, in its default mode. `Print` is the text a tree adds to `str`; class
  `Stringifier` appends it as the source does. The reference parser inverts it exactly on the
  trees whose number tokens are numbers.
 */
module PocoJsonStringify {
  import opened Prelude
  import opened Rfc8259

  /** appendHex with width 4, of one byte: upper case, zero padded. */
  function Hex4(n: nat): string
    requires n < 256
  {
    ['0', '0', HexDigit(n / 16), HexDigit(n % 16)]
  }

  /** The chars the printer escapes in default mode. A byte above 127 is a negative char. */
  predicate NeedsEscape(c: char) {
    c as int <= 31 || c == '"' || c == '\\'
  }

  /** escapeJSONUTF8 on the one-byte ranges it is called with in default mode. */
  function Escape(c: char): string
    requires c as int < 0x80
  {
    var curCh := c as int;
    if c == '\n' then "\\n"
    else if c == '\t' then "\\t"
    else if c == '\r' then "\\r"
    else if curCh == 8 then "\\b"
    else if curCh == 12 then "\\f"
    else if curCh == 11 then "\\u000B"
    else if curCh == 7 then "\\u0007"
    else if c == '\\' then "\\\\"
    else if c == '"' then "\\\""
    else if c == '/' then "\\/"
    else if curCh == 0 then "\\u0000"
    else if curCh < 32 || curCh == 0x7f then "\\u" + Hex4(curCh)
    else [c]
  }

  function PrintChar(c: char): string {
    if NeedsEscape(c) then Escape(c) else [c]
  }

  function PrintChars(s: string): string {
    if s == "" then "" else PrintChar(s[0]) + PrintChars(s[1..])
  }

  function PrintString(s: string): string {
    "\"" + PrintChars(s) + "\""
  }

  function Print(v: Json): string {
    match v
    case Null => "null"
    case Boolean(b) => if b then "true" else "false"
    case Number(token) => token
    case Str(s) => PrintString(s)
    case Array(items) => "[" + PrintItems(items, true) + "]"
    case Object(members) => "{" + PrintMembers(members, true) + "}"
  }

  function PrintItems(items: Items, first: bool): string {
    match items
    case NoItems => ""
    case Item(v, rest) => (if first then "" else ",") + Print(v) + PrintItems(rest, false)
  }

  function PrintMembers(members: Members, first: bool): string {
    match members
    case NoMembers => ""
    case Member(k, v, rest) =>
      (if first then "" else ",") + PrintString(k) + ":" + Print(v) + PrintMembers(rest, false)
  }

  // ---- Texts ----

  /** The text of each char: the short escapes, four upper-case digits for the other controls, else itself. */
  lemma CharTexts(c: char)
    ensures c == '"' ==> PrintChar(c) == ['\\', '"']
    ensures c == '\\' ==> PrintChar(c) == ['\\', '\\']
    ensures c == '\n' ==> PrintChar(c) == ['\\', 'n']
    ensures c == '\t' ==> PrintChar(c) == ['\\', 't']
    ensures c == '\r' ==> PrintChar(c) == ['\\', 'r']
    ensures c == 8 as char ==> PrintChar(c) == ['\\', 'b']
    ensures c == 12 as char ==> PrintChar(c) == ['\\', 'f']
    ensures c < ' ' && c as int !in {8, 9, 10, 12, 13} ==>
      PrintChar(c) == ['\\', 'u', '0', '0', "01"[c as int / 16], "0123456789ABCDEF"[c as int % 16]]
    ensures c >= ' ' && c != '"' && c != '\\' ==> PrintChar(c) == [c]
  {
  }

  /** The shortest text the grammar allows for a tree whose strings are escaped so: no white space. */
  function Length(v: Json): nat {
    match v
    case Null => 4
    case Boolean(b) => if b then 4 else 5
    case Number(token) => |token|
    case Str(s) => 2 + |PrintChars(s)|
    case Array(items) => 1 + (if items.NoItems? then 1 else ItemsLength(items))
    case Object(members) => 1 + (if members.NoMembers? then 1 else MembersLength(members))
  }

  /** Each item and what follows it: a comma or the bracket. */
  function ItemsLength(items: Items): nat {
    if items.NoItems? then 0 else Length(items.head) + 1 + ItemsLength(items.tail)
  }

  function MembersLength(members: Members): nat {
    if members.NoMembers? then 0
    else 2 + |PrintChars(members.key)| + 1 + Length(members.value) + 1 + MembersLength(members.rest)
  }

  lemma {:induction false} PrintsShortest(v: Json)
    ensures |Print(v)| == Length(v)
  {
    match v
    case Array(items) => ItemsShortest(items, true);
    case Object(members) => MembersShortest(members, true);
    case _ =>
  }

  lemma {:induction false} ItemsShortest(items: Items, first: bool)
    ensures |PrintItems(items, first)| == ItemsLength(items) - (if first && items.Item? then 1 else 0)
  {
    if items.Item? {
      PrintsShortest(items.head);
      ItemsShortest(items.tail, false);
    }
  }

  lemma {:induction false} MembersShortest(members: Members, first: bool)
    ensures |PrintMembers(members, first)| == MembersLength(members) - (if first && members.Member? then 1 else 0)
  {
    if members.Member? {
      PrintsShortest(members.value);
      MembersShortest(members.rest, false);
    }
  }

  // ---- Strings ----

  lemma EscapeInverse(c: char, r: string)
    requires NeedsEscape(c)
    ensures var e := Escape(c);
      && |e| > 1 && e[0] == '\\'
      && ParseEscape(e[1..] + r) == Some(Parsed([c], r))
  {
    var e := Escape(c);
    var t := e[1..] + r;
    if |e| == 6 {
      var n := c as int;
      assert e[2..6] == Hex4(n);
      assert t[1..] == Hex4(n) + r;
      assert HexValue(HexDigit(n / 16)) == Some(n / 16) && HexValue(HexDigit(n % 16)) == Some(n % 16);
      assert CodeUnit(t[1..]) == Some(n);
      assert t[5..] == r;
      assert n as char == c;
    } else {
      assert |e| == 2 && t == [e[1]] + r;
      assert t[1..] == r;
      assert ShortEscape(e[1]) == Some(c);
    }
  }

  lemma {:induction false} StringInverse(s: string, r: string)
    ensures ParseChars(PrintChars(s) + "\"" + r) == Some(Parsed(s, r))
    decreases |s|
  {
    hide ParseEscape, Escape;
    var t := PrintChars(s) + "\"" + r;
    if s == "" {
      assert t == "\"" + r && t[1..] == r;
    } else {
      var c, later := s[0], PrintChars(s[1..]) + "\"" + r;
      StringInverse(s[1..], r);
      assert s == [c] + s[1..];
      assert t == PrintChar(c) + later;
      if NeedsEscape(c) {
        EscapeInverse(c, later);
        assert t[1..] == Escape(c)[1..] + later;
      } else {
        assert t[1..] == later;
      }
    }
  }

  // ---- Numbers ----

  /** What may follow a value so that a number before it ends there. */
  predicate Delimited(r: string) {
    r == "" || !IsNumberChar(r[0])
  }

  ghost predicate Numeric(t: string) {
    forall i :: 0 <= i < |t| ==> IsNumberChar(t[i])
  }

  lemma {:induction false} DigitsAreNumberChars(t: string)
    requires Numeric(SkipDigits(t))
    ensures Numeric(t)
    decreases |t|
  {
    if t != "" && IsDigit(t[0]) {
      assert SkipDigits(t) == SkipDigits(t[1..]);
      DigitsAreNumberChars(t[1..]);
      assert t == [t[0]] + t[1..];
    }
  }

  lemma ExponentChars(t: string)
    requires IsExponent(t)
    ensures Numeric(t)
  {
    if t != "" {
      var d := if |t| > 1 && (t[1] == '+' || t[1] == '-') then t[2..] else t[1..];
      DigitsAreNumberChars(d);
      assert t == t[..|t| - |d|] + d;
    }
  }

  lemma FractionChars(t: string)
    requires IsFraction(t)
    ensures Numeric(t)
  {
    if t != "" && t[0] == '.' {
      ExponentChars(SkipDigits(t[1..]));
      DigitsAreNumberChars(t[1..]);
      assert t == [t[0]] + t[1..];
    } else {
      ExponentChars(t);
    }
  }

  lemma NumberChars(t: string)
    requires IsNumber(t)
    ensures t != "" && Numeric(t)
    ensures t[0] == '-' || IsDigit(t[0])
  {
    var u := if t[0] == '-' then t[1..] else t;
    if u[0] == '0' {
      FractionChars(u[1..]);
      assert u == [u[0]] + u[1..];
    } else {
      FractionChars(SkipDigits(u));
      DigitsAreNumberChars(u);
    }
    assert t == t[..|t| - |u|] + u;
  }

  lemma {:induction false} SpanOfNumber(t: string, r: string)
    requires Delimited(r) && Numeric(t)
    ensures NumberSpan(t + r) == |t|
    decreases |t|
  {
    if t == "" {
      assert t + r == r;
    } else {
      SpanOfNumber(t[1..], r);
      assert (t + r)[1..] == t[1..] + r;
    }
  }

  lemma NumberInverse(token: string, r: string)
    requires IsNumber(token) && Delimited(r)
    ensures ParseValue(token + r) == Some(Parsed(Number(token), r))
  {
    NumberChars(token);
    SpanOfNumber(token, r);
    var t := token + r;
    assert t[0] == token[0] && SkipSpace(t) == t;
    assert t[..|token|] == token && t[|token|..] == r;
    assert !("true" <= t) && !("false" <= t) && !("null" <= t) by {
      assert "true"[0] == 't' && "false"[0] == 'f' && "null"[0] == 'n';
    }
  }

  // ---- Trees ----

  /** A printed value starts with a char that is no white space and closes nothing. */
  lemma FirstChar(v: Json)
    requires NumbersOk(v)
    ensures Print(v) != ""
    ensures var c := Print(v)[0]; !IsSpace(c) && c != ']' && c != '}' && c != ','
  {
    if v.Number? {
      NumberChars(v.token);
    }
  }

  /** Parsing what was printed gives the value back and stops where it ended. */
  lemma {:induction false} ValueInverse(v: Json, r: string)
    requires NumbersOk(v) && Delimited(r)
    ensures ParseValue(Print(v) + r) == Some(Parsed(v, r))
    decreases v, 0
  {
    hide ParseItems, ParseMembers, ParseChars, PrintItems, PrintMembers, PrintChars, IsNumber, NumberSpan;
    var t := Print(v) + r;
    FirstChar(v);
    assert t[0] == Print(v)[0] && SkipSpace(t) == t;
    match v
    case Null => LiteralInverse("null", r);
    case Boolean(b) => LiteralInverse(Print(v), r);
    case Number(token) => NumberInverse(token, r);
    case Str(s) =>
      StringInverse(s, r);
      assert t[1..] == PrintChars(s) + "\"" + r;
    case Array(items) =>
      var u := PrintItems(items, true) + "]" + r;
      assert t[1..] == u;
      EmptyLists();
      if items.NoItems? {
        assert u == "]" + r && u[1..] == r;
      } else {
        ItemsInverse(items, r);
        FirstChar(items.head);
        FirstPrinted(items);
        assert u[0] == Print(items.head)[0];
      }
    case Object(members) =>
      var u := PrintMembers(members, true) + "}" + r;
      assert t[1..] == u;
      EmptyLists();
      if members.NoMembers? {
        assert u == "}" + r && u[1..] == r;
      } else {
        MembersInverse(members, r);
        FirstKeyPrinted(members);
        assert u[0] == '"';
      }
  }

  lemma EmptyLists()
    ensures PrintItems(NoItems, true) == "" && PrintMembers(NoMembers, true) == ""
  {
  }

  lemma FirstPrinted(items: Items)
    requires items.Item?
    ensures Print(items.head) <= PrintItems(items, true)
  {
    assert "" + Print(items.head) == Print(items.head);
  }

  lemma FirstKeyPrinted(members: Members)
    requires members.Member?
    ensures PrintMembers(members, true) != "" && PrintMembers(members, true)[0] == '"'
  {
    assert PrintString(members.key)[0] == '"';
    hide PrintString;
  }

  lemma LiteralInverse(w: string, r: string)
    requires w in {"null", "true", "false"}
    ensures ParseValue(w + r) == Some(Parsed(if w == "null" then Null else Boolean(w == "true"), r))
  {
    var t := w + r;
    assert w <= t && t[0] == w[0] && t[|w|..] == r;
    assert "true"[0] == 't' && "false"[0] == 'f' && "null"[0] == 'n';
  }

  lemma {:induction false} ItemsInverse(items: Items, r: string)
    requires items.Item? && NumbersOkInItems(items)
    ensures ParseItems(PrintItems(items, true) + "]" + r) == Some(Parsed(items, r))
    decreases items, 1
  {
    hide ParseValue, Print, NumbersOk;
    var rest := items.tail;
    var after := PrintItems(rest, false) + "]" + r;
    assert PrintItems(items, true) + "]" + r == Print(items.head) + after;
    if rest.NoItems? {
      assert after == "]" + r && after[1..] == r;
      ValueInverse(items.head, after);
    } else {
      assert after == "," + (PrintItems(rest, true) + "]" + r);
      assert after[1..] == PrintItems(rest, true) + "]" + r;
      ValueInverse(items.head, after);
      ItemsInverse(rest, r);
    }
  }

  lemma {:induction false} MembersInverse(members: Members, r: string)
    requires members.Member? && NumbersOkInMembers(members)
    ensures ParseMembers(PrintMembers(members, true) + "}" + r) == Some(Parsed(members, r))
    decreases members, 1
  {
    hide ParseValue, ParseChars, Print, PrintChars, NumbersOk;
    var k, v, rest := members.key, members.value, members.rest;
    var after := PrintMembers(rest, false) + "}" + r;
    var body := ":" + (Print(v) + after);
    var t := PrintMembers(members, true) + "}" + r;
    assert t == PrintString(k) + body;
    assert t[0] == '"' && t[1..] == PrintChars(k) + "\"" + body;
    assert body[1..] == Print(v) + after;
    hide PrintString;
    StringInverse(k, body);
    if rest.NoMembers? {
      assert after == "}" + r && after[1..] == r;
      hide PrintMembers;
      ValueInverse(v, after);
    } else {
      assert after == "," + (PrintMembers(rest, true) + "}" + r);
      assert after[1..] == PrintMembers(rest, true) + "}" + r;
      hide PrintMembers;
      ValueInverse(v, after);
      MembersInverse(rest, r);
    }
  }

  /** Printing and parsing is the identity exactly on the trees whose number tokens are numbers. */
  lemma PrintParses(v: Json)
    ensures Parse(Print(v)) == Some(v) <==> NumbersOk(v)
  {
    if NumbersOk(v) {
      ValueInverse(v, "");
      assert Print(v) + "" == Print(v);
    } else {
      ParsedNumbersOk(Print(v));
    }
  }

  /** Two trees that print alike are the same tree. */
  lemma PrintInjective(v: Json, w: Json)
    requires NumbersOk(v) && NumbersOk(w) && Print(v) == Print(w)
    ensures v == w
  {
    PrintParses(v);
    PrintParses(w);
  }

  // ---- The object ----

  function Comma(first: bool): string {
    if first then "" else ","
  }

  /** `str` is `base` with all of `value` but its last chars from i on. */
  ghost predicate CharsDone(str: string, base: string, value: string, i: nat)
    requires i <= |value|
  {
    str + PrintChars(value[i..]) == base + PrintChars(value)
  }

  lemma NextChar(str: string, base: string, value: string, i: nat)
    requires i < |value| && CharsDone(str, base, value, i)
    ensures CharsDone(str + PrintChar(value[i]), base, value, i + 1)
  {
    hide PrintChar;
    assert value[i..][1..] == value[i + 1..];
    assert str + (PrintChar(value[i]) + PrintChars(value[i + 1..]))
        == str + PrintChar(value[i]) + PrintChars(value[i + 1..]);
  }

  lemma CharsDoneEnds(base: string, value: string)
    ensures CharsDone(base, base, value, 0)
    ensures forall str :: CharsDone(str, base, value, |value|) ==> str == base + PrintChars(value)
  {
    assert value[0..] == value;
    forall str | CharsDone(str, base, value, |value|) ensures str == base + PrintChars(value) {
      assert value[|value|..] == "" && str + "" == str;
    }
  }

  /** `str` is `base` with all of `items` but `rest`. */
  ghost predicate ItemsDone(str: string, base: string, items: Items, rest: Items, first: bool) {
    str + PrintItems(rest, first) == base + PrintItems(items, true)
  }

  lemma NextItem(str: string, base: string, items: Items, rest: Items, first: bool)
    requires rest.Item? && ItemsDone(str, base, items, rest, first)
    ensures ItemsDone(str + Comma(first) + Print(rest.head), base, items, rest.tail, false)
  {
    hide Print;
    var c, p, l := Comma(first), Print(rest.head), PrintItems(rest.tail, false);
    assert str + (c + p + l) == str + c + p + l;
  }

  lemma ItemsDoneEnds(base: string, items: Items)
    ensures ItemsDone(base, base, items, items, true)
    ensures forall str, first :: ItemsDone(str, base, items, NoItems, first) ==> str == base + PrintItems(items, true)
  {
    forall str, first | ItemsDone(str, base, items, NoItems, first) ensures str == base + PrintItems(items, true) {
      assert str + "" == str;
    }
  }

  /** `str` is `base` with all of `members` but `rest`. */
  ghost predicate MembersDone(str: string, base: string, members: Members, rest: Members, first: bool) {
    str + PrintMembers(rest, first) == base + PrintMembers(members, true)
  }

  lemma NextMember(str: string, base: string, members: Members, rest: Members, first: bool)
    requires rest.Member? && MembersDone(str, base, members, rest, first)
    ensures MembersDone(str + Comma(first) + PrintString(rest.key) + ":" + Print(rest.value),
        base, members, rest.rest, false)
  {
    hide Print, PrintString;
    var c, k, p, l := Comma(first), PrintString(rest.key), Print(rest.value), PrintMembers(rest.rest, false);
    assert str + (c + k + ":" + p + l) == str + c + k + ":" + p + l;
  }

  lemma MembersDoneEnds(base: string, members: Members)
    ensures MembersDone(base, base, members, members, true)
    ensures forall str, first :: MembersDone(str, base, members, NoMembers, first) ==>
        str == base + PrintMembers(members, true)
  {
    forall str, first | MembersDone(str, base, members, NoMembers, first)
        ensures str == base + PrintMembers(members, true) {
      assert str + "" == str;
    }
  }

  class Stringifier {
    var str: string

    constructor ()
      ensures str == ""
    {
      str := "";
    }

    method Append(inval: string)
      modifies this
      ensures str == old(str) + inval
    {
      str := str + inval;
    }

    /** escapeJSONUTF8 on the range of one byte. */
    method EscapeJSONUTF8(c: char)
      requires c as int < 0x80
      modifies this
      ensures str == old(str) + Escape(c)
    {
      var curCh := c as int;
      if c == '\n' {
        Append("\\n");
      } else if c == '\t' {
        Append("\\t");
      } else if c == '\r' {
        Append("\\r");
      } else if curCh == 8 {
        Append("\\b");
      } else if curCh == 12 {
        Append("\\f");
      } else if curCh == 11 {
        Append("\\u000B");
      } else if curCh == 7 {
        Append("\\u0007");
      } else if c == '\\' {
        Append("\\\\");
      } else if c == '"' {
        Append("\\\"");
      } else if c == '/' {
        Append("\\/");
      } else if curCh == 0 {
        Append("\\u0000");
      } else if curCh < 32 || curCh == 0x7f {
        Append("\\u");
        Append(Hex4(curCh));
      } else {
        Append([c]);
      }
    }

    method FormatString(value: string)
      modifies this
      ensures str == old(str) + PrintString(value)
    {
      hide CharsDone, PrintChars, Escape;
      Append("\"");
      var i := 0;
      ghost var base := str;
      CharsDoneEnds(base, value);
      while i < |value|
        invariant i <= |value| && CharsDone(str, base, value, i)
      {
        NextChar(str, base, value, i);
        if NeedsEscape(value[i]) {
          EscapeJSONUTF8(value[i]);
        } else {
          Append([value[i]]);
        }
        i := i + 1;
      }
      Append("\"");
      assert PrintString(value) == "\"" + PrintChars(value) + "\"";
    }

    /** A comma before every element but the first. */
    method Separate(first: bool)
      modifies this
      ensures str == old(str) + Comma(first)
    {
      if !first {
        Append(",");
      }
    }

    method StringifyObject(members: Members)
      modifies this
      ensures str == old(str) + Print(Object(members))
      decreases members, 1
    {
      hide MembersDone, PrintMembers, PrintString, Comma;
      assert Print(Object(members)) == "{" + PrintMembers(members, true) + "}";
      hide Print;
      Append("{");
      var first, rest := true, members;
      ghost var base := str;
      MembersDoneEnds(base, members);
      while rest.Member?
        invariant rest == members || rest < members
        invariant MembersDone(str, base, members, rest, first)
        decreases rest
      {
        NextMember(str, base, members, rest, first);
        Separate(first);
        first := false;
        FormatString(rest.key);
        Append(":");
        StringifyVar(rest.value);
        rest := rest.rest;
      }
      Append("}");
    }

    method StringifyArray(items: Items)
      modifies this
      ensures str == old(str) + Print(Array(items))
      decreases items, 1
    {
      hide ItemsDone, PrintItems, Comma;
      assert Print(Array(items)) == "[" + PrintItems(items, true) + "]";
      hide Print;
      Append("[");
      var first, rest := true, items;
      ghost var base := str;
      ItemsDoneEnds(base, items);
      while rest.Item?
        invariant rest == items || rest < items
        invariant ItemsDone(str, base, items, rest, first)
        decreases rest
      {
        NextItem(str, base, items, rest, first);
        Separate(first);
        first := false;
        StringifyVar(rest.head);
        rest := rest.tail;
      }
      Append("]");
    }

    /** stringify of a dynamic value: what it appends is its JSON text. */
    method StringifyVar(v: Json)
      modifies this
      ensures str == old(str) + Print(v)
      decreases v, 0
    {
      match v {
        case Object(members) => StringifyObject(members);
        case Array(items) => StringifyArray(items);
        case Null => Append("null");
        case Boolean(b) => Append(if b then "true" else "false");
        case Number(token) => Append(token);
        case Str(s) => FormatString(s);
      }
    }
  }

  /** A fresh stringifier's output, read back by the reference parser, is the tree. */
  method JsonToString(v: Json) returns (text: string)
    ensures Parse(text) == Some(v) <==> NumbersOk(v)
    ensures text == Print(v)
  {
    var stringifier := new Stringifier();
    stringifier.StringifyVar(v);
    text := stringifier.str;
    assert "" + Print(v) == Print(v);
    PrintParses(v);
  }
}

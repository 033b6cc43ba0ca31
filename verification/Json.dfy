/** JSON trees and their text (`JSON.stringify`). */
module Json {
  import opened Basics

  /** A number is its shortest decimal text; an object is its entries in insertion order. */
  datatype Json =
    | Null
    | Bool(value: bool)
    | Number(text: string)
    | Text(content: string)
    | Array(items: seq<Json>)
    | Object(entries: seq<Entry>)

  datatype Entry = Entry(key: string, child: Json)

  predicate IsNumberChar(c: char) {
    '0' <= c <= '9' || c == '-' || c == '+' || c == '.' || c == 'e'
  }

  predicate IsNumberText(s: string) {
    s != [] && ('0' <= s[0] <= '9' || s[0] == '-') && forall i :: 0 <= i < |s| ==> IsNumberChar(s[i])
  }

  ghost predicate DistinctKeys(entries: seq<Entry>) {
    forall i, j :: 0 <= i < j < |entries| ==> entries[i].key != entries[j].key
  }

  /** What every JavaScript value made of plain data satisfies. */
  ghost predicate WellFormed(j: Json) {
    match j
    case Number(text) => IsNumberText(text)
    case Array(items) => forall i :: 0 <= i < |items| ==> WellFormed(items[i])
    case Object(entries) => DistinctKeys(entries) && forall i :: 0 <= i < |entries| ==> WellFormed(entries[i].child)
    case _ => true
  }

  // ----- text

  const HEX_DIGITS: string := "0123456789abcdef"

  function ControlEscape(code: int): string
    requires 0 <= code < 256
  {
    ['\\', 'u', '0', '0', HEX_DIGITS[code / 16], HEX_DIGITS[code % 16]]
  }

  /** The JSON escape of one character: quote, backslash and control characters. */
  function EscapeChar(c: char): string {
    if c == '"' then "\\\""
    else if c == '\\' then "\\\\"
    else if c == '\U{0008}' then "\\b"
    else if c == '\U{000C}' then "\\f"
    else if c == '\n' then "\\n"
    else if c == '\r' then "\\r"
    else if c == '\t' then "\\t"
    else if c < ' ' then ControlEscape(c as int)
    else [c]
  }

  // Every writer puts its text in front of `rest`.

  function WriteChars(s: string, rest: string): string {
    if s == [] then "\"" + rest else EscapeChar(s[0]) + WriteChars(s[1..], rest)
  }

  function WriteQuoted(s: string, rest: string): string {
    "\"" + WriteChars(s, rest)
  }

  function Write(j: Json, rest: string): string
    decreases j, 0
  {
    match j
    case Null => "null" + rest
    case Bool(b) => (if b then "true" else "false") + rest
    case Number(text) => text + rest
    case Text(s) => WriteQuoted(s, rest)
    case Array(items) =>
      "[" + (if items == [] then "]" + rest else Write(items[0], WriteItems(items[1..], rest)))
    case Object(entries) =>
      "{" + (if entries == [] then "}" + rest else WriteEntry(entries[0], WriteEntries(entries[1..], rest)))
  }

  /** The items after the first one and the closing bracket. */
  function WriteItems(items: seq<Json>, rest: string): string
    decreases items
  {
    if items == [] then "]" + rest else "," + Write(items[0], WriteItems(items[1..], rest))
  }

  function WriteEntry(e: Entry, rest: string): string
    decreases e, 1
  {
    WriteQuoted(e.key, ":" + Write(e.child, rest))
  }

  function WriteEntries(entries: seq<Entry>, rest: string): string
    decreases entries
  {
    if entries == [] then "}" + rest else "," + WriteEntry(entries[0], WriteEntries(entries[1..], rest))
  }

  /** `JSON.stringify` without indentation. */
  function Stringify(j: Json): string {
    Write(j, [])
  }

  // ----- the text determines the tree

  lemma PrefixUnique(w: string, x: string, y: string)
    requires w + x == w + y
    ensures x == y
  {
    assert x == (w + x)[|w|..] && y == (w + y)[|w|..];
  }

  function HexValue(c: char): int {
    if '0' <= c <= '9' then c as int - '0' as int else c as int - 'a' as int + 10
  }

  /** The code of the character whose escape the text starts with. */
  function ReadChar(s: string): int
    requires |s| >= 1
  {
    if s[0] != '\\' || |s| < 2 then s[0] as int
    else if s[1] == 'b' then 8
    else if s[1] == 't' then 9
    else if s[1] == 'n' then 10
    else if s[1] == 'f' then 12
    else if s[1] == 'r' then 13
    else if s[1] == 'u' && |s| >= 6 then 16 * HexValue(s[4]) + HexValue(s[5])
    else s[1] as int
  }

  lemma HexIsRead(m: int)
    requires 0 <= m < 16
    ensures HexValue(HEX_DIGITS[m]) == m
  {}

  lemma ControlIsRead(code: int, rest: string)
    requires 0 <= code < 256
    ensures ReadChar(ControlEscape(code) + rest) == code
  {
    var e := ControlEscape(code);
    var s := e + rest;
    assert s[0] == e[0] && s[1] == e[1] && s[4] == e[4] && s[5] == e[5];
    HexIsRead(code / 16);
    HexIsRead(code % 16);
  }

  lemma EscapeIsRead(c: char, rest: string)
    ensures ReadChar(EscapeChar(c) + rest) == c as int
  {
    var e := EscapeChar(c);
    if c < ' ' && e == ControlEscape(c as int) {
      ControlIsRead(c as int, rest);
    } else {
      var s := e + rest;
      assert s[0] == e[0] && (|e| > 1 ==> s[1] == e[1]);
    }
  }

  /** No escape is a prefix of another. */
  lemma EscapeCharUnique(c: char, d: char, x: string, y: string)
    requires EscapeChar(c) + x == EscapeChar(d) + y
    ensures c == d && x == y
  {
    EscapeIsRead(c, x);
    EscapeIsRead(d, y);
    PrefixUnique(EscapeChar(c), x, y);
  }

  lemma FirstWritten(s: string, rest: string)
    ensures WriteChars(s, rest) != [] && (WriteChars(s, rest)[0] == '"' <==> s == [])
  {}

  lemma {:induction false} CharsUnique(s: string, t: string, x: string, y: string)
    requires WriteChars(s, x) == WriteChars(t, y)
    ensures s == t && x == y
    decreases |s|
  {
    FirstWritten(s, x);
    FirstWritten(t, y);
    if s == [] {
      PrefixUnique("\"", x, y);
    } else {
      EscapeCharUnique(s[0], t[0], WriteChars(s[1..], x), WriteChars(t[1..], y));
      CharsUnique(s[1..], t[1..], x, y);
      assert s == [s[0]] + s[1..] && t == [t[0]] + t[1..];
    }
  }

  lemma QuotedUnique(s: string, t: string, x: string, y: string)
    requires WriteQuoted(s, x) == WriteQuoted(t, y)
    ensures s == t && x == y
  {
    PrefixUnique("\"", WriteChars(s, x), WriteChars(t, y));
    CharsUnique(s, t, x, y);
  }

  /** What may follow a value: nothing, or a character that does not continue a number. */
  predicate Closes(x: string) {
    x != [] ==> !IsNumberChar(x[0])
  }

  lemma NumberUnique(s: string, t: string, x: string, y: string)
    requires forall i :: 0 <= i < |s| ==> IsNumberChar(s[i])
    requires forall i :: 0 <= i < |t| ==> IsNumberChar(t[i])
    requires Closes(x) && Closes(y) && s + x == t + y
    ensures s == t && x == y
  {
    NumberNotLonger(s, t, x, y);
    NumberNotLonger(t, s, y, x);
    assert s == (s + x)[..|s|] && t == (t + y)[..|t|];
    PrefixUnique(s, x, y);
  }

  lemma NumberNotLonger(s: string, t: string, x: string, y: string)
    requires forall i :: 0 <= i < |t| ==> IsNumberChar(t[i])
    requires Closes(x) && s + x == t + y
    ensures |t| <= |s|
  {
    var whole := s + x;
    assert forall i :: 0 <= i < |t| ==> (t + y)[i] == t[i];
    assert forall i :: 0 <= i < |t| ==> IsNumberChar(whole[i]);
    assert x != [] ==> whole[|s|] == x[0];
  }

  /** The first character of a value tells its kind. */
  predicate Starts(j: Json, c: char) {
    match j
    case Null => c == 'n'
    case Bool(b) => c == (if b then 't' else 'f')
    case Number(_) => '0' <= c <= '9' || c == '-'
    case Text(_) => c == '"'
    case Array(_) => c == '['
    case Object(_) => c == '{'
  }

  lemma FirstChar(j: Json, rest: string)
    requires WellFormed(j)
    ensures Write(j, rest) != [] && Starts(j, Write(j, rest)[0])
  {}

  /** No text of one value can be read as another: the text and whatever follows it
      determine the tree and the rest. */
  lemma WriteUnique(a: Json, b: Json, x: string, y: string)
    requires WellFormed(a) && WellFormed(b)
    requires Closes(x) && Closes(y)
    requires Write(a, x) == Write(b, y)
    ensures a == b && x == y
    decreases a, 0
  {
    FirstChar(a, x);
    FirstChar(b, y);
    match a {
      case Null => PrefixUnique("null", x, y);
      case Bool(v) => PrefixUnique(if v then "true" else "false", x, y);
      case Number(text) => NumberUnique(a.text, b.text, x, y);
      case Text(content) => QuotedUnique(a.content, b.content, x, y);
      case Array(items) => ArraysUnique(a.items, b.items, x, y);
      case Object(entries) => ObjectsUnique(a.entries, b.entries, x, y);
    }
  }

  lemma ArraysUnique(a: seq<Json>, b: seq<Json>, x: string, y: string)
    requires WellFormed(Array(a)) && WellFormed(Array(b))
    requires Closes(x) && Closes(y)
    requires Write(Array(a), x) == Write(Array(b), y)
    ensures a == b && x == y
    decreases a
  {
    var s := if a == [] then "]" + x else Write(a[0], WriteItems(a[1..], x));
    var t := if b == [] then "]" + y else Write(b[0], WriteItems(b[1..], y));
    PrefixUnique("[", s, t);
    if a != [] {
      FirstChar(a[0], WriteItems(a[1..], x));
    }
    if b != [] {
      FirstChar(b[0], WriteItems(b[1..], y));
    }
    if a == [] {
      PrefixUnique("]", x, y);
    } else {
      WriteUnique(a[0], b[0], WriteItems(a[1..], x), WriteItems(b[1..], y));
      ItemsUnique(a[1..], b[1..], x, y);
      assert a == [a[0]] + a[1..] && b == [b[0]] + b[1..];
    }
  }

  lemma {:induction false} ItemsUnique(a: seq<Json>, b: seq<Json>, x: string, y: string)
    requires forall i :: 0 <= i < |a| ==> WellFormed(a[i])
    requires forall i :: 0 <= i < |b| ==> WellFormed(b[i])
    requires Closes(x) && Closes(y)
    requires WriteItems(a, x) == WriteItems(b, y)
    ensures a == b && x == y
    decreases a
  {
    assert WriteItems(a, x)[0] == (if a == [] then ']' else ',');
    assert WriteItems(b, y)[0] == (if b == [] then ']' else ',');
    if a == [] {
      PrefixUnique("]", x, y);
    } else {
      PrefixUnique(",", Write(a[0], WriteItems(a[1..], x)), Write(b[0], WriteItems(b[1..], y)));
      WriteUnique(a[0], b[0], WriteItems(a[1..], x), WriteItems(b[1..], y));
      ItemsUnique(a[1..], b[1..], x, y);
      assert a == [a[0]] + a[1..] && b == [b[0]] + b[1..];
    }
  }

  lemma EntryUnique(a: Entry, b: Entry, x: string, y: string)
    requires WellFormed(a.child) && WellFormed(b.child)
    requires Closes(x) && Closes(y)
    requires WriteEntry(a, x) == WriteEntry(b, y)
    ensures a == b && x == y
    decreases a
  {
    QuotedUnique(a.key, b.key, ":" + Write(a.child, x), ":" + Write(b.child, y));
    PrefixUnique(":", Write(a.child, x), Write(b.child, y));
    WriteUnique(a.child, b.child, x, y);
  }

  lemma ObjectsUnique(a: seq<Entry>, b: seq<Entry>, x: string, y: string)
    requires WellFormed(Object(a)) && WellFormed(Object(b))
    requires Closes(x) && Closes(y)
    requires Write(Object(a), x) == Write(Object(b), y)
    ensures a == b && x == y
    decreases a
  {
    var s := if a == [] then "}" + x else WriteEntry(a[0], WriteEntries(a[1..], x));
    var t := if b == [] then "}" + y else WriteEntry(b[0], WriteEntries(b[1..], y));
    PrefixUnique("{", s, t);
    assert s[0] == (if a == [] then '}' else '"');
    assert t[0] == (if b == [] then '}' else '"');
    if a == [] {
      PrefixUnique("}", x, y);
    } else {
      EntryUnique(a[0], b[0], WriteEntries(a[1..], x), WriteEntries(b[1..], y));
      EntriesUnique(a[1..], b[1..], x, y);
      assert a == [a[0]] + a[1..] && b == [b[0]] + b[1..];
    }
  }

  lemma {:induction false} EntriesUnique(a: seq<Entry>, b: seq<Entry>, x: string, y: string)
    requires forall i :: 0 <= i < |a| ==> WellFormed(a[i].child)
    requires forall i :: 0 <= i < |b| ==> WellFormed(b[i].child)
    requires Closes(x) && Closes(y)
    requires WriteEntries(a, x) == WriteEntries(b, y)
    ensures a == b && x == y
    decreases a
  {
    assert WriteEntries(a, x)[0] == (if a == [] then '}' else ',');
    assert WriteEntries(b, y)[0] == (if b == [] then '}' else ',');
    if a == [] {
      PrefixUnique("}", x, y);
    } else {
      PrefixUnique(",", WriteEntry(a[0], WriteEntries(a[1..], x)), WriteEntry(b[0], WriteEntries(b[1..], y)));
      EntryUnique(a[0], b[0], WriteEntries(a[1..], x), WriteEntries(b[1..], y));
      EntriesUnique(a[1..], b[1..], x, y);
      assert a == [a[0]] + a[1..] && b == [b[0]] + b[1..];
    }
  }

  /** The JSON text is injective on well-formed trees. */
  lemma StringifyInjective(a: Json, b: Json)
    requires WellFormed(a) && WellFormed(b)
    requires Stringify(a) == Stringify(b)
    ensures a == b
  {
    WriteUnique(a, b, [], []);
  }
}

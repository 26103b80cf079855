/** TCJSON_V1, the canonical JSON text that skill signatures are computed over. */
module CanonicalText {
  import opened Wrappers

  /** One character of a Python string: any code point, lone surrogates included. */
  type Point = x: int | 0 <= x <= 0x10FFFF

  type Text = seq<Point>

  /** A dictionary key: a string, or some value that is not a string. */
  datatype Key = Name(text: Text) | Foreign(id: nat)

  datatype Entry = Entry(key: Key, value: Value)

  /** What `canonicalize` may be given; a dictionary keeps its insertion order. */
  datatype Value =
    | Null
    | Bool(b: bool)
    | Int(i: int)
    | Float
    | Str(text: Text)
    | List(items: seq<Value>)
    | Dict(entries: seq<Entry>)
    | Unsupported

  const MAX_DEPTH: nat := 64
  const MAX_INT: int := 9007199254740991
  const MAX_BYTES: nat := 262144

  const QUOTE: Point := 0x22
  const BACKSLASH: Point := 0x5C
  const COMMA: Point := 0x2C
  const COLON: Point := 0x3A
  const OPEN_LIST: Point := 0x5B
  const CLOSE_LIST: Point := 0x5D
  const OPEN_DICT: Point := 0x7B
  const CLOSE_DICT: Point := 0x7D
  const MINUS: Point := 0x2D
  const ZERO: Point := 0x30

  const NULL_TEXT: Text := [0x6E, 0x75, 0x6C, 0x6C]
  const TRUE_TEXT: Text := [0x74, 0x72, 0x75, 0x65]
  const FALSE_TEXT: Text := [0x66, 0x61, 0x6C, 0x73, 0x65]

  // ---------- strings ----------

  /** The two-character escapes. */
  function Escapes(c: Point): Option<Point>
  {
    if c == QUOTE || c == BACKSLASH then Some(c)
    else if c == 0x0A then Some(0x6E)
    else if c == 0x09 then Some(0x74)
    else if c == 0x0D then Some(0x72)
    else if c == 0x08 then Some(0x62)
    else if c == 0x0C then Some(0x66)
    else None
  }

  function HexDigit(n: nat): Point
    requires n < 16
  {
    if n < 10 then ZERO + n else 0x61 + n - 10
  }

  /** How one character appears inside a JSON string. */
  function Escaped(c: Point): Text
  {
    if Escapes(c).Some? then [BACKSLASH, Escapes(c).value]
    else if c < 0x20 then [BACKSLASH, 0x75, ZERO, ZERO, HexDigit(c / 16), HexDigit(c % 16)]
    else [c]
  }

  /** The characters of a JSON string up to and with its closing quote. */
  function Quoted(s: Text): Text
  {
    if s == [] then [QUOTE] else Escaped(s[0]) + Quoted(s[1..])
  }

  function JsonString(s: Text): Text { [QUOTE] + Quoted(s) }

  /** `_json_string`: the loop that collects the escaped characters. */
  method WriteJsonString(value: Text) returns (r: Text)
    ensures r == JsonString(value)
  {
    var out: Text := [QUOTE];
    for i := 0 to |value|
      invariant out == [QUOTE] + EscapedAll(value[..i])
    {
      var ch := value[i];
      var piece: Text;
      if Escapes(ch).Some? {
        piece := [BACKSLASH, Escapes(ch).value];
      } else if ch < 0x20 {
        piece := [BACKSLASH, 0x75, ZERO, ZERO, HexDigit(ch / 16), HexDigit(ch % 16)];
      } else {
        piece := [ch];
      }
      assert value[..i + 1][..i] == value[..i];
      out := out + piece;
    }
    assert value[..|value|] == value;
    QuotedIsEscapedAll(value);
    r := out + [QUOTE];
  }

  /** The escaped characters, from the left. */
  function EscapedAll(s: Text): Text
  {
    if s == [] then [] else EscapedAll(s[..|s| - 1]) + Escaped(s[|s| - 1])
  }

  lemma {:induction false} EscapedFirst(s: Text)
    requires s != []
    ensures EscapedAll(s) == Escaped(s[0]) + EscapedAll(s[1..])
  {
    if |s| > 1 {
      EscapedFirst(s[..|s| - 1]);
      assert s[..|s| - 1][1..] == s[1..][..|s| - 2];
    }
  }

  lemma {:induction false} QuotedIsEscapedAll(s: Text)
    ensures Quoted(s) == EscapedAll(s) + [QUOTE]
  {
    if s != [] {
      EscapedFirst(s);
      QuotedIsEscapedAll(s[1..]);
    }
  }

  // ---------- numbers ----------

  function Decimal(n: nat): Text
  {
    if n < 10 then [ZERO + n] else Decimal(n / 10) + [ZERO + n % 10]
  }

  /** str(i) */
  function IntText(i: int): Text
  {
    if i < 0 then [MINUS] + Decimal(-i) else Decimal(i)
  }

  // ---------- sorting keys by code point ----------

  predicate TextLess(a: Text, b: Text)
  {
    if a == [] then b != []
    else if b == [] then false
    else a[0] < b[0] || (a[0] == b[0] && TextLess(a[1..], b[1..]))
  }

  predicate KeyLess(a: Key, b: Key)
  {
    match (a, b)
    case (Name(x), Name(y)) => TextLess(x, y)
    case (Foreign(x), Foreign(y)) => x < y
    case (Name(_), Foreign(_)) => true
    case (Foreign(_), Name(_)) => false
  }

  function Insert(e: Entry, es: seq<Entry>): seq<Entry>
  {
    if es == [] || KeyLess(e.key, es[0].key) then [e] + es else [es[0]] + Insert(e, es[1..])
  }

  /** sorted(value): the entries by key. */
  function Sorted(es: seq<Entry>): seq<Entry>
  {
    if es == [] then [] else Insert(es[0], Sorted(es[1..]))
  }

  // ---------- the printer ----------

  function Size(v: Value): nat
    decreases v, 1
  {
    match v
    case List(items) => 1 + SizeOfItems(items)
    case Dict(es) => 1 + SizeOfEntries(es)
    case _ => 1
  }

  function SizeOfItems(items: seq<Value>): nat
    decreases items, 0
  {
    if items == [] then 0 else 1 + Size(items[0]) + SizeOfItems(items[1..])
  }

  function SizeOfEntries(es: seq<Entry>): nat
    decreases es, 0
  {
    if es == [] then 0
    else
      assert es[0].value < es[0];
      1 + Size(es[0].value) + SizeOfEntries(es[1..])
  }

  lemma {:induction false} InsertKeepsSize(e: Entry, es: seq<Entry>)
    ensures SizeOfEntries(Insert(e, es)) == 1 + Size(e.value) + SizeOfEntries(es)
  {
    if es == [] || KeyLess(e.key, es[0].key) {
      assert ([e] + es)[1..] == es;
    } else {
      InsertKeepsSize(e, es[1..]);
      assert ([es[0]] + Insert(e, es[1..]))[1..] == Insert(e, es[1..]);
    }
  }

  lemma {:induction false} SortKeepsSize(es: seq<Entry>)
    ensures SizeOfEntries(Sorted(es)) == SizeOfEntries(es)
  {
    if es != [] {
      SortKeepsSize(es[1..]);
      InsertKeepsSize(es[0], Sorted(es[1..]));
    }
  }

  predicate TextKeys(es: seq<Entry>)
  {
    forall i | 0 <= i < |es| :: es[i].key.Name?
  }

  /** ",".join(parts) followed by the closing bracket */
  function Joined(parts: seq<Text>, close: Point): Text
  {
    if parts == [] then [close]
    else if |parts| == 1 then parts[0] + [close]
    else parts[0] + [COMMA] + Joined(parts[1..], close)
  }

  /** `_canonicalize_value`: None where it raises invalid-schema. */
  function Print(v: Value, depth: nat): Option<Text>
    decreases Size(v), 1
  {
    if depth > MAX_DEPTH then None
    else match v
      case Null => Some(NULL_TEXT)
      case Bool(b) => Some(if b then TRUE_TEXT else FALSE_TEXT)
      case Int(i) => if -MAX_INT <= i <= MAX_INT then Some(IntText(i)) else None
      case Float => None
      case Str(s) => Some(JsonString(s))
      case List(items) =>
        (match PrintItems(items, depth + 1)
         case None => None
         case Some(parts) => Some([OPEN_LIST] + Joined(parts, CLOSE_LIST)))
      case Dict(es) =>
        if !TextKeys(es) then None
        else
          SortKeepsSize(es);
          (match PrintEntries(Sorted(es), depth + 1)
           case None => None
           case Some(parts) => Some([OPEN_DICT] + Joined(parts, CLOSE_DICT)))
      case Unsupported => None
  }

  function PrintItems(items: seq<Value>, depth: nat): (r: Option<seq<Text>>)
    ensures r.Some? ==> |r.value| == |items|
    decreases SizeOfItems(items), 0
  {
    if items == [] then Some([])
    else match Print(items[0], depth)
      case None => None
      case Some(part) =>
        match PrintItems(items[1..], depth)
        case None => None
        case Some(parts) => Some([part] + parts)
  }

  function PrintEntries(es: seq<Entry>, depth: nat): (r: Option<seq<Text>>)
    ensures r.Some? ==> |r.value| == |es|
    decreases SizeOfEntries(es), 0
  {
    if es == [] then Some([])
    else match (es[0].key, Print(es[0].value, depth))
      case (Name(key), Some(text)) =>
        (match PrintEntries(es[1..], depth)
         case None => None
         case Some(parts) => Some([JsonString(key) + [COLON] + text] + parts))
      case _ => None
  }

  // ---------- UTF-8 ----------

  type Byte = x: int | 0 <= x <= 255

  predicate Surrogate(c: Point) { 0xD800 <= c <= 0xDFFF }

  function Utf8Char(c: Point): seq<Byte>
  {
    if c < 0x80 then [c]
    else if c < 0x800 then [0xC0 + c / 64, 0x80 + c % 64]
    else if c < 0x10000 then [0xE0 + c / 4096, 0x80 + c / 64 % 64, 0x80 + c % 64]
    else [0xF0 + c / 262144, 0x80 + c / 4096 % 64, 0x80 + c / 64 % 64, 0x80 + c % 64]
  }

  /** text.encode("utf-8"): None on a lone surrogate, where Python raises. */
  function Utf8(t: Text): Option<seq<Byte>>
  {
    if t == [] then Some([])
    else if Surrogate(t[0]) then None
    else match Utf8(t[1..])
      case None => None
      case Some(rest) => Some(Utf8Char(t[0]) + rest)
  }

  // ---------- canonicalize ----------

  datatype Canonical = Bytes(raw: seq<Byte>) | InvalidSchema | NotEncodable | PayloadTooLarge

  function Canonicalize(v: Value): Canonical
  {
    match Print(v, 0)
    case None => InvalidSchema
    case Some(text) =>
      match Utf8(text)
      case None => NotEncodable
      case Some(raw) => if |raw| > MAX_BYTES then PayloadTooLarge else Bytes(raw)
  }
}

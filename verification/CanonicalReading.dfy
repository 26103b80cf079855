/** Which values have a canonical text, and that a JSON reader gets the strings back. */
module CanonicalReading {
  import opened Wrappers
  import opened CanonicalText
  import opened CanonicalProofs

  // ---------- reading strings back ----------

  function HexValue(c: Point): Option<nat>
  {
    if 0x30 <= c <= 0x39 then Some(c - 0x30)
    else if 0x61 <= c <= 0x66 then Some(c - 0x61 + 10)
    else if 0x41 <= c <= 0x46 then Some(c - 0x41 + 10)
    else None
  }

  /** The two-character escapes of section 7 of RFC 8259. */
  function ShortEscape(c: Point): Option<Point>
  {
    if c == 0x22 || c == 0x5C || c == 0x2F then Some(c)
    else if c == 0x62 then Some(0x08)
    else if c == 0x66 then Some(0x0C)
    else if c == 0x6E then Some(0x0A)
    else if c == 0x72 then Some(0x0D)
    else if c == 0x74 then Some(0x09)
    else None
  }

  /** One character of a JSON string, and the rest: None where a reader must refuse. */
  function ReadCharacter(t: Text): (r: Option<(Point, Text)>)
    ensures r.Some? ==> |r.value.1| < |t|
  {
    if t == [] || t[0] < 0x20 || t[0] == 0x22 then None
    else if t[0] != 0x5C then Some((t[0], t[1..]))
    else if |t| >= 2 && ShortEscape(t[1]).Some? then Some((ShortEscape(t[1]).value, t[2..]))
    else if |t| >= 6 && t[1] == 0x75 then
      match (HexValue(t[2]), HexValue(t[3]), HexValue(t[4]), HexValue(t[5]))
      case (Some(a), Some(b), Some(c), Some(d)) => Some((a * 4096 + b * 256 + c * 16 + d, t[6..]))
      case _ => None
    else None
  }

  /** The characters up to the closing quote, and what follows it. */
  function ReadString(t: Text): (r: Option<(Text, Text)>)
    ensures r.Some? ==> |r.value.1| < |t|
    decreases |t|
  {
    if t != [] && t[0] == 0x22 then Some(([], t[1..]))
    else match ReadCharacter(t)
      case None => None
      case Some((c, rest)) =>
        match ReadString(rest)
        case None => None
        case Some((s, after)) => Some(([c] + s, after))
  }

  lemma EscapedReads(c: Point, x: Text)
    ensures ReadCharacter(Escaped(c) + x) == Some((c, x))
  {
    var t := Escaped(c) + x;
    assert t[|Escaped(c)|..] == x;
    if Escapes(c).None? && c < 0x20 {
      assert t[..6] == Escaped(c);
      assert t[4] == HexDigit(c / 16) && t[5] == HexDigit(c % 16);
    }
  }

  /** A JSON reader of section 7 of RFC 8259 gets back exactly the string that was
      written, and goes on behind its closing quote. */
  lemma {:induction false} StringsReadBack(s: Text, x: Text)
    ensures ReadString(Quoted(s) + x) == Some((s, x))
  {
    hide Escaped, ReadCharacter;
    if s == [] {
      assert (Quoted(s) + x)[1..] == x;
    } else {
      EscapedNotQuote(s[0]);
      EscapedReads(s[0], Quoted(s[1..]) + x);
      assert Quoted(s) + x == Escaped(s[0]) + (Quoted(s[1..]) + x);
      StringsReadBack(s[1..], x);
      assert (Quoted(s) + x)[0] == Escaped(s[0])[0];
      assert s == [s[0]] + s[1..];
    }
  }

  // ---------- which values have a canonical text ----------

  function Max(a: nat, b: nat): nat { if a >= b then a else b }

  /** How deep the containers nest: 0 for a scalar or an empty container. */
  function Height(v: Value): nat
    decreases v, 1
  {
    match v
    case List(items) => HeightOfItems(items)
    case Dict(es) => HeightOfEntries(es)
    case _ => 0
  }

  function HeightOfItems(items: seq<Value>): nat
    decreases items, 0
  {
    if items == [] then 0 else Max(1 + Height(items[0]), HeightOfItems(items[1..]))
  }

  function HeightOfEntries(es: seq<Entry>): nat
    decreases es, 0
  {
    if es == [] then 0
    else
      assert es[0].value < es[0];
      Max(1 + Height(es[0].value), HeightOfEntries(es[1..]))
  }

  /** Integers in range, string keys, and nothing but the six JSON kinds. */
  predicate Representable(v: Value)
    decreases v, 1
  {
    match v
    case Int(i) => -MAX_INT <= i <= MAX_INT
    case Float => false
    case Unsupported => false
    case List(items) => forall i | 0 <= i < |items| :: Representable(items[i])
    case Dict(es) => TextKeys(es) && forall i | 0 <= i < |es| :: RepresentableEntry(es[i])
    case _ => true
  }

  predicate RepresentableEntry(e: Entry)
    decreases e, 0
  {
    Representable(e.value)
  }

  lemma {:induction false} InsertHeight(e: Entry, es: seq<Entry>)
    ensures HeightOfEntries(Insert(e, es)) == Max(1 + Height(e.value), HeightOfEntries(es))
  {
    if es == [] || KeyLess(e.key, es[0].key) {
      assert ([e] + es)[1..] == es;
    } else {
      InsertHeight(e, es[1..]);
      assert ([es[0]] + Insert(e, es[1..]))[1..] == Insert(e, es[1..]);
    }
  }

  lemma {:induction false} SortedHeight(es: seq<Entry>)
    ensures HeightOfEntries(Sorted(es)) == HeightOfEntries(es)
  {
    if es != [] {
      SortedHeight(es[1..]);
      InsertHeight(es[0], Sorted(es[1..]));
    }
  }

  ghost predicate AllEntries(es: seq<Entry>)
  {
    forall i | 0 <= i < |es| :: es[i].key.Name? && RepresentableEntry(es[i])
  }

  lemma SortedEntries(es: seq<Entry>)
    ensures AllEntries(Sorted(es)) <==> AllEntries(es)
  {
    hide Sorted, RepresentableEntry;
    SortedMembers(es);
    if AllEntries(es) {
      forall i | 0 <= i < |Sorted(es)| ensures Sorted(es)[i].key.Name? && RepresentableEntry(Sorted(es)[i]) {
        assert Sorted(es)[i] in es;
      }
    }
    if AllEntries(Sorted(es)) {
      forall i | 0 <= i < |es| ensures es[i].key.Name? && RepresentableEntry(es[i]) {
        assert es[i] in Sorted(es);
      }
    }
  }

  /** A value prints exactly when it is representable and nests at most 64 deep. */
  lemma {:induction false} PrintsIff(v: Value, depth: nat)
    ensures Print(v, depth).Some? <==> Representable(v) && depth + Height(v) <= MAX_DEPTH
    decreases Size(v), 1
  {
    hide Sorted, Joined, PrintItems, PrintEntries, HeightOfItems, HeightOfEntries, SizeOfItems, SizeOfEntries;
    match v
    case List(items) => ItemsPrintIff(items, depth + 1);
    case Dict(es) =>
      SortKeepsSize(es);
      SortedHeight(es);
      SortedEntries(es);
      EntriesPrintIff(Sorted(es), depth + 1);
    case _ =>
  }

  lemma {:induction false} ItemsPrintIff(items: seq<Value>, depth: nat)
    requires depth >= 1
    ensures PrintItems(items, depth).Some? && depth - 1 <= MAX_DEPTH <==>
            (forall i | 0 <= i < |items| :: Representable(items[i])) && depth - 1 + HeightOfItems(items) <= MAX_DEPTH
    decreases SizeOfItems(items), 0
  {
    hide Print, Representable, Height, Size;
    if items != [] {
      PrintsIff(items[0], depth);
      ItemsPrintIff(items[1..], depth);
      assert (forall i | 0 <= i < |items| :: Representable(items[i])) <==>
             Representable(items[0]) && forall i | 0 <= i < |items[1..]| :: Representable(items[1..][i]) by {
        forall i | 1 <= i < |items| ensures items[i] == items[1..][i - 1] {}
      }
    }
  }

  lemma {:induction false} EntriesPrintIff(es: seq<Entry>, depth: nat)
    requires depth >= 1
    ensures PrintEntries(es, depth).Some? && depth - 1 <= MAX_DEPTH <==>
            AllEntries(es) && depth - 1 + HeightOfEntries(es) <= MAX_DEPTH
    decreases SizeOfEntries(es), 0
  {
    hide Print, Representable, Height, Size, JsonString;
    if es != [] {
      PrintsIff(es[0].value, depth);
      EntriesPrintIff(es[1..], depth);
      AllEntriesSplit(es);
    }
  }

  lemma AllEntriesSplit(es: seq<Entry>)
    requires es != []
    ensures AllEntries(es) <==> es[0].key.Name? && Representable(es[0].value) && AllEntries(es[1..])
  {
    hide Representable;
    forall i | 1 <= i < |es| ensures es[i] == es[1..][i - 1] {}
    if es[0].key.Name? && Representable(es[0].value) && AllEntries(es[1..]) {
      forall i | 0 <= i < |es| ensures es[i].key.Name? && RepresentableEntry(es[i]) {
        if i > 0 { assert es[i] == es[1..][i - 1]; }
      }
    }
    if AllEntries(es) {
      forall i | 0 <= i < |es[1..]| ensures es[1..][i].key.Name? && RepresentableEntry(es[1..][i]) {
        assert es[1..][i] == es[i + 1];
      }
    }
  }

  /** `canonicalize` refuses as invalid-schema exactly the values that are not
      representable or nest too deep. */
  lemma InvalidSchemaIff(v: Value)
    ensures Canonicalize(v) == InvalidSchema <==> !(Representable(v) && Height(v) <= MAX_DEPTH)
  {
    hide Print, Utf8, Representable, Height;
    PrintsIff(v, 0);
  }

  // ---------- which texts can be encoded ----------

  predicate HasSurrogate(t: Text)
  {
    exists i :: 0 <= i < |t| && Surrogate(t[i])
  }

  /** Some string or some key inside the value holds a lone surrogate. */
  predicate LoneSurrogate(v: Value)
    decreases v, 1
  {
    match v
    case Str(s) => HasSurrogate(s)
    case List(items) => exists i :: 0 <= i < |items| && LoneSurrogate(items[i])
    case Dict(es) => exists i :: 0 <= i < |es| && SurrogateEntry(es[i])
    case _ => false
  }

  predicate SurrogateEntry(e: Entry)
    decreases e, 0
  {
    (e.key.Name? && HasSurrogate(e.key.text)) || LoneSurrogate(e.value)
  }

  lemma SurrogateSplits(a: Text, b: Text)
    ensures HasSurrogate(a + b) <==> HasSurrogate(a) || HasSurrogate(b)
  {
    var t := a + b;
    if i :| 0 <= i < |t| && Surrogate(t[i]) {
      if i < |a| { assert Surrogate(a[i]); } else { assert Surrogate(b[i - |a|]); }
    }
    if i :| 0 <= i < |a| && Surrogate(a[i]) { assert Surrogate(t[i]); }
    if i :| 0 <= i < |b| && Surrogate(b[i]) { assert Surrogate(t[|a| + i]); }
  }

  lemma {:induction false} EncodableIff(t: Text)
    ensures Utf8(t).None? <==> HasSurrogate(t)
  {
    if t != [] {
      EncodableIff(t[1..]);
      assert t == [t[0]] + t[1..];
      SurrogateSplits([t[0]], t[1..]);
      assert HasSurrogate([t[0]]) <==> Surrogate(t[0]) by {
        if Surrogate(t[0]) { assert Surrogate([t[0]][0]); }
      }
    }
  }

  lemma PlainHasNone(t: Text)
    requires forall i | 0 <= i < |t| :: t[i] < 0x80
    ensures !HasSurrogate(t)
  {
  }

  lemma {:induction false} DecimalIsPlain(n: nat)
    ensures forall i | 0 <= i < |Decimal(n)| :: Decimal(n)[i] < 0x80
  {
    if n >= 10 { DecimalIsPlain(n / 10); }
  }

  lemma EscapedKeeps(c: Point)
    ensures HasSurrogate(Escaped(c)) <==> Surrogate(c)
  {
    if Surrogate(c) {
      assert Escaped(c)[0] == c;
    } else if Escapes(c).Some? || c < 0x20 {
      PlainHasNone(Escaped(c));
    }
  }

  /** Escaping and quoting keep every surrogate of the string and add none. */
  lemma {:induction false} QuotedKeeps(s: Text)
    ensures HasSurrogate(Quoted(s)) <==> HasSurrogate(s)
  {
    if s == [] {
      PlainHasNone(Quoted(s));
    } else {
      QuotedKeeps(s[1..]);
      EscapedKeeps(s[0]);
      SurrogateSplits(Escaped(s[0]), Quoted(s[1..]));
      assert s == [s[0]] + s[1..];
      SurrogateSplits([s[0]], s[1..]);
      assert HasSurrogate([s[0]]) <==> Surrogate(s[0]) by {
        if Surrogate(s[0]) { assert Surrogate([s[0]][0]); }
      }
    }
  }

  lemma StringKeeps(s: Text)
    ensures HasSurrogate(JsonString(s)) <==> HasSurrogate(s)
  {
    hide Quoted, HasSurrogate;
    QuotedKeeps(s);
    SurrogateSplits([QUOTE], Quoted(s));
    PlainHasNone([QUOTE]);
  }

  predicate SomeSurrogate(parts: seq<Text>)
  {
    exists i :: 0 <= i < |parts| && HasSurrogate(parts[i])
  }

  lemma SomeSplits(part: Text, rest: seq<Text>)
    ensures SomeSurrogate([part] + rest) <==> HasSurrogate(part) || SomeSurrogate(rest)
  {
    hide HasSurrogate;
    var parts := [part] + rest;
    if i :| 0 <= i < |parts| && HasSurrogate(parts[i]) {
      if i > 0 { assert HasSurrogate(rest[i - 1]); }
    }
    if HasSurrogate(part) { assert HasSurrogate(parts[0]); }
    if i :| 0 <= i < |rest| && HasSurrogate(rest[i]) { assert HasSurrogate(parts[i + 1]); }
  }

  lemma {:induction false} JoinedKeeps(parts: seq<Text>, close: Point)
    requires close < 0x80
    ensures HasSurrogate(Joined(parts, close)) <==> SomeSurrogate(parts)
  {
    hide HasSurrogate, SomeSurrogate;
    PlainHasNone([close]);
    PlainHasNone([COMMA]);
    if parts == [] {
      NoParts();
    } else {
      assert parts == [parts[0]] + parts[1..];
      SomeSplits(parts[0], parts[1..]);
      if |parts| == 1 {
        NoParts();
        assert parts[1..] == [];
        SurrogateSplits(parts[0], [close]);
      } else {
        JoinedKeeps(parts[1..], close);
        SurrogateSplits(parts[0] + [COMMA], Joined(parts[1..], close));
        SurrogateSplits(parts[0], [COMMA]);
      }
    }
  }

  lemma NoParts()
    ensures !SomeSurrogate([])
  {
  }

  /** The printed text holds a surrogate exactly when the value does. */
  lemma {:induction false} PrintKeeps(v: Value, depth: nat)
    requires Print(v, depth).Some?
    ensures HasSurrogate(Print(v, depth).value) <==> LoneSurrogate(v)
    decreases Size(v), 1
  {
    hide HasSurrogate, Sorted, Joined, PrintItems, PrintEntries, SizeOfItems, SizeOfEntries, JsonString, SomeSurrogate;
    match v
    case Null => PlainHasNone(NULL_TEXT);
    case Bool(b) => PlainHasNone(if b then TRUE_TEXT else FALSE_TEXT);
    case Int(i) => IntIsPlain(i);
    case Str(s) => StringKeeps(s);
    case List(items) =>
      ItemsKeep(items, depth + 1);
      var parts := PrintItems(items, depth + 1).value;
      JoinedKeeps(parts, CLOSE_LIST);
      PlainHasNone([OPEN_LIST]);
      SurrogateSplits([OPEN_LIST], Joined(parts, CLOSE_LIST));
    case Dict(es) =>
      SortKeepsSize(es);
      EntriesKeep(Sorted(es), depth + 1);
      SortedSurrogates(es);
      var parts := PrintEntries(Sorted(es), depth + 1).value;
      JoinedKeeps(parts, CLOSE_DICT);
      PlainHasNone([OPEN_DICT]);
      SurrogateSplits([OPEN_DICT], Joined(parts, CLOSE_DICT));
  }

  lemma IntIsPlain(i: int)
    ensures !HasSurrogate(IntText(i))
  {
    DecimalIsPlain(if i < 0 then -i else i);
  }

  lemma {:induction false} ItemsKeep(items: seq<Value>, depth: nat)
    requires PrintItems(items, depth).Some?
    ensures SomeSurrogate(PrintItems(items, depth).value) <==> exists i :: 0 <= i < |items| && LoneSurrogate(items[i])
    decreases SizeOfItems(items), 0
  {
    hide HasSurrogate, SomeSurrogate, Print, LoneSurrogate, Size;
    if items == [] {
      NoParts();
    } else {
      PrintKeeps(items[0], depth);
      ItemsKeep(items[1..], depth);
      SomeSplits(Print(items[0], depth).value, PrintItems(items[1..], depth).value);
      if i :| 0 <= i < |items| && LoneSurrogate(items[i]) {
        if i > 0 { assert LoneSurrogate(items[1..][i - 1]); }
      }
      if i :| 0 <= i < |items[1..]| && LoneSurrogate(items[1..][i]) { assert LoneSurrogate(items[i + 1]); }
    }
  }

  predicate AnySurrogate(es: seq<Entry>)
  {
    exists i :: 0 <= i < |es| && SurrogateEntry(es[i])
  }

  lemma SortedSurrogates(es: seq<Entry>)
    ensures AnySurrogate(Sorted(es)) <==> AnySurrogate(es)
  {
    hide Sorted, SurrogateEntry;
    SortedMembers(es);
    if i :| 0 <= i < |Sorted(es)| && SurrogateEntry(Sorted(es)[i]) { assert Sorted(es)[i] in es; }
    if i :| 0 <= i < |es| && SurrogateEntry(es[i]) { assert es[i] in Sorted(es); }
  }

  lemma {:induction false} EntriesKeep(es: seq<Entry>, depth: nat)
    requires PrintEntries(es, depth).Some?
    ensures SomeSurrogate(PrintEntries(es, depth).value) <==> AnySurrogate(es)
    decreases SizeOfEntries(es), 0
  {
    hide HasSurrogate, SomeSurrogate, Print, LoneSurrogate, Size, JsonString;
    if es == [] {
      NoParts();
    } else {
      PrintKeeps(es[0].value, depth);
      EntriesKeep(es[1..], depth);
      var key, text := JsonString(es[0].key.text), Print(es[0].value, depth).value;
      StringKeeps(es[0].key.text);
      PlainHasNone([COLON]);
      SurrogateSplits(key + [COLON], text);
      SurrogateSplits(key, [COLON]);
      SomeSplits(key + [COLON] + text, PrintEntries(es[1..], depth).value);
      if i :| 0 <= i < |es| && SurrogateEntry(es[i]) {
        if i > 0 { assert SurrogateEntry(es[1..][i - 1]); }
      }
      if i :| 0 <= i < |es[1..]| && SurrogateEntry(es[1..][i]) { assert SurrogateEntry(es[i + 1]); }
    }
  }

  /** The text cannot be encoded, and a raw UnicodeEncodeError escapes, exactly when the
      value prints and some string or key in it holds a lone surrogate. */
  lemma NotEncodableIff(v: Value)
    ensures Canonicalize(v) == NotEncodable <==> Representable(v) && Height(v) <= MAX_DEPTH && LoneSurrogate(v)
  {
    hide Print, Utf8, Representable, Height, LoneSurrogate, HasSurrogate;
    PrintsIff(v, 0);
    if Print(v, 0).Some? {
      PrintKeeps(v, 0);
      EncodableIff(Print(v, 0).value);
    }
  }
}

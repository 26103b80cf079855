/** A reader of the whole canonical text, written from the grammar of RFC 8259 alone, and
    what it finds: the value with every dictionary in code-point order. */
module CanonicalReader {
  import opened Wrappers
  import opened CanonicalText
  import opened CanonicalProofs
  import opened CanonicalReading

  // ---------- code-point order ----------

  /** x ends at n and y goes on, or x has the smaller code point there; before n they agree. */
  predicate ComesFirstAt(x: Text, y: Text, n: nat)
  {
    n <= |x| && n < |y| && x[..n] == y[..n] && (n == |x| || x[n] < y[n])
  }

  /** x comes before y in code-point order. */
  predicate Precedes(x: Text, y: Text)
  {
    exists n | 0 <= n <= |x| :: ComesFirstAt(x, y, n)
  }

  /** The order the keys are sorted by is the code-point order. */
  lemma {:induction false} LessMeans(x: Text, y: Text)
    ensures TextLess(x, y) <==> Precedes(x, y)
  {
    if x == [] || y == [] {
      assert x == [] && y != [] ==> ComesFirstAt(x, y, 0);
    } else {
      LessMeans(x[1..], y[1..]);
      if x[0] < y[0] { assert ComesFirstAt(x, y, 0); }
      if x[0] == y[0] { PrecedesTail(x, y); }
      if n: nat :| ComesFirstAt(x, y, n) {
        if n > 0 { assert x[0] == x[..n][0] && y[0] == y[..n][0]; }
      }
    }
  }

  lemma PrecedesTail(x: Text, y: Text)
    requires x != [] && y != [] && x[0] == y[0]
    ensures Precedes(x, y) <==> Precedes(x[1..], y[1..])
  {
    if n: nat :| ComesFirstAt(x, y, n) {
      assert x[1..][..n - 1] == x[..n][1..] && y[1..][..n - 1] == y[..n][1..];
      assert ComesFirstAt(x[1..], y[1..], n - 1);
    }
    if n: nat :| ComesFirstAt(x[1..], y[1..], n) {
      assert x[..n + 1] == [x[0]] + x[1..][..n] && y[..n + 1] == [y[0]] + y[1..][..n];
      assert ComesFirstAt(x, y, n + 1);
    }
  }

  /** Every dictionary in the value lists its keys in ascending code-point order. */
  predicate KeysAscend(v: Value)
  {
    match v
    case List(items) => forall i | 0 <= i < |items| :: KeysAscend(items[i])
    case Dict(es) => NamesAscend(es) && forall i | 0 <= i < |es| :: EntryAscends(es[i])
    case _ => true
  }

  predicate EntryAscends(e: Entry) { KeysAscend(e.value) }

  predicate NamesAscend(es: seq<Entry>)
  {
    && (forall i | 0 <= i < |es| :: es[i].key.Name?)
    && (forall i, j | 0 <= i < j < |es| :: Precedes(es[i].key.text, es[j].key.text))
  }

  // ---------- the reader ----------

  function Spelled(s: string): Text { seq(|s|, i requires 0 <= i < |s| => s[i] as int) }

  predicate Begins(t: Text, word: Text) { |word| <= |t| && t[..|word|] == word }

  predicate At(t: Text, c: char) { t != [] && t[0] == c as int }

  /** How many decimal digits the text starts with. */
  function DigitRun(t: Text): (n: nat)
    ensures n <= |t|
  {
    if t != [] && '0' as int <= t[0] <= '9' as int then 1 + DigitRun(t[1..]) else 0
  }

  /** A natural number without leading zeros, as section 6 of RFC 8259 has it. */
  function ReadNatural(t: Text): (r: Option<(int, Text)>)
    ensures r.Some? ==> |r.value.1| < |t|
  {
    var n := DigitRun(t);
    if n == 0 || (n > 1 && At(t, '0')) then None else Some((Number(t[..n]), t[n..]))
  }

  /** An integer; a canonical text has no negative zero. */
  function ReadInteger(t: Text): (r: Option<(Value, Text)>)
    ensures r.Some? ==> |r.value.1| < |t|
  {
    if At(t, '-') then
      match ReadNatural(t[1..])
      case None => None
      case Some((n, rest)) => if n == 0 then None else Some((Int(-n), rest))
    else
      match ReadNatural(t)
      case None => None
      case Some((n, rest)) => Some((Int(n), rest))
  }

  /** One value, and what follows it. */
  function ReadValue(t: Text): (r: Option<(Value, Text)>)
    ensures r.Some? ==> |r.value.1| < |t|
    decreases |t|, 0
  {
    if Begins(t, Spelled("null")) then Some((Null, t[4..]))
    else if Begins(t, Spelled("true")) then Some((Bool(true), t[4..]))
    else if Begins(t, Spelled("false")) then Some((Bool(false), t[5..]))
    else if At(t, '"') then
      match ReadString(t[1..])
      case None => None
      case Some((s, rest)) => Some((Str(s), rest))
    else if At(t, '[') then
      if At(t[1..], ']') then Some((List([]), t[2..]))
      else match ReadItems(t[1..])
        case None => None
        case Some((items, rest)) => Some((List(items), rest))
    else if At(t, '{') then
      if At(t[1..], '}') then Some((Dict([]), t[2..]))
      else match ReadEntries(t[1..])
        case None => None
        case Some((es, rest)) => Some((Dict(es), rest))
    else ReadInteger(t)
  }

  /** The items of a list up to its closing bracket. */
  function ReadItems(t: Text): (r: Option<(seq<Value>, Text)>)
    ensures r.Some? ==> |r.value.1| < |t|
    decreases |t|, 1
  {
    match ReadValue(t)
    case None => None
    case Some((v, rest)) =>
      if At(rest, ']') then Some(([v], rest[1..]))
      else if !At(rest, ',') then None
      else match ReadItems(rest[1..])
        case None => None
        case Some((items, after)) => Some(([v] + items, after))
  }

  /** One entry: a string, a colon, a value. */
  function ReadEntry(t: Text): (r: Option<(Entry, Text)>)
    ensures r.Some? ==> |r.value.1| < |t|
    decreases |t|, 1
  {
    if !At(t, '"') then None
    else match ReadString(t[1..])
      case None => None
      case Some((key, rest)) =>
        if !At(rest, ':') then None
        else match ReadValue(rest[1..])
          case None => None
          case Some((v, after)) => Some((Entry(Name(key), v), after))
  }

  /** The entries of a dictionary up to its closing brace. */
  function ReadEntries(t: Text): (r: Option<(seq<Entry>, Text)>)
    ensures r.Some? ==> |r.value.1| < |t|
    decreases |t|, 2
  {
    match ReadEntry(t)
    case None => None
    case Some((e, rest)) =>
      if At(rest, '}') then Some(([e], rest[1..]))
      else if !At(rest, ',') then None
      else match ReadEntries(rest[1..])
        case None => None
        case Some((es, after)) => Some(([e] + es, after))
  }

  // ---------- the value the text shows ----------

  /** The value with the entries of every dictionary sorted. */
  function Normal(v: Value): Value
    decreases Size(v), 1
  {
    match v
    case List(items) => List(NormalItems(items))
    case Dict(es) =>
      SortKeepsSize(es);
      Dict(NormalEntries(Sorted(es)))
    case _ => v
  }

  function NormalItems(items: seq<Value>): (r: seq<Value>)
    ensures |r| == |items|
    decreases SizeOfItems(items), 0
  {
    if items == [] then [] else [Normal(items[0])] + NormalItems(items[1..])
  }

  function NormalEntries(es: seq<Entry>): (r: seq<Entry>)
    ensures |r| == |es|
    decreases SizeOfEntries(es), 0
  {
    if es == [] then [] else [Entry(es[0].key, Normal(es[0].value))] + NormalEntries(es[1..])
  }

  // ---------- numbers ----------

  lemma {:induction false} RunOf(a: Text, x: Text)
    requires AllDigits(a) && Stops(x)
    ensures DigitRun(a + x) == |a|
  {
    if a == [] {
      assert a + x == x;
    } else {
      RunOf(a[1..], x);
      assert (a + x)[1..] == a[1..] + x;
    }
  }

  /** The decimal text of a positive number starts with no zero. */
  lemma {:induction false} NoLeadingZero(n: nat)
    ensures Decimal(n) != []
    ensures if n == 0 then Decimal(n) == [ZERO] else Decimal(n)[0] != ZERO
  {
    if n >= 10 { NoLeadingZero(n / 10); }
  }

  lemma NaturalReads(n: nat, x: Text)
    requires Stops(x)
    ensures ReadNatural(Decimal(n) + x) == Some((n, x))
  {
    hide Decimal, Number;
    DecimalReads(n);
    NoLeadingZero(n);
    var t := Decimal(n) + x;
    RunOf(Decimal(n), x);
    assert t[..|Decimal(n)|] == Decimal(n) && t[|Decimal(n)|..] == x;
    assert t[0] == Decimal(n)[0];
  }

  lemma IntegerReads(i: int, x: Text)
    requires Stops(x)
    ensures ReadInteger(IntText(i) + x) == Some((Int(i), x))
  {
    hide Decimal, ReadNatural;
    if i < 0 {
      NaturalReads(-i, x);
      assert (IntText(i) + x)[1..] == Decimal(-i) + x;
    } else {
      DecimalReads(i);
      NaturalReads(i, x);
      assert (IntText(i) + x)[0] == Decimal(i)[0];
    }
  }

  lemma Words()
    ensures NULL_TEXT == Spelled("null") && TRUE_TEXT == Spelled("true") && FALSE_TEXT == Spelled("false")
  {
  }

  // ---------- reading a printed value back ----------

  /** A character is written as itself unless JSON forbids it there; a control character
      with a short name takes it, and any other its four lower-case hexadecimal digits. */
  lemma EscapesAreMinimal(c: Point)
    ensures Escaped(c) == [c] <==> c >= 0x20 && c != '"' as int && c != '\\' as int
    ensures |Escaped(c)| == 2 <==> c in {'"' as int, '\\' as int, '\n' as int, '\t' as int, '\r' as int, 0x08, 0x0C}
    ensures |Escaped(c)| == 6 ==> c < 0x20 && forall i | 0 <= i < 6 :: !('A' as int <= Escaped(c)[i] <= 'Z' as int)
  {
  }

  lemma WordReads(v: Value, word: Text, x: Text)
    requires (v == Null && word == NULL_TEXT) || (v == Bool(true) && word == TRUE_TEXT) || (v == Bool(false) && word == FALSE_TEXT)
    ensures ReadValue(word + x) == Some((v, x))
  {
    Words();
    var t := word + x;
    assert t[..|word|] == word && t[|word|..] == x;
    assert t[0] == word[0];
    if v == Bool(true) { assert !Begins(t, Spelled("null")); }
    if v == Bool(false) { assert !Begins(t, Spelled("null")) && !Begins(t, Spelled("true")); }
  }

  /** A text that starts with none of n, t and f begins with no literal. */
  lemma NoWord(t: Text)
    requires t != [] && t[0] != 'n' as int && t[0] != 't' as int && t[0] != 'f' as int
    ensures !Begins(t, Spelled("null")) && !Begins(t, Spelled("true")) && !Begins(t, Spelled("false"))
  {
    assert Spelled("null")[0] == 'n' as int && Spelled("true")[0] == 't' as int && Spelled("false")[0] == 'f' as int;
  }

  lemma JsonStringReads(s: Text, x: Text)
    ensures JsonString(s) + x != [] && At(JsonString(s) + x, '"') && ReadString((JsonString(s) + x)[1..]) == Some((s, x))
  {
    hide Quoted;
    StringsReadBack(s, x);
    assert (JsonString(s) + x)[1..] == Quoted(s) + x;
  }

  /** A printed value, followed by anything that is not a digit, reads back in full. */
  lemma {:induction false} ValueReads(v: Value, d: nat, x: Text)
    requires Print(v, d).Some? && Stops(x)
    ensures ReadValue(Print(v, d).value + x) == Some((Normal(v), x))
    decreases Size(v), 1
  {
    hide Joined, Sorted, PrintItems, PrintEntries, JsonString, IntText, SizeOfItems, SizeOfEntries, ReadString, ReadInteger, Begins, Spelled,
         ReadItems, ReadEntries, NormalItems, NormalEntries;
    FirstCharacter(v, d);
    var t := Print(v, d).value + x;
    assert t[0] == Print(v, d).value[0];
    match v
    case Null => WordReads(v, NULL_TEXT, x);
    case Bool(b) => WordReads(v, if b then TRUE_TEXT else FALSE_TEXT, x);
    case Int(i) =>
      NoWord(t);
      IntegerReads(i, x);
    case Str(s) =>
      NoWord(t);
      JsonStringReads(s, x);
    case List(items) =>
      NoWord(t);
      ListReads(items, d + 1, x);
      assert t[1..] == Joined(PrintItems(items, d + 1).value, CLOSE_LIST) + x;
    case Dict(es) =>
      NoWord(t);
      SortKeepsSize(es);
      DictReads(Sorted(es), d + 1, x);
      assert t[1..] == Joined(PrintEntries(Sorted(es), d + 1).value, CLOSE_DICT) + x;
    case Float =>
    case Unsupported =>
  }

  /** What stands behind the opening bracket of a list. */
  lemma {:induction false} ListReads(items: seq<Value>, d: nat, x: Text)
    requires PrintItems(items, d).Some?
    ensures var t := Joined(PrintItems(items, d).value, CLOSE_LIST) + x;
            if items == [] then At(t, ']') && t[1..] == x && NormalItems(items) == []
            else !At(t, ']') && ReadItems(t) == Some((NormalItems(items), x))
    decreases SizeOfItems(items), 1
  {
    if items != [] {
      ItemsRead(items, d, x);
      FirstCharacter(items[0], d);
      JoinedSplits(PrintItems(items, d).value, CLOSE_LIST, x);
    }
    hide Print, ReadItems, Joined, NormalItems, Size;
  }

  lemma {:induction false} ItemsRead(items: seq<Value>, d: nat, x: Text)
    requires items != [] && PrintItems(items, d).Some?
    ensures ReadItems(Joined(PrintItems(items, d).value, CLOSE_LIST) + x) == Some((NormalItems(items), x))
    decreases SizeOfItems(items), 0
  {
    hide Print, ReadValue, Size, Normal;
    var parts := PrintItems(items, d).value;
    JoinedSplits(parts, CLOSE_LIST, x);
    var rest := After(parts, CLOSE_LIST) + x;
    ValueReads(items[0], d, rest);
    if |items| > 1 {
      ItemsRead(items[1..], d, x);
      assert rest[1..] == Joined(parts[1..], CLOSE_LIST) + x;
    } else {
      assert rest[1..] == x;
      assert NormalItems(items) == [Normal(items[0])];
    }
  }

  lemma {:induction false} DictReads(es: seq<Entry>, d: nat, x: Text)
    requires PrintEntries(es, d).Some?
    ensures var t := Joined(PrintEntries(es, d).value, CLOSE_DICT) + x;
            if es == [] then At(t, '}') && t[1..] == x && NormalEntries(es) == []
            else !At(t, '}') && ReadEntries(t) == Some((NormalEntries(es), x))
    decreases SizeOfEntries(es), 2
  {
    if es != [] {
      EntriesRead(es, d, x);
      JoinedSplits(PrintEntries(es, d).value, CLOSE_DICT, x);
    }
    hide Print, ReadEntries, Joined, NormalEntries, Size, Quoted;
  }

  lemma {:induction false} EntryReads(e: Entry, d: nat, rest: Text)
    requires e.key.Name? && Print(e.value, d).Some? && Stops(rest)
    ensures ReadEntry(JsonString(e.key.text) + [COLON] + Print(e.value, d).value + rest) == Some((Entry(e.key, Normal(e.value)), rest))
    decreases Size(e.value), 2
  {
    hide Print, ReadValue, ReadString, JsonString, Size, Normal;
    var text := Print(e.value, d).value;
    ValueReads(e.value, d, rest);
    EntrySplits(e.key.text, text, rest);
    JsonStringReads(e.key.text, [COLON] + (text + rest));
    assert ([COLON] + (text + rest))[1..] == text + rest;
  }

  lemma {:induction false} EntriesRead(es: seq<Entry>, d: nat, x: Text)
    requires es != [] && PrintEntries(es, d).Some?
    ensures ReadEntries(Joined(PrintEntries(es, d).value, CLOSE_DICT) + x) == Some((NormalEntries(es), x))
    decreases SizeOfEntries(es), 1
  {
    hide Print, ReadEntry, Size, Normal, JsonString;
    var parts := PrintEntries(es, d).value;
    JoinedSplits(parts, CLOSE_DICT, x);
    var rest := After(parts, CLOSE_DICT) + x;
    EntryReads(es[0], d, rest);
    if |es| > 1 {
      EntriesRead(es[1..], d, x);
      assert rest[1..] == Joined(parts[1..], CLOSE_DICT) + x;
    } else {
      assert rest[1..] == x;
      assert NormalEntries(es) == [Entry(es[0].key, Normal(es[0].value))];
    }
  }

  // ---------- what the normal form is ----------

  lemma {:induction false} NormalItemAt(items: seq<Value>, i: nat)
    requires i < |items|
    ensures NormalItems(items)[i] == Normal(items[i])
  {
    hide Normal;
    if i > 0 { NormalItemAt(items[1..], i - 1); }
  }

  lemma {:induction false} NormalEntryAt(es: seq<Entry>, i: nat)
    requires i < |es|
    ensures NormalEntries(es)[i] == Entry(es[i].key, Normal(es[i].value))
  {
    hide Normal;
    if i > 0 { NormalEntryAt(es[1..], i - 1); }
  }

  /** Sorting the dictionaries of a value changes nothing but their order. */
  lemma {:induction false} NormalIsSame(v: Value)
    ensures Same(v, Normal(v))
    decreases v
  {
    hide Sorted, NormalItems, NormalEntries, EntryIn, KeyIn;
    match v
    case List(items) =>
      forall i | 0 <= i < |items| ensures Same(items[i], NormalItems(items)[i]) {
        NormalIsSame(items[i]);
        NormalItemAt(items, i);
      }
    case Dict(es) =>
      SortKeepsSize(es);
      var sorted := NormalEntries(Sorted(es));
      SortedMembers(es);
      forall i | 0 <= i < |es| ensures EntryIn(es[i], sorted) {
        assert es[i] in Sorted(es);
        var k :| 0 <= k < |Sorted(es)| && Sorted(es)[k] == es[i];
        NormalEntryAt(Sorted(es), k);
        NormalIsSame(es[i].value);
        NormalEntryListed(es[i], sorted, k);
      }
      forall j | 0 <= j < |sorted| ensures KeyIn(sorted[j].key, es) {
        NormalEntryAt(Sorted(es), j);
        assert Sorted(es)[j] in es;
        KeyListed(Sorted(es)[j], es);
      }
    case _ =>
  }

  lemma NormalEntryListed(e: Entry, es: seq<Entry>, k: nat)
    requires k < |es| && es[k] == Entry(e.key, Normal(e.value)) && Same(e.value, Normal(e.value))
    ensures EntryIn(e, es)
  {
    assert SameEntry(e, es[k]);
  }

  /** The keys of every dictionary that prints stand in ascending code-point order. */
  lemma {:induction false} NormalAscends(v: Value, d: nat)
    requires Print(v, d).Some? && KeysOnce(v)
    ensures KeysAscend(Normal(v))
    decreases Size(v), 1
  {
    hide Joined, Sorted, PrintItems, PrintEntries, SizeOfItems, SizeOfEntries, NormalItems, NormalEntries, EntryAscends, JsonString, IntText;
    match v
    case List(items) => ItemsAscend(items, d + 1);
    case Dict(es) =>
      SortKeepsSize(es);
      SortedAscends(es);
      SortedMembers(es);
      forall i | 0 <= i < |Sorted(es)| ensures EntryKeysOnce(Sorted(es)[i]) && Sorted(es)[i].key.Name? { assert Sorted(es)[i] in es; }
      EntriesAscend(Sorted(es), d + 1);
    case _ =>
  }

  lemma {:induction false} ItemsAscend(items: seq<Value>, d: nat)
    requires PrintItems(items, d).Some? && forall i | 0 <= i < |items| :: KeysOnce(items[i])
    ensures forall i | 0 <= i < |items| :: KeysAscend(NormalItems(items)[i])
    decreases SizeOfItems(items), 0
  {
    hide Print, KeysOnce, KeysAscend, Normal, Size;
    if items != [] {
      NormalAscends(items[0], d);
      ItemsAscend(items[1..], d);
    }
  }

  lemma {:induction false} EntryValuesAscend(es: seq<Entry>, d: nat)
    requires PrintEntries(es, d).Some? && forall i | 0 <= i < |es| :: EntryKeysOnce(es[i])
    ensures forall i | 0 <= i < |es| :: EntryAscends(NormalEntries(es)[i])
    decreases SizeOfEntries(es), 0
  {
    hide Print, KeysOnce, KeysAscend, Normal, Size, JsonString;
    if es != [] {
      NormalAscends(es[0].value, d);
      EntryValuesAscend(es[1..], d);
    }
  }

  lemma {:induction false} EntriesAscend(es: seq<Entry>, d: nat)
    requires PrintEntries(es, d).Some? && Ascending(es)
    requires forall i | 0 <= i < |es| :: EntryKeysOnce(es[i]) && es[i].key.Name?
    ensures NamesAscend(NormalEntries(es)) && forall i | 0 <= i < |es| :: EntryAscends(NormalEntries(es)[i])
    decreases SizeOfEntries(es), 1
  {
    hide PrintEntries, NormalEntries, EntryAscends, EntryKeysOnce, TextLess, Precedes;
    EntryValuesAscend(es, d);
    var r := NormalEntries(es);
    forall i | 0 <= i < |es| ensures r[i].key == es[i].key { NormalEntryAt(es, i); }
    forall i, j | 0 <= i < j < |es| ensures Precedes(r[i].key.text, r[j].key.text) {
      assert KeyLess(es[i].key, es[j].key);
      LessMeans(es[i].key.text, es[j].key.text);
    }
  }

  // ---------- reading UTF-8 ----------

  predicate IsContinuation(b: Byte) { 0x80 <= b <= 0xBF }

  /** The six bits a continuation byte carries. */
  function Low(b: Byte): int { b as int - 0x80 }

  /** One character of section 3 of RFC 3629: the shortest form, no surrogates. */
  function ReadPoint(b: seq<Byte>): (r: Option<(Point, seq<Byte>)>)
    ensures r.Some? ==> |r.value.1| < |b|
  {
    if b == [] then None
    else if b[0] < 0x80 then Some((b[0], b[1..]))
    else if |b| >= 2 && 0xC2 <= b[0] <= 0xDF && IsContinuation(b[1]) then Some(((b[0] as int - 0xC0) * 64 + Low(b[1]), b[2..]))
    else if |b| >= 3 && 0xE0 <= b[0] <= 0xEF && IsContinuation(b[1]) && IsContinuation(b[2]) then
      var c := (b[0] as int - 0xE0) * 4096 + Low(b[1]) * 64 + Low(b[2]);
      if c < 0x800 || 0xD800 <= c <= 0xDFFF then None else Some((c, b[3..]))
    else if |b| >= 4 && 0xF0 <= b[0] <= 0xF4 && IsContinuation(b[1]) && IsContinuation(b[2]) && IsContinuation(b[3]) then
      var c := (b[0] as int - 0xF0) * 262144 + Low(b[1]) * 4096 + Low(b[2]) * 64 + Low(b[3]);
      if c < 0x10000 || c > 0x10FFFF then None else Some((c, b[4..]))
    else None
  }

  function ReadUtf8(b: seq<Byte>): Option<Text>
    decreases |b|
  {
    if b == [] then Some([])
    else match ReadPoint(b)
      case None => None
      case Some((c, rest)) =>
        match ReadUtf8(rest)
        case None => None
        case Some(t) => Some([c] + t)
  }

  lemma PointReads(c: Point, x: seq<Byte>)
    requires !Surrogate(c)
    ensures ReadPoint(Utf8Char(c) + x) == Some((c, x))
  {
    Utf8CharReads(c);
    var b := Utf8Char(c) + x;
    assert b[|Utf8Char(c)|..] == x;
    assert forall i | 0 <= i < |Utf8Char(c)| :: b[i] == Utf8Char(c)[i];
  }

  lemma {:induction false} Utf8Reads(t: Text)
    requires Utf8(t).Some?
    ensures ReadUtf8(Utf8(t).value) == Some(t)
  {
    hide Utf8Char, ReadPoint, Surrogate;
    if t != [] {
      Utf8CharNonEmpty(t[0]);
      PointReads(t[0], Utf8(t[1..]).value);
      Utf8Reads(t[1..]);
      assert t == [t[0]] + t[1..];
    }
  }

  // ---------- the theorem ----------

  /** A text that is one value from its first character to its last. */
  function ReadAll(b: seq<Byte>): Option<Value>
  {
    match ReadUtf8(b)
    case None => None
    case Some(t) =>
      match ReadValue(t)
      case None => None
      case Some((v, rest)) => if rest == [] then Some(v) else None
  }

  /** The canonical bytes of a value, read as UTF-8 and then as JSON, show that value, with
      the keys of every dictionary in ascending code-point order. */
  lemma CanonicalBytesRead(v: Value)
    requires Canonicalize(v).Bytes? && KeysOnce(v)
    ensures ReadAll(Canonicalize(v).raw) == Some(Normal(v))
    ensures Same(v, Normal(v)) && KeysAscend(Normal(v))
  {
    hide Print, Utf8, ReadUtf8, ReadValue, Normal, Same, KeysAscend, KeysOnce;
    var text := Print(v, 0).value;
    Utf8Reads(text);
    ValueReads(v, 0, []);
    assert text + [] == text;
    NormalIsSame(v);
    NormalAscends(v, 0);
  }
}

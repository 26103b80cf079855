/** The canonical text decides its value: equal bytes exactly for equal values, and
    the order in which a dictionary was filled does not show. */
module CanonicalProofs {
  import opened Wrappers
  import opened CanonicalText

  // ---------- equal values ----------

  /** Equality of JSON values: booleans are not integers, dictionaries compare by key. */
  ghost predicate Same(v: Value, w: Value)
    decreases v, 2
  {
    match (v, w)
    case (List(a), List(b)) => |a| == |b| && forall i | 0 <= i < |a| :: Same(a[i], b[i])
    case (Dict(a), Dict(b)) =>
      (forall i | 0 <= i < |a| :: EntryIn(a[i], b)) && (forall j | 0 <= j < |b| :: KeyIn(b[j].key, a))
    case _ => v == w
  }

  /** The dictionary has an equal entry. */
  ghost predicate EntryIn(e: Entry, es: seq<Entry>)
    decreases e, 1
  {
    exists j :: 0 <= j < |es| && SameEntry(e, es[j])
  }

  predicate KeyIn(k: Key, es: seq<Entry>)
  {
    exists i :: 0 <= i < |es| && es[i].key == k
  }

  ghost predicate SameEntry(e: Entry, f: Entry)
    decreases e, 0
  {
    e.key == f.key && Same(e.value, f.value)
  }

  /** Python's dictionaries hold each key once. */
  predicate KeysOnce(v: Value)
  {
    match v
    case List(items) => forall i | 0 <= i < |items| :: KeysOnce(items[i])
    case Dict(es) => DistinctKeys(es) && forall i | 0 <= i < |es| :: EntryKeysOnce(es[i])
    case _ => true
  }

  predicate EntryKeysOnce(e: Entry)
  {
    KeysOnce(e.value)
  }

  predicate DistinctKeys(es: seq<Entry>)
  {
    forall i, j | 0 <= i < j < |es| :: es[i].key != es[j].key
  }

  // ---------- strings are self-delimiting ----------

  lemma EscapedUnique(c: Point, d: Point, x: Text, y: Text)
    requires Escaped(c) + x == Escaped(d) + y
    ensures c == d && x == y
  {
    var s, t := Escaped(c) + x, Escaped(d) + y;
    assert s[0] == Escaped(c)[0] && t[0] == Escaped(d)[0];
    if s[0] == BACKSLASH {
      assert s[1] == Escaped(c)[1] && t[1] == Escaped(d)[1];
      if s[1] == 0x75 {
        assert s[4] == Escaped(c)[4] && t[4] == Escaped(d)[4];
        assert s[5] == Escaped(c)[5] && t[5] == Escaped(d)[5];
      }
    }
    assert x == s[|Escaped(c)|..] && y == t[|Escaped(d)|..];
  }

  lemma EscapedNotQuote(c: Point)
    ensures Escaped(c) != [] && Escaped(c)[0] != QUOTE
  {
  }

  lemma {:induction false} QuotedUnique(s: Text, t: Text, x: Text, y: Text)
    requires Quoted(s) + x == Quoted(t) + y
    ensures s == t && x == y
  {
    hide Escaped;
    if s == [] || t == [] {
      if s != [] { EscapedNotQuote(s[0]); }
      if t != [] { EscapedNotQuote(t[0]); }
      assert (Quoted(s) + x)[0] == (Quoted(t) + y)[0];
      assert s == [] && t == [];
      assert x == (Quoted(s) + x)[1..] && y == (Quoted(t) + y)[1..];
    } else {
      assert Quoted(s) + x == Escaped(s[0]) + (Quoted(s[1..]) + x);
      assert Quoted(t) + y == Escaped(t[0]) + (Quoted(t[1..]) + y);
      EscapedUnique(s[0], t[0], Quoted(s[1..]) + x, Quoted(t[1..]) + y);
      QuotedUnique(s[1..], t[1..], x, y);
    }
  }

  lemma StringUnique(s: Text, t: Text, x: Text, y: Text)
    requires JsonString(s) + x == JsonString(t) + y
    ensures s == t && x == y
  {
    hide Quoted;
    assert (JsonString(s) + x)[1..] == Quoted(s) + x;
    assert (JsonString(t) + y)[1..] == Quoted(t) + y;
    QuotedUnique(s, t, x, y);
  }

  // ---------- numbers end where the digits end ----------

  predicate IsDigit(c: Point) { ZERO <= c <= ZERO + 9 }

  predicate Stops(x: Text) { x == [] || !IsDigit(x[0]) }

  predicate AllDigits(s: Text) { forall i | 0 <= i < |s| :: IsDigit(s[i]) }

  function Number(s: Text): int
  {
    if s == [] then 0 else 10 * Number(s[..|s| - 1]) + (s[|s| - 1] - ZERO)
  }

  lemma {:induction false} DecimalReads(n: nat)
    ensures Decimal(n) != [] && AllDigits(Decimal(n)) && Number(Decimal(n)) == n
  {
    if n >= 10 {
      DecimalReads(n / 10);
      assert Decimal(n)[..|Decimal(n)| - 1] == Decimal(n / 10);
    } else {
      assert Decimal(n)[..0] == [];
    }
  }

  lemma RunEnds(a: Text, b: Text, x: Text, y: Text)
    requires AllDigits(b) && Stops(x) && a + x == b + y
    ensures |b| <= |a|
  {
    assert x != [] ==> (a + x)[|a|] == x[0];
  }

  lemma DigitRunUnique(a: Text, b: Text, x: Text, y: Text)
    requires AllDigits(a) && AllDigits(b) && Stops(x) && Stops(y) && a + x == b + y
    ensures a == b && x == y
  {
    RunEnds(a, b, x, y);
    RunEnds(b, a, y, x);
    assert a == (a + x)[..|a|] && b == (b + y)[..|b|];
    assert x == (a + x)[|a|..] && y == (b + y)[|b|..];
  }

  lemma NatUnique(m: nat, n: nat, x: Text, y: Text)
    requires Decimal(m) + x == Decimal(n) + y && Stops(x) && Stops(y)
    ensures m == n && x == y
  {
    DecimalReads(m);
    DecimalReads(n);
    DigitRunUnique(Decimal(m), Decimal(n), x, y);
  }

  lemma IntUnique(i: int, j: int, x: Text, y: Text)
    requires IntText(i) + x == IntText(j) + y && Stops(x) && Stops(y)
    ensures i == j && x == y
  {
    MinusFirst(i);
    MinusFirst(j);
    assert (IntText(i) + x)[0] == IntText(i)[0] && (IntText(j) + y)[0] == IntText(j)[0];
    hide Decimal, Stops;
    if i < 0 {
      MinusDrops(-i, x);
      MinusDrops(-j, y);
      NatUnique(-i, -j, x, y);
    } else {
      NatUnique(i, j, x, y);
    }
  }

  lemma MinusDrops(n: nat, x: Text)
    ensures ([MINUS] + Decimal(n) + x)[1..] == Decimal(n) + x
  {
  }

  lemma MinusFirst(i: int)
    ensures IntText(i) != [] && (IntText(i)[0] == MINUS <==> i < 0)
  {
    DecimalReads(if i < 0 then -i else i);
    hide Decimal;
  }

  // ---------- the first character names the kind ----------

  predicate StartsAs(v: Value, c: Point)
  {
    match v
    case Null => c == 0x6E
    case Bool(b) => c == if b then 0x74 else 0x66
    case Int(i) => if i < 0 then c == MINUS else IsDigit(c)
    case Str(_) => c == QUOTE
    case List(_) => c == OPEN_LIST
    case Dict(_) => c == OPEN_DICT
    case _ => false
  }

  lemma FirstCharacter(v: Value, depth: nat)
    requires Print(v, depth).Some?
    ensures Print(v, depth).value != [] && StartsAs(v, Print(v, depth).value[0])
  {
    hide Joined, Sorted, PrintItems, PrintEntries, Decimal;
    if v.Int? { DecimalReads(if v.i < 0 then -v.i else v.i); }
  }

  // ---------- unique readability ----------

  /** What follows the first of the joined parts. */
  function After(parts: seq<Text>, close: Point): Text
    requires parts != []
  {
    if |parts| == 1 then [close] else [COMMA] + Joined(parts[1..], close)
  }

  lemma JoinedSplits(parts: seq<Text>, close: Point, x: Text)
    requires parts != []
    ensures Joined(parts, close) + x == parts[0] + (After(parts, close) + x)
  {
    if |parts| == 1 {
      assert parts[0] + [close] + x == parts[0] + ([close] + x);
    } else {
      var rest := Joined(parts[1..], close);
      assert parts[0] + [COMMA] + rest + x == parts[0] + (([COMMA] + rest) + x);
    }
  }

  lemma AfterUnique(p: seq<Text>, q: seq<Text>, close: Point, x: Text, y: Text)
    requires p != [] && q != [] && close != COMMA && After(p, close) + x == After(q, close) + y
    ensures |p| == 1 <==> |q| == 1
    ensures |p| == 1 ==> x == y
    ensures |p| > 1 ==> Joined(p[1..], close) + x == Joined(q[1..], close) + y
  {
    hide Joined;
    var s, t := After(p, close) + x, After(q, close) + y;
    assert s[0] == After(p, close)[0] && t[0] == After(q, close)[0];
    assert s[1..] == (if |p| == 1 then x else Joined(p[1..], close) + x);
    assert t[1..] == (if |q| == 1 then y else Joined(q[1..], close) + y);
  }

  /** One printed value followed by anything that is not a digit can be read in only
      one way. */
  lemma {:induction false} PrintUnique(v: Value, w: Value, d: nat, e: nat, x: Text, y: Text)
    requires Print(v, d).Some? && Print(w, e).Some? && Stops(x) && Stops(y)
    requires Print(v, d).value + x == Print(w, e).value + y
    ensures Same(v, w) && x == y
    decreases Size(v), 1
  {
    hide Joined, Sorted, PrintItems, PrintEntries, JsonString, IntText, SizeOfItems, SizeOfEntries;
    FirstCharacter(v, d);
    FirstCharacter(w, e);
    var s, t := Print(v, d).value + x, Print(w, e).value + y;
    assert s[0] == Print(v, d).value[0] && t[0] == Print(w, e).value[0];
    match v
    case Int(i) => IntUnique(i, w.i, x, y);
    case Str(a) => StringUnique(a, w.text, x, y);
    case List(a) =>
      var p, q := PrintItems(a, d + 1).value, PrintItems(w.items, e + 1).value;
      assert s[1..] == Joined(p, CLOSE_LIST) + x && t[1..] == Joined(q, CLOSE_LIST) + y;
      ItemsUnique(a, w.items, d + 1, e + 1, x, y);
    case Dict(a) =>
      var p, q := PrintEntries(Sorted(a), d + 1).value, PrintEntries(Sorted(w.entries), e + 1).value;
      assert s[1..] == Joined(p, CLOSE_DICT) + x && t[1..] == Joined(q, CLOSE_DICT) + y;
      SortKeepsSize(a);
      EntriesUnique(Sorted(a), Sorted(w.entries), d + 1, e + 1, x, y);
      SortedDecides(a, w.entries);
    case Null => assert x == s[4..] && y == t[4..];
    case Bool(c) => assert x == s[if c then 4 else 5..] && y == t[if c then 4 else 5..];
    case Float =>
    case Unsupported =>
  }

  lemma {:induction false} ItemsUnique(a: seq<Value>, b: seq<Value>, d: nat, e: nat, x: Text, y: Text)
    requires PrintItems(a, d).Some? && PrintItems(b, e).Some? && Stops(x) && Stops(y)
    requires Joined(PrintItems(a, d).value, CLOSE_LIST) + x == Joined(PrintItems(b, e).value, CLOSE_LIST) + y
    ensures |a| == |b| && (forall i | 0 <= i < |a| :: Same(a[i], b[i])) && x == y
    decreases SizeOfItems(a), 0
  {
    hide Print, Same, Size;
    var p, q := PrintItems(a, d).value, PrintItems(b, e).value;
    if a == [] || b == [] {
      EmptyJoined(p, q, CLOSE_LIST, x, y);
      if a != [] { FirstCharacter(a[0], d); }
      if b != [] { FirstCharacter(b[0], e); }
    } else {
      JoinedSplits(p, CLOSE_LIST, x);
      JoinedSplits(q, CLOSE_LIST, y);
      PrintUnique(a[0], b[0], d, e, After(p, CLOSE_LIST) + x, After(q, CLOSE_LIST) + y);
      AfterUnique(p, q, CLOSE_LIST, x, y);
      if |a| > 1 {
        ItemsUnique(a[1..], b[1..], d, e, x, y);
        forall i | 0 <= i < |a| ensures Same(a[i], b[i]) {
          if i > 0 { assert a[i] == a[1..][i - 1] && b[i] == b[1..][i - 1]; }
        }
      }
    }
  }

  /** An empty container is closed at once; any other starts with its first part. */
  lemma EmptyJoined(p: seq<Text>, q: seq<Text>, close: Point, x: Text, y: Text)
    requires p == [] || q == []
    requires Joined(p, close) + x == Joined(q, close) + y
    ensures p != [] && p[0] != [] ==> p[0][0] == close
    ensures q != [] && q[0] != [] ==> q[0][0] == close
    ensures p == [] && q == [] ==> x == y
  {
    var s, t := Joined(p, close) + x, Joined(q, close) + y;
    if p != [] { JoinedSplits(p, close, x); }
    if q != [] { JoinedSplits(q, close, y); }
    assert s[0] == t[0];
    assert p == [] ==> s[0] == close && s[1..] == x;
    assert q == [] ==> t[0] == close && t[1..] == y;
  }

  /** Sorted entries: equal texts force equal keys and equal values, place by place. */
  lemma {:induction false} EntriesUnique(a: seq<Entry>, b: seq<Entry>, d: nat, e: nat, x: Text, y: Text)
    requires PrintEntries(a, d).Some? && PrintEntries(b, e).Some? && Stops(x) && Stops(y)
    requires Joined(PrintEntries(a, d).value, CLOSE_DICT) + x == Joined(PrintEntries(b, e).value, CLOSE_DICT) + y
    ensures |a| == |b| && (forall i | 0 <= i < |a| :: SameEntry(a[i], b[i])) && x == y
    decreases SizeOfEntries(a), 0
  {
    hide Print, Same, Size, Quoted;
    var p, q := PrintEntries(a, d).value, PrintEntries(b, e).value;
    if a == [] || b == [] {
      EmptyJoined(p, q, CLOSE_DICT, x, y);
    } else {
      var k, m := a[0].key.text, b[0].key.text;
      var u, v := Print(a[0].value, d).value, Print(b[0].value, e).value;
      JoinedSplits(p, CLOSE_DICT, x);
      JoinedSplits(q, CLOSE_DICT, y);
      EntrySplits(k, u, After(p, CLOSE_DICT) + x);
      EntrySplits(m, v, After(q, CLOSE_DICT) + y);
      StringUnique(k, m, [COLON] + (u + (After(p, CLOSE_DICT) + x)), [COLON] + (v + (After(q, CLOSE_DICT) + y)));
      assert u + (After(p, CLOSE_DICT) + x) == ([COLON] + (u + (After(p, CLOSE_DICT) + x)))[1..];
      assert v + (After(q, CLOSE_DICT) + y) == ([COLON] + (v + (After(q, CLOSE_DICT) + y)))[1..];
      PrintUnique(a[0].value, b[0].value, d, e, After(p, CLOSE_DICT) + x, After(q, CLOSE_DICT) + y);
      AfterUnique(p, q, CLOSE_DICT, x, y);
      if |a| > 1 {
        EntriesUnique(a[1..], b[1..], d, e, x, y);
        forall i | 0 <= i < |a| ensures SameEntry(a[i], b[i]) {
          if i > 0 { assert a[i] == a[1..][i - 1] && b[i] == b[1..][i - 1]; }
        }
      }
    }
  }

  lemma EntrySplits(key: Text, text: Text, rest: Text)
    ensures JsonString(key) + [COLON] + text + rest == JsonString(key) + ([COLON] + (text + rest))
  {
  }

  // ---------- sorting ----------

  lemma {:induction false} InsertMembers(e: Entry, es: seq<Entry>)
    ensures |Insert(e, es)| == |es| + 1
    ensures forall f :: f in Insert(e, es) <==> f == e || f in es
  {
    if es != [] && !KeyLess(e.key, es[0].key) {
      InsertMembers(e, es[1..]);
      assert es == [es[0]] + es[1..];
    }
  }

  lemma {:induction false} SortedMembers(es: seq<Entry>)
    ensures |Sorted(es)| == |es|
    ensures forall f :: f in Sorted(es) <==> f in es
  {
    if es != [] {
      SortedMembers(es[1..]);
      InsertMembers(es[0], Sorted(es[1..]));
      assert es == [es[0]] + es[1..];
    }
  }

  /** Entries that agree place by place once sorted are the same dictionary. */
  lemma SortedDecides(a: seq<Entry>, b: seq<Entry>)
    requires |Sorted(a)| == |Sorted(b)|
    requires forall i | 0 <= i < |Sorted(a)| :: SameEntry(Sorted(a)[i], Sorted(b)[i])
    ensures (forall i | 0 <= i < |a| :: EntryIn(a[i], b)) && (forall j | 0 <= j < |b| :: KeyIn(b[j].key, a))
  {
    hide Sorted, EntryIn, KeyIn, Same;
    SortedMembers(a);
    SortedMembers(b);
    forall i | 0 <= i < |a| ensures EntryIn(a[i], b) {
      assert a[i] in Sorted(a);
      var k :| 0 <= k < |Sorted(a)| && Sorted(a)[k] == a[i];
      EntryListed(a[i], Sorted(b)[k], b);
    }
    forall j | 0 <= j < |b| ensures KeyIn(b[j].key, a) {
      assert b[j] in Sorted(b);
      var k :| 0 <= k < |Sorted(b)| && Sorted(b)[k] == b[j];
      assert SameEntry(Sorted(a)[k], Sorted(b)[k]);
      KeyListed(Sorted(a)[k], a);
    }
  }

  lemma EntryListed(e: Entry, f: Entry, es: seq<Entry>)
    requires SameEntry(e, f) && f in es
    ensures EntryIn(e, es)
  {
  }

  lemma KeyListed(e: Entry, es: seq<Entry>)
    requires e in es
    ensures KeyIn(e.key, es)
  {
  }

  lemma {:induction false} TextOrder(a: Text, b: Text, c: Text)
    ensures !TextLess(a, a)
    ensures TextLess(a, b) && TextLess(b, c) ==> TextLess(a, c)
    ensures a == b || TextLess(a, b) || TextLess(b, a)
  {
    if a != [] {
      TextOrder(a[1..], if b == [] then [] else b[1..], if c == [] then [] else c[1..]);
      assert b != [] && a[0] == b[0] && a[1..] == b[1..] ==> a == b by {
        if b != [] && a[0] == b[0] && a[1..] == b[1..] {
          assert a == [a[0]] + a[1..] && b == [b[0]] + b[1..];
        }
      }
    }
  }

  lemma KeyOrder(a: Key, b: Key, c: Key)
    ensures !KeyLess(a, a)
    ensures KeyLess(a, b) && KeyLess(b, c) ==> KeyLess(a, c)
    ensures a == b || KeyLess(a, b) || KeyLess(b, a)
  {
    hide TextLess;
    if a.Name? && b.Name? { TextOrder(a.text, b.text, if c.Name? then c.text else []); }
    if a.Name? { TextOrder(a.text, a.text, a.text); }
  }

  ghost predicate Ascending(es: seq<Entry>)
  {
    forall i, j | 0 <= i < j < |es| :: KeyLess(es[i].key, es[j].key)
  }

  predicate Fresh(e: Entry, es: seq<Entry>)
  {
    forall i | 0 <= i < |es| :: es[i].key != e.key
  }

  lemma {:induction false} InsertAscends(e: Entry, es: seq<Entry>)
    requires Ascending(es) && Fresh(e, es)
    ensures Ascending(Insert(e, es))
  {
    hide KeyLess;
    if es == [] {
    } else if KeyLess(e.key, es[0].key) {
      forall i | 0 <= i < |es| ensures KeyLess(e.key, es[i].key) {
        KeyOrder(e.key, es[0].key, es[i].key);
      }
    } else {
      InsertAscends(e, es[1..]);
      InsertMembers(e, es[1..]);
      var rest := Insert(e, es[1..]);
      KeyOrder(e.key, es[0].key, e.key);
      forall i | 0 <= i < |rest| ensures KeyLess(es[0].key, rest[i].key) {
        assert rest[i] in rest;
        if rest[i] != e {
          var k :| 0 <= k < |es[1..]| && es[1..][k] == rest[i];
          assert es[k + 1] == rest[i];
        }
      }
    }
  }

  lemma {:induction false} SortedAscends(es: seq<Entry>)
    requires DistinctKeys(es)
    ensures Ascending(Sorted(es))
  {
    if es != [] {
      SortedAscends(es[1..]);
      SortedMembers(es[1..]);
      forall i | 0 <= i < |Sorted(es[1..])| ensures Sorted(es[1..])[i].key != es[0].key {
        assert Sorted(es[1..])[i] in es[1..];
      }
      InsertAscends(es[0], Sorted(es[1..]));
    }
  }

  /** Two ascending lists with the same keys have them in the same places. */
  lemma {:induction false} AscendingKeysAgree(a: seq<Entry>, b: seq<Entry>)
    requires Ascending(a) && Ascending(b)
    requires forall i | 0 <= i < |a| :: KeyIn(a[i].key, b)
    requires forall i | 0 <= i < |b| :: KeyIn(b[i].key, a)
    ensures |a| == |b| && forall i | 0 <= i < |a| :: a[i].key == b[i].key
  {
    hide KeyLess;
    if a == [] || b == [] {
      assert a != [] ==> KeyIn(a[0].key, b);
      assert b != [] ==> KeyIn(b[0].key, a);
    } else {
      assert KeyIn(a[0].key, b) && KeyIn(b[0].key, a);
      var j :| 0 <= j < |b| && b[j].key == a[0].key;
      var i :| 0 <= i < |a| && a[i].key == b[0].key;
      KeyOrder(a[0].key, b[0].key, a[0].key);
      assert a[0].key == b[0].key;
      TailKeys(a, b);
      TailKeys(b, a);
      AscendingKeysAgree(a[1..], b[1..]);
      forall k | 0 <= k < |a| ensures a[k].key == b[k].key {
        if k > 0 { assert a[k] == a[1..][k - 1] && b[k] == b[1..][k - 1]; }
      }
    }
  }

  lemma TailKeys(a: seq<Entry>, b: seq<Entry>)
    requires a != [] && b != [] && Ascending(a) && a[0].key == b[0].key
    requires forall i | 0 <= i < |a| :: KeyIn(a[i].key, b)
    ensures forall i | 0 <= i < |a[1..]| :: KeyIn(a[1..][i].key, b[1..])
  {
    hide KeyLess;
    forall i | 0 <= i < |a[1..]| ensures KeyIn(a[1..][i].key, b[1..]) {
      assert KeyIn(a[i + 1].key, b) && KeyLess(a[0].key, a[i + 1].key);
      var j :| 0 <= j < |b| && b[j].key == a[i + 1].key;
      KeyOrder(a[0].key, a[0].key, a[0].key);
      assert b[1..][j - 1].key == a[1..][i].key;
    }
  }

  // ---------- order-blindness ----------

  /** Equal values print alike, whatever the insertion orders. */
  lemma {:induction false} SamePrints(v: Value, w: Value, d: nat)
    requires Same(v, w) && KeysOnce(v) && KeysOnce(w)
    ensures Print(v, d) == Print(w, d)
    decreases Size(v), 1
  {
    hide Joined, Sorted, PrintItems, PrintEntries, JsonString, IntText, SizeOfItems, SizeOfEntries;
    match v
    case List(a) => SameItemsPrint(a, w.items, d + 1);
    case Dict(a) =>
      var b := w.entries;
      SameTextKeys(a, b);
      SortKeepsSize(a);
      SortedPairs(a, b);
      SameEntriesPrint(Sorted(a), Sorted(b), d + 1);
    case _ =>
  }

  lemma NamesIn(k: Key, es: seq<Entry>)
    requires KeyIn(k, es) && TextKeys(es)
    ensures k.Name?
  {
  }

  lemma EntryKeyIn(e: Entry, es: seq<Entry>)
    requires EntryIn(e, es)
    ensures KeyIn(e.key, es)
  {
    var j :| 0 <= j < |es| && SameEntry(e, es[j]);
  }

  lemma SameTextKeys(a: seq<Entry>, b: seq<Entry>)
    requires forall i | 0 <= i < |a| :: EntryIn(a[i], b)
    requires forall j | 0 <= j < |b| :: KeyIn(b[j].key, a)
    ensures TextKeys(a) <==> TextKeys(b)
  {
    hide EntryIn, KeyIn;
    if TextKeys(a) {
      forall j | 0 <= j < |b| ensures b[j].key.Name? { NamesIn(b[j].key, a); }
    }
    if TextKeys(b) {
      forall i | 0 <= i < |a| ensures a[i].key.Name? {
        EntryKeyIn(a[i], b);
        NamesIn(a[i].key, b);
      }
    }
  }

  ghost predicate Pairs(a: seq<Entry>, b: seq<Entry>)
  {
    |a| == |b| && forall i | 0 <= i < |a| :: SameEntry(a[i], b[i]) && EntryKeysOnce(a[i]) && EntryKeysOnce(b[i])
  }

  /** With distinct keys, the entry found under a key is the equal one. */
  lemma SameKeySameEntry(e: Entry, f: Entry, es: seq<Entry>)
    requires EntryIn(e, es) && f in es && f.key == e.key && DistinctKeys(es)
    ensures SameEntry(e, f)
  {
    hide Same;
    var j :| 0 <= j < |es| && SameEntry(e, es[j]);
    var m :| 0 <= m < |es| && es[m] == f;
    assert j == m;
  }

  lemma KeyTravels(k: Key, es: seq<Entry>, fs: seq<Entry>)
    requires KeyIn(k, es) && forall f | f in es :: f in fs
    ensures KeyIn(k, fs)
  {
    var i :| 0 <= i < |es| && es[i].key == k;
    assert es[i] in fs;
  }

  lemma SortedPairs(a: seq<Entry>, b: seq<Entry>)
    requires forall i | 0 <= i < |a| :: EntryIn(a[i], b)
    requires forall j | 0 <= j < |b| :: KeyIn(b[j].key, a)
    requires DistinctKeys(a) && DistinctKeys(b)
    requires (forall i | 0 <= i < |a| :: EntryKeysOnce(a[i])) && (forall i | 0 <= i < |b| :: EntryKeysOnce(b[i]))
    ensures Pairs(Sorted(a), Sorted(b))
  {
    hide Sorted, KeyLess, EntryIn, KeyIn, SameEntry, EntryKeysOnce, DistinctKeys, Ascending;
    var s, t := Sorted(a), Sorted(b);
    SortedMembers(a);
    SortedMembers(b);
    SortedAscends(a);
    SortedAscends(b);
    forall k | 0 <= k < |s| ensures KeyIn(s[k].key, t) {
      assert s[k] in a;
      EntryKeyIn(s[k], b);
      KeyTravels(s[k].key, b, t);
    }
    forall k | 0 <= k < |t| ensures KeyIn(t[k].key, s) {
      assert t[k] in b;
      KeyTravels(t[k].key, a, s);
    }
    AscendingKeysAgree(s, t);
    forall k | 0 <= k < |s| ensures SameEntry(s[k], t[k]) && EntryKeysOnce(s[k]) && EntryKeysOnce(t[k]) {
      assert s[k] in a && t[k] in b;
      SameKeySameEntry(s[k], t[k], b);
    }
  }

  lemma {:induction false} SameItemsPrint(a: seq<Value>, b: seq<Value>, d: nat)
    requires |a| == |b|
    requires forall i | 0 <= i < |a| :: Same(a[i], b[i]) && KeysOnce(a[i]) && KeysOnce(b[i])
    ensures PrintItems(a, d) == PrintItems(b, d)
    decreases SizeOfItems(a), 0
  {
    hide Print, Same, KeysOnce, Size;
    if a != [] {
      SamePrints(a[0], b[0], d);
      SameItemsPrint(a[1..], b[1..], d);
    }
  }

  lemma {:induction false} SameEntriesPrint(a: seq<Entry>, b: seq<Entry>, d: nat)
    requires Pairs(a, b)
    ensures PrintEntries(a, d) == PrintEntries(b, d)
    decreases SizeOfEntries(a), 0
  {
    hide Print, Same, KeysOnce, Size, JsonString;
    if a != [] {
      assert SameEntry(a[0], b[0]) && EntryKeysOnce(a[0]) && EntryKeysOnce(b[0]);
      SamePrints(a[0].value, b[0].value, d);
      SameEntriesPrint(a[1..], b[1..], d);
    }
  }

  // ---------- UTF-8 ----------

  lemma Utf8CharUnique(c: Point, d: Point, x: seq<Byte>, y: seq<Byte>)
    requires Utf8Char(c) + x == Utf8Char(d) + y
    ensures c == d && x == y
  {
    var s, t := Utf8Char(c) + x, Utf8Char(d) + y;
    assert s[0] == Utf8Char(c)[0] && t[0] == Utf8Char(d)[0];
    assert |Utf8Char(c)| == |Utf8Char(d)|;
    forall i | 0 <= i < |Utf8Char(c)| ensures Utf8Char(c)[i] == Utf8Char(d)[i] {
      assert s[i] == Utf8Char(c)[i] && t[i] == Utf8Char(d)[i];
    }
    Utf8CharDecides(c, d);
    assert x == s[|Utf8Char(c)|..] && y == t[|Utf8Char(d)|..];
  }

  /** The code point back from its bytes. */
  function Utf8Point(b: seq<Byte>): int
    requires 1 <= |b| <= 4
  {
    var b0 := b[0] as int;
    if |b| == 1 then b0
    else
      var b1 := b[1] as int;
      if |b| == 2 then (b0 - 0xC0) * 64 + (b1 - 0x80)
      else
        var b2 := b[2] as int;
        if |b| == 3 then (b0 - 0xE0) * 4096 + (b1 - 0x80) * 64 + (b2 - 0x80)
        else (b0 - 0xF0) * 262144 + (b1 - 0x80) * 4096 + (b2 - 0x80) * 64 + (b[3] as int - 0x80)
  }

  lemma Utf8CharReads(c: Point)
    ensures 1 <= |Utf8Char(c)| <= 4 && Utf8Point(Utf8Char(c)) == c
  {
    assert c / 64 / 64 == c / 4096 && c / 4096 / 64 == c / 262144;
  }

  lemma Utf8CharDecides(c: Point, d: Point)
    requires |Utf8Char(c)| == |Utf8Char(d)| && forall i | 0 <= i < |Utf8Char(c)| :: Utf8Char(c)[i] == Utf8Char(d)[i]
    ensures c == d
  {
    Utf8CharReads(c);
    Utf8CharReads(d);
    hide Utf8Char, Utf8Point;
    assert Utf8Char(c) == Utf8Char(d);
  }

  lemma {:induction false} Utf8Unique(s: Text, t: Text)
    requires Utf8(s).Some? && Utf8(t).Some? && Utf8(s).value == Utf8(t).value
    ensures s == t
  {
    hide Utf8Char, Surrogate;
    if s == [] || t == [] {
      if s != [] { Utf8CharNonEmpty(s[0]); }
      if t != [] { Utf8CharNonEmpty(t[0]); }
    } else {
      Utf8CharUnique(s[0], t[0], Utf8(s[1..]).value, Utf8(t[1..]).value);
      Utf8Unique(s[1..], t[1..]);
      assert s == [s[0]] + s[1..] && t == [t[0]] + t[1..];
    }
  }

  lemma Utf8CharNonEmpty(c: Point)
    ensures Utf8Char(c) != []
  {
  }

  // ---------- the theorems ----------

  /** Whenever both values have canonical bytes, the bytes are equal exactly when the
      values are. */
  lemma BytesDecideTheValue(v: Value, w: Value)
    requires Canonicalize(v).Bytes? && Canonicalize(w).Bytes? && KeysOnce(v) && KeysOnce(w)
    ensures Canonicalize(v).raw == Canonicalize(w).raw <==> Same(v, w)
  {
    hide Print, Utf8, Same, KeysOnce;
    var s, t := Print(v, 0).value, Print(w, 0).value;
    if Canonicalize(v).raw == Canonicalize(w).raw {
      Utf8Unique(s, t);
      assert s + [] == t + [];
      PrintUnique(v, w, 0, 0, [], []);
    }
    if Same(v, w) { SamePrints(v, w, 0); }
  }

  /** The outcome, refusals included, does not depend on insertion order. */
  lemma InsertionOrderDoesNotShow(v: Value, w: Value)
    requires Same(v, w) && KeysOnce(v) && KeysOnce(w)
    ensures Canonicalize(v) == Canonicalize(w)
  {
    hide Print, Utf8, Same, KeysOnce;
    SamePrints(v, w, 0);
  }
}

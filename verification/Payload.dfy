/** Caller payloads on their way into the ledger: every string becomes a hash
    envelope, every container is bounded, objects are read back with their keys
    sorted, and the result is a fixed point of the same function.  The hash is a
    parameter: nothing here depends on SHA-256. */
module Payload {

  datatype Json =
    | JNull
    | JBool(b: bool)
    | JInt(i: int)
    | JText(text: string)
    | JList(items: seq<Json>)
    | JObject(fields: seq<Field>)   // a dict, in insertion order
    | JOther                        // a float, bytes, or any other Python object

  datatype Field = Field(key: string, value: Json)

  const SAFE_INTEGER_MAX: int := 0x1F_FFFF_FFFF_FFFF
  const MAX_TEXT: int := 16_384
  const MAX_ENCODED: int := 64_000

  // ---------- digests ----------

  predicate IsHex(c: char) { '0' <= c <= '9' || 'a' <= c <= 'f' }

  predicate IsDigest(s: string) { |s| == 64 && forall i | 0 <= i < |s| :: IsHex(s[i]) }

  type Digest = s: string | IsDigest(s)
    witness seq(64, _ => '0')

  // ---------- text ----------

  /** UTF-16 code units, as JavaScript's String.length counts them. */
  function JsLength(s: string): nat
  {
    if s == [] then 0
    else JsLength(s[..|s| - 1]) + if s[|s| - 1] >= '\U{10000}' then 2 else 1
  }

  predicate IsLetter(c: char) { 'a' <= c <= 'z' || 'A' <= c <= 'Z' }

  predicate IsKeyChar(c: char) { IsLetter(c) || '0' <= c <= '9' || c in {'_', '.', '-'} }

  const FORBIDDEN: seq<string> := [
    "credential", "secret", "password", "token", "cookie", "authorization", "apikey",
    "rawerror", "errorbody", "providererror", "headers", "error"]

  function Lower(c: char): char
  {
    if 'A' <= c <= 'Z' then (c as int + 32) as char else c
  }

  /** Lower-cased, with underscores and hyphens removed. */
  function Folded(s: string): string
  {
    if s == [] then []
    else if s[0] in {'_', '-'} then Folded(s[1..])
    else [Lower(s[0])] + Folded(s[1..])
  }

  predicate Contains(hay: string, needle: string)
  {
    exists i | 0 <= i <= |hay| :: needle <= hay[i..]
  }

  predicate SafeKey(k: string)
  {
    && 1 <= |k| <= 64
    && IsLetter(k[0])
    && (forall i | 0 <= i < |k| :: IsKeyChar(k[i]))
    && (forall i | 0 <= i < |FORBIDDEN| :: !Contains(Folded(k), FORBIDDEN[i]))
  }

  // ---------- envelopes ----------

  predicate EnvelopeShaped(fs: seq<Field>)
  {
    |fs| == 2 && {fs[0].key, fs[1].key} == {"sha256", "length"}
  }

  function Part(fs: seq<Field>, key: string): Json
    requires EnvelopeShaped(fs)
  {
    if fs[0].key == key then fs[0].value else fs[1].value
  }

  predicate GoodEnvelope(fs: seq<Field>)
    requires EnvelopeShaped(fs)
  {
    && Part(fs, "sha256").JText? && IsDigest(Part(fs, "sha256").text)
    && Part(fs, "length").JInt? && 0 <= Part(fs, "length").i <= MAX_TEXT
  }

  function Envelope(digest: string, length: int): Json
  {
    JObject([Field("sha256", JText(digest)), Field("length", JInt(length))])
  }

  // ---------- the canonical form ----------

  datatype Canonical<+T> = Refused | Kept(value: T, count: nat)

  /** What `_canonical_payload` computes at nesting `depth`. */
  function Canon(sha: string -> Digest, j: Json, depth: nat): Canonical<Json>
    decreases j, 1
  {
    if depth > 12 then Refused
    else match j
      case JNull => Kept(j, 1)
      case JBool(_) => Kept(j, 1)
      case JInt(i) => if -SAFE_INTEGER_MAX <= i <= SAFE_INTEGER_MAX then Kept(j, 1) else Refused
      case JText(s) => if JsLength(s) > MAX_TEXT then Refused else Kept(Envelope(sha(s), JsLength(s)), 1)
      case JList(items) =>
        if |items| > 256 then Refused
        else (match CanonItems(sha, items, depth + 1)
              case Refused => Refused
              case Kept(out, n) => if 1 + n > 2048 then Refused else Kept(JList(out), 1 + n))
      case JObject(fs) =>
        if EnvelopeShaped(fs) then
          if GoodEnvelope(fs) then Kept(Envelope(Part(fs, "sha256").text, Part(fs, "length").i), 1) else Refused
        else if |fs| > 128 then Refused
        else (match CanonFields(sha, fs, depth + 1)
              case Refused => Refused
              case Kept(out, n) => if 1 + n > 2048 then Refused else Kept(JObject(out), 1 + n))
      case JOther => Refused
  }

  function CanonItems(sha: string -> Digest, items: seq<Json>, depth: nat): (r: Canonical<seq<Json>>)
    ensures r.Kept? ==> |r.value| == |items|
    decreases items, 0
  {
    if items == [] then Kept([], 0)
    else
      match CanonItems(sha, items[..|items| - 1], depth)
      case Refused => Refused
      case Kept(out, n) =>
        match Canon(sha, items[|items| - 1], depth)
        case Refused => Refused
        case Kept(last, k) => Kept(out + [last], n + k)
  }

  function CanonFields(sha: string -> Digest, fs: seq<Field>, depth: nat): (r: Canonical<seq<Field>>)
    ensures r.Kept? ==> |r.value| == |fs| && forall i | 0 <= i < |fs| :: r.value[i].key == fs[i].key
    decreases fs, 0
  {
    if fs == [] then Kept([], 0)
    else
      match CanonFields(sha, fs[..|fs| - 1], depth)
      case Refused => Refused
      case Kept(out, n) =>
        var f := fs[|fs| - 1];
        if !SafeKey(f.key) then Refused
        else match Canon(sha, f.value, depth)
          case Refused => Refused
          case Kept(v, k) => Kept(out + [Field(f.key, v)], n + k)
  }

  /** `_canonical_payload`: recursion on the value, a loop over each container. */
  method CanonicalPayload(sha: string -> Digest, value: Json, depth: nat) returns (r: Canonical<Json>)
    ensures r == Canon(sha, value, depth)
    decreases value, 1
  {
    if depth > 12 { return Refused; }
    match value
    case JNull => r := Kept(value, 1);
    case JBool(_) => r := Kept(value, 1);
    case JInt(i) =>
      if -SAFE_INTEGER_MAX <= i <= SAFE_INTEGER_MAX { r := Kept(value, 1); } else { r := Refused; }
    case JText(s) =>
      if JsLength(s) > MAX_TEXT { r := Refused; } else { r := Kept(Envelope(sha(s), JsLength(s)), 1); }
    case JList(items) =>
      if |items| > 256 { return Refused; }
      var children := CanonicalChildren(sha, items, depth + 1);
      if children.Refused? || 1 + children.count > 2048 { return Refused; }
      r := Kept(JList(children.value), 1 + children.count);
    case JObject(fs) =>
      if EnvelopeShaped(fs) {
        if !GoodEnvelope(fs) { return Refused; }
        return Kept(Envelope(Part(fs, "sha256").text, Part(fs, "length").i), 1);
      }
      if |fs| > 128 { return Refused; }
      var children := CanonicalEntries(sha, fs, depth + 1);
      if children.Refused? || 1 + children.count > 2048 { return Refused; }
      r := Kept(JObject(children.value), 1 + children.count);
    case JOther => r := Refused;
  }

  /** The loop over a list. */
  method CanonicalChildren(sha: string -> Digest, items: seq<Json>, depth: nat) returns (r: Canonical<seq<Json>>)
    ensures r == CanonItems(sha, items, depth)
    decreases items, 0
  {
    hide Canon;
    var result: seq<Json>, count: nat := [], 0;
    for i := 0 to |items|
      invariant CanonItems(sha, items[..i], depth) == Kept(result, count)
    {
      assert items[..i + 1][..i] == items[..i];
      var child := CanonicalPayload(sha, items[i], depth);
      if child.Refused? {
        PrefixRefused(sha, items, i + 1, depth);
        return Refused;
      }
      result, count := result + [child.value], count + child.count;
    }
    assert items[..|items|] == items;
    r := Kept(result, count);
  }

  /** The loop over a mapping. */
  method CanonicalEntries(sha: string -> Digest, fs: seq<Field>, depth: nat) returns (r: Canonical<seq<Field>>)
    ensures r == CanonFields(sha, fs, depth)
    decreases fs, 0
  {
    hide Canon, SafeKey;
    var result: seq<Field>, count: nat := [], 0;
    for i := 0 to |fs|
      invariant CanonFields(sha, fs[..i], depth) == Kept(result, count)
    {
      assert fs[..i + 1][..i] == fs[..i];
      if !SafeKey(fs[i].key) {
        FieldPrefixRefused(sha, fs, i + 1, depth);
        return Refused;
      }
      var child := CanonicalPayload(sha, fs[i].value, depth);
      if child.Refused? {
        FieldPrefixRefused(sha, fs, i + 1, depth);
        return Refused;
      }
      result, count := result + [Field(fs[i].key, child.value)], count + child.count;
    }
    assert fs[..|fs|] == fs;
    r := Kept(result, count);
  }

  lemma {:induction false} PrefixRefused(sha: string -> Digest, items: seq<Json>, n: nat, depth: nat)
    requires n <= |items| && CanonItems(sha, items[..n], depth).Refused?
    ensures CanonItems(sha, items, depth).Refused?
    decreases |items|
  {
    if n < |items| {
      var front := items[..|items| - 1];
      assert front[..n] == items[..n];
      PrefixRefused(sha, front, n, depth);
    } else {
      assert items[..n] == items;
    }
  }

  lemma {:induction false} FieldPrefixRefused(sha: string -> Digest, fs: seq<Field>, n: nat, depth: nat)
    requires n <= |fs| && CanonFields(sha, fs[..n], depth).Refused?
    ensures CanonFields(sha, fs, depth).Refused?
    decreases |fs|
  {
    if n < |fs| {
      var front := fs[..|fs| - 1];
      assert front[..n] == fs[..n];
      FieldPrefixRefused(sha, front, n, depth);
    } else {
      assert fs[..n] == fs;
    }
  }

  // ---------- canonical values ----------

  /** The node count of a value that is already canonical, without any hashing; the
      two fields of an envelope may stand in either order. */
  function Recount(j: Json, depth: nat): Canonical<()>
    decreases j, 1
  {
    if depth > 12 then Refused
    else match j
      case JNull => Kept((), 1)
      case JBool(_) => Kept((), 1)
      case JInt(i) => if -SAFE_INTEGER_MAX <= i <= SAFE_INTEGER_MAX then Kept((), 1) else Refused
      case JText(_) => Refused
      case JList(items) =>
        if |items| > 256 then Refused
        else (match RecountItems(items, depth + 1)
              case Refused => Refused
              case Kept(_, n) => if 1 + n > 2048 then Refused else Kept((), 1 + n))
      case JObject(fs) =>
        if EnvelopeShaped(fs) then
          if GoodEnvelope(fs) then Kept((), 1) else Refused
        else if |fs| > 128 then Refused
        else (match RecountFields(fs, depth + 1)
              case Refused => Refused
              case Kept(_, n) => if 1 + n > 2048 then Refused else Kept((), 1 + n))
      case JOther => Refused
  }

  function RecountItems(items: seq<Json>, depth: nat): Canonical<()>
    decreases items, 0
  {
    if items == [] then Kept((), 0)
    else
      match (RecountItems(items[..|items| - 1], depth), Recount(items[|items| - 1], depth))
      case (Kept(_, n), Kept(_, k)) => Kept((), n + k)
      case _ => Refused
  }

  function RecountFields(fs: seq<Field>, depth: nat): Canonical<()>
    decreases fs, 0
  {
    if fs == [] then Kept((), 0)
    else if !SafeKey(fs[|fs| - 1].key) then Refused
    else
      match (RecountFields(fs[..|fs| - 1], depth), Recount(fs[|fs| - 1].value, depth))
      case (Kept(_, n), Kept(_, k)) => Kept((), n + k)
      case _ => Refused
  }

  /** Whatever `Canon` keeps is canonical, with the same node count. */
  lemma {:induction false} KeptIsCanonical(sha: string -> Digest, j: Json, depth: nat)
    ensures Canon(sha, j, depth).Kept? ==>
              Recount(Canon(sha, j, depth).value, depth) == Kept((), Canon(sha, j, depth).count)
    decreases j, 1
  {
    match j
    case JNull =>
    case JBool(_) =>
    case JInt(_) =>
    case JText(s) => if depth <= 12 && JsLength(s) <= MAX_TEXT { EnvelopeIsCanonical(sha(s), JsLength(s), depth); }
    case JList(items) => if depth <= 12 { KeptItemsAreCanonical(sha, items, depth + 1); }
    case JObject(fs) =>
      if depth <= 12 {
        if EnvelopeShaped(fs) {
          if GoodEnvelope(fs) {
            EnvelopeIsCanonical(Part(fs, "sha256").text, Part(fs, "length").i, depth);
          }
        } else {
          KeptFieldsAreCanonical(sha, fs, depth + 1);
        }
      }
    case JOther =>
  }

  lemma EnvelopeIsCanonical(digest: string, length: int, depth: nat)
    requires IsDigest(digest) && 0 <= length <= MAX_TEXT && depth <= 12
    ensures Recount(Envelope(digest, length), depth) == Kept((), 1)
  {
  }

  lemma {:induction false} KeptItemsAreCanonical(sha: string -> Digest, items: seq<Json>, depth: nat)
    ensures var r := CanonItems(sha, items, depth);
            r.Kept? ==> RecountItems(r.value, depth) == Kept((), r.count)
    decreases items, 0
  {
    if items != [] {
      var front, last := items[..|items| - 1], items[|items| - 1];
      KeptItemsAreCanonical(sha, front, depth);
      KeptIsCanonical(sha, last, depth);
      var r := CanonItems(sha, items, depth);
      if r.Kept? {
        assert r.value[..|r.value| - 1] == CanonItems(sha, front, depth).value;
      }
    }
  }

  lemma {:induction false} KeptFieldsAreCanonical(sha: string -> Digest, fs: seq<Field>, depth: nat)
    ensures var r := CanonFields(sha, fs, depth);
            r.Kept? ==> RecountFields(r.value, depth) == Kept((), r.count)
    decreases fs, 0
  {
    if fs != [] {
      var front, last := fs[..|fs| - 1], fs[|fs| - 1];
      KeptFieldsAreCanonical(sha, front, depth);
      KeptIsCanonical(sha, last.value, depth);
      var r := CanonFields(sha, fs, depth);
      if r.Kept? {
        assert r.value[..|r.value| - 1] == CanonFields(sha, front, depth).value;
      }
    }
  }

  // ---------- equal dictionaries ----------

  /** What Python's == compares: a dict as a map, without the order of its keys. */
  datatype PyValue =
    | PyScalar(scalar: Json)
    | PyList(items: seq<PyValue>)
    | PyDict(entries: map<string, PyValue>)

  function ValueOf(j: Json): PyValue
    decreases j, 1
  {
    match j
    case JList(items) => PyList(ValuesOf(items))
    case JObject(fs) => PyDict(EntriesOf(fs))
    case _ => PyScalar(j)
  }

  function ValuesOf(items: seq<Json>): (r: seq<PyValue>)
    ensures |r| == |items|
    decreases items, 0
  {
    if items == [] then [] else ValuesOf(items[..|items| - 1]) + [ValueOf(items[|items| - 1])]
  }

  function EntriesOf(fs: seq<Field>): map<string, PyValue>
    decreases fs, 0
  {
    if fs == [] then map[]
    else
      var f := fs[|fs| - 1];
      EntriesOf(fs[..|fs| - 1])[f.key := ValueOf(f.value)]
  }

  predicate Equal(a: Json, b: Json) { ValueOf(a) == ValueOf(b) }

  /** A dict holds each key once; `_strict_fact_payload` refuses any other object. */
  predicate KeysOnce(j: Json)
  {
    match j
    case JList(items) => forall x | x in items :: KeysOnce(x)
    case JObject(fs) => DistinctKeys(fs) && forall f | f in fs :: KeysOnce(f.value)
    case _ => true
  }

  predicate DistinctKeys(fs: seq<Field>)
  {
    forall i, j | 0 <= i < j < |fs| :: fs[i].key != fs[j].key
  }

  // ---------- writing with sort_keys and reading back ----------

  /** Python's <= on strings: by code point. */
  predicate AtMost(a: string, b: string)
  {
    a == [] || (b != [] && (a[0] < b[0] || (a[0] == b[0] && AtMost(a[1..], b[1..]))))
  }

  lemma {:induction false} KeysCompare(a: string, b: string)
    ensures AtMost(a, b) || AtMost(b, a)
  {
    if a != [] && b != [] { KeysCompare(a[1..], b[1..]); }
  }

  function InsertField(fs: seq<Field>, f: Field): (r: seq<Field>)
    ensures |r| == |fs| + 1
  {
    if fs == [] || AtMost(fs[|fs| - 1].key, f.key) then fs + [f]
    else InsertField(fs[..|fs| - 1], f) + [fs[|fs| - 1]]
  }

  /** json.loads(json.dumps(j, sort_keys=True)) */
  function Reread(j: Json): Json
    decreases j, 1
  {
    match j
    case JList(items) => JList(RereadItems(items))
    case JObject(fs) => JObject(RereadFields(fs))
    case _ => j
  }

  function RereadItems(items: seq<Json>): (r: seq<Json>)
    ensures |r| == |items|
    decreases items, 0
  {
    if items == [] then [] else RereadItems(items[..|items| - 1]) + [Reread(items[|items| - 1])]
  }

  function RereadFields(fs: seq<Field>): (r: seq<Field>)
    ensures |r| == |fs|
    decreases fs, 0
  {
    if fs == [] then []
    else
      var f := fs[|fs| - 1];
      InsertField(RereadFields(fs[..|fs| - 1]), Field(f.key, Reread(f.value)))
  }

  /** Moving a field past greater keys does not change the dict. */
  lemma {:induction false} InsertEntry(fs: seq<Field>, f: Field)
    ensures EntriesOf(InsertField(fs, f)) == EntriesOf(fs)[f.key := ValueOf(f.value)]
  {
    hide ValueOf;
    if fs == [] || AtMost(fs[|fs| - 1].key, f.key) {
      assert (fs + [f])[..|fs|] == fs;
    } else {
      var front, last := fs[..|fs| - 1], fs[|fs| - 1];
      InsertEntry(front, f);
      assert (InsertField(front, f) + [last])[..|fs|] == InsertField(front, f);
      KeysCompare(f.key, f.key);
      var m, v, w := EntriesOf(front), ValueOf(f.value), ValueOf(last.value);
      assert m[f.key := v][last.key := w] == m[last.key := w][f.key := v];
    }
  }

  /** Sorting keys and reading back changes no value. */
  lemma {:induction false} RereadIsEqual(j: Json)
    ensures Equal(Reread(j), j)
    decreases j, 1
  {
    match j
    case JList(items) => RereadItemsAreEqual(items);
    case JObject(fs) => RereadFieldsAreEqual(fs);
    case _ =>
  }

  lemma {:induction false} RereadItemsAreEqual(items: seq<Json>)
    ensures ValuesOf(RereadItems(items)) == ValuesOf(items)
    decreases items, 0
  {
    if items != [] {
      var front, last := items[..|items| - 1], items[|items| - 1];
      RereadItemsAreEqual(front);
      RereadIsEqual(last);
      assert (RereadItems(front) + [Reread(last)])[..|front|] == RereadItems(front);
    }
  }

  lemma {:induction false} RereadFieldsAreEqual(fs: seq<Field>)
    ensures EntriesOf(RereadFields(fs)) == EntriesOf(fs)
    decreases fs, 0
  {
    if fs != [] {
      var front, f := fs[..|fs| - 1], fs[|fs| - 1];
      RereadFieldsAreEqual(front);
      RereadIsEqual(f.value);
      InsertEntry(RereadFields(front), Field(f.key, Reread(f.value)));
    }
  }

  // ---------- reading back twice ----------

  predicate Ascending(fs: seq<Field>)
  {
    forall i | 0 < i < |fs| :: AtMost(fs[i - 1].key, fs[i].key)
  }

  lemma {:induction false} InsertAscends(fs: seq<Field>, f: Field)
    requires Ascending(fs)
    ensures Ascending(InsertField(fs, f))
    ensures fs != [] && !AtMost(fs[|fs| - 1].key, f.key) ==> InsertField(fs, f)[|fs|] == fs[|fs| - 1]
    ensures fs == [] || AtMost(fs[|fs| - 1].key, f.key) ==> InsertField(fs, f)[|fs|] == f
  {
    hide AtMost;
    if fs != [] && !AtMost(fs[|fs| - 1].key, f.key) {
      InsertAscends(fs[..|fs| - 1], f);
      KeysCompare(f.key, fs[|fs| - 1].key);
    }
  }

  lemma {:induction false} InsertMembers(fs: seq<Field>, f: Field)
    ensures forall g :: g in InsertField(fs, f) <==> g == f || g in fs
  {
    if fs != [] && !AtMost(fs[|fs| - 1].key, f.key) {
      InsertMembers(fs[..|fs| - 1], f);
      assert fs == fs[..|fs| - 1] + [fs[|fs| - 1]];
    }
  }

  /** Sorted fields whose values are already read back stay as they are. */
  lemma {:induction false} AscendingStays(fs: seq<Field>)
    requires Ascending(fs) && forall f | f in fs :: Reread(f.value) == f.value
    ensures RereadFields(fs) == fs
  {
    hide AtMost;
    if fs != [] {
      var front, f := fs[..|fs| - 1], fs[|fs| - 1];
      AscendingStays(front);
      assert f in fs && Field(f.key, f.value) == f;
      assert front + [f] == fs;
    }
  }

  lemma {:induction false} RereadTwice(j: Json)
    ensures Reread(Reread(j)) == Reread(j)
    decreases j, 1
  {
    match j
    case JList(items) => RereadItemsTwice(items);
    case JObject(fs) =>
      RereadFieldsTwice(fs);
      AscendingStays(RereadFields(fs));
    case _ =>
  }

  lemma {:induction false} RereadItemsTwice(items: seq<Json>)
    ensures RereadItems(RereadItems(items)) == RereadItems(items)
    decreases items, 0
  {
    if items != [] {
      var front, last := items[..|items| - 1], items[|items| - 1];
      RereadItemsTwice(front);
      RereadTwice(last);
      assert (RereadItems(front) + [Reread(last)])[..|front|] == RereadItems(front);
    }
  }

  lemma {:induction false} RereadFieldsTwice(fs: seq<Field>)
    ensures Ascending(RereadFields(fs)) && forall f | f in RereadFields(fs) :: Reread(f.value) == f.value
    decreases fs, 0
  {
    if fs != [] {
      var front, f := fs[..|fs| - 1], fs[|fs| - 1];
      RereadFieldsTwice(front);
      RereadTwice(f.value);
      InsertAscends(RereadFields(front), Field(f.key, Reread(f.value)));
      InsertMembers(RereadFields(front), Field(f.key, Reread(f.value)));
    }
  }

  // ---------- reading back keeps what is canonical ----------

  lemma EnvelopeRereads(fs: seq<Field>)
    requires |fs| == 2
    ensures EnvelopeShaped(RereadFields(fs)) <==> EnvelopeShaped(fs)
    ensures EnvelopeShaped(fs) ==>
              RereadFields(fs) == [Field("length", Reread(Part(fs, "length"))), Field("sha256", Reread(Part(fs, "sha256")))]
  {
    var f, g := Field(fs[0].key, Reread(fs[0].value)), Field(fs[1].key, Reread(fs[1].value));
    assert fs[..1] == [fs[0]] && fs[..1][..0] == [];
    assert RereadFields(fs[..0]) == [];
    assert RereadFields(fs[..1]) == InsertField([], f) == [f];
    assert [f][..0] == [];
    assert InsertField([], g) == [g];
    assert RereadFields(fs) == if AtMost(f.key, g.key) then [f, g] else [g, f];
    assert {f.key, g.key} == {g.key, f.key};
    if EnvelopeShaped(fs) {
      assert "length"[0] == 'l' && "sha256"[0] == 's';
      assert "sha256" in {fs[0].key, fs[1].key} && "length" in {fs[0].key, fs[1].key};
      assert fs[0].key in {"sha256", "length"} && fs[1].key in {"sha256", "length"};
    }
  }

  lemma {:induction false} InsertRecounts(fs: seq<Field>, f: Field, depth: nat)
    ensures RecountFields(InsertField(fs, f), depth) == RecountFields(fs + [f], depth)
  {
    hide Recount, SafeKey, AtMost;
    if fs != [] && !AtMost(fs[|fs| - 1].key, f.key) {
      var front, last := fs[..|fs| - 1], fs[|fs| - 1];
      InsertRecounts(front, f, depth);
      assert (InsertField(front, f) + [last])[..|fs|] == InsertField(front, f);
      assert (fs + [f])[..|fs|] == fs && (front + [f])[..|front|] == front;
    }
  }

  lemma {:induction false} RereadRecounts(j: Json, depth: nat)
    ensures Recount(Reread(j), depth) == Recount(j, depth)
    decreases j, 1
  {
    hide AtMost, RereadFields, RecountFields, RecountItems;
    match j
    case JList(items) => RereadItemsRecount(items, depth + 1);
    case JObject(fs) =>
      if |fs| == 2 { EnvelopeRereads(fs); }
      RereadFieldsRecount(fs, depth + 1);
    case _ =>
  }

  lemma {:induction false} RereadItemsRecount(items: seq<Json>, depth: nat)
    ensures RecountItems(RereadItems(items), depth) == RecountItems(items, depth)
    decreases items, 0
  {
    if items != [] {
      var front, last := items[..|items| - 1], items[|items| - 1];
      RereadItemsRecount(front, depth);
      RereadRecounts(last, depth);
      assert (RereadItems(front) + [Reread(last)])[..|front|] == RereadItems(front);
    }
  }

  lemma {:induction false} RereadFieldsRecount(fs: seq<Field>, depth: nat)
    ensures RecountFields(RereadFields(fs), depth) == RecountFields(fs, depth)
    decreases fs, 0
  {
    hide InsertField, SafeKey;
    if fs != [] {
      var front, f := fs[..|fs| - 1], fs[|fs| - 1];
      var g := Field(f.key, Reread(f.value));
      RereadFieldsRecount(front, depth);
      RereadRecounts(f.value, depth);
      InsertRecounts(RereadFields(front), g, depth);
      assert (RereadFields(front) + [g])[..|front|] == RereadFields(front);
    }
  }

  // ---------- fixed points ----------

  /** A canonical value comes out as it went in, up to the order of its keys. */
  lemma {:induction false} CanonicalIsFixed(sha: string -> Digest, j: Json, depth: nat)
    requires Recount(j, depth).Kept?
    ensures Canon(sha, j, depth).Kept? && Canon(sha, j, depth).count == Recount(j, depth).count
    ensures Reread(Canon(sha, j, depth).value) == Reread(j)
    decreases j, 1
  {
    hide AtMost, RereadFields;
    match j
    case JList(items) => CanonicalItemsAreFixed(sha, items, depth + 1);
    case JObject(fs) =>
      if EnvelopeShaped(fs) {
        EnvelopeRereads(fs);
        EnvelopeRereads(Envelope(Part(fs, "sha256").text, Part(fs, "length").i).fields);
      } else {
        CanonicalFieldsAreFixed(sha, fs, depth + 1);
      }
    case _ =>
  }

  lemma {:induction false} CanonicalItemsAreFixed(sha: string -> Digest, items: seq<Json>, depth: nat)
    requires RecountItems(items, depth).Kept?
    ensures CanonItems(sha, items, depth).Kept? && CanonItems(sha, items, depth).count == RecountItems(items, depth).count
    ensures RereadItems(CanonItems(sha, items, depth).value) == RereadItems(items)
    decreases items, 0
  {
    if items != [] {
      var front, last := items[..|items| - 1], items[|items| - 1];
      CanonicalItemsAreFixed(sha, front, depth);
      CanonicalIsFixed(sha, last, depth);
      var out := CanonItems(sha, items, depth).value;
      assert out[..|front|] == CanonItems(sha, front, depth).value;
    }
  }

  lemma {:induction false} CanonicalFieldsAreFixed(sha: string -> Digest, fs: seq<Field>, depth: nat)
    requires RecountFields(fs, depth).Kept?
    ensures CanonFields(sha, fs, depth).Kept? && CanonFields(sha, fs, depth).count == RecountFields(fs, depth).count
    ensures RereadFields(CanonFields(sha, fs, depth).value) == RereadFields(fs)
    decreases fs, 0
  {
    hide InsertField;
    if fs != [] {
      var front, f := fs[..|fs| - 1], fs[|fs| - 1];
      CanonicalFieldsAreFixed(sha, front, depth);
      CanonicalIsFixed(sha, f.value, depth);
      var out := CanonFields(sha, fs, depth).value;
      assert out[..|front|] == CanonFields(sha, front, depth).value;
    }
  }

  /** Only canonical values come out equal to what went in. */
  lemma {:induction false} FixedIsCanonical(sha: string -> Digest, j: Json, depth: nat)
    requires KeysOnce(j) && Canon(sha, j, depth).Kept? && Equal(Canon(sha, j, depth).value, j)
    ensures Recount(j, depth).Kept? && Recount(j, depth).count == Canon(sha, j, depth).count
    decreases j, 1
  {
    match j
    case JList(items) => FixedItemsAreCanonical(sha, items, depth + 1);
    case JObject(fs) => if !EnvelopeShaped(fs) { FixedFieldsAreCanonical(sha, fs, depth + 1); }
    case _ =>
  }

  lemma {:induction false} FixedItemsAreCanonical(sha: string -> Digest, items: seq<Json>, depth: nat)
    requires (forall x | x in items :: KeysOnce(x)) && CanonItems(sha, items, depth).Kept?
    requires ValuesOf(CanonItems(sha, items, depth).value) == ValuesOf(items)
    ensures RecountItems(items, depth).Kept? && RecountItems(items, depth).count == CanonItems(sha, items, depth).count
    decreases items, 0
  {
    if items != [] {
      var front, last := items[..|items| - 1], items[|items| - 1];
      var out := CanonItems(sha, items, depth).value;
      assert out[..|front|] == CanonItems(sha, front, depth).value;
      assert ValuesOf(front) == ValuesOf(items)[..|front|];
      FixedItemsAreCanonical(sha, front, depth);
      FixedIsCanonical(sha, last, depth);
    }
  }

  lemma {:induction false} FixedFieldsAreCanonical(sha: string -> Digest, fs: seq<Field>, depth: nat)
    requires DistinctKeys(fs) && (forall f | f in fs :: KeysOnce(f.value)) && CanonFields(sha, fs, depth).Kept?
    requires EntriesOf(CanonFields(sha, fs, depth).value) == EntriesOf(fs)
    ensures RecountFields(fs, depth).Kept? && RecountFields(fs, depth).count == CanonFields(sha, fs, depth).count
    decreases fs, 0
  {
    hide SafeKey, Canon, Recount, EntriesOf, Equal;
    if fs != [] {
      var front, f := fs[..|fs| - 1], fs[|fs| - 1];
      var out := CanonFields(sha, fs, depth).value;
      assert out[..|front|] == CanonFields(sha, front, depth).value;
      LastEntry(out, fs);
      FixedFieldsAreCanonical(sha, front, depth);
      FixedIsCanonical(sha, f.value, depth);
    }
  }

  lemma {:induction false} FreshKey(fs: seq<Field>, k: string)
    requires forall i | 0 <= i < |fs| :: fs[i].key != k
    ensures k !in EntriesOf(fs)
  {
    if fs != [] { FreshKey(fs[..|fs| - 1], k); }
  }

  /** Equal dicts over the same keys are equal field by field. */
  lemma LastEntry(fs: seq<Field>, gs: seq<Field>)
    requires |fs| == |gs| > 0 && (forall i | 0 <= i < |fs| :: fs[i].key == gs[i].key) && DistinctKeys(gs)
    requires EntriesOf(fs) == EntriesOf(gs)
    ensures EntriesOf(fs[..|fs| - 1]) == EntriesOf(gs[..|gs| - 1])
    ensures Equal(fs[|fs| - 1].value, gs[|gs| - 1].value)
  {
    hide ValueOf;
    var k := gs[|gs| - 1].key;
    FreshKey(fs[..|fs| - 1], k);
    FreshKey(gs[..|gs| - 1], k);
    assert EntriesOf(fs)[k] == EntriesOf(gs)[k];
    assert EntriesOf(fs) - {k} == EntriesOf(fs[..|fs| - 1]);
    assert EntriesOf(gs) - {k} == EntriesOf(gs[..|gs| - 1]);
  }

  // ---------- the payload boundary ----------

  function Digits(n: nat): nat { if n < 10 then 1 else 1 + Digits(n / 10) }

  /** The length of the JSON text.  Canonical values hold only digests and safe
      keys, and none of their characters is escaped. */
  function EncodedLength(j: Json): nat
    decreases j, 1
  {
    match j
    case JNull => 4
    case JBool(b) => if b then 4 else 5
    case JInt(i) => if i < 0 then 1 + Digits(-i) else Digits(i)
    case JText(s) => |s| + 2
    case JList(items) => 1 + ItemsLength(items) + if items == [] then 1 else 0
    case JObject(fs) => 1 + FieldsLength(fs) + if fs == [] then 1 else 0
    case JOther => 0
  }

  // every element is followed by one separator or by the closing bracket
  function ItemsLength(items: seq<Json>): nat
    decreases items, 0
  {
    if items == [] then 0 else ItemsLength(items[..|items| - 1]) + EncodedLength(items[|items| - 1]) + 1
  }

  function FieldsLength(fs: seq<Field>): nat
    decreases fs, 0
  {
    if fs == [] then 0
    else
      var f := fs[|fs| - 1];
      FieldsLength(fs[..|fs| - 1]) + |f.key| + 3 + EncodedLength(f.value) + 1
  }

  lemma {:induction false} InsertLength(fs: seq<Field>, f: Field)
    ensures FieldsLength(InsertField(fs, f)) == FieldsLength(fs) + |f.key| + 3 + EncodedLength(f.value) + 1
  {
    hide AtMost, EncodedLength;
    if fs == [] || AtMost(fs[|fs| - 1].key, f.key) {
      assert (fs + [f])[..|fs|] == fs;
    } else {
      InsertLength(fs[..|fs| - 1], f);
      assert (InsertField(fs[..|fs| - 1], f) + [fs[|fs| - 1]])[..|fs|] == InsertField(fs[..|fs| - 1], f);
    }
  }

  /** The order of the keys does not show in the length. */
  lemma {:induction false} RereadLength(j: Json)
    ensures EncodedLength(Reread(j)) == EncodedLength(j)
    decreases j, 1
  {
    match j
    case JList(items) => RereadItemsLength(items);
    case JObject(fs) => RereadFieldsLength(fs);
    case _ =>
  }

  lemma {:induction false} RereadItemsLength(items: seq<Json>)
    ensures ItemsLength(RereadItems(items)) == ItemsLength(items)
    decreases items, 0
  {
    if items != [] {
      var front, last := items[..|items| - 1], items[|items| - 1];
      RereadItemsLength(front);
      RereadLength(last);
      assert (RereadItems(front) + [Reread(last)])[..|front|] == RereadItems(front);
    }
  }

  lemma {:induction false} RereadFieldsLength(fs: seq<Field>)
    ensures FieldsLength(RereadFields(fs)) == FieldsLength(fs)
    decreases fs, 0
  {
    if fs != [] {
      var front, f := fs[..|fs| - 1], fs[|fs| - 1];
      RereadFieldsLength(front);
      RereadLength(f.value);
      InsertLength(RereadFields(front), Field(f.key, Reread(f.value)));
    }
  }

  /** `_payload`: Refused means a LedgerError. */
  function Accepted(sha: string -> Digest, payload: Json): Canonical<Json>
  {
    match payload
    case JNull => Kept(JObject([]), 1)
    case JObject(_) =>
      (match Canon(sha, payload, 0)
       case Refused => Refused
       case Kept(safe, n) => if EncodedLength(safe) > MAX_ENCODED then Refused else Kept(Reread(safe), n))
    case _ => Refused
  }

  /** The objects `_payload` leaves equal. */
  predicate IsCanonical(j: Json)
  {
    j.JObject? && Recount(j, 0).Kept? && EncodedLength(j) <= MAX_ENCODED
  }

  type CanonicalJson = j: Json | IsCanonical(j)
    witness JObject([])

  lemma CanonicalIsAccepted(sha: string -> Digest, j: Json)
    requires IsCanonical(j)
    ensures Accepted(sha, j) == Kept(Reread(j), Recount(j, 0).count)
  {
    CanonicalIsFixed(sha, j, 0);
    RereadLength(j);
    RereadLength(Canon(sha, j, 0).value);
  }

  lemma AcceptedIsCanonical(sha: string -> Digest, payload: Json)
    requires Accepted(sha, payload).Kept?
    ensures var r := Accepted(sha, payload);
            IsCanonical(r.value) && Recount(r.value, 0).count == r.count && Reread(r.value) == r.value
  {
    if payload.JObject? {
      var safe := Canon(sha, payload, 0).value;
      KeptIsCanonical(sha, payload, 0);
      RereadRecounts(safe, 0);
      RereadLength(safe);
      RereadTwice(safe);
    } else {
      assert RereadFields([]) == [];
    }
  }

  /** `_payload` returns a dict equal to its argument, as `_checked_plan` demands of a
      stored payload, exactly when the argument is canonical; key order never matters. */
  lemma FixedPointsAreTheCanonicalValues(sha: string -> Digest, j: Json)
    requires KeysOnce(j)
    ensures IsCanonical(j) <==> Accepted(sha, j).Kept? && Equal(Accepted(sha, j).value, j)
  {
    hide Canon, Recount, Reread, EncodedLength, ValueOf;
    if IsCanonical(j) {
      CanonicalIsAccepted(sha, j);
      RereadIsEqual(j);
    }
    if Accepted(sha, j).Kept? && Equal(Accepted(sha, j).value, j) {
      NullIsNoObject(j);
      var safe := Canon(sha, j, 0).value;
      RereadIsEqual(safe);
      FixedIsCanonical(sha, j, 0);
      CanonicalIsFixed(sha, j, 0);
      RereadLength(j);
      RereadLength(safe);
    }
  }

  lemma NullIsNoObject(j: Json)
    requires Equal(JObject([]), j) || j.JObject?
    ensures j.JObject?
  {
  }

  /** `_payload(_payload(x)) == _payload(x)` for every accepted payload. */
  lemma PayloadIsIdempotent(sha: string -> Digest, payload: Json)
    requires Accepted(sha, payload).Kept?
    ensures var safe := Accepted(sha, payload).value;
            IsCanonical(safe) && Accepted(sha, safe) == Accepted(sha, payload)
  {
    AcceptedIsCanonical(sha, payload);
    CanonicalIsAccepted(sha, Accepted(sha, payload).value);
  }

  // ---------- no caller text survives ----------

  /** Every string value inside j is the digest of a hash envelope. */
  predicate TextFree(j: Json)
  {
    match j
    case JText(_) => false
    case JList(items) => forall x | x in items :: TextFree(x)
    case JObject(fs) =>
      || (EnvelopeShaped(fs) && GoodEnvelope(fs))
      || (forall f | f in fs :: TextFree(f.value))
    case _ => true
  }

  lemma {:induction false} CanonicalIsTextFree(j: Json, depth: nat)
    requires Recount(j, depth).Kept?
    ensures TextFree(j)
    decreases j
  {
    match j
    case JList(items) =>
      forall x | x in items ensures TextFree(x) {
        var i :| 0 <= i < |items| && items[i] == x;
        RecountedItem(items, i, depth + 1);
        CanonicalIsTextFree(x, depth + 1);
      }
    case JObject(fs) =>
      if !EnvelopeShaped(fs) {
        forall f | f in fs ensures TextFree(f.value) {
          var i :| 0 <= i < |fs| && fs[i] == f;
          RecountedField(fs, i, depth + 1);
          CanonicalIsTextFree(f.value, depth + 1);
        }
      }
    case _ =>
  }

  lemma {:induction false} RecountedItem(items: seq<Json>, i: nat, depth: nat)
    requires i < |items| && RecountItems(items, depth).Kept?
    ensures Recount(items[i], depth).Kept?
    decreases |items|
  {
    if i < |items| - 1 { RecountedItem(items[..|items| - 1], i, depth); }
  }

  lemma {:induction false} RecountedField(fs: seq<Field>, i: nat, depth: nat)
    requires i < |fs| && RecountFields(fs, depth).Kept?
    ensures Recount(fs[i].value, depth).Kept? && SafeKey(fs[i].key)
    decreases |fs|
  {
    if i < |fs| - 1 { RecountedField(fs[..|fs| - 1], i, depth); }
  }

  /** No string of the caller's payload survives in what is stored. */
  lemma StoredPayloadIsTextFree(sha: string -> Digest, payload: Json)
    requires Accepted(sha, payload).Kept?
    ensures TextFree(Accepted(sha, payload).value)
  {
    PayloadIsIdempotent(sha, payload);
    CanonicalIsTextFree(Accepted(sha, payload).value, 0);
  }
}

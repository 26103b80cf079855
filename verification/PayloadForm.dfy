/** Which payloads the ledger stores, and what a stored payload stands for: said value by
    value, without the loops and the running count of the canonicaliser. */
module PayloadForm {
  import opened Payload

  /** How many values the payload holds; a hash envelope is one. */
  function Count(j: Json): (n: nat)
    ensures n >= 1
    decreases j, 1
  {
    match j
    case JList(items) => 1 + CountItems(items)
    case JObject(fs) => if EnvelopeShaped(fs) then 1 else 1 + CountFields(fs)
    case _ => 1
  }

  function CountItems(items: seq<Json>): nat
    decreases items, 0
  {
    if items == [] then 0 else CountItems(items[..|items| - 1]) + Count(items[|items| - 1])
  }

  function CountFields(fs: seq<Field>): nat
    decreases fs, 0
  {
    if fs == [] then 0 else CountFields(fs[..|fs| - 1]) + Count(fs[|fs| - 1].value)
  }

  /** The payload fits at this nesting: at most 12 deep, 256 items, 128 entries, 2048 values
      and 16384 characters, safe integers and safe keys only. */
  predicate Storable(j: Json, depth: nat)
    decreases j, 1
  {
    && depth <= 12
    && match j
       case JInt(i) => -9007199254740991 <= i <= 9007199254740991
       case JText(s) => JsLength(s) <= 16384
       case JList(items) =>
         && |items| <= 256 && Count(j) <= 2048
         && forall i | 0 <= i < |items| :: Storable(items[i], depth + 1)
       case JObject(fs) =>
         if EnvelopeShaped(fs) then GoodEnvelope(fs)
         else
           && |fs| <= 128 && Count(j) <= 2048
           && forall i | 0 <= i < |fs| :: StorableField(fs[i], depth + 1)
       case JOther => false
       case _ => true
  }

  predicate StorableField(f: Field, depth: nat)
    decreases f, 2
  {
    SafeKey(f.key) && Storable(f.value, depth)
  }

  /** A string is stored as its digest and its length, anything else as itself, with lists
      in their order and entries under their keys. */
  predicate StandsFor(sha: string -> Digest, stored: Json, j: Json)
    decreases j, 1
  {
    match j
    case JText(s) =>
      stored == JObject([Field("sha256", JText(sha(s))), Field("length", JInt(JsLength(s)))])
    case JList(items) =>
      && stored.JList? && |stored.items| == |items|
      && forall i | 0 <= i < |items| :: StandsFor(sha, stored.items[i], items[i])
    case JObject(fs) =>
      && stored.JObject? && |stored.fields| == |fs|
      && (if EnvelopeShaped(fs) then
            stored.fields == [Field("sha256", Part(fs, "sha256")), Field("length", Part(fs, "length"))]
          else
            forall i | 0 <= i < |fs| :: FieldStandsFor(sha, stored.fields[i], fs[i]))
    case _ => stored == j
  }

  predicate FieldStandsFor(sha: string -> Digest, stored: Field, f: Field)
    decreases f, 2
  {
    stored.key == f.key && StandsFor(sha, stored.value, f.value)
  }

  /** The canonicaliser accepts exactly the storable payloads, returns what stands for them,
      and counts their values. */
  lemma {:induction false} CanonMeans(sha: string -> Digest, j: Json, depth: nat)
    ensures Canon(sha, j, depth).Kept? <==> Storable(j, depth)
    ensures var r := Canon(sha, j, depth); r.Kept? ==> StandsFor(sha, r.value, j) && r.count == Count(j)
    decreases j, 1
  {
    hide SafeKey, JsLength, CanonItems, CanonFields, IsDigest, EnvelopeShaped, CountItems, CountFields;
    match j
    case JList(items) => ItemsMean(sha, items, depth + 1);
    case JObject(fs) => if EnvelopeShaped(fs) { EnvelopeMeans(fs); } else { FieldsMean(sha, fs, depth + 1); }
    case _ =>
  }

  lemma EnvelopeMeans(fs: seq<Field>)
    requires EnvelopeShaped(fs)
    ensures |fs| == 2
    ensures GoodEnvelope(fs) ==>
              Envelope(Part(fs, "sha256").text, Part(fs, "length").i)
              == JObject([Field("sha256", Part(fs, "sha256")), Field("length", Part(fs, "length"))])
  {
    hide IsDigest;
  }

  lemma {:induction false} ItemsMean(sha: string -> Digest, items: seq<Json>, depth: nat)
    ensures CanonItems(sha, items, depth).Kept? <==> forall i | 0 <= i < |items| :: Storable(items[i], depth)
    ensures var r := CanonItems(sha, items, depth);
            r.Kept? ==> r.count == CountItems(items) && forall i | 0 <= i < |items| :: StandsFor(sha, r.value[i], items[i])
    decreases items, 0
  {
    hide Canon, Storable, StandsFor, Count;
    if items != [] {
      var front, last := items[..|items| - 1], items[|items| - 1];
      ItemsMean(sha, front, depth);
      CanonMeans(sha, last, depth);
      assert forall i | 0 <= i < |front| :: front[i] == items[i];
    }
  }

  lemma {:induction false} FieldsMean(sha: string -> Digest, fs: seq<Field>, depth: nat)
    ensures CanonFields(sha, fs, depth).Kept? <==> forall i | 0 <= i < |fs| :: StorableField(fs[i], depth)
    ensures var r := CanonFields(sha, fs, depth);
            r.Kept? ==> r.count == CountFields(fs) && forall i | 0 <= i < |fs| :: FieldStandsFor(sha, r.value[i], fs[i])
    decreases fs, 0
  {
    hide Canon, Storable, StandsFor, Count, SafeKey;
    if fs != [] {
      var front, last := fs[..|fs| - 1], fs[|fs| - 1];
      FieldsMean(sha, front, depth);
      CanonMeans(sha, last.value, depth);
      assert forall i | 0 <= i < |front| :: front[i] == fs[i];
    }
  }
}

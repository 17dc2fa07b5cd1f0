/** Canonical JSON: two bodies are the same request whatever the order of their keys. */
module CanonicalJson {
  import opened Contracts
  import opened Ordering

  datatype Field = Field(key: string, value: Json)

  /** A parsed body.  The fields of an object stand in the order in which they are enumerated. */
  datatype Json =
    | JNull
    | JBool(b: bool)
    | JNumber(n: real)
    | JString(s: string)
    | JArray(items: seq<Json>)
    | JObject(fields: seq<Field>)

  ghost predicate DistinctKeys(fields: seq<Field>) {
    forall i, j :: 0 <= i < j < |fields| ==> fields[i].key != fields[j].key
  }

  /** No object has the same key twice. */
  ghost predicate WellFormed(v: Json) {
    match v
    case JArray(items) => forall i :: 0 <= i < |items| ==> WellFormed(items[i])
    case JObject(fields) => DistinctKeys(fields) && forall i :: 0 <= i < |fields| ==> WellFormed(fields[i].value)
    case _ => true
  }

  predicate FieldLess(a: Field, b: Field) { StrLess(a.key, b.key) }

  // -------------------------------------------------- how an object is enumerated

  predicate AllDigits(s: string) { forall i :: 0 <= i < |s| ==> '0' <= s[i] <= '9' }

  function DigitsValue(s: string): nat
    requires AllDigits(s)
  {
    if s == [] then 0 else 10 * DigitsValue(s[..|s| - 1]) + (s[|s| - 1] as nat - '0' as nat)
  }

  /** Keys that read as array indices are enumerated first, in numeric order. */
  predicate IsIndex(key: string) {
    key != [] && AllDigits(key) && (|key| == 1 || key[0] != '0') && DigitsValue(key) < 0xFFFF_FFFF
  }

  predicate IndexLess(a: Field, b: Field) {
    IsIndex(a.key) && IsIndex(b.key) && DigitsValue(a.key) < DigitsValue(b.key)
  }

  /** An object built from entries with distinct keys. */
  function FromEntries(fields: seq<Field>): seq<Field> {
    SortBy(Filter(fields, (f: Field) => IsIndex(f.key)), IndexLess) + Filter(fields, (f: Field) => !IsIndex(f.key))
  }

  // ------------------------------------------------------------------ sortValue

  function SortValue(v: Json): Json {
    match v
    case JArray(items) => JArray(SortItems(items))
    case JObject(fields) => JObject(FromEntries(SortBy(SortedFields(fields), FieldLess)))
    case _ => v
  }

  function SortItems(items: seq<Json>): (r: seq<Json>)
    ensures |r| == |items| && forall i :: 0 <= i < |items| ==> r[i] == SortValue(items[i])
  {
    if items == [] then [] else SortItems(items[..|items| - 1]) + [SortValue(items[|items| - 1])]
  }

  /** Every value of an object sorted in itself. */
  function SortedFields(fields: seq<Field>): (r: seq<Field>)
    ensures |r| == |fields| && forall i :: 0 <= i < |fields| ==>
                                 r[i] == Field(fields[i].key, SortValue(fields[i].value))
  {
    if fields == [] then []
    else
      var f := fields[|fields| - 1];
      SortedFields(fields[..|fields| - 1]) + [Field(f.key, SortValue(f.value))]
  }

  /** The same JSON up to the order of keys, at every depth. */
  ghost predicate Same(a: Json, b: Json)
    decreases a
  {
    match a
    case JArray(xs) => b.JArray? && |xs| == |b.items| && forall i :: 0 <= i < |xs| ==> Same(xs[i], b.items[i])
    case JObject(fs) => b.JObject? && |fs| == |b.fields| && forall i :: 0 <= i < |fs| ==> HasSame(fs[i], b.fields)
    case _ => a == b
  }

  ghost predicate HasSame(f: Field, gs: seq<Field>)
    decreases f
  {
    exists j :: 0 <= j < |gs| && f.key == gs[j].key && Same(f.value, gs[j].value)
  }

  const SortedField: Field -> Field := (f: Field) => Field(f.key, SortValue(f.value))

  /** Sorting the entries first and their values afterwards comes to the same. */
  lemma SortsEntriesThenValues(fields: seq<Field>)
    ensures SortValue(JObject(fields)) == JObject(FromEntries(Map(SortBy(fields, FieldLess), SortedField)))
  {
    SortMaps(fields, FieldLess, SortedField, FieldLess);
    assert Map(fields, SortedField) == SortedFields(fields);
  }

  // ------------------------------------------------------------------ enumeration

  lemma {:induction false} FilterSizes(fields: seq<Field>, p: Field -> bool, q: Field -> bool)
    requires forall f :: p(f) <==> !q(f)
    ensures |Filter(fields, p)| + |Filter(fields, q)| == |fields|
  {
    if fields != [] { FilterSizes(fields[1..], p, q); }
  }

  /** Enumeration loses no field and invents none. */
  lemma FromEntriesKeeps(fields: seq<Field>)
    ensures |FromEntries(fields)| == |fields| && SameElements(FromEntries(fields), fields)
  {
    var p, q := (f: Field) => IsIndex(f.key), (f: Field) => !IsIndex(f.key);
    FilterSizes(fields, p, q);
    hide IsIndex, IndexLess;
    var a, b := SortBy(Filter(fields, p), IndexLess), Filter(fields, q);
    forall f ensures f in a + b <==> f in fields { }
  }

  lemma SortedKeeps(fields: seq<Field>)
    ensures var r := SortValue(JObject(fields)).fields;
      |r| == |fields| && forall f :: f in r <==> f in SortedFields(fields)
  {
    FromEntriesKeeps(SortBy(SortedFields(fields), FieldLess));
    hide FromEntries, SortBy, SortedFields;
  }

  lemma FieldLessIsStrict()
    ensures StrictOrder(FieldLess)
  {
    forall x, y | FieldLess(x, y) ensures !FieldLess(y, x) { StrLessAsymmetric(x.key, y.key); }
    forall x, y, z | FieldLess(x, y) && FieldLess(y, z)
      ensures FieldLess(x, z)
    {
      StrLessTransitive(x.key, y.key, z.key);
    }
  }

  lemma FieldsComparable(fields: seq<Field>)
    requires DistinctKeys(fields)
    ensures Comparable(SortedFields(fields), FieldLess)
  {
    var r := SortedFields(fields);
    hide StrLess;
    forall i, j | 0 <= i < j < |r| ensures FieldLess(r[i], r[j]) || FieldLess(r[j], r[i]) {
      StrLessTotal(fields[i].key, fields[j].key);
    }
  }

  // ----------------------------------------------------------------- same => equal

  lemma {:induction false} SameSortsEqual(a: Json, b: Json)
    requires WellFormed(a) && WellFormed(b) && Same(a, b)
    ensures SortValue(a) == SortValue(b)
    decreases a
  {
    match a
    case JArray(xs) =>
      forall i | 0 <= i < |xs| ensures SortValue(xs[i]) == SortValue(b.items[i]) { SameSortsEqual(xs[i], b.items[i]); }
      assert SortItems(xs) == SortItems(b.items);
    case JObject(fs) =>
      forall i | 0 <= i < |fs| ensures SortedFields(fs)[i] in SortedFields(b.fields) {
        assert HasSame(fs[i], b.fields);
        var j :| 0 <= j < |b.fields| && fs[i].key == b.fields[j].key && Same(fs[i].value, b.fields[j].value);
        SameSortsEqual(fs[i].value, b.fields[j].value);
        assert SortedFields(b.fields)[j] == SortedFields(fs)[i];
      }
      SameFieldsSortEqual(fs, b.fields);
    case _ =>
  }

  /** Fields with distinct keys, as many on either side: included means the same. */
  lemma SameFieldsSortEqual(fs: seq<Field>, gs: seq<Field>)
    requires DistinctKeys(fs) && DistinctKeys(gs) && |fs| == |gs|
    requires forall i :: 0 <= i < |fs| ==> SortedFields(fs)[i] in SortedFields(gs)
    ensures SortValue(JObject(fs)) == SortValue(JObject(gs))
  {
    var a, b := SortedFields(fs), SortedFields(gs);
    assert DistinctKeys(a) && DistinctKeys(b);
    IncludedIsSame(a, b);
    FieldLessIsStrict();
    FieldsComparable(fs);
    FieldsComparable(gs);
    hide SortBy, FromEntries, FieldLess, StrictOrder, Comparable;
    SortForgetsOrder(a, b, FieldLess);
  }

  /** All fields but the one at k. */
  function Without(s: seq<Field>, k: nat): (r: seq<Field>)
    requires k < |s|
    ensures |r| == |s| - 1
    ensures forall i :: 0 <= i < |r| ==> r[i] == s[if i < k then i else i + 1]
  {
    s[..k] + s[k + 1..]
  }

  lemma WithoutElements(s: seq<Field>, k: nat)
    requires k < |s|
    ensures forall f :: f in s <==> f == s[k] || f in Without(s, k)
    ensures DistinctKeys(s) ==> DistinctKeys(Without(s, k)) && forall f :: f in Without(s, k) ==> f.key != s[k].key
  {
    var r := Without(s, k);
    forall f ensures f in s <==> f == s[k] || f in r {
      if f in s && f != s[k] {
        var i :| 0 <= i < |s| && s[i] == f;
        assert r[if i < k then i else i - 1] == f;
      }
    }
  }

  lemma {:induction false} IncludedIsSame(a: seq<Field>, b: seq<Field>)
    requires DistinctKeys(a) && DistinctKeys(b) && |a| == |b|
    requires forall f :: f in a ==> f in b
    ensures SameElements(a, b)
  {
    if |a| > 0 {
      var x := a[0];
      assert x in a;
      var k :| 0 <= k < |b| && b[k] == x;
      WithoutElements(a, 0);
      WithoutElements(b, k);
      hide Without, DistinctKeys;
      IncludedIsSame(Without(a, 0), Without(b, k));
    } else {
      assert b == [];
    }
  }

  // ----------------------------------------------------------------- equal => same

  lemma EqualArrays(xs: seq<Json>, b: Json)
    requires SortValue(JArray(xs)) == SortValue(b)
    ensures b.JArray? && |b.items| == |xs| && forall i :: 0 <= i < |xs| ==> SortValue(xs[i]) == SortValue(b.items[i])
  {
    assert SortItems(xs) == SortItems(b.items);
    forall i | 0 <= i < |xs| ensures SortValue(xs[i]) == SortValue(b.items[i]) {
      assert SortItems(xs)[i] == SortItems(b.items)[i];
    }
  }

  lemma EqualScalars(a: Json, b: Json)
    requires SortValue(a) == SortValue(b) && !a.JArray? && !a.JObject?
    ensures a == b
  {
  }

  lemma {:induction false} EqualSortsSame(a: Json, b: Json)
    requires SortValue(a) == SortValue(b)
    ensures Same(a, b)
    decreases a
  {
    hide SortValue, SortedFields, SortItems;
    match a
    case JArray(xs) =>
      EqualArrays(xs, b);
      forall i | 0 <= i < |xs| ensures Same(xs[i], b.items[i]) { EqualSortsSame(xs[i], b.items[i]); }
    case JObject(fs) =>
      EqualObjects(fs, b);
      forall i | 0 <= i < |fs| ensures HasSame(fs[i], b.fields) {
        var j := FieldAgain(fs, b.fields, i);
        EqualSortsSame(fs[i].value, b.fields[j].value);
      }
    case _ => EqualScalars(a, b);
  }

  lemma EqualObjects(fs: seq<Field>, b: Json)
    requires SortValue(JObject(fs)) == SortValue(b)
    ensures b.JObject? && |b.fields| == |fs|
    ensures forall f :: f in SortedFields(fs) <==> f in SortedFields(b.fields)
  {
    SortedKeeps(fs);
    if b.JObject? { SortedKeeps(b.fields); }
    hide SortedFields, FromEntries;
  }

  lemma FieldAgain(fs: seq<Field>, gs: seq<Field>, i: nat) returns (j: nat)
    requires i < |fs| && forall f :: f in SortedFields(fs) <==> f in SortedFields(gs)
    ensures j < |gs| && fs[i].key == gs[j].key && SortValue(fs[i].value) == SortValue(gs[j].value)
  {
    assert SortedFields(fs)[i] in SortedFields(fs);
    var k :| 0 <= k < |SortedFields(gs)| && SortedFields(gs)[k] == SortedFields(fs)[i];
    j := k;
  }

  /** Sorting two bodies gives the same value exactly if they are the same JSON up to the
      order of keys at every depth. */
  lemma SortedIffSame(a: Json, b: Json)
    requires WellFormed(a) && WellFormed(b)
    ensures SortValue(a) == SortValue(b) <==> Same(a, b)
  {
    if Same(a, b) { SameSortsEqual(a, b); }
    if SortValue(a) == SortValue(b) { EqualSortsSame(a, b); }
  }

  // ------------------------------------------------------------------ idempotence

  lemma {:induction false} SortedIsWellFormed(v: Json)
    requires WellFormed(v)
    ensures WellFormed(SortValue(v))
    decreases v
  {
    match v
    case JArray(items) =>
      forall i | 0 <= i < |items| ensures WellFormed(SortItems(items)[i]) { SortedIsWellFormed(items[i]); }
    case JObject(fields) =>
      var sorted := SortedFields(fields);
      forall i | 0 <= i < |sorted| ensures WellFormed(sorted[i].value) { SortedIsWellFormed(fields[i].value); }
      var r := SortValue(v).fields;
      SortedKeeps(fields);
      hide SortedFields, FromEntries;
      forall i | 0 <= i < |r| ensures WellFormed(r[i].value) {
        assert r[i] in r;
        var k :| 0 <= k < |sorted| && sorted[k] == r[i];
      }
      EnumeratedDistinct(fields);
    case _ =>
  }

  lemma EnumeratedDistinct(fields: seq<Field>)
    requires DistinctKeys(fields)
    ensures DistinctKeys(SortValue(JObject(fields)).fields)
  {
    var sorted := SortedFields(fields);
    assert DistinctKeys(sorted);
    FieldLessIsStrict();
    FieldsComparable(fields);
    SortOrders(sorted, FieldLess);
    var once := SortBy(sorted, FieldLess);
    assert DistinctKeys(once) by {
      forall i, j | 0 <= i < j < |once| ensures once[i].key != once[j].key {
        assert FieldLess(once[i], once[j]);
        StrLessAsymmetric(once[i].key, once[j].key);
      }
    }
    hide SortBy, SortedFields;
    EnumerationDistinct(once);
  }

  lemma EnumerationDistinct(fields: seq<Field>)
    requires DistinctKeys(fields)
    ensures DistinctKeys(FromEntries(fields))
  {
    FromEntriesKeeps(fields);
    hide FromEntries;
    ManyDistinct(FromEntries(fields), fields);
  }

  /** As many fields as there are distinct ones: no key twice. */
  lemma {:induction false} ManyDistinct(a: seq<Field>, b: seq<Field>)
    requires DistinctKeys(b) && |a| == |b| && forall f :: f in b ==> f in a
    ensures DistinctKeys(a)
  {
    if |b| > 0 {
      var x := b[0];
      assert x in b;
      var k :| 0 <= k < |a| && a[k] == x;
      var rest, tail := Without(a, k), Without(b, 0);
      WithoutElements(a, k);
      WithoutElements(b, 0);
      ManyDistinct(rest, tail);
      RestElements(rest, tail);
      RestoredDistinct(a, k);
    }
  }

  lemma RestoredDistinct(a: seq<Field>, k: nat)
    requires k < |a| && DistinctKeys(Without(a, k)) && forall f :: f in Without(a, k) ==> f.key != a[k].key
    ensures DistinctKeys(a)
  {
    var rest := Without(a, k);
    forall i, j | 0 <= i < j < |a| ensures a[i].key != a[j].key {
      if i != k { assert rest[if i < k then i else i - 1] == a[i]; }
      if j != k { assert rest[if j < k then j else j - 1] == a[j]; }
    }
  }

  lemma RestElements(rest: seq<Field>, tail: seq<Field>)
    requires DistinctKeys(rest) && DistinctKeys(tail) && |rest| == |tail| && forall f :: f in tail ==> f in rest
    ensures forall f :: f in rest ==> f in tail
  {
    IncludedIsSame(tail, rest);
  }

  lemma {:induction false} SortedIsSame(v: Json)
    ensures Same(v, SortValue(v))
    decreases v
  {
    match v
    case JArray(items) =>
      forall i | 0 <= i < |items| ensures Same(items[i], SortItems(items)[i]) { SortedIsSame(items[i]); }
    case JObject(fields) =>
      var r := SortValue(v).fields;
      SortedKeeps(fields);
      forall i | 0 <= i < |fields| ensures HasSame(fields[i], r) {
        var f := SortedFields(fields)[i];
        assert f in r;
        var j :| 0 <= j < |r| && r[j] == f;
        SortedIsSame(fields[i].value);
      }
    case _ =>
  }

  /** Sorting a sorted body changes nothing, and sorting never changes what a body says. */
  lemma SortingIsIdempotent(v: Json)
    requires WellFormed(v)
    ensures SortValue(SortValue(v)) == SortValue(v) && Same(v, SortValue(v))
  {
    SortedIsSame(v);
    SortedIsWellFormed(v);
    SortedIffSame(v, SortValue(v));
  }
}

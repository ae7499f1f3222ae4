/** Canonical JSON and the cache-key preimage (app/src/modules/ai/quiz-generation.prompt.ts). */
module CanonicalJson {
  import opened CodeUnits
  import opened JsonText
  import opened Sorting

  // ---- the order of Array.prototype.sort on strings: by code units ----

  function ByKey(): (Field, Field) -> bool {
    (f: Field, g: Field) => UnitsLe(f.key, g.key)
  }

  // ---- canonical form ----

  /** The property names of an object are distinct. */
  ghost predicate NoRepeats(fields: seq<Field>) {
    forall i, j :: 0 <= i < j < |fields| ==> fields[i].key != fields[j].key
  }

  /** A JavaScript value: numbers have a text, and no object has two properties of one name. */
  ghost predicate Value(v: Json) {
    match v
    case Null => true
    case Bool(_) => true
    case Number(t) => NumberText(t)
    case String(_) => true
    case Array(items) => forall i :: 0 <= i < |items| ==> Value(items[i])
    case Object(fields) => NoRepeats(fields) && forall i :: 0 <= i < |fields| ==> Value(fields[i].value)
  }

  /** The value with the properties of every object in the order of their names. */
  function Ordered(v: Json): Json {
    match v
    case Array(items) => Array(OrderedItems(items))
    case Object(fields) => Object(Sort(ByKey(), OrderedFields(fields)))
    case Null => v
    case Bool(_) => v
    case Number(_) => v
    case String(_) => v
  }

  function OrderedItems(items: seq<Json>): (r: seq<Json>)
    ensures |r| == |items|
  {
    if items == [] then [] else [Ordered(items[0])] + OrderedItems(items[1..])
  }

  function OrderedFields(fields: seq<Field>): (r: seq<Field>)
    ensures |r| == |fields|
    ensures forall i :: 0 <= i < |fields| ==> r[i].key == fields[i].key
  {
    if fields == [] then []
    else [Field(fields[0].key, Ordered(fields[0].value))] + OrderedFields(fields[1..])
  }

  function Canonicalize(v: Json): Units {
    Print(Ordered(v))
  }

  // ---- what a value means ----

  /** Objects are finite maps. */
  datatype Meaning =
    | MNull
    | MBool(value: bool)
    | MNumber(text: Units)
    | MString(units: Units)
    | MArray(items: seq<Meaning>)
    | MObject(fields: map<Units, Meaning>)

  function Meant(v: Json): Meaning {
    match v
    case Null => MNull
    case Bool(b) => MBool(b)
    case Number(t) => MNumber(t)
    case String(s) => MString(s)
    case Array(items) => MArray(MeantItems(items))
    case Object(fields) => MObject(MeantFields(fields))
  }

  function MeantItems(items: seq<Json>): (r: seq<Meaning>)
    ensures |r| == |items|
  {
    if items == [] then [] else [Meant(items[0])] + MeantItems(items[1..])
  }

  function MeantFields(fields: seq<Field>): map<Units, Meaning> {
    if fields == [] then map[] else MeantFields(fields[1..])[fields[0].key := Meant(fields[0].value)]
  }

  /** The map has exactly the properties, each with its meaning. */
  lemma {:induction false} MeantField(fields: seq<Field>, key: Units)
    requires NoRepeats(fields)
    ensures key in MeantFields(fields) <==> exists f :: f in fields && f.key == key
    ensures forall f :: f in fields && f.key == key ==> MeantFields(fields)[key] == Meant(f.value)
    decreases |fields|
  {
    if fields != [] {
      MeantField(fields[1..], key);
      assert fields == [fields[0]] + fields[1..];
      assert forall f :: f in fields <==> f == fields[0] || f in fields[1..];
    }
  }

  // ---- ordering keeps the meaning ----

  lemma {:induction false} OrderedMeansSame(v: Json)
    requires Value(v)
    ensures Meant(Ordered(v)) == Meant(v)
    decreases v, 1
  {
    match v
    case Array(items) => OrderedItemsMeanSame(items);
    case Object(fields) =>
      OrderedFieldsMeanSame(fields);
      SortMeansSame(OrderedFields(fields));
    case Null =>
    case Bool(_) =>
    case Number(_) =>
    case String(_) =>
  }

  lemma {:induction false} OrderedItemsMeanSame(items: seq<Json>)
    requires forall i :: 0 <= i < |items| ==> Value(items[i])
    ensures MeantItems(OrderedItems(items)) == MeantItems(items)
    decreases items, 0
  {
    if items != [] {
      OrderedMeansSame(items[0]);
      OrderedItemsMeanSame(items[1..]);
    }
  }

  lemma {:induction false} OrderedFieldsMeanSame(fields: seq<Field>)
    requires NoRepeats(fields) && forall i :: 0 <= i < |fields| ==> Value(fields[i].value)
    ensures MeantFields(OrderedFields(fields)) == MeantFields(fields)
    ensures NoRepeats(OrderedFields(fields))
    decreases fields, 0
  {
    if fields != [] {
      OrderedMeansSame(fields[0].value);
      OrderedFieldsMeanSame(fields[1..]);
    }
  }

  lemma {:induction false} InsertMeans(f: Field, fields: seq<Field>)
    requires f.key !in MeantFields(fields)
    ensures MeantFields(Insert(ByKey(), f, fields)) == MeantFields(fields)[f.key := Meant(f.value)]
    decreases |fields|
  {
    if fields != [] && !ByKey()(f, fields[0]) {
      InsertMeans(f, fields[1..]);
    }
  }

  lemma {:induction false} SortMeansSame(fields: seq<Field>)
    requires NoRepeats(fields)
    ensures MeantFields(Sort(ByKey(), fields)) == MeantFields(fields)
    decreases |fields|
  {
    if fields != [] {
      SortMeansSame(fields[1..]);
      MeantField(fields[1..], fields[0].key);
      InsertMeans(fields[0], Sort(ByKey(), fields[1..]));
    }
  }

  // ---- ordered values are determined by their meaning ----

  ghost predicate Strict(fields: seq<Field>) {
    forall i, j :: 0 <= i < j < |fields| ==> UnitsLe(fields[i].key, fields[j].key) && fields[i].key != fields[j].key
  }

  ghost predicate Canonical(v: Json) {
    match v
    case Null => true
    case Bool(_) => true
    case Number(_) => true
    case String(_) => true
    case Array(items) => forall i :: 0 <= i < |items| ==> Canonical(items[i])
    case Object(fields) => Strict(fields) && forall i :: 0 <= i < |fields| ==> Canonical(fields[i].value)
  }

  lemma {:induction false} CanonicalUnique(v: Json, w: Json)
    requires Canonical(v) && Canonical(w) && Meant(v) == Meant(w)
    ensures v == w
    decreases v, 1
  {
    match v
    case Array(items) => CanonicalItemsUnique(items, w.items);
    case Object(fields) => CanonicalFieldsUnique(fields, w.fields);
    case Null =>
    case Bool(_) =>
    case Number(_) =>
    case String(_) =>
  }

  lemma {:induction false} CanonicalItemsUnique(items: seq<Json>, others: seq<Json>)
    requires forall i :: 0 <= i < |items| ==> Canonical(items[i])
    requires forall i :: 0 <= i < |others| ==> Canonical(others[i])
    requires MeantItems(items) == MeantItems(others)
    ensures items == others
    decreases items, 0
  {
    assert |items| == |others|;
    if items != [] {
      assert MeantItems(items)[0] == MeantItems(others)[0];
      CanonicalUnique(items[0], others[0]);
      assert MeantItems(items)[1..] == MeantItems(items[1..]) && MeantItems(others)[1..] == MeantItems(others[1..]);
      CanonicalItemsUnique(items[1..], others[1..]);
      assert items == [items[0]] + items[1..] && others == [others[0]] + others[1..];
    }
  }

  /** The first property of a strictly ordered list has the least name; the rest means the map without it. */
  lemma StrictHead(fields: seq<Field>)
    requires Strict(fields) && fields != []
    ensures forall key :: key in MeantFields(fields) ==> UnitsLe(fields[0].key, key)
    ensures MeantFields(fields[1..]) == MeantFields(fields) - {fields[0].key}
    ensures fields[0].key in MeantFields(fields)
  {
    forall key | key in MeantFields(fields) ensures UnitsLe(fields[0].key, key) {
      HeadIsLeast(fields, key);
    }
    HeadIsNew(fields);
  }

  lemma HeadIsLeast(fields: seq<Field>, key: Units)
    requires Strict(fields) && fields != [] && key in MeantFields(fields)
    ensures UnitsLe(fields[0].key, key)
  {
    UnitsTotal(fields[0].key, fields[0].key);
    MeantField(fields, key);
  }

  lemma HeadIsNew(fields: seq<Field>)
    requires Strict(fields) && fields != []
    ensures fields[0].key !in MeantFields(fields[1..])
  {
    MeantField(fields[1..], fields[0].key);
  }

  lemma OnlyEmptyMeansEmpty(fields: seq<Field>)
    ensures fields == [] <==> MeantFields(fields) == map[]
  {
    if fields != [] {
      assert fields[0].key in MeantFields(fields);
    }
  }

  lemma {:induction false} CanonicalFieldsUnique(fields: seq<Field>, others: seq<Field>)
    requires Strict(fields) && Strict(others)
    requires forall i :: 0 <= i < |fields| ==> Canonical(fields[i].value)
    requires forall i :: 0 <= i < |others| ==> Canonical(others[i].value)
    requires MeantFields(fields) == MeantFields(others)
    ensures fields == others
    decreases fields, 0
  {
    OnlyEmptyMeansEmpty(fields);
    OnlyEmptyMeansEmpty(others);
    if fields != [] {
      StrictHead(fields);
      StrictHead(others);
      UnitsAntisymmetric(fields[0].key, others[0].key);
      CanonicalUnique(fields[0].value, others[0].value);
      CanonicalFieldsUnique(fields[1..], others[1..]);
      assert fields == [fields[0]] + fields[1..] && others == [others[0]] + others[1..];
    }
  }

  // ---- the canonical form is in order ----

  ghost predicate AllCanonical(fields: seq<Field>) {
    forall f :: f in fields ==> Canonical(f.value) && Proper(f.value)
  }

  lemma {:induction false} InsertStrict(f: Field, fields: seq<Field>)
    requires Strict(fields) && forall g :: g in fields ==> g.key != f.key
    ensures Strict(Insert(ByKey(), f, fields))
    ensures forall g :: g in Insert(ByKey(), f, fields) <==> g == f || g in fields
    decreases |fields|
  {
    if fields != [] {
      var first, rest := fields[0], fields[1..];
      assert fields == [first] + rest;
      if ByKey()(f, first) {
        forall g | g in rest ensures UnitsLe(f.key, g.key) {
          UnitsTransitive(f.key, first.key, g.key);
        }
      } else {
        UnitsTotal(f.key, first.key);
        InsertStrict(f, rest);
        var inserted := Insert(ByKey(), f, rest);
        forall i | 0 <= i < |inserted| ensures UnitsLe(first.key, inserted[i].key) && first.key != inserted[i].key {
          assert inserted[i] in inserted;
        }
      }
    }
  }

  lemma {:induction false} SortStrict(fields: seq<Field>)
    requires NoRepeats(fields)
    ensures Strict(Sort(ByKey(), fields))
    ensures forall g :: g in Sort(ByKey(), fields) <==> g in fields
    decreases |fields|
  {
    if fields != [] {
      SortStrict(fields[1..]);
      assert fields == [fields[0]] + fields[1..];
      InsertStrict(fields[0], Sort(ByKey(), fields[1..]));
    }
  }

  lemma {:induction false} OrderedIsCanonical(v: Json)
    requires Value(v)
    ensures Canonical(Ordered(v)) && Proper(Ordered(v))
    decreases v, 1
  {
    match v
    case Array(items) => OrderedItemsCanonical(items);
    case Object(fields) =>
      OrderedFieldsCanonical(fields);
      OrderedFieldsMeanSame(fields);
      SortStrict(OrderedFields(fields));
    case Null =>
    case Bool(_) =>
    case Number(_) =>
    case String(_) =>
  }

  lemma {:induction false} OrderedItemsCanonical(items: seq<Json>)
    requires forall i :: 0 <= i < |items| ==> Value(items[i])
    ensures forall i :: 0 <= i < |items| ==> Canonical(OrderedItems(items)[i]) && Proper(OrderedItems(items)[i])
    decreases items, 0
  {
    if items != [] {
      OrderedIsCanonical(items[0]);
      OrderedItemsCanonical(items[1..]);
    }
  }

  lemma {:induction false} OrderedFieldsCanonical(fields: seq<Field>)
    requires forall i :: 0 <= i < |fields| ==> Value(fields[i].value)
    ensures AllCanonical(OrderedFields(fields))
    decreases fields, 0
  {
    if fields != [] {
      OrderedIsCanonical(fields[0].value);
      OrderedFieldsCanonical(fields[1..]);
    }
  }

  /** Equal text for exactly the values that are equal as trees of finite maps. */
  lemma CanonicalTextIffSameMeaning(v: Json, w: Json)
    requires Value(v) && Value(w)
    ensures Canonicalize(v) == Canonicalize(w) <==> Meant(v) == Meant(w)
  {
    OrderedIsCanonical(v);
    OrderedIsCanonical(w);
    OrderedMeansSame(v);
    OrderedMeansSame(w);
    RoundTrip(Ordered(v), []);
    RoundTrip(Ordered(w), []);
    if Meant(v) == Meant(w) {
      CanonicalUnique(Ordered(v), Ordered(w));
    }
  }
}

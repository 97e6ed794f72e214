/**
 * Index building (data_retrieve.py): every class record is spread over one
 * per-field store `field -> text -> (vector, payload)`, and every field that
 * is not skipped becomes one Qdrant collection of points numbered 0..n-1.
 * The embedding service is the parameter `embed`; the Qdrant calls are
 * recorded as the list of uploads they would perform.
 */
module Indexer {
  import opened Common
  import opened Text
  import opened OrderedDict
  import opened Snapshot

  /** One stored item: `(vector, payload)`. */
  datatype Entry = Entry(vector: Vector, payload: Payload)

  /** A Qdrant `PointStruct`. */
  datatype Point = Point(id: nat, vector: Vector, payload: Payload)

  /** One collection as pushed: deleted if present, created, then filled with `points`. */
  datatype Upload = Upload(collection: string, points: seq<Point>)

  /** The nested defaultdict `field -> text -> Entry`. */
  type Store = Dict<Dict<Entry>>

  ghost predicate StoreValid(s: Store) {
    s.Valid() && forall f :: f in s.items ==> s.items[f].Valid()
  }

  /** The list-valued fields a record spreads over, in the order they are processed. */
  const ItemFields: seq<string> := ["heading", "include", "exclude", "good_or_service"]

  /** `COLLECTION_INFO`: field name to collection name. */
  const CollectionInfo: map<string, string> := map[
    "heading" := "heading",
    "introduction" := "introduction",
    "include" := "include",
    "exclude" := "exclude",
    "good_or_service" := "good_or_service"]

  /** Every known field is pushed to the collection of the same name. */
  lemma CollectionInfoIsIdentity(field: string)
    requires field in CollectionInfo
    ensures CollectionInfo[field] == field
  {
  }

  /** `nice_class[field]` for one of the list-valued fields. */
  function FieldItems(rec: ClassRecord, field: string): seq<string>
    requires field in ItemFields
  {
    if field == "heading" then rec.heading
    else if field == "include" then rec.includes
    else if field == "exclude" then rec.excludes
    else rec.goodOrService
  }

  /** The lower-cased forms of `items`. */
  function Lowered(items: seq<string>): set<string> {
    set t | t in items :: Lower(t)
  }

  /** `store[field][text]`, if present. */
  function Lookup(s: Store, field: string, text: string): Option<Entry> {
    if field in s.items && text in s.items[field].items then Some(s.items[field].items[text]) else None
  }

  /** `store[field][text] = e`; the defaultdict creates the field's dict on first use. */
  function Write(s: Store, field: string, text: string, e: Entry): (r: Store)
    ensures StoreValid(s) ==> StoreValid(r)
    ensures r.items.Keys == s.items.Keys + {field}
  {
    s.Put(field, s.GetOr(field, Empty()).Put(text, e))
  }

  lemma WriteLookup(s: Store, field: string, text: string, e: Entry, f: string, t: string)
    ensures Lookup(Write(s, field, text, e), f, t) == if f == field && t == text then Some(e) else Lookup(s, f, t)
  {
  }

  /** The inner loop of `process_per_class`: every item of one field, lower-cased, embedded and stored. */
  function WriteItems(s: Store, field: string, items: seq<string>, p: Payload, embed: string -> Vector): (r: Store)
    ensures StoreValid(s) ==> StoreValid(r)
    ensures r.items.Keys <= s.items.Keys + {field}
  {
    if items == [] then s
    else
      var n := |items| - 1;
      var text := Lower(items[n]);
      Write(WriteItems(s, field, items[..n], p, embed), field, text, Entry(embed(text), p))
  }

  /** The outer loop of `process_per_class` over `fields`. */
  function WriteFields(s: Store, rec: ClassRecord, fields: seq<string>, p: Payload, embed: string -> Vector): (r: Store)
    requires forall f :: f in fields ==> f in ItemFields
    ensures StoreValid(s) ==> StoreValid(r)
    ensures r.items.Keys <= s.items.Keys + Elements(fields)
  {
    if fields == [] then s
    else
      var n := |fields| - 1;
      WriteItems(WriteFields(s, rec, fields[..n], p, embed), fields[n], FieldItems(rec, fields[n]), p, embed)
  }

  /** The store after `process_per_class(rec, store)`. */
  function Processed(s: Store, rec: ClassRecord, embed: string -> Vector): (r: Store)
    ensures StoreValid(s) ==> StoreValid(r)
  {
    var p := Payload(rec.classId);
    var intro := Lower(rec.introduction);
    WriteFields(Write(s, "introduction", intro, Entry(embed(intro), p)), rec, ItemFields, p, embed)
  }

  /** The texts one call of `process_per_class` writes under `field`. */
  function WrittenKeys(rec: ClassRecord, field: string): set<string> {
    if field == "introduction" then {Lower(rec.introduction)}
    else if field in ItemFields then Lowered(FieldItems(rec, field))
    else {}
  }

  lemma {:induction false} WriteItemsLookup(s: Store, field: string, items: seq<string>, p: Payload,
                                            embed: string -> Vector, f: string, t: string)
    ensures Lookup(WriteItems(s, field, items, p, embed), f, t)
         == if f == field && t in Lowered(items) then Some(Entry(embed(t), p)) else Lookup(s, f, t)
  {
    if items != [] {
      var n := |items| - 1;
      WriteItemsLookup(s, field, items[..n], p, embed, f, t);
      WriteLookup(WriteItems(s, field, items[..n], p, embed), field, Lower(items[n]), Entry(embed(Lower(items[n])), p), f, t);
      SplitLast(items);
      assert t in Lowered(items) <==> t in Lowered(items[..n]) || t == Lower(items[n]);
    }
  }

  lemma {:induction false} WriteFieldsLookup(s: Store, rec: ClassRecord, fields: seq<string>, p: Payload,
                                             embed: string -> Vector, f: string, t: string)
    requires forall g :: g in fields ==> g in ItemFields
    ensures Lookup(WriteFields(s, rec, fields, p, embed), f, t)
         == if f in fields && t in Lowered(FieldItems(rec, f)) then Some(Entry(embed(t), p)) else Lookup(s, f, t)
  {
    if fields != [] {
      var n := |fields| - 1;
      var pre := WriteFields(s, rec, fields[..n], p, embed);
      assert fields[n] in fields;
      assert forall g :: g in fields[..n] ==> g in fields;
      WriteFieldsLookup(s, rec, fields[..n], p, embed, f, t);
      WriteItemsLookup(pre, fields[n], FieldItems(rec, fields[n]), p, embed, f, t);
      SplitLast(fields);
    }
  }

  /**
   * What one call of `process_per_class` does to any `store[f][t]`: a text it
   * writes holds the embedding of the lower-cased text and the record's class
   * id (so a text written earlier, by this or another class, is overwritten);
   * everything else is unchanged.
   */
  lemma ProcessedLookup(s: Store, rec: ClassRecord, embed: string -> Vector, f: string, t: string)
    ensures Lookup(Processed(s, rec, embed), f, t)
         == if t in WrittenKeys(rec, f) then Some(Entry(embed(t), Payload(rec.classId))) else Lookup(s, f, t)
  {
    var p := Payload(rec.classId);
    var intro := Lower(rec.introduction);
    var s1 := Write(s, "introduction", intro, Entry(embed(intro), p));
    WriteLookup(s, "introduction", intro, Entry(embed(intro), p), f, t);
    WriteFieldsLookup(s1, rec, ItemFields, p, embed, f, t);
    assert "introduction" !in ItemFields;
  }

  /** After one call, the introduction is stored under its lower-cased text. */
  lemma ProcessedIntroduction(s: Store, rec: ClassRecord, embed: string -> Vector)
    ensures var key := Lower(rec.introduction);
            Lookup(Processed(s, rec, embed), "introduction", key) == Some(Entry(embed(key), Payload(rec.classId)))
  {
    ProcessedLookup(s, rec, embed, "introduction", Lower(rec.introduction));
  }

  /** After one call, every item of every list field is stored under its lower-cased text. */
  lemma ProcessedItem(s: Store, rec: ClassRecord, embed: string -> Vector, field: string, i: nat)
    requires field in ItemFields && i < |FieldItems(rec, field)|
    ensures var key := Lower(FieldItems(rec, field)[i]);
            Lookup(Processed(s, rec, embed), field, key) == Some(Entry(embed(key), Payload(rec.classId)))
  {
    var key := Lower(FieldItems(rec, field)[i]);
    assert key in Lowered(FieldItems(rec, field));
    assert field != "introduction";
    ProcessedLookup(s, rec, embed, field, key);
  }

  /** A store built only by `process_per_class` has only the five known fields. */
  lemma {:induction false} ProcessedFields(s: Store, rec: ClassRecord, embed: string -> Vector)
    ensures Processed(s, rec, embed).items.Keys <= s.items.Keys + {"introduction"} + Elements(ItemFields)
  {
  }

  /** The store after `process_per_class` ran over `records` in order. */
  function ProcessedAll(s: Store, records: seq<ClassRecord>, embed: string -> Vector): (r: Store)
    ensures StoreValid(s) ==> StoreValid(r)
  {
    if records == [] then s
    else Processed(ProcessedAll(s, records[..|records| - 1], embed), records[|records| - 1], embed)
  }

  lemma {:induction false} ProcessedAllFields(records: seq<ClassRecord>, embed: string -> Vector)
    ensures ProcessedAll(Empty(), records, embed).items.Keys <= CollectionInfo.Keys
  {
    if records != [] {
      var n := |records| - 1;
      ProcessedAllFields(records[..n], embed);
      ProcessedFields(ProcessedAll(Empty(), records[..n], embed), records[n], embed);
    }
  }

  // ---------------------------------------------------------------------------
  // push_qdrant_store

  /** The points for the first `n` items of one field, numbered in iteration order. */
  function Points(d: Dict<Entry>, n: nat): (r: seq<Point>)
    requires d.Valid() && n <= |d.keys|
  {
    if n == 0 then []
    else
      var e := d.items[d.keys[n - 1]];
      Points(d, n - 1) + [Point(n - 1, e.vector, e.payload)]
  }

  function PointsOf(d: Dict<Entry>): seq<Point>
    requires d.Valid()
  {
    Points(d, |d.keys|)
  }

  lemma {:induction false} PointsAt(d: Dict<Entry>, n: nat)
    requires d.Valid() && n <= |d.keys|
    ensures |Points(d, n)| == n
    ensures forall i :: 0 <= i < n ==>
              Points(d, n)[i] == Point(i, d.items[d.keys[i]].vector, d.items[d.keys[i]].payload)
  {
    if n > 0 {
      PointsAt(d, n - 1);
    }
  }

  /**
   * One collection holds one point per stored text: point `i` carries id `i`
   * and the vector and payload stored for the `i`-th text in iteration order,
   * and every stored text has its point.
   */
  lemma PointsOfField(d: Dict<Entry>)
    requires d.Valid()
    ensures |PointsOf(d)| == |d.keys| == |d.items|
    ensures forall i :: 0 <= i < |d.keys| ==>
              PointsOf(d)[i].id == i && d.keys[i] in d.items &&
              PointsOf(d)[i].vector == d.items[d.keys[i]].vector &&
              PointsOf(d)[i].payload == d.items[d.keys[i]].payload
    ensures forall t :: t in d.items ==> exists i :: 0 <= i < |d.keys| && d.keys[i] == t
  {
    PointsAt(d, |d.keys|);
    DistinctCard(d.keys);
    assert d.items.Keys == Elements(d.keys);
  }

  /**
   * The uploads `push_qdrant_store` performs for `fields` (in iteration order),
   * and the KeyError that stops it at a field missing from COLLECTION_INFO: at
   * most one upload per field, and an error only for a field of `fields` that
   * COLLECTION_INFO does not list.
   */
  function Push(s: Store, fields: seq<string>, skip: seq<string>): (r: (seq<Upload>, Option<Error>))
    requires StoreValid(s) && forall f :: f in fields ==> f in s.items
    ensures |r.0| <= |fields|
    ensures r.1.Some? ==> r.1.value.UnknownField? && r.1.value.field in fields && r.1.value.field !in CollectionInfo
  {
    if fields == [] then ([], None)
    else if fields[0] in skip then Push(s, fields[1..], skip)
    else if fields[0] !in CollectionInfo then ([], Some(UnknownField(fields[0])))
    else
      var rest := Push(s, fields[1..], skip);
      ([Upload(CollectionInfo[fields[0]], PointsOf(s.items[fields[0]]))] + rest.0, rest.1)
  }

  /** One field of `push_qdrant_store`'s loop: skipped, failing, or uploaded before the rest. */
  lemma PushStep(s: Store, fields: seq<string>, skip: seq<string>)
    requires StoreValid(s) && fields != [] && forall f :: f in fields ==> f in s.items
    ensures forall f :: f in fields[1..] ==> f in s.items
    ensures fields[0] in skip ==> Push(s, fields, skip) == Push(s, fields[1..], skip)
    ensures fields[0] !in skip && fields[0] !in CollectionInfo ==>
              Push(s, fields, skip) == ([], Some(UnknownField(fields[0])))
    ensures fields[0] !in skip && fields[0] in CollectionInfo ==>
              Push(s, fields, skip).0 == [Upload(CollectionInfo[fields[0]], PointsOf(s.items[fields[0]]))] + Push(s, fields[1..], skip).0 &&
              Push(s, fields, skip).1 == Push(s, fields[1..], skip).1
  {
    assert forall f :: f in fields[1..] ==> f in fields;
  }

  /** The fields that are not skipped, in order. */
  function Kept(fields: seq<string>, skip: seq<string>): (r: seq<string>)
    ensures forall f :: f in r <==> f in fields && f !in skip
  {
    if fields == [] then []
    else if fields[0] in skip then Kept(fields[1..], skip)
    else [fields[0]] + Kept(fields[1..], skip)
  }

  /** One upload per field, in order, to the collection of the field's own name with the field's points. */
  function UploadsFor(s: Store, fields: seq<string>): (r: seq<Upload>)
    requires StoreValid(s) && forall f :: f in fields ==> f in s.items
    ensures |r| == |fields|
    ensures forall j :: 0 <= j < |fields| ==> r[j] == Upload(fields[j], PointsOf(s.items[fields[j]]))
  {
    if fields == [] then [] else [Upload(fields[0], PointsOf(s.items[fields[0]]))] + UploadsFor(s, fields[1..])
  }

  /**
   * When every field that is not skipped is known, nothing fails and every
   * such field is pushed, once and in order, to the collection of its own
   * name with its points; a skipped field causes no collection operation.
   */
  lemma {:induction false} PushComplete(s: Store, fields: seq<string>, skip: seq<string>)
    requires StoreValid(s) && forall f :: f in fields ==> f in s.items
    requires forall f :: f in fields && f !in skip ==> f in CollectionInfo
    ensures Push(s, fields, skip) == (UploadsFor(s, Kept(fields, skip)), None)
  {
    if fields != [] {
      assert forall f :: f in fields[1..] ==> f in fields;
      PushComplete(s, fields[1..], skip);
      if fields[0] !in skip {
        CollectionInfoIsIdentity(fields[0]);
      }
    }
  }

  /** The push fails exactly when some field that is not skipped is unknown, and names such a field. */
  lemma {:induction false} PushFailure(s: Store, fields: seq<string>, skip: seq<string>)
    requires StoreValid(s) && forall f :: f in fields ==> f in s.items
    ensures var failure := Push(s, fields, skip).1;
            (failure.Some? <==> exists f :: f in fields && f !in skip && f !in CollectionInfo) &&
            (failure.Some? ==> failure.value.UnknownField? &&
                               failure.value.field in fields && failure.value.field !in skip &&
                               failure.value.field !in CollectionInfo)
  {
    if fields != [] {
      PushFailure(s, fields[1..], skip);
      assert forall f :: f in fields <==> f == fields[0] || f in fields[1..];
    }
  }

  /** No upload goes to the collection of a skipped field. */
  lemma {:induction false} PushSkips(s: Store, fields: seq<string>, skip: seq<string>)
    requires StoreValid(s) && forall f :: f in fields ==> f in s.items
    ensures forall u :: u in Push(s, fields, skip).0 ==> u.collection in fields && u.collection !in skip
  {
    if fields != [] {
      PushSkips(s, fields[1..], skip);
    }
  }

  // ---------------------------------------------------------------------------
  // The snapshot written before pushing.

  function EntryValue(e: Entry): PyValue {
    Tuple([List(seq(|e.vector|, i requires 0 <= i < |e.vector| => Float(e.vector[i]))),
           PlainDict([Pair(Str("class_id"), Int(e.payload.classId))])])
  }

  function FieldValue(d: Dict<Entry>): PyValue
    requires d.Valid()
  {
    DefaultDict(seq(|d.keys|, i requires 0 <= i < |d.keys| => Pair(Str(d.keys[i]), EntryValue(d.items[d.keys[i]]))))
  }

  /** The store as the Python value `defaultdict_to_dict` receives. */
  function StoreValue(s: Store): PyValue
    requires StoreValid(s)
  {
    DefaultDict(seq(|s.keys|, i requires 0 <= i < |s.keys| => Pair(Str(s.keys[i]), FieldValue(s.items[s.keys[i]]))))
  }

  /** As written, the conversion raises on every store that holds at least one item. */
  lemma SnapshotAsWrittenFails(s: Store, field: string, text: string)
    requires StoreValid(s) && Lookup(s, field, text).Some?
    ensures DefaultDictToDict(StoreValue(s)).Err?
  {
    var d := s.items[field];
    assert field in Elements(s.keys);
    var i :| 0 <= i < |s.keys| && s.keys[i] == field;
    assert text in Elements(d.keys);
    var j :| 0 <= j < |d.keys| && d.keys[j] == text;
    var e := d.items[text];
    var fv := FieldValue(d);
    assert fv.entries[j].value == EntryValue(e);
    LeafTupleFails(EntryValue(e).elems[0].elems, [Pair(Str("class_id"), Int(e.payload.classId))]);
    ConvertEntriesFails(fv, |fv.entries|, j);
    ConvertEntriesFails(StoreValue(s), |s.keys|, i);
  }

  /** The corrected conversion yields plain dicts with every field, text, vector and payload of the store. */
  lemma SnapshotCorrected(s: Store)
    requires StoreValid(s)
    ensures NoDefaultDict(ToPlainDicts(StoreValue(s)))
    ensures Erase(ToPlainDicts(StoreValue(s))) == Erase(StoreValue(s))
  {
    var v := StoreValue(s);
    forall i | 0 <= i < |v.entries|
      ensures NestedDefaultDicts(v.entries[i].value)
    {
      var d := s.items[s.keys[i]];
      var fv := FieldValue(d);
      assert v.entries[i].value == fv;
      forall j | 0 <= j < |fv.entries|
        ensures NoDefaultDict(fv.entries[j].value)
      {
        assert fv.entries[j].value == EntryValue(d.items[d.keys[j]]);
        EntryValuePlain(d.items[d.keys[j]]);
      }
    }
    ToPlainDictsIsPlain(v);
    ToPlainDictsPreserves(v);
  }

  lemma EntryValuePlain(e: Entry)
    ensures NoDefaultDict(EntryValue(e))
  {
    var payload := PlainDict([Pair(Str("class_id"), Int(e.payload.classId))]);
    assert NoDefaultDict(payload.entries[0].key) && NoDefaultDict(payload.entries[0].value);
  }

  // ---------------------------------------------------------------------------
  // The store itself.

  class IndexStore {
    var store: Store

    ghost predicate Valid()
      reads this
    {
      StoreValid(store)
    }

    constructor ()
      ensures Valid() && store == Empty()
    {
      store := Empty();
    }

    /** `process_per_class(nice_class, qdrant_store)`. */
    method ProcessPerClass(rec: ClassRecord, embed: string -> Vector)
      requires Valid()
      modifies this
      ensures Valid()
      ensures store == Processed(old(store), rec, embed)
    {
      var payload := Payload(rec.classId);
      var introduction := Lower(rec.introduction);
      store := Write(store, "introduction", introduction, Entry(embed(introduction), payload));
      ghost var afterIntro := store;
      var f := 0;
      while f < |ItemFields|
        invariant 0 <= f <= |ItemFields|
        invariant Valid()
        invariant store == WriteFields(afterIntro, rec, ItemFields[..f], payload, embed)
      {
        PrefixSnoc(ItemFields, f);
        StoreItems(ItemFields[f], FieldItems(rec, ItemFields[f]), payload, embed);
        f := f + 1;
      }
      assert ItemFields[..f] == ItemFields;
    }

    /** The inner loop of `process_per_class`: `qdrant_store[field][item.lower()] = (vector, payload)` for each item. */
    method StoreItems(field: string, items: seq<string>, payload: Payload, embed: string -> Vector)
      requires Valid()
      modifies this
      ensures Valid()
      ensures store == WriteItems(old(store), field, items, payload, embed)
    {
      var j := 0;
      while j < |items|
        invariant 0 <= j <= |items|
        invariant Valid()
        invariant store == WriteItems(old(store), field, items[..j], payload, embed)
      {
        var item := Lower(items[j]);
        var vector := embed(item);
        assert items[..j + 1][..j] == items[..j];
        store := Write(store, field, item, Entry(vector, payload));
        j := j + 1;
      }
      assert items[..j] == items;
    }

    /** The loop of `main` that calls `process_per_class` on every record, in order. */
    method ProcessAll(records: seq<ClassRecord>, embed: string -> Vector)
      requires Valid()
      modifies this
      ensures Valid() && store == ProcessedAll(old(store), records, embed)
    {
      for i := 0 to |records|
        invariant Valid()
        invariant store == ProcessedAll(old(store), records[..i], embed)
      {
        assert records[..i + 1][..i] == records[..i];
        ProcessPerClass(records[i], embed);
      }
      assert records[..|records|] == records;
    }

    /** `push_qdrant_store(qdrant_store, skip_fields)`: the uploads it performs, and the error that stops it. */
    method PushQdrantStore(skip: seq<string>) returns (uploads: seq<Upload>, failure: Option<Error>)
      requires Valid()
      ensures (uploads, failure) == Push(store, store.keys, skip)
    {
      var s := store;
      uploads, failure := [], None;
      var i := 0;
      ghost var rest := s.keys;
      assert forall f :: f in s.keys ==> f in s.items;
      while i < |s.keys|
        invariant 0 <= i <= |s.keys| && rest == s.keys[i..]
        invariant forall f :: f in rest ==> f in s.items
        invariant Push(s, s.keys, skip).0 == uploads + Push(s, rest, skip).0
        invariant Push(s, s.keys, skip).1 == Push(s, rest, skip).1
      {
        var field := s.keys[i];
        PushStep(s, rest, skip);
        assert rest[1..] == s.keys[i + 1..];
        if field in skip {
          i, rest := i + 1, rest[1..];
          continue;
        }
        if field !in CollectionInfo {
          failure := Some(UnknownField(field));
          assert uploads + [] == uploads;
          return;
        }
        var collection := CollectionInfo[field];
        var points := CollectPoints(s.items[field]);
        ghost var tail := Push(s, rest[1..], skip).0;
        assert uploads + ([Upload(collection, points)] + tail) == (uploads + [Upload(collection, points)]) + tail;
        uploads := uploads + [Upload(collection, points)];
        i, rest := i + 1, rest[1..];
      }
      assert uploads + [] == uploads;
    }

    /** The inner loop of `push_qdrant_store`: one point per stored text, numbered from 0. */
    static method CollectPoints(items: Dict<Entry>) returns (points: seq<Point>)
      requires items.Valid()
      ensures points == PointsOf(items)
    {
      var index := 0;
      points := [];
      while index < |items.keys|
        invariant 0 <= index <= |items.keys|
        invariant points == Points(items, index)
      {
        var e := items.items[items.keys[index]];
        points := points + [Point(index, e.vector, e.payload)];
        index := index + 1;
      }
    }

    /** The snapshot `main` pickles, with the corrected conversion. */
    method Snapshot() returns (v: PyValue)
      requires Valid()
      ensures NoDefaultDict(v)
      ensures Erase(v) == Erase(StoreValue(store))
    {
      SnapshotCorrected(store);
      v := ToPlainDicts(StoreValue(store));
    }
  }

  /** Pushing a store whose fields are all known, skipping `good_or_service` as `main` does. */
  lemma PushAll(s: Store)
    requires StoreValid(s) && s.items.Keys <= CollectionInfo.Keys
    ensures forall f :: f in Kept(s.keys, ["good_or_service"]) ==> f in s.items
    ensures Push(s, s.keys, ["good_or_service"]) == (UploadsFor(s, Kept(s.keys, ["good_or_service"])), None)
    ensures forall u :: u in Push(s, s.keys, ["good_or_service"]).0 ==>
              u.collection in CollectionInfo && u.collection != "good_or_service"
  {
    assert forall f :: f in s.keys ==> f in s.items;
    PushComplete(s, s.keys, ["good_or_service"]);
    PushSkips(s, s.keys, ["good_or_service"]);
  }

  /**
   * `main`: process every record in order, then push every field except
   * `good_or_service`. The push never fails on such a store: every other
   * field is uploaded once, in the store's order, to the collection of its
   * own name with its points.
   */
  method BuildIndex(records: seq<ClassRecord>, embed: string -> Vector)
    returns (uploads: seq<Upload>, failure: Option<Error>)
    ensures failure == None
    ensures var s := ProcessedAll(Empty(), records, embed);
            var kept := Kept(s.keys, ["good_or_service"]);
            StoreValid(s) && (forall f :: f in kept ==> f in s.items) && uploads == UploadsFor(s, kept)
    ensures forall u :: u in uploads ==> u.collection in CollectionInfo && u.collection != "good_or_service"
  {
    var index := new IndexStore();
    index.ProcessAll(records, embed);
    ProcessedAllFields(records, embed);
    PushAll(index.store);
    uploads, failure := index.PushQdrantStore(["good_or_service"]);
  }
}

/**
 * The collection engine shared by src/dumbql.ts and src/document.ts: the
 * catalog held in the database file, the in-memory steps of each operation
 * (type check, push, the splice loops of delete and update), and the result
 * of each operation as a function of the catalog it loads.
 */
module Catalogs {
  import opened Wrappers
  import opened JsValues
  import opened ArraySplice
  import opened Records

  /** A schema entry; schemas are stored and never consulted. */
  datatype FieldSpec = FieldSpec(typeName: string, required: Option<bool>)
  type Schema = map<string, FieldSpec>

  /** A collection ("document"): `{schema}` as created, `{schema, data}` after an insert or delete. */
  datatype Collection = Collection(schema: Schema, data: Option<seq<Record>>)

  /** The parsed database file's `documents` object: collection name to collection. */
  type Catalog = map<string, Collection>

  /** What the operations throw. */
  datatype Error =
    | DocumentDoesNotExist   // "Document <name> does not exist." (insert)
    | TypeNotAllowed         // "Type of <key> is not allowed. ..." (insert)
    | ReadDataOfUndefined    // TypeError from `doc.data` on a missing collection (select, delete, update)
    | NoWhereClause          // "No where clause provided." (update)

  /** `doc.data || []`. */
  function RecordsOf(c: Collection): (rs: seq<Record>)
    ensures c.data.None? ==> rs == []
    ensures c.data.Some? ==> rs == c.data.value
  {
    c.data.GetOr([])
  }

  /** Every field's `typeof` tag is in the allowed list. */
  predicate FieldTypesAllowed(data: Record, allowed: seq<string>)
    ensures data == map[] ==> FieldTypesAllowed(data, allowed)
    ensures allowed == [] ==> (FieldTypesAllowed(data, allowed) <==> data == map[])
  {
    forall key :: key in data ==> TypeOf(data[key]) in allowed
  }

  /** The forEach over `Object.keys(data)` that throws at the first field whose type is not allowed. */
  method CheckFieldTypes(data: Record, allowed: seq<string>) returns (ok: bool)
    ensures ok <==> FieldTypesAllowed(data, allowed)
  {
    var keys := data.Keys;
    while keys != {}
      invariant keys <= data.Keys
      invariant forall key :: key in data.Keys - keys ==> TypeOf(data[key]) in allowed
      decreases keys
    {
      var key :| key in keys;
      if TypeOf(data[key]) !in allowed {
        return false;
      }
      keys := keys - {key};
    }
    return true;
  }

  /**
   * `{ _id: docData.length + 1 || 1, ...data }` for a collection holding
   * `count` records: the assigned `_id` is `count + 1` unless the data
   * carries its own `_id`, which the spread lets win.
   */
  function NewRecord(count: nat, data: Record): (r: Record)
    ensures r.Keys == data.Keys + {"_id"}
    ensures r["_id"] == if "_id" in data then data["_id"] else Num(Finite((count + 1) as real))
    ensures forall key :: key in data ==> r[key] == data[key]
  {
    map["_id" := Num(Finite((count + 1) as real))] + data
  }

  /** `data._id - 1`: the index delete and update believe the record is at. */
  function IdIndex(r: Record): (n: Number)
    ensures "_id" !in r ==> n == NaN
    ensures "_id" in r && r["_id"].Num? && r["_id"].n.Finite? ==> n == Finite(r["_id"].n.x - 1.0)
  {
    Decrement(Get(r, "_id"))
  }

  /** The forEach of delete: `docData.splice(data._id - 1, 1)` for each matched record, in order. */
  function RemoveAtIds(data: seq<Record>, matched: seq<Record>): (r: seq<Record>)
    ensures |data| - |matched| <= |r| <= |data|
    decreases |matched|
  {
    if matched == [] then data
    else RemoveAtIds(SpliceRemove(data, IdIndex(matched[0])), matched[1..])
  }

  /** The splices only take away: the data gains no record it did not have. */
  lemma {:induction false} RemoveAtIdsSubMultiset(data: seq<Record>, matched: seq<Record>)
    ensures multiset(RemoveAtIds(data, matched)) <= multiset(data)
    decreases |matched|
  {
    if matched != [] {
      var next := SpliceRemove(data, IdIndex(matched[0]));
      SpliceRemoveSubMultiset(data, IdIndex(matched[0]));
      RemoveAtIdsSubMultiset(next, matched[1..]);
    }
  }

  method RemoveEach(docData: seq<Record>, matched: seq<Record>) returns (out: seq<Record>)
    ensures out == RemoveAtIds(docData, matched)
  {
    out := docData;
    var i := 0;
    while i < |matched|
      invariant 0 <= i <= |matched|
      invariant RemoveAtIds(out, matched[i..]) == RemoveAtIds(docData, matched)
    {
      out := SpliceRemove(out, IdIndex(matched[i]));
      i := i + 1;
    }
  }

  /** One step of update's forEach: `{ ...docData[i], ...newData }` spliced in at `i = data._id - 1`. */
  function MergeAtId(data: seq<Record>, m: Record, patch: Record): (r: seq<Record>)
    ensures |data| <= |r| <= |data| + 1
  {
    var index := IdIndex(m);
    SpliceReplace(data, index, Merge(Spread(ElementAt(data, index)), patch))
  }

  /** The forEach of update, over the matched records in order. */
  function MergeAtIds(data: seq<Record>, matched: seq<Record>, patch: Record): (r: seq<Record>)
    ensures |data| <= |r| <= |data| + |matched|
    decreases |matched|
  {
    if matched == [] then data
    else MergeAtIds(MergeAtId(data, matched[0], patch), matched[1..], patch)
  }

  method MergeEach(docData: seq<Record>, matched: seq<Record>, patch: Record) returns (out: seq<Record>)
    ensures out == MergeAtIds(docData, matched, patch)
  {
    out := docData;
    var i := 0;
    while i < |matched|
      invariant 0 <= i <= |matched|
      invariant MergeAtIds(out, matched[i..], patch) == MergeAtIds(docData, matched, patch)
    {
      var index := IdIndex(matched[i]);
      var updated := Merge(Spread(ElementAt(out, index)), patch);
      out := SpliceReplace(out, index, updated);
      i := i + 1;
    }
  }

  /** Replace one collection's records, keeping its schema. */
  function WithRecords(db: Catalog, docName: string, data: seq<Record>): (r: Catalog)
    requires docName in db
    ensures r.Keys == db.Keys
    ensures r[docName] == Collection(db[docName].schema, Some(data))
    ensures forall n :: n in db && n != docName ==> r[n] == db[n]
  {
    db[docName := db[docName].(data := Some(data))]
  }

  /**
   * insertIntoDocument on the loaded catalog: it fails, writing nothing, when
   * the collection is absent or a field's type is not allowed; otherwise it
   * appends exactly one record and leaves everything else as it was.
   */
  function InsertResult(db: Catalog, docName: string, data: Record, allowed: seq<string>)
    : (r: Result<Catalog, Error>)
    ensures r.Failure? <==> docName !in db || !FieldTypesAllowed(data, allowed)
    ensures r.Failure? ==> r.error == if docName !in db then DocumentDoesNotExist else TypeNotAllowed
    ensures r.Success? ==>
      var before := RecordsOf(db[docName]);
      && r.value.Keys == db.Keys
      && (forall n :: n in db && n != docName ==> r.value[n] == db[n])
      && r.value[docName].schema == db[docName].schema
      && r.value[docName].data.Some?
      && |r.value[docName].data.value| == |before| + 1
      && r.value[docName].data.value[..|before|] == before
      && r.value[docName].data.value[|before|] == NewRecord(|before|, data)
  {
    if docName !in db then Failure(DocumentDoesNotExist)
    else if !FieldTypesAllowed(data, allowed) then Failure(TypeNotAllowed)
    else
      var before := RecordsOf(db[docName]);
      var after := before + [NewRecord(|before|, data)];
      assert after[..|before|] == before;
      Success(WithRecords(db, docName, after))
  }

  /**
   * selectFromDocument on the loaded catalog: the rows it shows are all
   * records without a where clause, the matching ones, in order, with one.
   */
  function SelectResult(db: Catalog, docName: string, where: Option<Record>)
    : (r: Result<seq<Record>, Error>)
    ensures r.Failure? <==> docName !in db
    ensures r.Failure? ==> r.error == ReadDataOfUndefined
    ensures r.Success? && where.None? ==> r.value == RecordsOf(db[docName])
    ensures r.Success? && where.Some? ==>
      && r.value == Filter(RecordsOf(db[docName]), where.value)
      && (forall x :: x in r.value <==> x in RecordsOf(db[docName]) && Matches(x, where.value))
  {
    if docName !in db then Failure(ReadDataOfUndefined)
    else
      var data := RecordsOf(db[docName]);
      match where
      case None => Success(data)
      case Some(w) =>
        FilterMembers(data, w);
        Success(Filter(data, w))
  }

  /**
   * deleteFromDocument on the loaded catalog: without a where clause the
   * collection's data becomes empty; with one, each matched record triggers
   * one splice, so the collection never grows and loses at most one record
   * per match. Other collections and the schema are untouched.
   */
  function DeleteResult(db: Catalog, docName: string, where: Option<Record>)
    : (r: Result<Catalog, Error>)
    ensures r.Failure? <==> docName !in db
    ensures r.Failure? ==> r.error == ReadDataOfUndefined
    ensures r.Success? ==>
      var before := RecordsOf(db[docName]);
      && r.value.Keys == db.Keys
      && (forall n :: n in db && n != docName ==> r.value[n] == db[n])
      && r.value[docName].schema == db[docName].schema
      && r.value[docName].data.Some?
      && (where.None? ==> r.value[docName].data.value == [])
      && (where.Some? ==>
            var after := r.value[docName].data.value;
            && after == RemoveAtIds(before, Filter(before, where.value))
            && |before| - |Filter(before, where.value)| <= |after| <= |before|
            && multiset(after) <= multiset(before))
  {
    if docName !in db then Failure(ReadDataOfUndefined)
    else
      match where
      case None => Success(WithRecords(db, docName, []))
      case Some(w) =>
        var before := RecordsOf(db[docName]);
        RemoveAtIdsSubMultiset(before, Filter(before, w));
        Success(WithRecords(db, docName, RemoveAtIds(before, Filter(before, w))))
  }

  /**
   * updateDocument on the loaded catalog: it fails on a missing collection
   * and on a missing where clause; otherwise each matched record triggers one
   * replacing splice, so the collection never shrinks and grows by at most
   * one record per match.
   */
  function UpdateResult(db: Catalog, docName: string, where: Option<Record>, patch: Record)
    : (r: Result<Catalog, Error>)
    ensures r.Failure? <==> docName !in db || where.None?
    ensures r.Failure? ==> r.error == if docName !in db then ReadDataOfUndefined else NoWhereClause
    ensures r.Success? ==>
      var before := RecordsOf(db[docName]);
      && r.value.Keys == db.Keys
      && (forall n :: n in db && n != docName ==> r.value[n] == db[n])
      && r.value[docName].schema == db[docName].schema
      && r.value[docName].data.Some?
      && var after := r.value[docName].data.value;
      && after == MergeAtIds(before, Filter(before, where.value), patch)
      && |before| <= |after| <= |before| + |Filter(before, where.value)|
  {
    if docName !in db then Failure(ReadDataOfUndefined)
    else
      match where
      case None => Failure(NoWhereClause)
      case Some(w) =>
        var before := RecordsOf(db[docName]);
        Success(WithRecords(db, docName, MergeAtIds(before, Filter(before, w), patch)))
  }
}

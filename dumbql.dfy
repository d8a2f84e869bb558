/**
 * src/dumbql.ts: the collection operations as free functions. Each call
 * loads the whole catalog, changes it in memory and stores it back; here the
 * loaded catalog is the parameter `db` and the stored one the `Success`
 * value, while a `Failure` is a throw before the store, which writes nothing.
 */
module DumbQL {
  import opened Wrappers
  import opened JsValues
  import opened Records
  import opened Catalogs

  /** `allowedTypes`. */
  const AllowedTypes: seq<string> := ["string", "number", "boolean", "object", "array"]

  /** The values whose `typeof` the list admits. */
  predicate Storable(v: JsValue)
  {
    !(v.Undefined? || v.Func? || v.BigInt? || v.Sym?)
  }

  /**
   * The allowed list admits exactly the values that are not `undefined`, a
   * function, a bigint or a symbol; its "array" entry matches nothing, as
   * `typeof` reports arrays (and `null`) as "object".
   */
  lemma AllowedTypeTags(v: JsValue)
    ensures TypeOf(v) in AllowedTypes <==> Storable(v)
    ensures TypeOf(v) != AllowedTypes[4]
  {
    assert AllowedTypes[4] == "array";
  }

  /**
   * An insert is refused exactly when the collection is missing or some
   * field holds a value that is not storable, and the missing collection is
   * the error reported when both hold.
   */
  lemma InsertRefusal(db: Catalog, docName: string, data: Record)
    ensures var r := InsertResult(db, docName, data, AllowedTypes);
      && (r.Failure? <==> docName !in db || exists key :: key in data && !Storable(data[key]))
      && (docName !in db ==> r == Failure(DocumentDoesNotExist))
  {
    forall key | key in data
      ensures TypeOf(data[key]) in AllowedTypes <==> Storable(data[key])
    {
      AllowedTypeTags(data[key]);
    }
  }

  /**
   * `db.documents[docName] = { schema }`: the entry becomes exactly the
   * schema with no data, whatever was there before; nothing else changes.
   */
  function CreateDocument(db: Catalog, docName: string, schema: Schema): (r: Catalog)
    ensures r.Keys == db.Keys + {docName}
    ensures r[docName] == Collection(schema, None)
    ensures RecordsOf(r[docName]) == []
    ensures forall n :: n in db && n != docName ==> r[n] == db[n]
  {
    db[docName := Collection(schema, None)]
  }

  method InsertIntoDocument(db: Catalog, docName: string, data: Record)
    returns (r: Result<Catalog, Error>)
    ensures r == InsertResult(db, docName, data, AllowedTypes)
  {
    if docName !in db {
      return Failure(DocumentDoesNotExist);
    }
    var doc := db[docName];
    var docData := RecordsOf(doc);
    var ok := CheckFieldTypes(data, AllowedTypes);
    if !ok {
      return Failure(TypeNotAllowed);
    }
    docData := docData + [NewRecord(|docData|, data)];
    return Success(WithRecords(db, docName, docData));
  }

  /** The rows selectFromDocument shows with console.table. */
  method SelectFromDocument(db: Catalog, docName: string, where: Option<Record>)
    returns (r: Result<seq<Record>, Error>)
    ensures r == SelectResult(db, docName, where)
  {
    if docName !in db {
      return Failure(ReadDataOfUndefined);
    }
    var docData := RecordsOf(db[docName]);
    if where.Some? {
      var filteredData := Filter(docData, where.value);
      return Success(filteredData);
    }
    return Success(docData);
  }

  method DeleteFromDocument(db: Catalog, docName: string, where: Option<Record>)
    returns (r: Result<Catalog, Error>)
    ensures r == DeleteResult(db, docName, where)
  {
    if docName !in db {
      return Failure(ReadDataOfUndefined);
    }
    var doc := db[docName];
    var docData := RecordsOf(doc);
    if where.Some? {
      var filteredData := Filter(docData, where.value);
      docData := RemoveEach(docData, filteredData);
      return Success(WithRecords(db, docName, docData));
    }
    return Success(WithRecords(db, docName, []));
  }

  method UpdateDocument(db: Catalog, docName: string, where: Option<Record>, newData: Record)
    returns (r: Result<Catalog, Error>)
    ensures r == UpdateResult(db, docName, where, newData)
  {
    if docName !in db {
      return Failure(ReadDataOfUndefined);
    }
    var doc := db[docName];
    var docData := RecordsOf(doc);
    if where.Some? {
      var filteredData := Filter(docData, where.value);
      docData := MergeEach(docData, filteredData, newData);
      return Success(WithRecords(db, docName, docData));
    }
    return Failure(NoWhereClause);
  }
}

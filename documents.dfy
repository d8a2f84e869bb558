/**
 * src/document.ts with the constant it takes from src/db.ts: class
 * `Document`, whose methods load the database file, change the catalog in
 * memory and write it back. The file is the object `DatabaseFile`; a thrown
 * error is returned as `thrown` and leaves the file as it was.
 */
module Documents {
  import opened Wrappers
  import opened Records
  import opened Catalogs

  /** `DB.ALLOWED_TYPES` (src/db.ts). */
  const AllowedTypes: seq<string> := ["string", "number", "boolean", "object", "array"]

  /** The database at `DB.DATABASE_PATH`, taken to be a file holding the catalog as its `documents`. */
  class DatabaseFile {
    var documents: Catalog

    constructor (documents: Catalog)
      ensures this.documents == documents
    {
      this.documents := documents;
    }
  }

  class Document {
    const name: string
    const file: DatabaseFile

    constructor (name: string, file: DatabaseFile)
      ensures this.name == name && this.file == file
    {
      this.name := name;
      this.file := file;
    }

    /** The named entry becomes exactly `{schema}`; every other entry is kept. */
    method CreateDocument(docName: string, schema: Schema)
      modifies file
      ensures file.documents == old(file.documents)[docName := Collection(schema, None)]
    {
      var db := file.documents;
      db := db[docName := Collection(schema, None)];
      file.documents := db;
    }

    method InsertIntoDocument(docName: string, data: Record) returns (thrown: Option<Error>)
      modifies file
      ensures var r := InsertResult(old(file.documents), docName, data, AllowedTypes);
        && (r.Success? ==> thrown.None? && file.documents == r.value)
        && (r.Failure? ==> thrown == Some(r.error) && file.documents == old(file.documents))
    {
      var db := file.documents;
      if docName !in db {
        return Some(DocumentDoesNotExist);
      }
      var doc := db[docName];
      var docData := RecordsOf(doc);
      var ok := CheckFieldTypes(data, AllowedTypes);
      if !ok {
        return Some(TypeNotAllowed);
      }
      docData := docData + [NewRecord(|docData|, data)];
      db := WithRecords(db, docName, docData);
      file.documents := db;
      return None;
    }

    /** The rows shown by console.table; the file is only read. */
    method SelectFromDocument(docName: string, where: Option<Record>)
      returns (r: Result<seq<Record>, Error>)
      ensures r == SelectResult(file.documents, docName, where)
    {
      var db := file.documents;
      if docName !in db {
        return Failure(ReadDataOfUndefined);
      }
      var docData := RecordsOf(db[docName]);
      if where.Some? {
        var filteredData := Filter(docData, where.value);
        return Success(filteredData);
      }
      return Success(docData);
    }

    method DeleteFromDocument(docName: string, where: Option<Record>) returns (thrown: Option<Error>)
      modifies file
      ensures var r := DeleteResult(old(file.documents), docName, where);
        && (r.Success? ==> thrown.None? && file.documents == r.value)
        && (r.Failure? ==> thrown == Some(r.error) && file.documents == old(file.documents))
    {
      var db := file.documents;
      if docName !in db {
        return Some(ReadDataOfUndefined);
      }
      var doc := db[docName];
      var docData := RecordsOf(doc);
      if where.Some? {
        var filteredData := Filter(docData, where.value);
        docData := RemoveEach(docData, filteredData);
        db := WithRecords(db, docName, docData);
        file.documents := db;
        return None;
      }
      db := WithRecords(db, docName, []);
      file.documents := db;
      return None;
    }

    method UpdateDocument(docName: string, where: Option<Record>, newData: Record)
      returns (thrown: Option<Error>)
      modifies file
      ensures var r := UpdateResult(old(file.documents), docName, where, newData);
        && (r.Success? ==> thrown.None? && file.documents == r.value)
        && (r.Failure? ==> thrown == Some(r.error) && file.documents == old(file.documents))
    {
      var db := file.documents;
      if docName !in db {
        return Some(ReadDataOfUndefined);
      }
      var doc := db[docName];
      var docData := RecordsOf(doc);
      if where.Some? {
        var filteredData := Filter(docData, where.value);
        docData := MergeEach(docData, filteredData, newData);
        db := WithRecords(db, docName, docData);
        file.documents := db;
        return None;
      }
      return Some(NoWhereClause);
    }
  }
}

/**
 * The value types of the CouchDB replication protocol: document revisions,
 * missing-revision reports, bulk documents, `_changes` rows and the endpoint.
 */
module CouchDBTypes {
  import opened Wrappers
  import opened Json

  /** One document state on the server (CouchDBDocRev). */
  datatype DocRev = DocRev(docId: string, revision: string, deleted: bool)

  /** What `_revs_diff` reports for one document (CouchDBDocMissingRevs). */
  datatype DocMissingRevs = DocMissingRevs(docId: string, missingRevs: seq<string>)

  /** A document to write with `_bulk_docs`, with its optional body (CouchDBBulkDoc). */
  datatype BulkDoc = BulkDoc(docRev: DocRev, doc: Option<Dict>)

  /** One row of a `_changes` feed (CouchDBChangeRow); `changes` lists revisions. */
  datatype ChangeRow = ChangeRow(sequence: string, id: string, changes: seq<string>, deleted: bool, doc: Option<Dict>)

  /** A `_changes` response: the rows and the feed's last sequence. */
  datatype Changes = Changes(lastSequence: string, rows: seq<ChangeRow>)

  /** A remote database (CouchDBEndpoint). */
  datatype Endpoint = Endpoint(baseUrl: string, username: Option<string>, password: Option<string>, db: string) {

    /** `baseUrl/db`: the endpoint's side of a replication identity. */
    function Description(): string {
      baseUrl + "/" + db
    }
  }
}

/** The body of a `_bulk_docs` request (CouchDBBulkDocsReq.toDictionary). */
module CouchDBBulkDocsReq {
  import opened Json
  import opened CouchDBTypes
  import CouchDBBulkDoc

  /** `{new_edits: false, docs: [...]}`: the server must keep the given revisions. */
  method ToDictionary(docs: seq<BulkDoc>) returns (dict: Dict)
    ensures dict.Keys == {"new_edits", "docs"}
    ensures dict["new_edits"] == JBool(false)
    ensures dict["docs"].JArr? && |dict["docs"].items| == |docs|
    ensures forall i :: 0 <= i < |docs| ==>
              dict["docs"].items[i].JObj? && CouchDBBulkDoc.IsBulkDocDict(docs[i], dict["docs"].items[i].fields)
  {
    var docDicts: seq<Json> := [];
    for i := 0 to |docs|
      invariant |docDicts| == i
      invariant forall j :: 0 <= j < i ==> docDicts[j].JObj? && CouchDBBulkDoc.IsBulkDocDict(docs[j], docDicts[j].fields)
    {
      var d := CouchDBBulkDoc.ToDictionary(docs[i]);
      docDicts := docDicts + [JObj(d)];
    }
    dict := map["new_edits" := JBool(false), "docs" := JArr(docDicts)];
  }
}

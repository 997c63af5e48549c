/**
 * PushReplicator: sends the local changes of one realm object type to a
 * CouchDB database. The client's replies (checkpoint, revs-diff, bulk-docs
 * and save-checkpoint callbacks) are parameters; the requests the replicator
 * makes are part of its result.
 */
module PushReplicators {
  import opened Wrappers
  import opened Json
  import opened CouchDBTypes
  import opened RealmStore
  import opened MappingStore
  import opened RealmObjectManagers
  import opened ReplicationResults
  import opened ReplicationManagers

  /** `Int32.max`, the limit the push passes to localChanges. */
  const Int32Max := 0x7fff_ffff

  /** The docRevs sent to `_revs_diff`: one per mapping row, never deleted. */
  function DocRevsOf(rows: seq<DocMap>): (r: seq<DocRev>)
    ensures |r| == |rows|
    ensures forall i :: 0 <= i < |rows| ==> r[i] == DocRev(rows[i].couchDocId, rows[i].couchRev, false)
  {
    seq(|rows|, i requires 0 <= i < |rows| => DocRev(rows[i].couchDocId, rows[i].couchRev, false))
  }

  /** realmObjectToDictionary: the fields of the first object whose id is `id`, if there is one. */
  function ObjectDictionary(mgr: RealmObjectManager, objects: seq<RealmObject>, id: string): (r: Option<Dict>)
    ensures r.None? <==> forall o :: o in objects ==> mgr.IdOf(o) != Some(id)
    ensures r.Some? ==> exists o :: o in objects && mgr.IdOf(o) == Some(id) && r.value == o.fields
  {
    var matching := mgr.GetObjectsMatchingIds(objects, [id]);
    if |matching| > 0 then
      assert matching[0] in matching;
      Some(mgr.ObjectToDictionary(matching[0]))
    else
      assert forall o :: o in objects && mgr.IdOf(o) == Some(id) ==> o in matching;
      None
  }

  /** The innermost loop of getCouchDBBulkDocs: the rows carrying (docId, rev) whose object is found. */
  function RowDocs(mgr: RealmObjectManager, objects: seq<RealmObject>, docId: string, rev: string, rows: seq<DocMap>): seq<BulkDoc>
  {
    if rows == [] then []
    else
      var m := rows[|rows| - 1];
      var rest := RowDocs(mgr, objects, docId, rev, rows[..|rows| - 1]);
      if m.couchDocId == docId && m.couchRev == rev then
        match ObjectDictionary(mgr, objects, m.realmObjectId)
        case Some(d) => rest + [BulkDoc(DocRev(m.couchDocId, m.couchRev, false), Some(d))]
        case None => rest
      else rest
  }

  /** The middle loop: every missing revision of one document. */
  function RevDocs(mgr: RealmObjectManager, objects: seq<RealmObject>, docId: string, revs: seq<string>, rows: seq<DocMap>): seq<BulkDoc>
  {
    if revs == [] then []
    else RevDocs(mgr, objects, docId, revs[..|revs| - 1], rows) + RowDocs(mgr, objects, docId, revs[|revs| - 1], rows)
  }

  /** getCouchDBBulkDocs: for each missing (document, revision), the local rows that carry it and whose object exists. */
  function BulkDocsFor(mgr: RealmObjectManager, objects: seq<RealmObject>, missing: seq<DocMissingRevs>, rows: seq<DocMap>): seq<BulkDoc>
  {
    if missing == [] then []
    else
      var md := missing[|missing| - 1];
      BulkDocsFor(mgr, objects, missing[..|missing| - 1], rows) + RevDocs(mgr, objects, md.docId, md.missingRevs, rows)
  }

  /** A bulk document is justified when some row carries its id and revision and its body is that row's object. */
  ghost predicate SentFor(mgr: RealmObjectManager, objects: seq<RealmObject>, d: BulkDoc, docId: string, rev: string, rows: seq<DocMap>) {
    d.docRev == DocRev(docId, rev, false) && d.doc.Some? &&
    exists m, o :: m in rows && o in objects && m.couchDocId == docId && m.couchRev == rev &&
      mgr.IdOf(o) == Some(m.realmObjectId) && d.doc.value == o.fields
  }

  /** Some row carries (docId, rev) and its object is present. */
  ghost predicate Sendable(mgr: RealmObjectManager, objects: seq<RealmObject>, docId: string, rev: string, rows: seq<DocMap>) {
    exists m, o :: m in rows && o in objects && m.couchDocId == docId && m.couchRev == rev && mgr.IdOf(o) == Some(m.realmObjectId)
  }

  /** Every document the innermost loop emits carries (docId, rev) and the body of the object its row maps. */
  lemma {:induction false} RowDocsSound(mgr: RealmObjectManager, objects: seq<RealmObject>, docId: string, rev: string, rows: seq<DocMap>)
    ensures forall d :: d in RowDocs(mgr, objects, docId, rev, rows) ==> SentFor(mgr, objects, d, docId, rev, rows)
  {
    if rows != [] {
      var init := rows[..|rows| - 1];
      var m := rows[|rows| - 1];
      RowDocsSound(mgr, objects, docId, rev, init);
      assert rows == init + [m];
      var r := RowDocs(mgr, objects, docId, rev, rows);
      forall d | d in r ensures SentFor(mgr, objects, d, docId, rev, rows) {
        if d !in RowDocs(mgr, objects, docId, rev, init) {
          var o :| o in objects && mgr.IdOf(o) == Some(m.realmObjectId) && d.doc.value == o.fields;
          assert m in rows;
        } else {
          assert SentFor(mgr, objects, d, docId, rev, init);
        }
      }
    }
  }

  /** When some row carries (docId, rev) and its object exists, the innermost loop emits a document. */
  lemma {:induction false} RowDocsComplete(mgr: RealmObjectManager, objects: seq<RealmObject>, docId: string, rev: string, rows: seq<DocMap>)
    requires Sendable(mgr, objects, docId, rev, rows)
    ensures exists d :: d in RowDocs(mgr, objects, docId, rev, rows)
  {
    var m', o :| m' in rows && o in objects && m'.couchDocId == docId && m'.couchRev == rev && mgr.IdOf(o) == Some(m'.realmObjectId);
    var init := rows[..|rows| - 1];
    var m := rows[|rows| - 1];
    assert rows == init + [m];
    var rest := RowDocs(mgr, objects, docId, rev, init);
    if m' in init {
      RowDocsComplete(mgr, objects, docId, rev, init);
      var d :| d in rest;
      assert d in RowDocs(mgr, objects, docId, rev, rows);
    } else {
      assert m' == m;
      var found := ObjectDictionary(mgr, objects, m.realmObjectId);
      assert found.Some?;
      var d := BulkDoc(DocRev(m.couchDocId, m.couchRev, false), Some(found.value));
      assert RowDocs(mgr, objects, docId, rev, rows) == rest + [d];
      assert d in rest + [d];
    }
  }

  lemma {:induction false} RevDocsExact(mgr: RealmObjectManager, objects: seq<RealmObject>, docId: string, revs: seq<string>, rows: seq<DocMap>)
    ensures forall d :: d in RevDocs(mgr, objects, docId, revs, rows) ==> exists rev :: rev in revs && SentFor(mgr, objects, d, docId, rev, rows)
    ensures forall rev :: rev in revs && Sendable(mgr, objects, docId, rev, rows) ==> exists d :: d in RevDocs(mgr, objects, docId, revs, rows) && d.docRev.revision == rev
  {
    if revs != [] {
      var init := revs[..|revs| - 1];
      var rev := revs[|revs| - 1];
      RevDocsExact(mgr, objects, docId, init, rows);
      RowDocsSound(mgr, objects, docId, rev, rows);
      if Sendable(mgr, objects, docId, rev, rows) {
        RowDocsComplete(mgr, objects, docId, rev, rows);
      }
      assert revs == init + [rev];
      var r := RevDocs(mgr, objects, docId, revs, rows);
      forall rev' | rev' in revs && Sendable(mgr, objects, docId, rev', rows)
        ensures exists d :: d in r && d.docRev.revision == rev'
      {
        if rev' in init {
          var d :| d in RevDocs(mgr, objects, docId, init, rows) && d.docRev.revision == rev';
          assert d in r;
        } else {
          var d :| d in RowDocs(mgr, objects, docId, rev, rows);
          assert SentFor(mgr, objects, d, docId, rev, rows);
          assert d in r;
        }
      }
    }
  }

  /** Bulk document `d` answers some missing (document, revision) pair. */
  ghost predicate Justified(mgr: RealmObjectManager, objects: seq<RealmObject>, d: BulkDoc, missing: seq<DocMissingRevs>, rows: seq<DocMap>) {
    exists md, rev :: md in missing && rev in md.missingRevs && SentFor(mgr, objects, d, md.docId, rev, rows)
  }

  /** Only a pair both reported missing and found in the local batch is sent, with the body of the object its row maps. */
  lemma {:induction false} BulkDocsSound(mgr: RealmObjectManager, objects: seq<RealmObject>, missing: seq<DocMissingRevs>, rows: seq<DocMap>)
    ensures forall d :: d in BulkDocsFor(mgr, objects, missing, rows) ==> Justified(mgr, objects, d, missing, rows)
  {
    if missing != [] {
      var init := missing[..|missing| - 1];
      var md := missing[|missing| - 1];
      BulkDocsSound(mgr, objects, init, rows);
      RevDocsExact(mgr, objects, md.docId, md.missingRevs, rows);
      forall d | d in BulkDocsFor(mgr, objects, missing, rows) ensures Justified(mgr, objects, d, missing, rows) {
        if d in BulkDocsFor(mgr, objects, init, rows) {
          var md', rev :| md' in init && rev in md'.missingRevs && SentFor(mgr, objects, d, md'.docId, rev, rows);
          assert md' in missing;
        } else {
          var rev :| rev in md.missingRevs && SentFor(mgr, objects, d, md.docId, rev, rows);
          assert md in missing;
        }
      }
    }
  }

  /** Every missing pair that a local row carries and whose object exists is sent. */
  lemma {:induction false} BulkDocsComplete(mgr: RealmObjectManager, objects: seq<RealmObject>, missing: seq<DocMissingRevs>, rows: seq<DocMap>, md: DocMissingRevs, rev: string)
    requires md in missing && rev in md.missingRevs && Sendable(mgr, objects, md.docId, rev, rows)
    ensures exists d :: d in BulkDocsFor(mgr, objects, missing, rows) && d.docRev == DocRev(md.docId, rev, false)
  {
    var init := missing[..|missing| - 1];
    var last := missing[|missing| - 1];
    assert missing == init + [last];
    var r := BulkDocsFor(mgr, objects, missing, rows);
    if md in init {
      BulkDocsComplete(mgr, objects, init, rows, md, rev);
      var d :| d in BulkDocsFor(mgr, objects, init, rows) && d.docRev == DocRev(md.docId, rev, false);
      assert d in r;
    } else {
      assert md == last;
      RevDocsExact(mgr, objects, md.docId, md.missingRevs, rows);
      var d :| d in RevDocs(mgr, objects, md.docId, md.missingRevs, rows) && d.docRev.revision == rev;
      var rev' :| rev' in md.missingRevs && SentFor(mgr, objects, d, md.docId, rev', rows);
      assert d in r;
    }
  }

  /** The requests a push makes and how it ends. */
  datatype PushRun = PushRun(
    replicationId: map<string, string>,
    revsDiffRequest: seq<DocRev>,
    bulkDocsRequest: Option<seq<BulkDoc>>,
    savedCheckpoint: Option<int>,
    result: ReplicationResult)

  class PushReplicator {
    const target: Endpoint
    const realmObjectMgr: RealmObjectManager
    const replicationMgr: ReplicationManager

    constructor (target: Endpoint, realmObjectMgr: RealmObjectManager, replicationMgr: ReplicationManager)
      ensures this.target == target && this.realmObjectMgr == realmObjectMgr && this.replicationMgr == replicationMgr
    {
      this.target := target;
      this.realmObjectMgr := realmObjectMgr;
      this.replicationMgr := replicationMgr;
    }

    function Ref(): Replicator {
      PushReplicatorRef(target, realmObjectMgr.typeName)
    }

    /** getReplicatorId: the local replicator id of the type is the source, the endpoint the target. */
    method GetReplicatorId() returns (id: map<string, string>)
      requires replicationMgr.Valid() && realmObjectMgr.typeName in replicationMgr.lastSequences
      ensures realmObjectMgr.typeName in replicationMgr.realm.sequences
      ensures id == ReplicationIdInput(replicationMgr.realm.sequences[realmObjectMgr.typeName].realmObjectReplicatorId, target.Description())
    {
      var local := replicationMgr.GetRealmObjectReplicatorId(realmObjectMgr);
      id := ReplicationIdInput(local, target.Description());
    }

    /** getChanges: the local changes after the remote checkpoint, or from the start when there is none. */
    method GetChanges(since: Option<int>, limit: int) returns (changes: ObjectChanges)
      ensures changes == LocalChangesOf(replicationMgr.realm.docMaps, since.GetOr(0), limit)
    {
      var verifiedSince := since.GetOr(0);
      changes := replicationMgr.LocalChanges(realmObjectMgr, verifiedSince, limit);
    }

    method GetDocRevsFromChanges(changes: ObjectChanges) returns (docRevs: seq<DocRev>)
      ensures docRevs == DocRevsOf(changes.realmDocMaps)
    {
      docRevs := [];
      for i := 0 to |changes.realmDocMaps|
        invariant |docRevs| == i
        invariant forall j :: 0 <= j < i ==> docRevs[j] == DocRev(changes.realmDocMaps[j].couchDocId, changes.realmDocMaps[j].couchRev, false)
      {
        var realmDocMap := changes.realmDocMaps[i];
        docRevs := docRevs + [DocRev(realmDocMap.couchDocId, realmDocMap.couchRev, false)];
      }
    }

    method RealmObjectToDictionary(realmObjectId: string) returns (doc: Option<Dict>)
      ensures doc == ObjectDictionary(realmObjectMgr, ObjectsOf(replicationMgr.realm.objects, realmObjectMgr.typeName), realmObjectId)
    {
      var objects := realmObjectMgr.GetObjectsMatchingIds(ObjectsOf(replicationMgr.realm.objects, realmObjectMgr.typeName), [realmObjectId]);
      if |objects| > 0 {
        doc := Some(realmObjectMgr.ObjectToDictionary(objects[0]));
      } else {
        doc := None;
      }
    }

    method GetCouchDBBulkDocs(missingDocRevs: seq<DocMissingRevs>, changes: ObjectChanges) returns (docs: seq<BulkDoc>)
      ensures docs == BulkDocsFor(realmObjectMgr, ObjectsOf(replicationMgr.realm.objects, realmObjectMgr.typeName), missingDocRevs, changes.realmDocMaps)
    {
      docs := [];
      for i := 0 to |missingDocRevs|
        invariant docs == BulkDocsFor(realmObjectMgr, ObjectsOf(replicationMgr.realm.objects, realmObjectMgr.typeName), missingDocRevs[..i], changes.realmDocMaps)
      {
        assert missingDocRevs[..i + 1][..i] == missingDocRevs[..i];
        var revDocs := MissingRevDocs(missingDocRevs[i], changes);
        docs := docs + revDocs;
      }
      assert missingDocRevs[..|missingDocRevs|] == missingDocRevs;
    }

    /** The middle loop of getCouchDBBulkDocs: every missing revision of one document. */
    method MissingRevDocs(missingDocRev: DocMissingRevs, changes: ObjectChanges) returns (docs: seq<BulkDoc>)
      ensures docs == RevDocs(realmObjectMgr, ObjectsOf(replicationMgr.realm.objects, realmObjectMgr.typeName), missingDocRev.docId, missingDocRev.missingRevs, changes.realmDocMaps)
    {
      var revs := missingDocRev.missingRevs;
      docs := [];
      for j := 0 to |revs|
        invariant docs == RevDocs(realmObjectMgr, ObjectsOf(replicationMgr.realm.objects, realmObjectMgr.typeName), missingDocRev.docId, revs[..j], changes.realmDocMaps)
      {
        assert revs[..j + 1][..j] == revs[..j];
        var rowDocs := MatchingRowDocs(missingDocRev.docId, revs[j], changes);
        docs := docs + rowDocs;
      }
      assert revs[..|revs|] == revs;
    }

    /** The innermost loop of getCouchDBBulkDocs: the batch rows carrying (docId, rev) whose object is found. */
    method MatchingRowDocs(docId: string, rev: string, changes: ObjectChanges) returns (docs: seq<BulkDoc>)
      ensures docs == RowDocs(realmObjectMgr, ObjectsOf(replicationMgr.realm.objects, realmObjectMgr.typeName), docId, rev, changes.realmDocMaps)
    {
      var rows := changes.realmDocMaps;
      docs := [];
      for k := 0 to |rows|
        invariant docs == RowDocs(realmObjectMgr, ObjectsOf(replicationMgr.realm.objects, realmObjectMgr.typeName), docId, rev, rows[..k])
      {
        assert rows[..k + 1][..k] == rows[..k];
        var realmDocMap := rows[k];
        if realmDocMap.couchDocId == docId && realmDocMap.couchRev == rev {
          var doc := RealmObjectToDictionary(realmDocMap.realmObjectId);
          if doc.Some? {
            docs := docs + [BulkDoc(DocRev(realmDocMap.couchDocId, realmDocMap.couchRev, false), doc)];
          }
        }
      }
      assert rows[..|rows|] == rows;
    }

    /**
     * start: reads the remote checkpoint, asks which of the local changes
     * after it the server is missing, sends those, and only after the
     * documents are accepted saves the new checkpoint.
     */
    method Start(checkpoint: Option<int>, revsDiffReply: ClientReply<seq<DocMissingRevs>>,
                 bulkDocsError: Option<ReplicationError>, saveCheckpointError: Option<ReplicationError>) returns (run: PushRun)
      requires replicationMgr.Valid() && realmObjectMgr.typeName in replicationMgr.lastSequences
      ensures var t := realmObjectMgr.typeName;
        var changes := LocalChangesOf(replicationMgr.realm.docMaps, checkpoint.GetOr(0), Int32Max);
        t in replicationMgr.realm.sequences &&
        run.replicationId == ReplicationIdInput(replicationMgr.realm.sequences[t].realmObjectReplicatorId, target.Description()) &&
        run.revsDiffRequest == DocRevsOf(changes.realmDocMaps) &&
        match revsDiffReply
        case ReplyError(e) =>
          run.result == Failed(Ref(), Some(e), Some("Error running revsDiff")) && run.bulkDocsRequest.None? && run.savedCheckpoint.None?
        case ReplyNil =>
          run.result == Completed(Ref(), 0) && run.bulkDocsRequest.None? && run.savedCheckpoint.None?
        case ReplyValue(missing) =>
          if |missing| == 0 then
            run.result == Completed(Ref(), 0) && run.bulkDocsRequest.None? && run.savedCheckpoint.None?
          else
            run.bulkDocsRequest == Some(BulkDocsFor(realmObjectMgr, ObjectsOf(replicationMgr.realm.objects, t), missing, changes.realmDocMaps)) &&
            match bulkDocsError
            case Some(e) => run.result == Failed(Ref(), Some(e), Some("Error saving checkpoint")) && run.savedCheckpoint.None?
            case None =>
              run.savedCheckpoint == Some(changes.lastSequence) &&
              match saveCheckpointError
              case Some(e) => run.result == Failed(Ref(), Some(e), Some("Error saving checkpoint"))
              case None => run.result == Completed(Ref(), |missing|)
    {
      var replicatorId := GetReplicatorId();
      var localChanges := GetChanges(checkpoint, Int32Max);
      var docRevs := GetDocRevsFromChanges(localChanges);
      match revsDiffReply {
        case ReplyError(e) =>
          run := PushRun(replicatorId, docRevs, None, None, Failed(Ref(), Some(e), Some("Error running revsDiff")));
        case ReplyNil =>
          run := PushRun(replicatorId, docRevs, None, None, Completed(Ref(), 0));
        case ReplyValue(missingDocRevs) =>
          if |missingDocRevs| > 0 {
            var docs := GetCouchDBBulkDocs(missingDocRevs, localChanges);
            if bulkDocsError.Some? {
              run := PushRun(replicatorId, docRevs, Some(docs), None, Failed(Ref(), bulkDocsError, Some("Error saving checkpoint")));
            } else if saveCheckpointError.Some? {
              run := PushRun(replicatorId, docRevs, Some(docs), Some(localChanges.lastSequence), Failed(Ref(), saveCheckpointError, Some("Error saving checkpoint")));
            } else {
              run := PushRun(replicatorId, docRevs, Some(docs), Some(localChanges.lastSequence), Completed(Ref(), |missingDocRevs|));
            }
          } else {
            run := PushRun(replicatorId, docRevs, None, None, Completed(Ref(), 0));
          }
      }
    }
  }

  /** ReplicationManager.push: a push replicator for a registered type. */
  method Push(replicationMgr: ReplicationManager, source: string, target: Endpoint) returns (replicator: PushReplicator)
    requires source in replicationMgr.realmObjectManagers
    ensures fresh(replicator)
    ensures replicator.target == target && replicator.replicationMgr == replicationMgr
    ensures replicator.realmObjectMgr == replicationMgr.realmObjectManagers[source]
  {
    replicator := new PushReplicator(target, replicationMgr.realmObjectManagers[source], replicationMgr);
  }
}

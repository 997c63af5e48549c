/**
 * PullReplicator: loads the changes of a CouchDB database into the realm
 * objects of one type. The client's `_changes` callback is a parameter.
 */
module PullReplicators {
  import opened Wrappers
  import opened Json
  import opened CouchDBTypes
  import opened RealmStore
  import opened MappingStore
  import opened RevsDiff
  import opened RealmObjectManagers
  import opened ReplicationResults
  import opened ReplicationManagers

  /** The request a pull makes and how it ends; `result` is None when the feed held nothing new (no callback is made). */
  datatype PullRun = PullRun(replicationId: map<string, string>, changesSince: Option<string>, result: Option<ReplicationResult>)

  /**
   * The tables and objects after a pull that received `changes`: the missing
   * documents are bulk-inserted and the feed's last sequence becomes the
   * checkpoint. Returns the state and the number of objects written.
   */
  function PullSpec(mgr: RealmObjectManager, st: Loaded, changes: Changes, tracked: bool): Loaded
    requires HasRevisions(changes.rows)
    requires BulkInsertable(mgr, st, RevsDiffOf(st.tables.docMaps, changes.rows))
  {
    var missing := RevsDiffOf(st.tables.docMaps, changes.rows);
    if |missing| == 0 then st
    else
      var r := BulkInsertSpec(mgr, st, missing);
      if tracked then r.(tables := WithPullSequence(r.tables, mgr.typeName, changes.lastSequence)) else r
  }

  /**
   * A pulled document is mapped under a fresh local document id rather than
   * under its CouchDB id, so pulling the same feed again still finds it
   * missing. Here one document "a" at revision "1-x" creates object "o1".
   */
  lemma PullDoesNotRecordRemoteDocument(mgr: RealmObjectManager)
    requires mgr.idField == "id" && "id" in mgr.properties && mgr.instantiable && mgr.typeName == "Task"
    ensures var rows := [ChangeRow("1", "a", ["1-x"], false, Some(map["id" := JStr("o1")]))];
      var st := Loaded(Tables([], map[], 0), [], 0);
      var changes := Changes("1", rows);
      BulkInsertable(mgr, st, RevsDiffOf(st.tables.docMaps, rows)) &&
      var r := PullSpec(mgr, st, changes, false);
      r.processed == 1 && |r.objects| == 1 && |r.tables.docMaps| == 1 &&
      r.tables.docMaps[0].realmObjectId == "o1" && r.tables.docMaps[0].couchDocId != "a" &&
      RevsDiffOf(r.tables.docMaps, rows) == RevsDiffOf([], rows) && |RevsDiffOf([], rows)| == 1
  {
    var body := map["id" := JStr("o1")];
    var rows := [ChangeRow("1", "a", ["1-x"], false, Some(body))];
    var st := Loaded(Tables([], map[], 0), [], 0);
    var doc := BulkDoc(DocRev("a", "1-x", false), Some(body));
    assert FeedIds(rows) == ["a"] && FeedRevs(rows) == ["1-x"];
    assert MatchingDocIds([], ["a"], ["1-x"]) == [];
    assert RevsDiffOf([], rows) == [doc];
    var o := mgr.ObjectFromDictionary(body).value;
    assert o.fields == body;
    assert mgr.IdOf(o) == Some("o1");
    assert Insertable(mgr, [], doc);
    var st1 := BulkInsertStep(mgr, st, doc);
    assert !HasMapping([], "Task", "o1");
    assert st1 == Loaded(WithNewMapping(st.tables, "Task", "o1", 0), [o], 1);
    assert [doc][1..] == [];
    assert BulkInsertable(mgr, st1, []);
    assert BulkInsertSpec(mgr, st, [doc]) == BulkInsertSpec(mgr, st1, []) == st1;
    var r := PullSpec(mgr, st, Changes("1", rows), false);
    assert r == st1;
    var m := r.tables.docMaps[0];
    assert m.couchDocId == Uuid(0) && |Uuid(0)| > 1;
    assert m.couchRev == FirstRevision(Uuid(1));
    assert MatchingDocIds(r.tables.docMaps, ["a"], ["1-x"]) == [] by {
      assert m.couchDocId !in ["a"];
      assert r.tables.docMaps == [m];
    }
  }

  class PullReplicator {
    const source: Endpoint
    const realmObjectMgr: RealmObjectManager
    const replicationMgr: ReplicationManager

    constructor (source: Endpoint, realmObjectMgr: RealmObjectManager, replicationMgr: ReplicationManager)
      ensures this.source == source && this.realmObjectMgr == realmObjectMgr && this.replicationMgr == replicationMgr
    {
      this.source := source;
      this.realmObjectMgr := realmObjectMgr;
      this.replicationMgr := replicationMgr;
    }

    function Ref(): Replicator {
      PullReplicatorRef(source, realmObjectMgr.typeName)
    }

    /** getReplicatorId: the endpoint is the source, the type's local replicator id the target. */
    method GetReplicatorId() returns (id: map<string, string>)
      requires replicationMgr.Valid() && realmObjectMgr.typeName in replicationMgr.lastSequences
      ensures realmObjectMgr.typeName in replicationMgr.realm.sequences
      ensures id == ReplicationIdInput(source.Description(), replicationMgr.realm.sequences[realmObjectMgr.typeName].realmObjectReplicatorId)
    {
      var local := replicationMgr.GetRealmObjectReplicatorId(realmObjectMgr);
      id := ReplicationIdInput(source.Description(), local);
    }

    /**
     * start: asks for the changes since the local pull checkpoint; on an
     * error or no reply it reports and changes nothing; otherwise it
     * bulk-inserts the missing documents and records the feed's last
     * sequence as the new checkpoint. A feed with nothing missing ends
     * without a callback.
     */
    method Start(changesReply: ClientReply<Changes>) returns (run: PullRun)
      requires replicationMgr.Valid() && realmObjectMgr.typeName in replicationMgr.lastSequences
      requires changesReply.ReplyValue? ==>
        var rows := changesReply.value.rows;
        HasRevisions(rows) &&
        BulkInsertable(realmObjectMgr, LoadedOf(replicationMgr.realm, replicationMgr.uuids, realmObjectMgr.typeName, 0), RevsDiffOf(replicationMgr.realm.docMaps, rows))
      modifies realmObjectMgr, replicationMgr.realm`objects, replicationMgr.realm`docMaps, replicationMgr.realm`nextToken, replicationMgr.realm`sequences, replicationMgr.uuids
      ensures replicationMgr.Valid()
      ensures var t := realmObjectMgr.typeName;
        t in old(replicationMgr.realm.sequences) &&
        run.replicationId == ReplicationIdInput(source.Description(), old(replicationMgr.realm.sequences[t].realmObjectReplicatorId)) &&
        run.changesSince == old(replicationMgr.realm.sequences[t].lastPullSequence)
      ensures !changesReply.ReplyValue? || |RevsDiffOf(old(replicationMgr.realm.docMaps), changesReply.value.rows)| == 0 ==>
        unchanged(realmObjectMgr, replicationMgr.realm, replicationMgr.uuids)
      ensures changesReply.ReplyError? ==> run.result == Some(Failed(Ref(), Some(changesReply.error), Some("Error getting changes from CouchDB")))
      ensures changesReply.ReplyNil? ==> run.result == Some(Completed(Ref(), 0))
      ensures changesReply.ReplyValue? ==>
        var t := realmObjectMgr.typeName;
        var r := PullSpec(realmObjectMgr, old(LoadedOf(replicationMgr.realm, replicationMgr.uuids, t, 0)), changesReply.value, t in replicationMgr.lastSequenceTrackers);
        LoadedOf(replicationMgr.realm, replicationMgr.uuids, t, r.processed) == r &&
        (forall u :: u != t ==> ObjectsOf(replicationMgr.realm.objects, u) == old(ObjectsOf(replicationMgr.realm.objects, u))) &&
        (if |RevsDiffOf(old(replicationMgr.realm.docMaps), changesReply.value.rows)| == 0 then run.result.None?
         else run.result == Some(Completed(Ref(), r.processed)))
      ensures changesReply.ReplyValue? && |RevsDiffOf(old(replicationMgr.realm.docMaps), changesReply.value.rows)| > 0 ==>
        realmObjectMgr.notificationToken == Some(old(replicationMgr.realm.nextToken)) &&
        replicationMgr.realm.nextToken == old(replicationMgr.realm.nextToken) + 1
    {
      var replicatorId := GetReplicatorId();
      var checkpoint := replicationMgr.LocalCheckpoint(realmObjectMgr, replicatorId);
      run := PullRun(replicatorId, checkpoint, None);
      match changesReply {
        case ReplyError(e) =>
          run := run.(result := Some(Failed(Ref(), Some(e), Some("Error getting changes from CouchDB"))));
        case ReplyNil =>
          run := run.(result := Some(Completed(Ref(), 0)));
        case ReplyValue(changes) =>
          var missingDocs := replicationMgr.LocalRevsDiff(realmObjectMgr, changes);
          if |missingDocs| > 0 {
            var changesProcessed := replicationMgr.LocalBulkInsert(realmObjectMgr, missingDocs);
            replicationMgr.SaveLocalCheckPoint(realmObjectMgr, changes.lastSequence);
            run := run.(result := Some(Completed(Ref(), changesProcessed)));
          }
      }
    }
  }

  /** ReplicationManager.pull: a pull replicator for a registered type. */
  method Pull(replicationMgr: ReplicationManager, source: Endpoint, target: string) returns (replicator: PullReplicator)
    requires target in replicationMgr.realmObjectManagers
    ensures fresh(replicator)
    ensures replicator.source == source && replicator.replicationMgr == replicationMgr
    ensures replicator.realmObjectMgr == replicationMgr.realmObjectManagers[target]
  {
    replicator := new PullReplicator(source, replicationMgr.realmObjectManagers[target], replicationMgr);
  }
}

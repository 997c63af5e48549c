# CouchDBRealmSync bookkeeping, modelled in Dafny

CouchDBRealmSync keeps the objects of registered Realm types in step with a
CouchDB database. It follows the CouchDB replication pattern:

- a push asks `_revs_diff` which local revisions the server lacks;
- it sends those revisions with `_bulk_docs` and `new_edits=false`;
- it then stores a `_local` checkpoint;
- a pull reads `_changes` since the last pull checkpoint and loads into Realm
  the documents the local mapping table does not know.

The Dafny project models the engine's bookkeeping and decision logic:

- The local database is a `Realm` object (`RealmStore`). It holds the objects
  of each type, the mapping table (one `DocMap` row per realm object ↔
  CouchDB document), the per-type sequence rows (`SequenceRow`, keyed by the
  type name) and a notification-token counter. Fresh UUIDs come from a
  counter-driven `UuidSource`: the n-th UUID is `Uuid(n)`, and the model
  proves that no UUID is handed out twice. The manager's invariant keeps
  every document id and every first revision in the mapping table among
  the UUIDs already drawn (`Issued`). So a revision drawn later (a restamp)
  differs from every revision the table held before.
- Every write to the tables is specified as a pure function from old
  tables to new tables (`MappingStore`, `Tables`). The classes that mutate
  the realm (`SequenceTracker`, `ReplicationManager`) are proved against
  those functions with `TablesOf(realm, uuids)`. The properties the source
  promises are then lemmas about the functions.
- `RealmObjectManager` filters a type's objects by id, converts objects to
  and from dictionaries, and holds the change-notification token. It carries
  both the id field it was built with and the type's declared primary key.
  `register(realmObjectType:)` makes them the same property, while
  `register(realmObjectMgr:)` accepts a manager whose id field is any property.
- `PushReplicator.Start` and `PullReplicator.Start` are the callback chains
  flattened into one method. Each CouchDB client reply is a parameter:
  `ClientReply` is an error, nil or a value. The requests the replicator
  makes and the `ReplicationResult` it reports are returned in a run record.
- The protocol values are modelled over a JSON datatype (`Json`, `Dict`):
  the bulk-document serialiser with its `_`-prefix collision rule, the
  `_bulk_docs` envelope, and the `_changes` row parser.

Where the behaviour of the code is surprising, the model follows the code:

- `localChanges` returns rows of every type, not just the manager's type
  (ReplicationManager.swift:180).
- `localRevsDiff` tests document ids and revisions as two independent `IN`
  sets. A document held at another document's revision therefore counts as
  present (`RevsDiff.CrossMatchedRevisionsCountAsPresent`).
- A pulled document is mapped under a fresh UUID document id, a fresh `1-`
  revision and sequence 0, not under its CouchDB id and revision. Pulling
  the same feed again reports it missing again
  (`PullReplicators.PullDoesNotRecordRemoteDocument`).
- `localBulkInsert` looks an existing object up by comparing the CouchDB
  document id with the realm object's id field. The mapping row it restamps
  is the one for the id the object holds after the update. When the id field
  is not the primary key, the document body can change that id.
- A failed `_bulk_docs` write is reported with the message
  "Error saving checkpoint", the same message as a failed checkpoint save.
- An error from `getCheckpoint` is ignored: the push proceeds from sequence 0.
- A pull whose feed yields no missing document delivers no completion
  result and saves no checkpoint.
- Deletions in a change notification leave the tables unchanged, because
  `removeObjectMappings` has its body commented out.

## Model

| member | source | states |
|---|---|---|
| CouchDBBulkDoc.ToDictionary | CouchDBRealmSync/CouchDBBulkDoc.swift:38-55 | `_id` and `_rev` always hold the document id and revision. A nil payload yields exactly those two keys. A plain payload key is copied verbatim. A payload `_id`/`_rev` ends up under `__id`/`__rev`. Every result key is `_id`, `_rev`, a payload key or `_` + a payload key. Every payload value arrives under its own or its renamed key, except in the one lossy collision case. `deleted` is never written. |
| CouchDBBulkDoc.RenamedInjective | CouchDBRealmSync/CouchDBBulkDoc.swift:46-47 | Two payload keys never collide after renaming. |
| CouchDBBulkDoc.CopyVerbatimPreserves | CouchDBRealmSync/CouchDBBulkDoc.swift:49-51 | Copying a key that is not yet in the result keeps the loop invariant. |
| CouchDBBulkDoc.CopyRenamedPreserves | CouchDBRealmSync/CouchDBBulkDoc.swift:46-48 | Copying a colliding key under `_` + key keeps the loop invariant, so `_id` and `_rev` are never overwritten. |
| CouchDBBulkDocsReq.ToDictionary | CouchDBRealmSync/CouchDBBulkDocsReq.swift:30-39 | The keys are exactly `new_edits` and `docs`. `new_edits` is false. `docs` has one element per input document, in order, and element i satisfies the bulk-document contract for `docs[i]` (so empty input gives an empty list). |
| CouchDBChangeRow.Parse | CouchDBRealmSync/CouchDBChangeRow.swift:19-31 | On a row whose `seq`, `id` and change `rev` values are strings: it copies `seq` and `id`. `deleted` is true exactly when the entry is boolean true or a non-zero number (a number bridges to `Bool` through `NSNumber`). `doc` is present exactly when the entry is an object. `changes` is empty unless the entry is a list of objects, and is otherwise each element's `rev` in order. |
| CouchDBChangeRow.ParseFeedRow | CouchDBRealmSync/CouchDBChangeRow.swift:19-31 | Parsing a row written in the `_changes` feed's own shape gives back that row. |
| RealmStore.UuidInjective | CouchDBRealmSync/ReplicationManager.swift:122-123 | Distinct draws of the UUID oracle give distinct strings. |
| RealmStore.UuidSource.Next | CouchDBRealmSync/ReplicationManager.swift:122-123 | Each call returns a UUID different from every earlier one. |
| RealmStore.Realm.AddNotificationBlock | CouchDBRealmSync/RealmObjectManager.swift:81 | Returns a fresh token; later tokens differ. |
| RealmObjectManagers.RealmObjectManager.constructor | CouchDBRealmSync/RealmObjectManager.swift:19-22 | Stores the id field and the type; the primary key is the type's own, independent of the id field; no token is held. |
| RealmObjectManagers.RealmObjectManager.GetObjectId | CouchDBRealmSync/RealmObjectManager.swift:28-30 | On an object whose id field holds a string, returns that string. |
| RealmObjectManagers.RealmObjectManager.GetObjectById | CouchDBRealmSync/RealmObjectManager.swift:32-42 | Nil exactly when no object has id `id`. Otherwise it is the first object with that id. |
| RealmObjectManagers.RealmObjectManager.FirstIndexOfId | CouchDBRealmSync/RealmObjectManager.swift:32-42 | None exactly when no object has the id. Otherwise the index of the first object that does. |
| RealmObjectManagers.RealmObjectManager.GetObjectsMatchingIds | CouchDBRealmSync/RealmObjectManager.swift:44-48 | An object is in the result exactly when it is one of the objects and its id is among `ids`. |
| RealmObjectManagers.RealmObjectManager.GetObjectsNotMatchingIds | CouchDBRealmSync/RealmObjectManager.swift:50-59 | With no ids it returns all objects unchanged. Otherwise an object is in the result exactly when its id is not among `ids`. |
| RealmObjectManagers.RealmObjectManager.MatchingPartition | CouchDBRealmSync/RealmObjectManager.swift:44-59 | The matching and the non-matching objects together are a permutation of the objects (as multisets, and by count). |
| RealmObjectManagers.RealmObjectManager.UpdateObjectWithDictionary | CouchDBRealmSync/RealmObjectExtensions.swift:46-84 | Every schema property named in the dictionary takes the dictionary's value, except the type's declared primary key when the object already has it. The id field is not protected unless it is the primary key. Other fields keep their values. The keys gained are exactly the dictionary's schema keys. |
| RealmObjectManagers.RealmObjectManager.ObjectFromDictionary | CouchDBRealmSync/RealmObjectManager.swift:65-74 | Nil exactly when the class cannot be instantiated. Otherwise a new object holding exactly the dictionary's schema entries. |
| RealmObjectManagers.RealmObjectManager.StartMonitoringObjectChanges | CouchDBRealmSync/RealmObjectManager.swift:80-84 | The token is replaced by a freshly issued one. |
| RealmObjectManagers.RealmObjectManager.StopMonitoringObjectChanges | CouchDBRealmSync/RealmObjectManager.swift:86-91 | Afterwards the token is nil, whatever it was (so a second call is harmless). |
| MappingStore.WithSequenceRow | CouchDBRealmSync/RealmObjectCouchDBSequenceTracker.swift:43-48 | A type without a row gets one with push sequence 0 and no pull checkpoint. A type with a row leaves the tables unchanged. Other types' rows are kept, and rows stay keyed by their type. |
| MappingStore.WithPushSequence | CouchDBRealmSync/RealmObjectCouchDBSequenceTracker.swift:58-72 | The push sequence becomes `n`. An existing row changes in nothing else. A missing row is created with no pull checkpoint. Other types' rows are kept, and rows stay keyed by their type. |
| MappingStore.WithPullSequence | CouchDBRealmSync/RealmObjectCouchDBSequenceTracker.swift:74-88 | The pull checkpoint becomes `p`. An existing row changes in nothing else. A missing row is created with push sequence 0. Other types' rows are kept, and rows stay keyed by their type. |
| MappingStore.WithFreshRow | CouchDBRealmSync/RealmObjectCouchDBSequence.swift:19-22 | A new row gets a replicator id never issued before. |
| MappingStore.ReplicatorIdStable | CouchDBRealmSync/RealmObjectCouchDBSequenceTracker.swift:58-88 | Once a type has its row, no checkpoint write changes its replicator id. |
| MappingStore.FirstRevision | CouchDBRealmSync/ReplicationManager.swift:123 | A locally written revision is `1-` followed by the UUID. |
| MappingStore.IssuedBeforeMeans | CouchDBRealmSync/ReplicationManager.swift:122-123 | A table is issued before position n exactly when no row's document id is the k-th UUID, and no row's revision is `1-` + the k-th UUID, for any k ≥ n. |
| MappingStore.DrawnBetweenMeans | CouchDBRealmSync/ReplicationManager.swift:123 | A revision is drawn in [lo, hi) exactly when it is `1-` + the k-th UUID for some k in that range. |
| MappingStore.WithNewMapping | CouchDBRealmSync/ReplicationManager.swift:121-128 | addObjectMapping appends one row for the object, with the given sequence, a first revision and a document id never issued before. Earlier rows and the sequence table are untouched. |
| MappingStore.NewMappingsShape | CouchDBRealmSync/ReplicationManager.swift:103-106 | The loop appends one row per id in order, numbered last+1, last+2, …, each with a first revision. |
| MappingStore.RestampedShape | CouchDBRealmSync/ReplicationManager.swift:143-150 | Restamping changes exactly the object's rows: each keeps its type, object id and document id, and gets the given sequence and a first revision drawn from the oracle during this call. No row is added. |
| MappingStore.RestampIsNew | CouchDBRealmSync/ReplicationManager.swift:146 | After addOrUpdateObjectMapping, each row of the object has a revision that no row of the old table had, its own old revision included. |
| MappingStore.UpdatedMappingShape | CouchDBRealmSync/ReplicationManager.swift:141-155 | addOrUpdateObjectMapping leaves the object mapped. If it had rows, each keeps its document id and is restamped with a revision drawn during the call, and no row is added. If not, exactly one row is appended, again with a revision drawn during the call. Every row of the object carries the given sequence. Other rows are unchanged. |
| MappingStore.UpdatedMappingsShape | CouchDBRealmSync/ReplicationManager.swift:133-136 | After the loop every id is mapped, and every row that existed keeps its identity. Rows of other objects are unchanged. Every row of a listed object carries a first revision drawn during the loop. Every appended row maps a listed object. |
| MappingStore.UpdatedMappingsNumbered | CouchDBRealmSync/ReplicationManager.swift:132-136 | The rows of the object at position j of the list, when it is not listed again later, carry sequence last + 1 + j. |
| MappingStore.FirstIdNumbered | CouchDBRealmSync/ReplicationManager.swift:133-135 | The rows of the first listed object, when it is not listed again, keep sequence last + 1 through the rest of the loop. |
| MappingStore.AddedRowsNumbered | CouchDBRealmSync/ReplicationManager.swift:110-119 | addObjectMappings appends exactly one row per index, in order, for that object, numbered after the last push sequence, and keeps the earlier rows. |
| MappingStore.InsertedMappingsNumbered | CouchDBRealmSync/ReplicationManager.swift:75-78 | After the insertion pass and the modification pass, the row added for the j-th inserted object (when it is not also modified) is still its row and has sequence last + 1 + j. |
| MappingStore.ModifiedMappingsNumbered | CouchDBRealmSync/ReplicationManager.swift:75-78 | After both passes, the rows of the j-th modified object (when it is not modified again later) carry sequence last + k + 1 + j, where k is the number of insertions. |
| MappingStore.ChangedMappingsNumbered | CouchDBRealmSync/ReplicationManager.swift:75-78 | Both numberings above together: insertions are numbered first, then modifications continue from the last insertion number. |
| MappingStore.AddedMappingsNumbered | CouchDBRealmSync/ReplicationManager.swift:93-108 | Bootstrapping a tracked type appends one row per unmapped object, numbered last+1 … last+n in order. The push sequence becomes last+n, and the pull checkpoint is kept. |
| MappingStore.ModificationKeepsMappedRows | CouchDBRealmSync/ReplicationManager.swift:130-155 | A modification of an already mapped object adds no row. |
| MappingStore.RowsInWindow | CouchDBRealmSync/ReplicationManager.swift:180 | Exactly the rows, of every type, with since < sequence ≤ since + limit. |
| MappingStore.MaxSequence | CouchDBRealmSync/ReplicationManager.swift:181-185 | The greatest of `since` and the rows' sequences. |
| MappingStore.LocalChangesWindow | CouchDBRealmSync/ReplicationManager.swift:178-187 | The batch holds exactly the rows in the window. Its resume sequence is never below `since` nor beyond the window. It equals `since` for an empty batch and otherwise the sequence of a row in the batch. |
| MappingStore.PulledRowsNeverPushed | CouchDBRealmSync/ReplicationManager.swift:245 | A row stamped with sequence 0 is never returned for a checkpoint ≥ 0. |
| RevsDiff.MatchingDocIds | CouchDBRealmSync/ReplicationManager.swift:205-210 | Exactly the document ids of rows whose id is among the feed ids and whose revision is among the feed revisions. |
| RevsDiff.MissingDocs | CouchDBRealmSync/ReplicationManager.swift:211-215 | Exactly the feed rows whose id is not matched, each as a bulk document with its first revision, deletion flag and body. |
| RevsDiff.FeedIdsAndRevs | CouchDBRealmSync/ReplicationManager.swift:201-204 | `ids[i]` is feed row i's id and `revs[i]` its first revision. |
| RevsDiff.MatchingDocIdsIn | CouchDBRealmSync/ReplicationManager.swift:205-210 | The scan of the table yields exactly `MatchingDocIds`. |
| RevsDiff.MissingRows | CouchDBRealmSync/ReplicationManager.swift:211-215 | The scan of the feed yields exactly `MissingDocs` for the matched ids. |
| RevsDiff.RevsDiffExact | CouchDBRealmSync/ReplicationManager.swift:197-217 | A feed row is reported exactly when no mapping row has its id together with one of the feed's first revisions. The reported document keeps the row's id, `changes[0]`, `deleted` and `doc`. |
| RevsDiff.RevsDiffSound | CouchDBRealmSync/ReplicationManager.swift:197-217 | A document the table holds at exactly the offered revision is never reported. |
| RevsDiff.CrossMatchedRevisionsCountAsPresent | CouchDBRealmSync/ReplicationManager.swift:205 | Two documents held only at each other's revisions are both treated as present. |
| SequenceTrackers.SequenceTracker.Start | CouchDBRealmSync/RealmObjectCouchDBSequenceTracker.swift:22-49 | Takes a fresh token. The tables change as `WithSequenceRow`: a row appears only for a type without one. |
| SequenceTrackers.SequenceTracker.Stop | CouchDBRealmSync/RealmObjectCouchDBSequenceTracker.swift:51-56 | The token is nil afterwards. |
| SequenceTrackers.SequenceTracker.UpdateLastPushSequence | CouchDBRealmSync/RealmObjectCouchDBSequenceTracker.swift:58-72 | The tables change exactly as `WithPushSequence`, and rows stay keyed by type. |
| SequenceTrackers.SequenceTracker.UpdateLastPullSequence | CouchDBRealmSync/RealmObjectCouchDBSequenceTracker.swift:74-88 | The tables change exactly as `WithPullSequence`, and rows stay keyed by type. |
| ReplicationManagers.MappedIds | CouchDBRealmSync/ReplicationManager.swift:94-100 | Exactly the object ids that rows of the type map. |
| ReplicationManagers.InitialMapsEveryObject | CouchDBRealmSync/ReplicationManager.swift:67-108 | The first snapshot of a type with no rows maps every object once, in collection order, numbered after the last push sequence. The push sequence advances to the last number. |
| ReplicationManagers.InitialOnce | CouchDBRealmSync/ReplicationManager.swift:67-91 | A second first-snapshot notification changes nothing once the type has objects. |
| ReplicationManagers.DeletionsIgnored | CouchDBRealmSync/ReplicationManager.swift:157-164 | The deletions of a notification have no effect on the tables. |
| ReplicationManagers.UpdateMapsChangedObjects | CouchDBRealmSync/ReplicationManager.swift:75-139 | After an update every inserted and every modified object is mapped. The push sequence advances by one per inserted and per modified index. |
| ReplicationManagers.UpdateNumbersChangedObjects | CouchDBRealmSync/ReplicationManager.swift:75-139 | On an update of a tracked type, the row added for the j-th inserted object gets sequence last + 1 + j. The rows of the j-th modified object get last + k + 1 + j, where k is the number of insertions (for objects not listed again). |
| ReplicationManagers.UpdateGivesNewRevisions | CouchDBRealmSync/ReplicationManager.swift:141-155 | On an update, every existing row of a modified object gets a revision that no row of the old table had. |
| ReplicationManagers.BulkInsertStep | CouchDBRealmSync/ReplicationManager.swift:224-247 | One document never writes the sequence table. |
| ReplicationManagers.BulkInsertCount | CouchDBRealmSync/ReplicationManager.swift:219-254 | The count is at most the number of non-deleted documents with a body (so at most `docs.count`), and equals it when the type can be instantiated. The sequence table is not written. |
| ReplicationManagers.NewObjectGetsLocalDocId | CouchDBRealmSync/ReplicationManager.swift:236-246 | A document that creates a new, unmapped object appends the object and one row for the object's own id. That row's document id is the next UUID, whatever the document's CouchDB `_id`, and no earlier row holds it. |
| ReplicationManagers.BulkInsertStampedByPull | CouchDBRealmSync/ReplicationManager.swift:219-254 | No row is removed and every row keeps its identity. Every row the load writes or adds carries sequence 0 and a first revision. |
| ReplicationManagers.ReplicationManager.constructor | CouchDBRealmSync/ReplicationManager.swift:24-26 | Starts with no managers, trackers or delivered rows. The realm's existing table must hold no UUID the oracle has still to draw, which is how the model states that `NSUUID` values are unique. |
| ReplicationManagers.ReplicationManager.Register | CouchDBRealmSync/ReplicationManager.swift:28-33 | A type without a primary key yields `PrimaryKeyRequired` and changes nothing. Otherwise it registers a fresh manager under the type, whose id field and primary key are both that property, and keeps every other type's manager. It installs a fresh tracker holding a fresh token and keeps the other trackers. It creates the sequence row if missing, starts monitoring with the next token, and leaves the delivered rows as they were. |
| ReplicationManagers.ReplicationManager.RegisterManager | CouchDBRealmSync/ReplicationManager.swift:35-45 | Records the manager under its type. Installs a fresh started tracker and leaves other trackers alone. Creates the sequence row if missing, and starts monitoring with a fresh token. |
| ReplicationManagers.ReplicationManager.DeliverSequenceRow | CouchDBRealmSync/ReplicationManager.swift:39-41 | The tracker's callback records the type's row as delivered. |
| ReplicationManagers.ReplicationManager.Deregister | CouchDBRealmSync/ReplicationManager.swift:47-49 | Monitoring is stopped: the token is nil. |
| ReplicationManagers.ReplicationManager.GetRealmObjectReplicatorId | CouchDBRealmSync/ReplicationManager.swift:63-65 | The replicator id of the type's delivered sequence row. |
| ReplicationManagers.ReplicationManager.ProcessObjectChanges | CouchDBRealmSync/ReplicationManager.swift:67-86 | The tables change exactly as `ProcessObjectChangesSpec`, and sequence rows stay keyed by type. |
| ReplicationManagers.ReplicationManager.AtLeastOneObjectMappingExists | CouchDBRealmSync/ReplicationManager.swift:88-91 | True exactly when some row maps an object of the type. |
| ReplicationManagers.ReplicationManager.AddMissingObjectMappings | CouchDBRealmSync/ReplicationManager.swift:93-108 | Rows are added for exactly the objects no row maps, numbered after the last push sequence. The push sequence is written even when no row is added. |
| ReplicationManagers.ReplicationManager.MappedObjectIds | CouchDBRealmSync/ReplicationManager.swift:94-100 | The ids the type's rows map, in table order. |
| ReplicationManagers.ReplicationManager.AddMappingsFor | CouchDBRealmSync/ReplicationManager.swift:101-107 | Given the unmapped objects, the tables change exactly as `AddMissingObjectMappingsSpec`. |
| ReplicationManagers.ReplicationManager.LastPushSequence | CouchDBRealmSync/ReplicationManager.swift:101 | The type's delivered push sequence, or 0 when the type has no delivered row. |
| ReplicationManagers.ReplicationManager.AddNewMappings | CouchDBRealmSync/ReplicationManager.swift:103-106 | One new row per object, in order, numbered `last + 1`, `last + 2`, and so on. The result is `last` plus the number of objects. |
| ReplicationManagers.ReplicationManager.SaveLastPushSequence | CouchDBRealmSync/ReplicationManager.swift:107 | A tracked type's push sequence becomes `n`. An untracked type changes nothing. |
| ReplicationManagers.ReplicationManager.AddObjectMappings | CouchDBRealmSync/ReplicationManager.swift:110-119 | The tables change exactly as `AddObjectMappingsSpec`: nothing for no indexes, otherwise new rows numbered after the last push sequence, which then advances. |
| ReplicationManagers.ReplicationManager.SelectIndexes | CouchDBRealmSync/ReplicationManager.swift:113-116 | Element `j` of the result is `realmObjects[indexes[j]]`. |
| ReplicationManagers.ReplicationManager.AddObjectMapping | CouchDBRealmSync/ReplicationManager.swift:121-128 | The tables change exactly as `WithNewMapping`. |
| ReplicationManagers.ReplicationManager.AddOrUpdateObjectMappings | CouchDBRealmSync/ReplicationManager.swift:130-139 | The tables change exactly as `AddOrUpdateObjectMappingsSpec`. |
| ReplicationManagers.ReplicationManager.UpdateMappings | CouchDBRealmSync/ReplicationManager.swift:133-136 | One `addOrUpdateObjectMapping` per object, in order, numbered `last + 1`, `last + 2`, and so on. The result is `last` plus the number of objects. |
| ReplicationManagers.ReplicationManager.AddOrUpdateObjectMapping | CouchDBRealmSync/ReplicationManager.swift:141-155 | The tables change exactly as `WithUpdatedMapping`. |
| ReplicationManagers.ReplicationManager.LocalChanges | CouchDBRealmSync/ReplicationManager.swift:178-187 | The batch with the window properties proved in `LocalChangesWindow`. |
| ReplicationManagers.ReplicationManager.LocalCheckpoint | CouchDBRealmSync/ReplicationManager.swift:189-191 | The pull checkpoint of the type's delivered row, which may be nil. |
| ReplicationManagers.ReplicationManager.SaveLocalCheckPoint | CouchDBRealmSync/ReplicationManager.swift:193-195 | A tracked type's pull checkpoint becomes `sequence`. An untracked type changes nothing. |
| ReplicationManagers.ReplicationManager.LocalRevsDiff | CouchDBRealmSync/ReplicationManager.swift:197-217 | The missing documents, with the properties proved in `RevsDiffExact`. |
| ReplicationManagers.ReplicationManager.LoadDocument | CouchDBRealmSync/ReplicationManager.swift:225-246 | Called only while the type's monitoring is stopped. One document is loaded exactly as `BulkInsertStep` (the object is updated or created, then its mapping is restamped under the id it now holds). Other types' objects are untouched. |
| ReplicationManagers.ReplicationManager.LocalBulkInsert | CouchDBRealmSync/ReplicationManager.swift:219-254 | Tables, objects and count follow `BulkInsertSpec` (see `BulkInsertCount` and `BulkInsertStampedByPull`). Other types are untouched. Monitoring is stopped before the load: every document is loaded (by `LoadDocument`, which requires it) with no token held. It is restarted, with a fresh token, after the load. |
| ReplicationResults.ReplicationIdInput | CouchDBRealmSync/PushReplicator.swift:28-34 | The hashed dictionary has exactly the keys `source` and `target`, holding the given values. |
| ReplicationResults.PushPullIdsDiffer | CouchDBRealmSync/PullReplicator.swift:28-34 | A push and a pull between the same two ends hash the same dictionary exactly when both ends have the same name. |
| ReplicationResults.ResultFields | CouchDBRealmSync/ReplicationResult.swift:19-31 | Success: `success`, the given count, no error or message. Failure: not `success`, count 0, exactly the given error and message. Both store the replicator. |
| PushReplicators.DocRevsOf | CouchDBRealmSync/PushReplicator.swift:88-94 | One docRev per mapping row, in order, with the row's document id and revision, never deleted. |
| PushReplicators.ObjectDictionary | CouchDBRealmSync/PushReplicator.swift:116-124 | Nil exactly when no object has the id. Otherwise the fields of an object with that id. |
| PushReplicators.BulkDocsSound | CouchDBRealmSync/PushReplicator.swift:96-114 | Every document sent answers a (document, revision) pair reported missing, is carried by a row of the local batch, and has that row's object as body. |
| PushReplicators.BulkDocsComplete | CouchDBRealmSync/PushReplicator.swift:96-114 | Every missing pair carried by a batch row whose object exists is sent. |
| PushReplicators.PushReplicator.GetReplicatorId | CouchDBRealmSync/PushReplicator.swift:28-34 | Source is the type's local replicator id, target is the endpoint description. |
| PushReplicators.PushReplicator.GetChanges | CouchDBRealmSync/PushReplicator.swift:83-86 | The local changes after the checkpoint, from 0 when there is none. |
| PushReplicators.PushReplicator.GetDocRevsFromChanges | CouchDBRealmSync/PushReplicator.swift:88-94 | Exactly `DocRevsOf` the batch's rows. |
| PushReplicators.PushReplicator.RealmObjectToDictionary | CouchDBRealmSync/PushReplicator.swift:116-124 | Exactly `ObjectDictionary` over the type's objects. |
| PushReplicators.PushReplicator.GetCouchDBBulkDocs | CouchDBRealmSync/PushReplicator.swift:96-114 | Exactly `BulkDocsFor` the missing list and the batch (sound and complete by the two lemmas). |
| PushReplicators.PushReplicator.MissingRevDocs | CouchDBRealmSync/PushReplicator.swift:99-111 | Exactly `RevDocs` for one missing document (see `RevDocsExact`). |
| PushReplicators.PushReplicator.MatchingRowDocs | CouchDBRealmSync/PushReplicator.swift:100-110 | Exactly `RowDocs` for one (document, revision) pair (see `RowDocsSound` and `RowDocsComplete`). |
| PushReplicators.RowDocsSound | CouchDBRealmSync/PushReplicator.swift:100-110 | Every document emitted for (docId, rev) has that id and revision, is not deleted, and carries the body of an object that some row with (docId, rev) maps. |
| PushReplicators.RowDocsComplete | CouchDBRealmSync/PushReplicator.swift:100-110 | When some row carries (docId, rev) and its object exists, at least one document is emitted. |
| PushReplicators.RevDocsExact | CouchDBRealmSync/PushReplicator.swift:99-111 | Every emitted document answers one of the missing revisions. Every missing revision that some row carries, with its object present, gets a document with that revision. |
| PushReplicators.PushReplicator.Start | CouchDBRealmSync/PushReplicator.swift:36-81 | The revs-diff request lists the docRevs of the changes after the checkpoint (0 if absent). A revs-diff error fails with "Error running revsDiff", with no bulk write and no checkpoint. A nil or empty missing list succeeds with 0 and saves nothing. Otherwise the missing documents are sent. A bulk error fails without a checkpoint. Otherwise the batch's last sequence is saved, and a save error fails while success reports the missing count. |
| PushReplicators.Push | CouchDBRealmSync/ReplicationManager.swift:56-59 | A new push replicator for the registered manager of the type. |
| PullReplicators.PullDoesNotRecordRemoteDocument | CouchDBRealmSync/ReplicationManager.swift:197-254 | A pulled document is mapped under a fresh id, not its CouchDB id, so the same feed again still reports it missing. |
| PullReplicators.PullReplicator.GetReplicatorId | CouchDBRealmSync/PullReplicator.swift:28-34 | Source is the endpoint description, target is the local replicator id (swapped relative to push). |
| PullReplicators.PullReplicator.Start | CouchDBRealmSync/PullReplicator.swift:36-64 | Changes are asked since the stored pull checkpoint. An error fails with "Error getting changes from CouchDB", and nil succeeds with 0; both change nothing. A feed with missing documents bulk-inserts them, then saves the feed's last sequence, and reports the insert count; monitoring then runs under a freshly issued token. A feed with nothing missing changes nothing and delivers no result. |
| PullReplicators.Pull | CouchDBRealmSync/ReplicationManager.swift:51-54 | A new pull replicator for the registered manager of the type. |

## Left out

- HTTP (CouchDBClient.swift) is not part of this model: every remote call's callback is a parameter of the replicator's `Start` (error, nil or a value).
- SHA-1 (CryptoUtils.swift) is not part of this model: a replication id is represented by the dictionary that would be hashed, so two ids are equal exactly when those dictionaries are.
- The JSON serialisation of that dictionary is left out for the same reason.
- `NSUUID` is modelled by a counter-driven oracle: the n-th UUID is `"uuid-"` followed by n zeros. Only freshness is relied on, not the UUID format.
- Realm write transactions, notification blocks and their callbacks are modelled as direct calls. The tracker's notification is the explicit `DeliverSequenceRow`, and an object notification is a `ProcessObjectChanges` call.
- The `fatalError` on a notification error is not modelled; a `CollectionChange` is either the first snapshot or an update.
- `dispatch_async` onto the main queue and all concurrency are left out: callback chains run as sequential steps.
- Int64 and Int32 overflow are left out: sequences are unbounded integers. The push limit is `Int32.max`, as in the source.
- Forced casts and forced unwraps that trap are preconditions:
  - string ids (`Identified`, `Insertable`);
  - string `seq`, `id` and `rev` in a `_changes` row (`Parseable`);
  - a non-empty `changes` in every feed row (`HasRevisions`);
  - a delivered sequence row for the replicator-id and checkpoint reads.
- `realm.add` of a new object whose primary key is already taken traps in Realm. `Insertable` requires instead that the new object's primary-key value differs from every existing object's, and that the object `getObjectId` reads holds a string id.
- An update that fills in a primary key the object did not yet hold, with a value another object already has, would also trap in Realm; the model does not exclude it.
- Floating-point JSON numbers are left out: `Json.JNum` holds integers only, so a `deleted` entry of `0.5` is not modelled.
- `RealmObjectManagers.RealmObjectManager.UpdateObjectWithDictionary` and `RealmObjectManagers.RealmObjectManager.ObjectFromDictionary`: nested objects (a dictionary value for an object-typed property) are treated like any other value, not merged recursively. Schema default values are not modelled: a new object starts with no fields. In Realm, a non-optional primary-key property with a default value (such as `""`) already holds a value on a freshly created object. `updateFromDictionary` then treats the key as set, and `objectFromDictionary` keeps the default instead of the document's key. For a manager registered with `register(realmObjectType:)`, whose id field is that key, every pulled new object would get the default id, and a second one would trap in `realm.add`. The model's new object holds no primary key, so the document's key is copied.
- `toDictionary` reflection (RealmObjectExtensions.swift) is abstracted: an object is its field map, and `ObjectToDictionary` returns it.
- `Object.objectClassFromString` is modelled by the manager's `instantiable` flag.
- `removeObjectMapping` (ReplicationManager.swift:166-176) is never called: `removeObjectMappings` has its body commented out. Deletions are therefore modelled as no-ops (`DeletionsIgnored`).
- `PullReplicators.PullReplicator.Start`: the catch branch "Error updating documents" is not modelled, because `localBulkInsert` never throws (it uses `try!`).
- `PushReplicators.PushReplicator.Start`: the catch branch around `getReplicatorId` is not modelled, because the hashed dictionary of two strings always serialises.
- The `print` of the replicator id in the pull is left out.
- CouchDBChanges.swift is not part of this model: a feed is its `lastSequence` (a present string) and its rows. The forced unwrap of `lastSequence` therefore always succeeds in the model.
- Storing `completionHandler` is left out: the result is returned in the run record instead.

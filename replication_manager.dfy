/**
 * ReplicationManager: registers realm object types, keeps the mapping table
 * in step with local object changes, and answers the replicators' queries
 * about local changes, checkpoints and missing documents.
 */
module ReplicationManagers {
  import opened Wrappers
  import opened Json
  import opened CouchDBTypes
  import opened RealmStore
  import opened MappingStore
  import opened RevsDiff
  import opened RealmObjectManagers
  import opened SequenceTrackers

  datatype ReplicationManagerError = PrimaryKeyRequired

  /** A realm collection notification: the first snapshot, or the indexes of deleted, inserted and modified objects. */
  datatype CollectionChange = Initial | Update(deletions: seq<int>, insertions: seq<int>, modifications: seq<int>)

  // ---------------------------------------------------------------- helpers over the tables

  /** The realm object ids that rows of type `t` map, in table order. */
  function MappedIds(rows: seq<DocMap>, t: string): (r: seq<string>)
    ensures forall x :: x in r <==> HasMapping(rows, t, x)
  {
    if rows == [] then []
    else
      var init := rows[..|rows| - 1];
      var m := rows[|rows| - 1];
      var rest := MappedIds(init, t);
      assert forall i :: 0 <= i < |init| ==> init[i] == rows[i];
      assert forall x :: HasMapping(rows, t, x) <==> HasMapping(init, t, x) || Maps(m, t, x);
      if m.realmObjectType == t then rest + [m.realmObjectId] else rest
  }

  /** Some row maps an object of type `t`. */
  predicate HasTypeRows(rows: seq<DocMap>, t: string) {
    exists i :: 0 <= i < |rows| && rows[i].realmObjectType == t
  }

  lemma NoTypeRowsNoIds(rows: seq<DocMap>, t: string)
    requires !HasTypeRows(rows, t)
    ensures MappedIds(rows, t) == []
  {
  }

  /** Every object has a string id (`getObjectId` traps otherwise). */
  predicate Identified(mgr: RealmObjectManager, objects: seq<RealmObject>) {
    forall i :: 0 <= i < |objects| ==> mgr.IdOf(objects[i]).Some?
  }

  function IdsOf(mgr: RealmObjectManager, objects: seq<RealmObject>): (r: seq<string>)
    requires Identified(mgr, objects)
    ensures |r| == |objects| && forall i :: 0 <= i < |objects| ==> mgr.IdOf(objects[i]) == Some(r[i])
  {
    seq(|objects|, i requires 0 <= i < |objects| => mgr.GetObjectId(objects[i]))
  }

  predicate ValidIndexes(objects: seq<RealmObject>, indexes: seq<int>) {
    forall j :: 0 <= j < |indexes| ==> 0 <= indexes[j] < |objects|
  }

  /** `realmObjects[idx]` for each index in turn. */
  function At(objects: seq<RealmObject>, indexes: seq<int>): (r: seq<RealmObject>)
    requires ValidIndexes(objects, indexes)
    ensures |r| == |indexes| && forall j :: 0 <= j < |indexes| ==> r[j] == objects[indexes[j]]
  {
    seq(|indexes|, j requires 0 <= j < |indexes| => objects[indexes[j]])
  }

  // ---------------------------------------------------------------- processObjectChanges

  /** What processObjectChanges needs of the notification: indexes into the collection and string ids where they are read. */
  predicate ChangeApplicable(mgr: RealmObjectManager, s: Tables, objects: seq<RealmObject>, change: CollectionChange) {
    match change
    case Initial =>
      !HasTypeRows(s.docMaps, mgr.typeName) ==> Identified(mgr, objects)
    case Update(_, insertions, modifications) =>
      ValidIndexes(objects, insertions) && Identified(mgr, At(objects, insertions)) &&
      ValidIndexes(objects, modifications) && Identified(mgr, At(objects, modifications))
  }

  /** addMissingObjectMappings: rows for the objects of the type that no row maps yet. */
  function AddMissingObjectMappingsOf(s: Tables, mgr: RealmObjectManager, objects: seq<RealmObject>, delivered: set<string>, tracked: bool): (r: Tables)
    requires Identified(mgr, mgr.GetObjectsNotMatchingIds(objects, MappedIds(s.docMaps, mgr.typeName)))
    ensures Issued(s) ==> Issued(r)
  {
    var unmapped := mgr.GetObjectsNotMatchingIds(objects, MappedIds(s.docMaps, mgr.typeName));
    AddMissingObjectMappingsSpec(s, mgr.typeName, IdsOf(mgr, unmapped), delivered, tracked)
  }

  /**
   * processObjectChanges: on the first snapshot, map every object when the
   * type has no rows yet; on an update, map the inserted objects, then
   * restamp (or map) the modified ones; deletions are not acted on.
   */
  function ProcessObjectChangesSpec(s: Tables, mgr: RealmObjectManager, objects: seq<RealmObject>, change: CollectionChange, delivered: set<string>, tracked: bool): (r: Tables)
    requires ChangeApplicable(mgr, s, objects, change)
    ensures Issued(s) ==> Issued(r)
  {
    var t := mgr.typeName;
    match change
    case Initial =>
      if HasTypeRows(s.docMaps, t) then s
      else
        NoTypeRowsNoIds(s.docMaps, t);
        AddMissingObjectMappingsOf(s, mgr, objects, delivered, tracked)
    case Update(_, insertions, modifications) =>
      var s1 := AddObjectMappingsSpec(s, t, IdsOf(mgr, At(objects, insertions)), delivered, tracked);
      AddOrUpdateObjectMappingsSpec(s1, t, IdsOf(mgr, At(objects, modifications)), delivered, tracked)
  }

  /**
   * The first snapshot of a type with no rows maps every object once, numbered
   * after the last push sequence in collection order, and the push sequence
   * moves to the last of those numbers.
   */
  lemma InitialMapsEveryObject(s: Tables, mgr: RealmObjectManager, objects: seq<RealmObject>, delivered: set<string>)
    requires !HasTypeRows(s.docMaps, mgr.typeName) && Identified(mgr, objects)
    requires mgr.typeName in delivered && mgr.typeName in s.sequences
    ensures var r := ProcessObjectChangesSpec(s, mgr, objects, Initial, delivered, true);
      var t := mgr.typeName; var last := s.sequences[t].lastPushSequence;
      |r.docMaps| == |s.docMaps| + |objects| && r.docMaps[..|s.docMaps|] == s.docMaps &&
      r.sequences[t].lastPushSequence == last + |objects| &&
      forall i :: 0 <= i < |objects| ==>
        mgr.IdOf(objects[i]) == Some(r.docMaps[|s.docMaps| + i].realmObjectId) &&
        r.docMaps[|s.docMaps| + i].realmObjectType == t &&
        r.docMaps[|s.docMaps| + i].couchSequence == last + 1 + i
  {
    var t := mgr.typeName;
    NoTypeRowsNoIds(s.docMaps, t);
    assert mgr.GetObjectsNotMatchingIds(objects, MappedIds(s.docMaps, t)) == objects;
    var ids := IdsOf(mgr, objects);
    AddedMappingsNumbered(s, t, ids, delivered);
    var r := ProcessObjectChangesSpec(s, mgr, objects, Initial, delivered, true);
    assert r == AddMissingObjectMappingsSpec(s, t, ids, delivered, true);
    var last := s.sequences[t].lastPushSequence;
    assert |r.docMaps| == |s.docMaps| + |objects| && r.docMaps[..|s.docMaps|] == s.docMaps;
    assert r.sequences[t].lastPushSequence == last + |objects|;
    forall i | 0 <= i < |objects|
      ensures mgr.IdOf(objects[i]) == Some(r.docMaps[|s.docMaps| + i].realmObjectId)
      ensures r.docMaps[|s.docMaps| + i].realmObjectType == t
      ensures r.docMaps[|s.docMaps| + i].couchSequence == last + 1 + i
    {
      assert Maps(r.docMaps[|s.docMaps| + i], t, ids[i]) && r.docMaps[|s.docMaps| + i].couchSequence == last + 1 + i;
    }
  }

  /** A second first-snapshot notification changes nothing once the type has objects. */
  lemma InitialOnce(s: Tables, mgr: RealmObjectManager, objects: seq<RealmObject>, delivered: set<string>, tracked: bool)
    requires |objects| > 0 && ChangeApplicable(mgr, s, objects, Initial)
    ensures var r := ProcessObjectChangesSpec(s, mgr, objects, Initial, delivered, tracked);
      ChangeApplicable(mgr, r, objects, Initial) &&
      ProcessObjectChangesSpec(r, mgr, objects, Initial, delivered, tracked) == r
  {
    var t := mgr.typeName;
    if !HasTypeRows(s.docMaps, t) {
      NoTypeRowsNoIds(s.docMaps, t);
      var ids := IdsOf(mgr, objects);
      var last := LastPush(s, t, delivered);
      NewMappingsShape(s, t, ids, last);
      var r := ProcessObjectChangesSpec(s, mgr, objects, Initial, delivered, tracked);
      assert r.docMaps == WithNewMappings(s, t, ids, last).docMaps;
      assert r.docMaps[|s.docMaps|].realmObjectType == t;
    }
  }

  /** Deletions are not acted on (removeObjectMappings has no effect). */
  lemma DeletionsIgnored(s: Tables, mgr: RealmObjectManager, objects: seq<RealmObject>, deletions: seq<int>, insertions: seq<int>, modifications: seq<int>, delivered: set<string>, tracked: bool)
    requires ChangeApplicable(mgr, s, objects, Update(deletions, insertions, modifications))
    ensures ProcessObjectChangesSpec(s, mgr, objects, Update(deletions, insertions, modifications), delivered, tracked) ==
            ProcessObjectChangesSpec(s, mgr, objects, Update([], insertions, modifications), delivered, tracked)
  {
  }

  /**
   * An update maps every inserted and every modified object, and a tracked,
   * delivered type's push sequence advances by one per inserted and per
   * modified index.
   */
  lemma UpdateMapsChangedObjects(s: Tables, mgr: RealmObjectManager, objects: seq<RealmObject>, insertions: seq<int>, modifications: seq<int>, delivered: set<string>)
    requires ChangeApplicable(mgr, s, objects, Update([], insertions, modifications))
    requires mgr.typeName in delivered && mgr.typeName in s.sequences
    ensures var r := ProcessObjectChangesSpec(s, mgr, objects, Update([], insertions, modifications), delivered, true);
      var t := mgr.typeName;
      t in r.sequences && r.sequences[t].lastPushSequence == s.sequences[t].lastPushSequence + |insertions| + |modifications| &&
      (forall j :: 0 <= j < |insertions| ==> HasMapping(r.docMaps, t, mgr.GetObjectId(objects[insertions[j]]))) &&
      (forall j :: 0 <= j < |modifications| ==> HasMapping(r.docMaps, t, mgr.GetObjectId(objects[modifications[j]])))
  {
    var t := mgr.typeName;
    var ins := IdsOf(mgr, At(objects, insertions));
    var mods := IdsOf(mgr, At(objects, modifications));
    var last := s.sequences[t].lastPushSequence;
    var s1 := AddObjectMappingsSpec(s, t, ins, delivered, true);
    if |ins| > 0 {
      NewMappingsShape(s, t, ins, last);
      var s0 := WithNewMappings(s, t, ins, last);
      forall j | 0 <= j < |insertions| ensures HasMapping(s1.docMaps, t, ins[j]) {
        assert Maps(s1.docMaps[|s.docMaps| + j], t, ins[j]);
      }
    }
    assert s1.sequences[t].lastPushSequence == last + |ins|;
    var r := AddOrUpdateObjectMappingsSpec(s1, t, mods, delivered, true);
    if |mods| > 0 {
      UpdatedMappingsShape(s1, t, mods, last + |ins|);
      var s2 := WithUpdatedMappings(s1, t, mods, last + |ins|);
      forall j | 0 <= j < |insertions| ensures HasMapping(r.docMaps, t, ins[j]) {
        var k :| 0 <= k < |s1.docMaps| && Maps(s1.docMaps[k], t, ins[j]);
        assert SameIdentity(s1.docMaps[k], s2.docMaps[k]);
        assert Maps(r.docMaps[k], t, ins[j]);
      }
    }
  }

  /**
   * The numbers an update hands out on a tracked, delivered type: the j-th
   * inserted object gets a new row numbered last+1+j (unless it is also
   * among the modified ones, which renumber it), and every row of a modified
   * object ends up with the number of that object's last modified index,
   * counted on after the insertions.
   */
  lemma UpdateNumbersChangedObjects(s: Tables, mgr: RealmObjectManager, objects: seq<RealmObject>, insertions: seq<int>, modifications: seq<int>, delivered: set<string>)
    requires ChangeApplicable(mgr, s, objects, Update([], insertions, modifications))
    requires mgr.typeName in delivered && mgr.typeName in s.sequences
    ensures var r := ProcessObjectChangesSpec(s, mgr, objects, Update([], insertions, modifications), delivered, true);
      var t := mgr.typeName; var last := s.sequences[t].lastPushSequence;
      var ins := IdsOf(mgr, At(objects, insertions)); var mods := IdsOf(mgr, At(objects, modifications));
      |r.docMaps| >= |s.docMaps| + |insertions| &&
      (forall j :: 0 <= j < |insertions| && ins[j] !in mods ==>
         Maps(r.docMaps[|s.docMaps| + j], t, ins[j]) && r.docMaps[|s.docMaps| + j].couchSequence == last + 1 + j) &&
      (forall j, i :: 0 <= j < |modifications| && mods[j] !in mods[j + 1..] && 0 <= i < |r.docMaps| && Maps(r.docMaps[i], t, mods[j]) ==>
         r.docMaps[i].couchSequence == last + |insertions| + 1 + j)
  {
    ChangedMappingsNumbered(s, mgr.typeName, IdsOf(mgr, At(objects, insertions)), IdsOf(mgr, At(objects, modifications)), delivered);
  }

  /**
   * Under the issuing invariant, every row a modified object had before the
   * notification gets a revision that no row of the table held before it, so
   * the next push's `_revs_diff` reports the object as missing.
   */
  lemma UpdateGivesNewRevisions(s: Tables, mgr: RealmObjectManager, objects: seq<RealmObject>, insertions: seq<int>, modifications: seq<int>, delivered: set<string>, tracked: bool)
    requires ChangeApplicable(mgr, s, objects, Update([], insertions, modifications)) && Issued(s)
    ensures var r := ProcessObjectChangesSpec(s, mgr, objects, Update([], insertions, modifications), delivered, tracked);
      |r.docMaps| >= |s.docMaps| &&
      forall i, j :: 0 <= i < |s.docMaps| && 0 <= j < |s.docMaps| && MapsOneOf(s.docMaps[i], mgr.typeName, IdsOf(mgr, At(objects, modifications))) ==>
        r.docMaps[i].couchRev != s.docMaps[j].couchRev
  {
    var t := mgr.typeName;
    var ins := IdsOf(mgr, At(objects, insertions));
    var mods := IdsOf(mgr, At(objects, modifications));
    var last := LastPush(s, t, delivered);
    var s1 := AddObjectMappingsSpec(s, t, ins, delivered, tracked);
    if |ins| > 0 {
      NewMappingsShape(s, t, ins, last);
    }
    assert s1.uuid >= s.uuid && s1.docMaps[..|s.docMaps|] == s.docMaps;
    var r := ProcessObjectChangesSpec(s, mgr, objects, Update([], insertions, modifications), delivered, tracked);
    if |mods| > 0 {
      var last1 := LastPush(s1, t, delivered);
      UpdatedMappingsShape(s1, t, mods, last1);
      var s2 := WithUpdatedMappings(s1, t, mods, last1);
      assert r.docMaps == s2.docMaps && r.uuid >= s2.uuid;
      forall i, j | 0 <= i < |s.docMaps| && 0 <= j < |s.docMaps| && MapsOneOf(s.docMaps[i], t, mods)
        ensures r.docMaps[i].couchRev != s.docMaps[j].couchRev
      {
        assert s1.docMaps[i] == s.docMaps[i];
        assert DrawnBetween(s2.docMaps[i].couchRev, s1.uuid, s2.uuid);
        assert RevFrom(r.docMaps[i].couchRev, s.uuid) && !RevFrom(s.docMaps[j].couchRev, s.uuid);
      }
    }
  }

  // ---------------------------------------------------------------- localBulkInsert

  /** The running state of localBulkInsert: tables, the objects of the type, and the count so far. */
  datatype Loaded = Loaded(tables: Tables, objects: seq<RealmObject>, processed: nat)

  /** The state localBulkInsert works on, as it stands in `realm`. */
  ghost function LoadedOf(realm: Realm, uuids: UuidSource, t: string, processed: nat): Loaded
    reads realm, uuids
  {
    Loaded(TablesOf(realm, uuids), ObjectsOf(realm.objects, t), processed)
  }

  /**
   * The object a document loads must hold a string id afterwards
   * (`getObjectId` traps otherwise), and a new object must not repeat an
   * existing object's primary key (`realm.add` traps otherwise).
   */
  predicate Insertable(mgr: RealmObjectManager, objects: seq<RealmObject>, d: BulkDoc) {
    !d.docRev.deleted && d.doc.Some? ==>
      match mgr.FirstIndexOfId(objects, d.docRev.docId)
      case Some(i) => mgr.IdOf(mgr.UpdateObjectWithDictionary(objects[i], d.doc.value)).Some?
      case None =>
        mgr.instantiable ==>
          var o := mgr.ObjectFromDictionary(d.doc.value).value;
          mgr.IdOf(o).Some? && (mgr.primaryKey.Some? ==> forall i :: 0 <= i < |objects| ==> mgr.KeyOf(objects[i]) != mgr.KeyOf(o))
  }

  /**
   * One document of localBulkInsert: deleted documents and documents without
   * a body are skipped; otherwise the object whose id is the document id is
   * updated, or a new object is created from the body, and its mapping rows
   * are restamped (or one added) with sequence 0.
   */
  function BulkInsertStep(mgr: RealmObjectManager, st: Loaded, d: BulkDoc): (r: Loaded)
    requires Insertable(mgr, st.objects, d)
    ensures r.tables.sequences == st.tables.sequences
    ensures Issued(st.tables) ==> Issued(r.tables)
  {
    var t := mgr.typeName;
    if d.docRev.deleted || d.doc.None? then st
    else match mgr.FirstIndexOfId(st.objects, d.docRev.docId)
      case Some(i) =>
        var o := mgr.UpdateObjectWithDictionary(st.objects[i], d.doc.value);
        UpdatedMappingShape(st.tables, t, mgr.GetObjectId(o), 0);
        Loaded(WithUpdatedMapping(st.tables, t, mgr.GetObjectId(o), 0), st.objects[i := o], st.processed + 1)
      case None =>
        match mgr.ObjectFromDictionary(d.doc.value)
        case None => st
        case Some(o) =>
          UpdatedMappingShape(st.tables, t, mgr.GetObjectId(o), 0);
          Loaded(WithUpdatedMapping(st.tables, t, mgr.GetObjectId(o), 0), st.objects + [o], st.processed + 1)
  }

  predicate BulkInsertable(mgr: RealmObjectManager, st: Loaded, docs: seq<BulkDoc>)
    decreases |docs|
  {
    docs == [] || (Insertable(mgr, st.objects, docs[0]) && BulkInsertable(mgr, BulkInsertStep(mgr, st, docs[0]), docs[1..]))
  }

  function BulkInsertSpec(mgr: RealmObjectManager, st: Loaded, docs: seq<BulkDoc>): (r: Loaded)
    requires BulkInsertable(mgr, st, docs)
    ensures Issued(st.tables) ==> Issued(r.tables)
    decreases |docs|
  {
    if docs == [] then st else BulkInsertSpec(mgr, BulkInsertStep(mgr, st, docs[0]), docs[1..])
  }

  /** The documents that carry a body and are not deletions. */
  function Loadable(docs: seq<BulkDoc>): nat
  {
    if docs == [] then 0 else (if !docs[0].docRev.deleted && docs[0].doc.Some? then 1 else 0) + Loadable(docs[1..])
  }

  /**
   * The count returned is at most the number of loadable documents, and
   * equals it when the type can be instantiated; the sequence table is
   * never written.
   */
  lemma {:induction false} BulkInsertCount(mgr: RealmObjectManager, st: Loaded, docs: seq<BulkDoc>)
    requires BulkInsertable(mgr, st, docs)
    ensures var r := BulkInsertSpec(mgr, st, docs);
      st.processed <= r.processed <= st.processed + Loadable(docs) &&
      (mgr.instantiable ==> r.processed == st.processed + Loadable(docs)) &&
      r.tables.sequences == st.tables.sequences &&
      Loadable(docs) <= |docs|
    decreases |docs|
  {
    if docs != [] {
      BulkInsertCount(mgr, BulkInsertStep(mgr, st, docs[0]), docs[1..]);
    }
  }

  /** Row `b` is row `a`, or row `a` restamped by a pull: same identity, sequence 0 and a first revision. */
  predicate PulledOrKept(a: DocMap, b: DocMap) {
    b == a || (SameIdentity(a, b) && b.couchSequence == 0 && IsFirstRevision(b.couchRev))
  }

  /** Every row a pull writes carries sequence 0 and a first revision; rows are never removed and keep their identity. */
  predicate StampedByPull(a: seq<DocMap>, b: seq<DocMap>) {
    |a| <= |b| &&
    (forall i :: 0 <= i < |a| ==> PulledOrKept(a[i], b[i])) &&
    (forall i :: |a| <= i < |b| ==> b[i].couchSequence == 0 && IsFirstRevision(b[i].couchRev))
  }

  lemma StepStampedByPull(mgr: RealmObjectManager, st: Loaded, d: BulkDoc)
    requires Insertable(mgr, st.objects, d)
    ensures StampedByPull(st.tables.docMaps, BulkInsertStep(mgr, st, d).tables.docMaps)
  {
    var t := mgr.typeName;
    var r := BulkInsertStep(mgr, st, d);
    if !(d.docRev.deleted || d.doc.None?) && r != st {
      var index := mgr.FirstIndexOfId(st.objects, d.docRev.docId);
      var o := if index.Some? then mgr.UpdateObjectWithDictionary(st.objects[index.value], d.doc.value) else mgr.ObjectFromDictionary(d.doc.value).value;
      var id := mgr.GetObjectId(o);
      assert r.tables == WithUpdatedMapping(st.tables, t, id, 0);
      UpdatedMappingShape(st.tables, t, id, 0);
      if !HasMapping(st.tables.docMaps, t, id) {
        assert r.tables == WithNewMapping(st.tables, t, id, 0);
      }
    }
  }

  /**
   * A pulled document that creates an object is mapped under the next local
   * UUID, whatever its CouchDB `_id`: the new row is appended for the new
   * object's own id, and its document id is one no earlier row holds.
   */
  lemma NewObjectGetsLocalDocId(mgr: RealmObjectManager, st: Loaded, d: BulkDoc)
    requires Insertable(mgr, st.objects, d)
    requires !d.docRev.deleted && d.doc.Some? && mgr.instantiable && mgr.FirstIndexOfId(st.objects, d.docRev.docId).None?
    requires !HasMapping(st.tables.docMaps, mgr.typeName, mgr.GetObjectId(mgr.ObjectFromDictionary(d.doc.value).value))
    ensures var o := mgr.ObjectFromDictionary(d.doc.value).value;
      var r := BulkInsertStep(mgr, st, d);
      var n := |st.tables.docMaps|;
      r.objects == st.objects + [o] && |r.tables.docMaps| == n + 1 && r.tables.docMaps[..n] == st.tables.docMaps &&
      Maps(r.tables.docMaps[n], mgr.typeName, mgr.GetObjectId(o)) && r.tables.docMaps[n].couchDocId == Uuid(st.tables.uuid) &&
      (Issued(st.tables) ==> forall i :: 0 <= i < n ==> st.tables.docMaps[i].couchDocId != r.tables.docMaps[n].couchDocId)
  {
    var t := mgr.typeName;
    var o := mgr.ObjectFromDictionary(d.doc.value).value;
    var id := mgr.GetObjectId(o);
    assert BulkInsertStep(mgr, st, d).tables == WithUpdatedMapping(st.tables, t, id, 0);
    assert WithUpdatedMapping(st.tables, t, id, 0) == WithNewMapping(st.tables, t, id, 0);
  }

  lemma {:induction false} BulkInsertStampedByPull(mgr: RealmObjectManager, st: Loaded, docs: seq<BulkDoc>)
    requires BulkInsertable(mgr, st, docs)
    ensures StampedByPull(st.tables.docMaps, BulkInsertSpec(mgr, st, docs).tables.docMaps)
    decreases |docs|
  {
    if docs != [] {
      var st1 := BulkInsertStep(mgr, st, docs[0]);
      StepStampedByPull(mgr, st, docs[0]);
      BulkInsertStampedByPull(mgr, st1, docs[1..]);
      var a, b, c := st.tables.docMaps, st1.tables.docMaps, BulkInsertSpec(mgr, st, docs).tables.docMaps;
      forall i | 0 <= i < |a| ensures PulledOrKept(a[i], c[i]) {
        assert PulledOrKept(a[i], b[i]) && PulledOrKept(b[i], c[i]);
      }
      forall i | |a| <= i < |c| ensures c[i].couchSequence == 0 && IsFirstRevision(c[i].couchRev) {
        if i < |b| {
          assert PulledOrKept(b[i], c[i]);
        }
      }
    }
  }

  // ---------------------------------------------------------------- the manager

  class ReplicationManager {
    const realm: Realm
    const uuids: UuidSource
    var realmObjectManagers: map<string, RealmObjectManager>
    var lastSequenceTrackers: map<string, SequenceTracker>
    /** The types whose sequence row the tracker's notification has delivered (`lastSequences`). */
    var lastSequences: set<string>

    ghost predicate Valid()
      reads this, realm`sequences, realm`docMaps, uuids
    {
      realm.Valid() &&
      IssuedBefore(realm.docMaps, uuids.counter) &&
      lastSequences <= realm.sequences.Keys &&
      forall t :: t in lastSequenceTrackers ==> lastSequenceTrackers[t].realmObjectType == t
    }

    constructor (realm: Realm, uuids: UuidSource)
      requires realm.Valid() && IssuedBefore(realm.docMaps, uuids.counter)
      ensures Valid()
      ensures this.realm == realm && this.uuids == uuids
      ensures realmObjectManagers == map[] && lastSequenceTrackers == map[] && lastSequences == {}
    {
      this.realm := realm;
      this.uuids := uuids;
      realmObjectManagers := map[];
      lastSequenceTrackers := map[];
      lastSequences := {};
    }

    /** register(realmObjectType:): refuses a type without a primary key, otherwise registers a manager keyed by it. */
    method Register(typeName: string, primaryKey: Option<string>, properties: set<string>, instantiable: bool) returns (err: Option<ReplicationManagerError>)
      requires Valid()
      modifies this, realm`nextToken, realm`sequences, uuids
      ensures Valid()
      ensures primaryKey.None? <==> err == Some(PrimaryKeyRequired)
      ensures primaryKey.None? ==> unchanged(this, realm, uuids)
      ensures primaryKey.Some? ==>
        typeName in realmObjectManagers &&
        realmObjectManagers == old(realmObjectManagers)[typeName := realmObjectManagers[typeName]] &&
        fresh(realmObjectManagers[typeName]) &&
        realmObjectManagers[typeName].idField == primaryKey.value &&
        realmObjectManagers[typeName].primaryKey == primaryKey &&
        realmObjectManagers[typeName].typeName == typeName &&
        realmObjectManagers[typeName].notificationToken == Some(old(realm.nextToken) + 1) &&
        typeName in lastSequenceTrackers && fresh(lastSequenceTrackers[typeName]) &&
        lastSequenceTrackers[typeName].notificationToken == Some(old(realm.nextToken)) &&
        (forall u :: u in old(lastSequenceTrackers) && u != typeName ==> u in lastSequenceTrackers && lastSequenceTrackers[u] == old(lastSequenceTrackers[u])) &&
        lastSequenceTrackers.Keys == old(lastSequenceTrackers.Keys) + {typeName} &&
        lastSequences == old(lastSequences) &&
        realm.nextToken == old(realm.nextToken) + 2 &&
        TablesOf(realm, uuids) == WithSequenceRow(old(TablesOf(realm, uuids)), typeName)
    {
      if primaryKey.None? {
        return Some(PrimaryKeyRequired);
      }
      var mgr := new RealmObjectManager(primaryKey.value, typeName, primaryKey, properties, instantiable);
      RegisterManager(mgr);
      err := None;
    }

    /**
     * register(realmObjectMgr:): records the manager, starts a fresh sequence
     * tracker for its type (creating the sequence row if missing) and starts
     * monitoring the type's objects.
     */
    method RegisterManager(mgr: RealmObjectManager)
      requires Valid()
      modifies this, mgr, realm`nextToken, realm`sequences, uuids
      ensures Valid()
      ensures realmObjectManagers == old(realmObjectManagers)[mgr.typeName := mgr]
      ensures mgr.typeName in lastSequenceTrackers && fresh(lastSequenceTrackers[mgr.typeName])
      ensures lastSequenceTrackers[mgr.typeName].notificationToken == Some(old(realm.nextToken))
      ensures forall u :: u in old(lastSequenceTrackers) && u != mgr.typeName ==> u in lastSequenceTrackers && lastSequenceTrackers[u] == old(lastSequenceTrackers[u])
      ensures lastSequenceTrackers.Keys == old(lastSequenceTrackers.Keys) + {mgr.typeName}
      ensures lastSequences == old(lastSequences)
      ensures mgr.notificationToken == Some(old(realm.nextToken) + 1) && realm.nextToken == old(realm.nextToken) + 2
      ensures TablesOf(realm, uuids) == WithSequenceRow(old(TablesOf(realm, uuids)), mgr.typeName)
    {
      var t := mgr.typeName;
      realmObjectManagers := realmObjectManagers[t := mgr];
      var tracker := new SequenceTracker(t);
      lastSequenceTrackers := lastSequenceTrackers[t := tracker];
      tracker.Start(realm, uuids);
      mgr.StartMonitoringObjectChanges(realm);
    }

    /** The tracker's notification block hands the type's row to the manager. */
    method DeliverSequenceRow(t: string)
      requires Valid() && t in lastSequenceTrackers && lastSequenceTrackers[t].notificationToken.Some? && t in realm.sequences
      modifies this`lastSequences
      ensures Valid()
      ensures lastSequences == old(lastSequences) + {t}
    {
      lastSequences := lastSequences + {t};
    }

    /** deregister: stops monitoring the type's objects; the registration itself stays. */
    method Deregister(mgr: RealmObjectManager)
      modifies mgr
      ensures mgr.notificationToken.None?
    {
      mgr.StopMonitoringObjectChanges();
    }

    /** getRealmObjectReplicatorId: the replicator id of the type's delivered sequence row. */
    method GetRealmObjectReplicatorId(mgr: RealmObjectManager) returns (id: string)
      requires Valid() && mgr.typeName in lastSequences
      ensures mgr.typeName in realm.sequences && id == realm.sequences[mgr.typeName].realmObjectReplicatorId
    {
      id := realm.sequences[mgr.typeName].realmObjectReplicatorId;
    }

    /** The push sequence after which new rows are numbered. */
    method LastPushSequence(mgr: RealmObjectManager) returns (n: int)
      requires Valid()
      ensures n == LastPush(TablesOf(realm, uuids), mgr.typeName, lastSequences)
    {
      n := if mgr.typeName in lastSequences then realm.sequences[mgr.typeName].lastPushSequence else 0;
    }

    /** `self.lastSequenceTrackers[t]?.updateLastPushSequence(realm, n)`. */
    method SaveLastPushSequence(mgr: RealmObjectManager, n: int)
      requires Valid()
      modifies realm`sequences, uuids
      ensures Valid()
      ensures TablesOf(realm, uuids) == WithTrackedPush(old(TablesOf(realm, uuids)), mgr.typeName, mgr.typeName in lastSequenceTrackers, n)
    {
      if mgr.typeName in lastSequenceTrackers {
        lastSequenceTrackers[mgr.typeName].UpdateLastPushSequence(realm, uuids, n);
      }
    }

    method ProcessObjectChanges(mgr: RealmObjectManager, change: CollectionChange)
      requires Valid()
      requires ChangeApplicable(mgr, TablesOf(realm, uuids), ObjectsOf(realm.objects, mgr.typeName), change)
      modifies realm`docMaps, realm`sequences, uuids
      ensures Valid()
      ensures TablesOf(realm, uuids) == ProcessObjectChangesSpec(old(TablesOf(realm, uuids)), mgr, ObjectsOf(realm.objects, mgr.typeName), change, lastSequences, mgr.typeName in lastSequenceTrackers)
    {
      var objects := ObjectsOf(realm.objects, mgr.typeName);
      match change
      case Initial =>
        var mapped := AtLeastOneObjectMappingExists(mgr);
        if !mapped {
          NoTypeRowsNoIds(realm.docMaps, mgr.typeName);
          AddMissingObjectMappings(mgr);
        }
      case Update(_, insertions, modifications) =>
        AddObjectMappings(mgr, objects, insertions);
        AddOrUpdateObjectMappings(mgr, objects, modifications);
    }

    method AtLeastOneObjectMappingExists(mgr: RealmObjectManager) returns (b: bool)
      ensures b <==> exists i :: 0 <= i < |realm.docMaps| && realm.docMaps[i].realmObjectType == mgr.typeName
    {
      b := HasTypeRows(realm.docMaps, mgr.typeName);
    }

    /** addMissingObjectMappings: maps each object no row of its type maps, then writes the push sequence. */
    method AddMissingObjectMappings(mgr: RealmObjectManager)
      requires Valid()
      requires Identified(mgr, mgr.GetObjectsNotMatchingIds(ObjectsOf(realm.objects, mgr.typeName), MappedIds(realm.docMaps, mgr.typeName)))
      modifies realm`docMaps, realm`sequences, uuids
      ensures Valid()
      ensures TablesOf(realm, uuids) == AddMissingObjectMappingsOf(old(TablesOf(realm, uuids)), mgr, ObjectsOf(realm.objects, mgr.typeName), lastSequences, mgr.typeName in lastSequenceTrackers)
    {
      var realmObjectIds := MappedObjectIds(mgr);
      var realmObjects := mgr.GetObjectsNotMatchingIds(ObjectsOf(realm.objects, mgr.typeName), realmObjectIds);
      AddMappingsFor(mgr, realmObjects);
    }

    /** addMissingObjectMappings once the unmapped objects are known. */
    method AddMappingsFor(mgr: RealmObjectManager, realmObjects: seq<RealmObject>)
      requires Valid() && Identified(mgr, realmObjects)
      modifies realm`docMaps, realm`sequences, uuids
      ensures Valid()
      ensures TablesOf(realm, uuids) == AddMissingObjectMappingsSpec(old(TablesOf(realm, uuids)), mgr.typeName, IdsOf(mgr, realmObjects), lastSequences, mgr.typeName in lastSequenceTrackers)
    {
      var sequence := LastPushSequence(mgr);
      sequence := AddNewMappings(mgr, realmObjects, sequence);
      SaveLastPushSequence(mgr, sequence);
    }

    /** The loop of addMissingObjectMappings that collects the ids the type's rows map. */
    method MappedObjectIds(mgr: RealmObjectManager) returns (realmObjectIds: seq<string>)
      ensures realmObjectIds == MappedIds(realm.docMaps, mgr.typeName)
    {
      var rows := realm.docMaps;
      realmObjectIds := [];
      var k := 0;
      while k < |rows|
        invariant 0 <= k <= |rows|
        invariant realmObjectIds == MappedIds(rows[..k], mgr.typeName)
      {
        assert rows[..k + 1][..k] == rows[..k];
        if rows[k].realmObjectType == mgr.typeName {
          realmObjectIds := realmObjectIds + [rows[k].realmObjectId];
        }
        k := k + 1;
      }
      assert rows[..k] == rows;
    }

    /** The loop shared by addMissingObjectMappings and addObjectMappings: one addObjectMapping per object, numbered after `last`. */
    method AddNewMappings(mgr: RealmObjectManager, realmObjects: seq<RealmObject>, last: int) returns (sequence: int)
      requires Identified(mgr, realmObjects)
      modifies realm`docMaps, uuids
      ensures sequence == last + |realmObjects|
      ensures TablesOf(realm, uuids) == WithNewMappings(old(TablesOf(realm, uuids)), mgr.typeName, IdsOf(mgr, realmObjects), last)
    {
      ghost var s0 := TablesOf(realm, uuids);
      ghost var ids := IdsOf(mgr, realmObjects);
      sequence := last;
      var i := 0;
      while i < |realmObjects|
        invariant 0 <= i <= |realmObjects|
        invariant sequence == last + i
        invariant WithNewMappings(s0, mgr.typeName, ids, last) == WithNewMappings(TablesOf(realm, uuids), mgr.typeName, ids[i..], sequence)
      {
        assert ids[i..][1..] == ids[i + 1..];
        sequence := sequence + 1;
        AddObjectMapping(mgr, realmObjects[i], sequence);
        i := i + 1;
      }
    }

    /** addObjectMappings: maps the objects at the inserted indexes, numbered after the last push sequence. */
    method AddObjectMappings(mgr: RealmObjectManager, realmObjects: seq<RealmObject>, indexes: seq<int>)
      requires Valid()
      requires ValidIndexes(realmObjects, indexes) && Identified(mgr, At(realmObjects, indexes))
      modifies realm`docMaps, realm`sequences, uuids
      ensures Valid()
      ensures TablesOf(realm, uuids) == AddObjectMappingsSpec(old(TablesOf(realm, uuids)), mgr.typeName, IdsOf(mgr, At(realmObjects, indexes)), lastSequences, mgr.typeName in lastSequenceTrackers)
    {
      if |indexes| > 0 {
        var sequence := LastPushSequence(mgr);
        var selected := SelectIndexes(realmObjects, indexes);
        sequence := AddNewMappings(mgr, selected, sequence);
        SaveLastPushSequence(mgr, sequence);
      }
    }

    /** The loop of addObjectMappings that visits `realmObjects[idx]` for each index in turn. */
    method SelectIndexes(realmObjects: seq<RealmObject>, indexes: seq<int>) returns (selected: seq<RealmObject>)
      requires ValidIndexes(realmObjects, indexes)
      ensures selected == At(realmObjects, indexes)
    {
      selected := [];
      for j := 0 to |indexes|
        invariant |selected| == j
        invariant forall k :: 0 <= k < j ==> selected[k] == realmObjects[indexes[k]]
      {
        selected := selected + [realmObjects[indexes[j]]];
      }
    }

    /** addObjectMapping: a new row with a fresh document id and a fresh first revision. */
    method AddObjectMapping(mgr: RealmObjectManager, realmObject: RealmObject, sequence: int)
      requires mgr.IdOf(realmObject).Some?
      modifies realm`docMaps, uuids
      ensures TablesOf(realm, uuids) == WithNewMapping(old(TablesOf(realm, uuids)), mgr.typeName, mgr.GetObjectId(realmObject), sequence)
    {
      var couchDocId := uuids.Next();
      var revUuid := uuids.Next();
      var couchRev := FirstRevision(revUuid);
      realm.docMaps := realm.docMaps + [DocMap(mgr.typeName, mgr.GetObjectId(realmObject), couchDocId, couchRev, sequence)];
    }

    /** addOrUpdateObjectMappings: restamps or maps the objects at the modified indexes, numbered after the last push sequence. */
    method AddOrUpdateObjectMappings(mgr: RealmObjectManager, realmObjects: seq<RealmObject>, indexes: seq<int>)
      requires Valid()
      requires ValidIndexes(realmObjects, indexes) && Identified(mgr, At(realmObjects, indexes))
      modifies realm`docMaps, realm`sequences, uuids
      ensures Valid()
      ensures TablesOf(realm, uuids) == AddOrUpdateObjectMappingsSpec(old(TablesOf(realm, uuids)), mgr.typeName, IdsOf(mgr, At(realmObjects, indexes)), lastSequences, mgr.typeName in lastSequenceTrackers)
    {
      if |indexes| > 0 {
        var sequence := LastPushSequence(mgr);
        var selected := SelectIndexes(realmObjects, indexes);
        sequence := UpdateMappings(mgr, selected, sequence);
        SaveLastPushSequence(mgr, sequence);
      }
    }

    /** The loop of addOrUpdateObjectMappings: one addOrUpdateObjectMapping per object, numbered after `last`. */
    method UpdateMappings(mgr: RealmObjectManager, realmObjects: seq<RealmObject>, last: int) returns (sequence: int)
      requires Identified(mgr, realmObjects)
      modifies realm`docMaps, uuids
      ensures sequence == last + |realmObjects|
      ensures TablesOf(realm, uuids) == WithUpdatedMappings(old(TablesOf(realm, uuids)), mgr.typeName, IdsOf(mgr, realmObjects), last)
    {
      ghost var s0 := TablesOf(realm, uuids);
      ghost var ids := IdsOf(mgr, realmObjects);
      sequence := last;
      var i := 0;
      while i < |realmObjects|
        invariant 0 <= i <= |realmObjects|
        invariant sequence == last + i
        invariant WithUpdatedMappings(s0, mgr.typeName, ids, last) == WithUpdatedMappings(TablesOf(realm, uuids), mgr.typeName, ids[i..], sequence)
      {
        assert ids[i..][1..] == ids[i + 1..];
        sequence := sequence + 1;
        AddOrUpdateObjectMapping(mgr, realmObjects[i], sequence);
        i := i + 1;
      }
    }

    /** addOrUpdateObjectMapping: gives every row of the object a fresh first revision and `sequence`, or adds a row. */
    method AddOrUpdateObjectMapping(mgr: RealmObjectManager, realmObject: RealmObject, sequence: int)
      requires mgr.IdOf(realmObject).Some?
      modifies realm`docMaps, uuids
      ensures TablesOf(realm, uuids) == WithUpdatedMapping(old(TablesOf(realm, uuids)), mgr.typeName, mgr.GetObjectId(realmObject), sequence)
    {
      var t, id := mgr.typeName, mgr.GetObjectId(realmObject);
      ghost var s0 := TablesOf(realm, uuids);
      if HasMapping(realm.docMaps, t, id) {
        var i := 0;
        while i < |realm.docMaps|
          invariant 0 <= i <= |realm.docMaps| == |s0.docMaps|
          invariant Restamped(s0, t, id, sequence, 0) == Restamped(TablesOf(realm, uuids), t, id, sequence, i)
        {
          if Maps(realm.docMaps[i], t, id) {
            var u := uuids.Next();
            realm.docMaps := realm.docMaps[i := realm.docMaps[i].(couchRev := FirstRevision(u), couchSequence := sequence)];
          }
          i := i + 1;
        }
      } else {
        AddObjectMapping(mgr, realmObject, sequence);
      }
    }

    /** localChanges: the rows (of every type) in the window after `since`, and the highest sequence among them. */
    method LocalChanges(mgr: RealmObjectManager, since: int, limit: int) returns (changes: ObjectChanges)
      ensures changes == LocalChangesOf(realm.docMaps, since, limit)
    {
      var lastSequence := since;
      var realmDocMaps := RowsInWindow(realm.docMaps, since, limit);
      var i := 0;
      while i < |realmDocMaps|
        invariant 0 <= i <= |realmDocMaps|
        invariant lastSequence == MaxSequence(since, realmDocMaps[..i])
      {
        assert realmDocMaps[..i + 1][..i] == realmDocMaps[..i];
        lastSequence := if realmDocMaps[i].couchSequence > lastSequence then realmDocMaps[i].couchSequence else lastSequence;
        i := i + 1;
      }
      assert realmDocMaps[..i] == realmDocMaps;
      changes := ObjectChanges(lastSequence, realmDocMaps);
    }

    /** localCheckpoint: the pull checkpoint of the type's delivered sequence row. */
    method LocalCheckpoint(mgr: RealmObjectManager, replicatorId: map<string, string>) returns (checkpoint: Option<string>)
      requires Valid() && mgr.typeName in lastSequences
      ensures mgr.typeName in realm.sequences && checkpoint == realm.sequences[mgr.typeName].lastPullSequence
    {
      checkpoint := realm.sequences[mgr.typeName].lastPullSequence;
    }

    /** saveLocalCheckPoint: writes the pull checkpoint through the type's tracker, if it has one. */
    method SaveLocalCheckPoint(mgr: RealmObjectManager, sequence: string)
      requires Valid()
      modifies realm`sequences, uuids
      ensures Valid()
      ensures mgr.typeName in lastSequenceTrackers ==> TablesOf(realm, uuids) == WithPullSequence(old(TablesOf(realm, uuids)), mgr.typeName, sequence)
      ensures mgr.typeName !in lastSequenceTrackers ==> TablesOf(realm, uuids) == old(TablesOf(realm, uuids))
    {
      if mgr.typeName in lastSequenceTrackers {
        lastSequenceTrackers[mgr.typeName].UpdateLastPullSequence(realm, uuids, sequence);
      }
    }

    /** localRevsDiff: the feed rows whose document the mapping table does not hold, as bulk documents. */
    method LocalRevsDiff(mgr: RealmObjectManager, changes: Changes) returns (missingDocs: seq<BulkDoc>)
      requires HasRevisions(changes.rows)
      ensures missingDocs == RevsDiffOf(realm.docMaps, changes.rows)
    {
      var ids, revs := FeedIdsAndRevs(changes.rows);
      var matchingDocIds := MatchingDocIdsIn(realm.docMaps, ids, revs);
      missingDocs := MissingRows(changes.rows, matchingDocIds);
    }

    /** One pass of localBulkInsert's loop, which runs while the type's change monitoring is stopped. */
    method LoadDocument(mgr: RealmObjectManager, doc: BulkDoc, processed: nat) returns (changesProcessed: nat)
      requires mgr.notificationToken.None?
      requires Insertable(mgr, ObjectsOf(realm.objects, mgr.typeName), doc)
      modifies realm`objects, realm`docMaps, uuids
      ensures LoadedOf(realm, uuids, mgr.typeName, changesProcessed) == BulkInsertStep(mgr, old(LoadedOf(realm, uuids, mgr.typeName, processed)), doc)
      ensures forall u :: u != mgr.typeName ==> ObjectsOf(realm.objects, u) == old(ObjectsOf(realm.objects, u))
    {
      var t := mgr.typeName;
      changesProcessed := processed;
      if doc.docRev.deleted {
      } else if doc.doc.Some? {
        var objects := ObjectsOf(realm.objects, t);
        var index := mgr.FirstIndexOfId(objects, doc.docRev.docId);
        var realmObject: Option<RealmObject>;
        if index.Some? {
          var updated := mgr.UpdateObjectWithDictionary(objects[index.value], doc.doc.value);
          realm.objects := realm.objects[t := objects[index.value := updated]];
          realmObject := Some(updated);
        } else {
          realmObject := mgr.ObjectFromDictionary(doc.doc.value);
          if realmObject.Some? {
            realm.objects := realm.objects[t := objects + [realmObject.value]];
          }
        }
        if realmObject.Some? {
          changesProcessed := changesProcessed + 1;
          AddOrUpdateObjectMapping(mgr, realmObject.value, 0);
        }
      }
    }

    /**
     * localBulkInsert: with monitoring stopped, loads every non-deleted
     * document that has a body into the type's objects and restamps its
     * mapping with sequence 0; returns how many objects were written.
     */
    method LocalBulkInsert(mgr: RealmObjectManager, docs: seq<BulkDoc>) returns (changesProcessed: nat)
      requires Valid()
      requires BulkInsertable(mgr, LoadedOf(realm, uuids, mgr.typeName, 0), docs)
      modifies mgr, realm`objects, realm`docMaps, realm`nextToken, uuids
      ensures Valid()
      ensures LoadedOf(realm, uuids, mgr.typeName, changesProcessed) == BulkInsertSpec(mgr, old(LoadedOf(realm, uuids, mgr.typeName, 0)), docs)
      ensures forall u :: u != mgr.typeName ==> ObjectsOf(realm.objects, u) == old(ObjectsOf(realm.objects, u))
      ensures mgr.notificationToken == Some(old(realm.nextToken)) && realm.nextToken == old(realm.nextToken) + 1
    {
      var t := mgr.typeName;
      ghost var st0 := LoadedOf(realm, uuids, t, 0);
      ghost var objects0 := realm.objects;
      mgr.StopMonitoringObjectChanges();
      changesProcessed := 0;
      var i := 0;
      while i < |docs|
        invariant 0 <= i <= |docs|
        invariant realm.sequences == st0.tables.sequences
        invariant BulkInsertable(mgr, LoadedOf(realm, uuids, t, changesProcessed), docs[i..])
        invariant BulkInsertSpec(mgr, st0, docs) == BulkInsertSpec(mgr, LoadedOf(realm, uuids, t, changesProcessed), docs[i..])
        invariant forall u :: u != t ==> ObjectsOf(realm.objects, u) == ObjectsOf(objects0, u)
        invariant realm.nextToken == old(realm.nextToken)
        invariant mgr.notificationToken.None?
      {
        assert docs[i..][1..] == docs[i + 1..];
        changesProcessed := LoadDocument(mgr, docs[i], changesProcessed);
        i := i + 1;
      }
      mgr.StartMonitoringObjectChanges(realm);
    }
  }
}

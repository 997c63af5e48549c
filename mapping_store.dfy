/**
 * The bookkeeping tables of the sync engine as pure values: the mapping
 * rows, the per-type sequence rows and the UUID counter. Every write the
 * replication manager and the sequence tracker make is specified here as a
 * function from the old tables to the new ones.
 */
module MappingStore {
  import opened Wrappers
  import opened RealmStore

  datatype Tables = Tables(docMaps: seq<DocMap>, sequences: map<string, SequenceRow>, uuid: nat)

  /** The tables as they stand in `realm`, with the UUID oracle's position. */
  ghost function TablesOf(realm: Realm, uuids: UuidSource): Tables
    reads realm, uuids
  {
    Tables(realm.docMaps, realm.sequences, uuids.counter)
  }

  /** Every sequence row of a type other than `t` is as it was. */
  ghost predicate OtherRowsKept(a: map<string, SequenceRow>, b: map<string, SequenceRow>, t: string) {
    forall u :: u != t ==> (u in a <==> u in b) && (u in a ==> a[u] == b[u])
  }

  /** A new sequence row for `t`, with a freshly issued replicator id. */
  function WithFreshRow(s: Tables, t: string, push: int, pull: Option<string>): (r: Tables)
    ensures r.docMaps == s.docMaps && r.uuid == s.uuid + 1
    ensures t in r.sequences && OtherRowsKept(s.sequences, r.sequences, t)
    ensures r.sequences[t].realmObjectType == t
    ensures r.sequences[t].lastPushSequence == push && r.sequences[t].lastPullSequence == pull
    ensures forall k :: 0 <= k < s.uuid ==> r.sequences[t].realmObjectReplicatorId != Uuid(k)
  {
    forall k | 0 <= k < s.uuid ensures Uuid(s.uuid) != Uuid(k) { UuidInjective(k, s.uuid); }
    s.(sequences := s.sequences[t := SequenceRow(t, Uuid(s.uuid), push, pull)], uuid := s.uuid + 1)
  }

  /** RealmObjectCouchDBSequenceTracker.start: creates the row of `t` (push 0, no pull) when there is none. */
  function WithSequenceRow(s: Tables, t: string): (r: Tables)
    ensures r.docMaps == s.docMaps && t in r.sequences
    ensures t in s.sequences ==> r == s
    ensures t !in s.sequences ==> r.sequences[t].lastPushSequence == 0 && r.sequences[t].lastPullSequence.None?
    ensures OtherRowsKept(s.sequences, r.sequences, t)
    ensures KeyedByType(s.sequences) ==> KeyedByType(r.sequences)
    ensures r.uuid >= s.uuid
  {
    if t in s.sequences then s else WithFreshRow(s, t, 0, None)
  }

  /** updateLastPushSequence: the push sequence of `t` becomes `n`; a missing row is created with no pull checkpoint. */
  function WithPushSequence(s: Tables, t: string, n: int): (r: Tables)
    ensures r.docMaps == s.docMaps && t in r.sequences
    ensures r.sequences[t].lastPushSequence == n
    ensures t in s.sequences ==> r.uuid == s.uuid && r.sequences[t] == s.sequences[t].(lastPushSequence := n)
    ensures t !in s.sequences ==> r.sequences[t].lastPullSequence.None? && r.sequences[t].realmObjectType == t
    ensures OtherRowsKept(s.sequences, r.sequences, t)
    ensures KeyedByType(s.sequences) ==> KeyedByType(r.sequences)
    ensures r.uuid >= s.uuid
  {
    if t in s.sequences then s.(sequences := s.sequences[t := s.sequences[t].(lastPushSequence := n)])
    else WithFreshRow(s, t, n, None)
  }

  /** updateLastPullSequence: the pull checkpoint of `t` becomes `p`; a missing row is created with push sequence 0. */
  function WithPullSequence(s: Tables, t: string, p: string): (r: Tables)
    ensures r.docMaps == s.docMaps && t in r.sequences
    ensures r.sequences[t].lastPullSequence == Some(p)
    ensures t in s.sequences ==> r.uuid == s.uuid && r.sequences[t] == s.sequences[t].(lastPullSequence := Some(p))
    ensures t !in s.sequences ==> r.sequences[t].lastPushSequence == 0 && r.sequences[t].realmObjectType == t
    ensures OtherRowsKept(s.sequences, r.sequences, t)
    ensures KeyedByType(s.sequences) ==> KeyedByType(r.sequences)
    ensures r.uuid >= s.uuid
  {
    if t in s.sequences then s.(sequences := s.sequences[t := s.sequences[t].(lastPullSequence := Some(p))])
    else WithFreshRow(s, t, 0, Some(p))
  }

  /** Once a type has its row, checkpoint writes never change its replicator id. */
  lemma ReplicatorIdStable(s: Tables, t: string, n: int, p: string)
    requires t in s.sequences
    ensures WithPushSequence(s, t, n).sequences[t].realmObjectReplicatorId == s.sequences[t].realmObjectReplicatorId
    ensures WithPullSequence(s, t, p).sequences[t].realmObjectReplicatorId == s.sequences[t].realmObjectReplicatorId
    ensures WithSequenceRow(s, t).sequences[t].realmObjectReplicatorId == s.sequences[t].realmObjectReplicatorId
  {
  }

  // ---------------------------------------------------------------- mapping rows

  /** The revision string given to every locally written revision: "1-" and a UUID. */
  function FirstRevision(u: string): (rev: string)
    ensures IsFirstRevision(rev) && rev[2..] == u && |rev| == 2 + |u|
  {
    "1-" + u
  }

  predicate IsFirstRevision(rev: string) {
    |rev| >= 2 && rev[..2] == "1-"
  }

  /**
   * `u` is the UUID the oracle hands out at position `n` or later. Since the
   * k-th UUID has length 5 + k, that position can only be |u| - 5.
   */
  ghost predicate UuidFrom(u: string, n: nat) {
    |u| >= 5 + n && u == Uuid(|u| - 5)
  }

  /** `rev` is the first revision made from a UUID handed out at position `n` or later. */
  ghost predicate RevFrom(rev: string, n: nat) {
    |rev| >= 7 + n && rev == FirstRevision(Uuid(|rev| - 7))
  }

  /** `rev` is the first revision made from a UUID the oracle hands out at a position in [lo, hi). */
  ghost predicate DrawnBetween(rev: string, lo: nat, hi: nat) {
    RevFrom(rev, lo) && |rev| < 7 + hi
  }

  lemma DrawnBetweenMeans(rev: string, lo: nat, hi: nat)
    ensures DrawnBetween(rev, lo, hi) <==> exists k :: lo <= k < hi && rev == FirstRevision(Uuid(k))
  {
    if exists k :: lo <= k < hi && rev == FirstRevision(Uuid(k)) {
      var k :| lo <= k < hi && rev == FirstRevision(Uuid(k));
      assert |rev| == 7 + k;
    }
    if DrawnBetween(rev, lo, hi) {
      assert lo <= |rev| - 7 < hi && rev == FirstRevision(Uuid(|rev| - 7));
    }
  }

  /** No row holds a document id or a revision made from a UUID the oracle hands out from position `n` on. */
  ghost predicate IssuedBefore(rows: seq<DocMap>, n: nat) {
    forall i :: 0 <= i < |rows| ==> !UuidFrom(rows[i].couchDocId, n) && !RevFrom(rows[i].couchRev, n)
  }

  lemma IssuedBeforeMeans(rows: seq<DocMap>, n: nat)
    ensures IssuedBefore(rows, n) <==>
      forall i, k :: 0 <= i < |rows| && n <= k ==> rows[i].couchDocId != Uuid(k) && rows[i].couchRev != FirstRevision(Uuid(k))
  {
    if !IssuedBefore(rows, n) {
      var i :| 0 <= i < |rows| && (UuidFrom(rows[i].couchDocId, n) || RevFrom(rows[i].couchRev, n));
      if UuidFrom(rows[i].couchDocId, n) {
        assert rows[i].couchDocId == Uuid(|rows[i].couchDocId| - 5);
      } else {
        assert rows[i].couchRev == FirstRevision(Uuid(|rows[i].couchRev| - 7));
      }
    }
  }

  /** What the tables hold was issued before the oracle's current position (NSUUID never repeats a UUID). */
  ghost predicate Issued(s: Tables) {
    IssuedBefore(s.docMaps, s.uuid)
  }

  /** Row `m` maps the realm object `id` of type `t`. */
  predicate Maps(m: DocMap, t: string, id: string) {
    m.realmObjectType == t && m.realmObjectId == id
  }

  predicate HasMapping(rows: seq<DocMap>, t: string, id: string) {
    exists i :: 0 <= i < |rows| && Maps(rows[i], t, id)
  }

  /** addObjectMapping: appends a row with a fresh document id, a fresh first revision and `sequence`. */
  function WithNewMapping(s: Tables, t: string, id: string, sequence: int): (r: Tables)
    ensures r.sequences == s.sequences && r.uuid == s.uuid + 2
    ensures |r.docMaps| == |s.docMaps| + 1 && r.docMaps[..|s.docMaps|] == s.docMaps
    ensures Maps(r.docMaps[|s.docMaps|], t, id) && r.docMaps[|s.docMaps|].couchSequence == sequence
    ensures IsFirstRevision(r.docMaps[|s.docMaps|].couchRev)
    ensures forall k :: 0 <= k < s.uuid ==> r.docMaps[|s.docMaps|].couchDocId != Uuid(k)
    ensures r.docMaps[|s.docMaps|].couchDocId == Uuid(s.uuid) && DrawnBetween(r.docMaps[|s.docMaps|].couchRev, s.uuid, r.uuid)
    ensures Issued(s) ==> Issued(r)
  {
    forall k | 0 <= k < s.uuid ensures Uuid(s.uuid) != Uuid(k) { UuidInjective(k, s.uuid); }
    var m := DocMap(t, id, Uuid(s.uuid), FirstRevision(Uuid(s.uuid + 1)), sequence);
    s.(docMaps := s.docMaps + [m], uuid := s.uuid + 2)
  }

  /** The loop of addObjectMappings / addMissingObjectMappings: one new row per id, sequences last+1, last+2, ... */
  function WithNewMappings(s: Tables, t: string, ids: seq<string>, last: int): (r: Tables)
    ensures Issued(s) ==> Issued(r)
    decreases |ids|
  {
    if ids == [] then s else WithNewMappings(WithNewMapping(s, t, ids[0], last + 1), t, ids[1..], last + 1)
  }

  /** The new rows are appended in order, one per id, numbered consecutively after `last`. */
  lemma {:induction false} NewMappingsShape(s: Tables, t: string, ids: seq<string>, last: int)
    ensures var r := WithNewMappings(s, t, ids, last);
      r.sequences == s.sequences && r.uuid == s.uuid + 2 * |ids| &&
      |r.docMaps| == |s.docMaps| + |ids| && r.docMaps[..|s.docMaps|] == s.docMaps &&
      forall i :: 0 <= i < |ids| ==>
        Maps(r.docMaps[|s.docMaps| + i], t, ids[i]) && r.docMaps[|s.docMaps| + i].couchSequence == last + 1 + i &&
        IsFirstRevision(r.docMaps[|s.docMaps| + i].couchRev)
    decreases |ids|
  {
    if ids != [] {
      var s1 := WithNewMapping(s, t, ids[0], last + 1);
      NewMappingsShape(s1, t, ids[1..], last + 1);
      var r := WithNewMappings(s, t, ids, last);
      assert r == WithNewMappings(s1, t, ids[1..], last + 1);
      assert r.docMaps[..|s1.docMaps|] == s1.docMaps;
      assert r.docMaps[..|s.docMaps|] == s1.docMaps[..|s.docMaps|];
      forall i | 0 <= i < |ids|
        ensures Maps(r.docMaps[|s.docMaps| + i], t, ids[i]) && r.docMaps[|s.docMaps| + i].couchSequence == last + 1 + i
        ensures IsFirstRevision(r.docMaps[|s.docMaps| + i].couchRev)
      {
        if i == 0 {
          assert r.docMaps[|s.docMaps|] == s1.docMaps[|s.docMaps|];
        } else {
          assert ids[i] == ids[1..][i - 1];
          assert |s.docMaps| + i == |s1.docMaps| + (i - 1);
        }
      }
    }
  }

  /**
   * Row `b` is row `a` with sequence `sequence` and a first revision made
   * from a UUID drawn at a position in [lo, hi); its document id is kept.
   */
  ghost predicate Restamps(a: DocMap, b: DocMap, sequence: int, lo: nat, hi: nat) {
    b == a.(couchRev := b.couchRev, couchSequence := sequence) && IsFirstRevision(b.couchRev) && DrawnBetween(b.couchRev, lo, hi)
  }

  /** The loop of addOrUpdateObjectMapping over the rows of (t, id) from position `from` on. */
  function Restamped(s: Tables, t: string, id: string, sequence: int, from: nat): (r: Tables)
    requires from <= |s.docMaps|
    ensures Issued(s) ==> Issued(r)
    decreases |s.docMaps| - from
  {
    if from == |s.docMaps| then s
    else if Maps(s.docMaps[from], t, id) then
      var m := s.docMaps[from].(couchRev := FirstRevision(Uuid(s.uuid)), couchSequence := sequence);
      Restamped(s.(docMaps := s.docMaps[from := m], uuid := s.uuid + 1), t, id, sequence, from + 1)
    else Restamped(s, t, id, sequence, from + 1)
  }

  /** Restamping touches exactly the rows of (t, id) at or after `from`, and adds no row. */
  lemma {:induction false} RestampedShape(s: Tables, t: string, id: string, sequence: int, from: nat)
    requires from <= |s.docMaps|
    ensures var r := Restamped(s, t, id, sequence, from);
      r.sequences == s.sequences && r.uuid >= s.uuid && |r.docMaps| == |s.docMaps| &&
      forall i :: 0 <= i < |s.docMaps| ==>
        if from <= i && Maps(s.docMaps[i], t, id) then Restamps(s.docMaps[i], r.docMaps[i], sequence, s.uuid, r.uuid)
        else r.docMaps[i] == s.docMaps[i]
    decreases |s.docMaps| - from
  {
    if from < |s.docMaps| {
      if Maps(s.docMaps[from], t, id) {
        var m := s.docMaps[from].(couchRev := FirstRevision(Uuid(s.uuid)), couchSequence := sequence);
        RestampedShape(s.(docMaps := s.docMaps[from := m], uuid := s.uuid + 1), t, id, sequence, from + 1);
      } else {
        RestampedShape(s, t, id, sequence, from + 1);
      }
    }
  }

  /** addOrUpdateObjectMapping: restamps every row of (t, id), or adds one when there is none. */
  function WithUpdatedMapping(s: Tables, t: string, id: string, sequence: int): (r: Tables)
    ensures Issued(s) ==> Issued(r)
  {
    if HasMapping(s.docMaps, t, id) then Restamped(s, t, id, sequence, 0) else WithNewMapping(s, t, id, sequence)
  }

  /**
   * After addOrUpdateObjectMapping the object has a mapping; existing rows
   * keep their document ids, and a row is added only when there was none.
   */
  lemma UpdatedMappingShape(s: Tables, t: string, id: string, sequence: int)
    ensures var r := WithUpdatedMapping(s, t, id, sequence);
      r.sequences == s.sequences && r.uuid >= s.uuid && HasMapping(r.docMaps, t, id) &&
      (HasMapping(s.docMaps, t, id) ==> |r.docMaps| == |s.docMaps|) &&
      (!HasMapping(s.docMaps, t, id) ==> |r.docMaps| == |s.docMaps| + 1 && r.docMaps[..|s.docMaps|] == s.docMaps) &&
      forall i :: 0 <= i < |s.docMaps| ==>
        if Maps(s.docMaps[i], t, id) then Restamps(s.docMaps[i], r.docMaps[i], sequence, s.uuid, r.uuid) else r.docMaps[i] == s.docMaps[i]
    ensures var r := WithUpdatedMapping(s, t, id, sequence);
      forall i :: 0 <= i < |r.docMaps| && Maps(r.docMaps[i], t, id) ==> r.docMaps[i].couchSequence == sequence
    ensures var r := WithUpdatedMapping(s, t, id, sequence);
      forall i :: |s.docMaps| <= i < |r.docMaps| ==> Maps(r.docMaps[i], t, id) && DrawnBetween(r.docMaps[i].couchRev, s.uuid, r.uuid)
  {
    var r := WithUpdatedMapping(s, t, id, sequence);
    if HasMapping(s.docMaps, t, id) {
      RestampedShape(s, t, id, sequence, 0);
      var i :| 0 <= i < |s.docMaps| && Maps(s.docMaps[i], t, id);
      assert Maps(r.docMaps[i], t, id);
    } else {
      assert Maps(r.docMaps[|s.docMaps|], t, id);
      forall i | 0 <= i < |s.docMaps| ensures r.docMaps[i] == s.docMaps[i] {
        assert r.docMaps[..|s.docMaps|][i] == s.docMaps[i];
      }
    }
  }

  /**
   * addOrUpdateObjectMapping gives every row of the object a revision that
   * no row of the table held before, its own old revision included, so the
   * next `_revs_diff` reports the object as missing and the push sends it.
   */
  lemma RestampIsNew(s: Tables, t: string, id: string, sequence: int)
    requires Issued(s)
    ensures var r := WithUpdatedMapping(s, t, id, sequence);
      forall i, j :: 0 <= i < |r.docMaps| && 0 <= j < |s.docMaps| && Maps(r.docMaps[i], t, id) ==> r.docMaps[i].couchRev != s.docMaps[j].couchRev
  {
    var r := WithUpdatedMapping(s, t, id, sequence);
    UpdatedMappingShape(s, t, id, sequence);
    forall i, j | 0 <= i < |r.docMaps| && 0 <= j < |s.docMaps| && Maps(r.docMaps[i], t, id)
      ensures r.docMaps[i].couchRev != s.docMaps[j].couchRev
    {
      assert RevFrom(r.docMaps[i].couchRev, s.uuid) && !RevFrom(s.docMaps[j].couchRev, s.uuid);
    }
  }

  /** One row changes into another without changing which document it maps or what object it stands for. */
  predicate SameIdentity(a: DocMap, b: DocMap) {
    a.realmObjectType == b.realmObjectType && a.realmObjectId == b.realmObjectId && a.couchDocId == b.couchDocId
  }

  /** The loop of addOrUpdateObjectMappings (and, with sequence 0, of localBulkInsert). */
  function WithUpdatedMappings(s: Tables, t: string, ids: seq<string>, last: int): (r: Tables)
    ensures Issued(s) ==> Issued(r)
    decreases |ids|
  {
    if ids == [] then s else WithUpdatedMappings(WithUpdatedMapping(s, t, ids[0], last + 1), t, ids[1..], last + 1)
  }

  /** Row `m` belongs to one of the objects (t, ids). */
  predicate MapsOneOf(m: DocMap, t: string, ids: seq<string>) {
    m.realmObjectType == t && m.realmObjectId in ids
  }

  /**
   * Every id ends up mapped. Rows of other objects are untouched; rows of
   * the objects keep their identity and get first revisions drawn during
   * the loop; rows added belong to the objects.
   */
  lemma {:induction false} UpdatedMappingsShape(s: Tables, t: string, ids: seq<string>, last: int)
    ensures var r := WithUpdatedMappings(s, t, ids, last);
      r.sequences == s.sequences && r.uuid >= s.uuid && |r.docMaps| >= |s.docMaps| &&
      (forall i :: 0 <= i < |s.docMaps| ==> SameIdentity(s.docMaps[i], r.docMaps[i])) &&
      (forall i :: 0 <= i < |ids| ==> HasMapping(r.docMaps, t, ids[i]))
    ensures var r := WithUpdatedMappings(s, t, ids, last);
      (forall i :: 0 <= i < |s.docMaps| && !MapsOneOf(s.docMaps[i], t, ids) ==> r.docMaps[i] == s.docMaps[i]) &&
      (forall i :: 0 <= i < |s.docMaps| && MapsOneOf(s.docMaps[i], t, ids) ==>
         IsFirstRevision(r.docMaps[i].couchRev) && DrawnBetween(r.docMaps[i].couchRev, s.uuid, r.uuid)) &&
      (forall i :: |s.docMaps| <= i < |r.docMaps| ==> MapsOneOf(r.docMaps[i], t, ids))
    decreases |ids|
  {
    if ids != [] {
      var s1 := WithUpdatedMapping(s, t, ids[0], last + 1);
      UpdatedMappingShape(s, t, ids[0], last + 1);
      UpdatedMappingsShape(s1, t, ids[1..], last + 1);
      var r := WithUpdatedMappings(s, t, ids, last);
      assert r == WithUpdatedMappings(s1, t, ids[1..], last + 1);
      forall i | 0 <= i < |s.docMaps| ensures SameIdentity(s.docMaps[i], r.docMaps[i]) {
        assert SameIdentity(s.docMaps[i], s1.docMaps[i]);
      }
      forall i | 0 <= i < |ids| ensures HasMapping(r.docMaps, t, ids[i]) {
        if i == 0 {
          var j :| 0 <= j < |s1.docMaps| && Maps(s1.docMaps[j], t, ids[0]);
          assert SameIdentity(s1.docMaps[j], r.docMaps[j]);
          assert Maps(r.docMaps[j], t, ids[0]);
        } else {
          assert ids[i] == ids[1..][i - 1];
        }
      }
      forall i | 0 <= i < |s.docMaps| && !MapsOneOf(s.docMaps[i], t, ids) ensures r.docMaps[i] == s.docMaps[i] {
        assert !Maps(s.docMaps[i], t, ids[0]);
        assert !MapsOneOf(s1.docMaps[i], t, ids[1..]);
      }
      forall i | 0 <= i < |s.docMaps| && MapsOneOf(s.docMaps[i], t, ids)
        ensures IsFirstRevision(r.docMaps[i].couchRev) && DrawnBetween(r.docMaps[i].couchRev, s.uuid, r.uuid)
      {
        if Maps(s.docMaps[i], t, ids[0]) {
          assert Restamps(s.docMaps[i], s1.docMaps[i], last + 1, s.uuid, s1.uuid);
          if !MapsOneOf(s1.docMaps[i], t, ids[1..]) {
            assert r.docMaps[i] == s1.docMaps[i];
          }
        } else {
          assert s1.docMaps[i] == s.docMaps[i];
          assert MapsOneOf(s1.docMaps[i], t, ids[1..]);
        }
      }
      forall i | |s.docMaps| <= i < |r.docMaps| ensures MapsOneOf(r.docMaps[i], t, ids) {
        if i < |s1.docMaps| {
          assert Maps(s1.docMaps[i], t, ids[0]);
          if !MapsOneOf(s1.docMaps[i], t, ids[1..]) {
            assert r.docMaps[i] == s1.docMaps[i];
          } else {
            assert SameIdentity(s1.docMaps[i], r.docMaps[i]);
          }
        } else {
          assert MapsOneOf(r.docMaps[i], t, ids[1..]);
        }
      }
    }
  }

  /**
   * The loop numbers the objects last+1, last+2, ...: once the loop is done,
   * every row of an object carries the number of that object's last
   * occurrence in `ids`.
   */
  lemma {:induction false} UpdatedMappingsNumbered(s: Tables, t: string, ids: seq<string>, last: int)
    ensures var r := WithUpdatedMappings(s, t, ids, last);
      forall j, i :: 0 <= j < |ids| && ids[j] !in ids[j + 1..] && 0 <= i < |r.docMaps| && Maps(r.docMaps[i], t, ids[j]) ==>
        r.docMaps[i].couchSequence == last + 1 + j
    decreases |ids|
  {
    if ids != [] {
      var s1 := WithUpdatedMapping(s, t, ids[0], last + 1);
      var r := WithUpdatedMappings(s, t, ids, last);
      assert r == WithUpdatedMappings(s1, t, ids[1..], last + 1);
      UpdatedMappingsNumbered(s1, t, ids[1..], last + 1);
      if ids[0] !in ids[1..] {
        FirstIdNumbered(s, t, ids, last);
      }
      forall j, i | 0 < j < |ids| && ids[j] !in ids[j + 1..] && 0 <= i < |r.docMaps| && Maps(r.docMaps[i], t, ids[j])
        ensures r.docMaps[i].couchSequence == last + 1 + j
      {
        assert ids[j] == ids[1..][j - 1];
        assert ids[1..][j - 1 + 1..] == ids[j + 1..];
      }
    }
  }

  /** An id that does not come again keeps the number its own turn gave it. */
  lemma FirstIdNumbered(s: Tables, t: string, ids: seq<string>, last: int)
    requires ids != [] && ids[0] !in ids[1..]
    ensures var r := WithUpdatedMappings(s, t, ids, last);
      forall i :: 0 <= i < |r.docMaps| && Maps(r.docMaps[i], t, ids[0]) ==> r.docMaps[i].couchSequence == last + 1
  {
    var s1 := WithUpdatedMapping(s, t, ids[0], last + 1);
    var r := WithUpdatedMappings(s, t, ids, last);
    assert r == WithUpdatedMappings(s1, t, ids[1..], last + 1);
    assert forall i :: 0 <= i < |s1.docMaps| && Maps(s1.docMaps[i], t, ids[0]) ==> s1.docMaps[i].couchSequence == last + 1 by {
      UpdatedMappingShape(s, t, ids[0], last + 1);
    }
    UpdatedMappingsShape(s1, t, ids[1..], last + 1);
    forall i | 0 <= i < |r.docMaps| && Maps(r.docMaps[i], t, ids[0]) ensures r.docMaps[i].couchSequence == last + 1 {
      if i < |s1.docMaps| {
        assert SameIdentity(s1.docMaps[i], r.docMaps[i]);
        assert !MapsOneOf(s1.docMaps[i], t, ids[1..]);
      }
    }
  }

  /** `self.lastSequences[t]?.lastPushSequence ?? 0`: the row's live push sequence once it has been delivered. */
  function LastPush(s: Tables, t: string, delivered: set<string>): int {
    if t in delivered && t in s.sequences then s.sequences[t].lastPushSequence else 0
  }

  /** `self.lastSequenceTrackers[t]?.updateLastPushSequence(...)`: a write only when `t` has a tracker. */
  function WithTrackedPush(s: Tables, t: string, tracked: bool, n: int): (r: Tables)
    ensures r.docMaps == s.docMaps && r.uuid >= s.uuid
    ensures Issued(s) ==> Issued(r)
  {
    if tracked then WithPushSequence(s, t, n) else s
  }

  /** addObjectMappings: nothing for no insertions; otherwise new rows numbered after the last push, which then advances. */
  function AddObjectMappingsSpec(s: Tables, t: string, ids: seq<string>, delivered: set<string>, tracked: bool): (r: Tables)
    ensures Issued(s) ==> Issued(r)
  {
    if |ids| == 0 then s
    else
      var last := LastPush(s, t, delivered);
      WithTrackedPush(WithNewMappings(s, t, ids, last), t, tracked, last + |ids|)
  }

  /** addMissingObjectMappings: like addObjectMappings, but the push sequence is written even for no objects. */
  function AddMissingObjectMappingsSpec(s: Tables, t: string, ids: seq<string>, delivered: set<string>, tracked: bool): (r: Tables)
    ensures Issued(s) ==> Issued(r)
  {
    var last := LastPush(s, t, delivered);
    WithTrackedPush(WithNewMappings(s, t, ids, last), t, tracked, last + |ids|)
  }

  /** addOrUpdateObjectMappings: nothing for no modifications; otherwise restamped or new rows numbered after the last push. */
  function AddOrUpdateObjectMappingsSpec(s: Tables, t: string, ids: seq<string>, delivered: set<string>, tracked: bool): (r: Tables)
    ensures Issued(s) ==> Issued(r)
  {
    if |ids| == 0 then s
    else
      var last := LastPush(s, t, delivered);
      WithTrackedPush(WithUpdatedMappings(s, t, ids, last), t, tracked, last + |ids|)
  }

  /**
   * Bootstrapping a tracked, delivered type appends one row per object,
   * numbered last+1 .. last+|ids| with first revisions, and moves the push
   * sequence to the highest of those numbers.
   */
  lemma AddedMappingsNumbered(s: Tables, t: string, ids: seq<string>, delivered: set<string>)
    requires t in delivered && t in s.sequences
    ensures var r := AddMissingObjectMappingsSpec(s, t, ids, delivered, true);
      var last := s.sequences[t].lastPushSequence;
      |r.docMaps| == |s.docMaps| + |ids| && r.docMaps[..|s.docMaps|] == s.docMaps &&
      t in r.sequences && r.sequences[t].lastPushSequence == last + |ids| &&
      r.sequences[t].lastPullSequence == s.sequences[t].lastPullSequence &&
      forall i :: 0 <= i < |ids| ==>
        Maps(r.docMaps[|s.docMaps| + i], t, ids[i]) && r.docMaps[|s.docMaps| + i].couchSequence == last + 1 + i &&
        r.docMaps[|s.docMaps| + i].couchSequence <= r.sequences[t].lastPushSequence
  {
    NewMappingsShape(s, t, ids, s.sequences[t].lastPushSequence);
  }

  /**
   * An update on a tracked, delivered type: the j-th inserted id gets a new
   * row numbered last+1+j (unless it is also modified, which renumbers it),
   * and every row of a modified id ends up with the number of that id's last
   * modification, counted on after the insertions.
   */
  lemma ChangedMappingsNumbered(s: Tables, t: string, ins: seq<string>, mods: seq<string>, delivered: set<string>)
    requires t in delivered && t in s.sequences
    ensures var r := AddOrUpdateObjectMappingsSpec(AddObjectMappingsSpec(s, t, ins, delivered, true), t, mods, delivered, true);
      var last := s.sequences[t].lastPushSequence;
      |r.docMaps| >= |s.docMaps| + |ins| &&
      (forall j :: 0 <= j < |ins| && ins[j] !in mods ==>
         Maps(r.docMaps[|s.docMaps| + j], t, ins[j]) && r.docMaps[|s.docMaps| + j].couchSequence == last + 1 + j) &&
      (forall j, i :: 0 <= j < |mods| && mods[j] !in mods[j + 1..] && 0 <= i < |r.docMaps| && Maps(r.docMaps[i], t, mods[j]) ==>
         r.docMaps[i].couchSequence == last + |ins| + 1 + j)
  {
    InsertedMappingsNumbered(s, t, ins, mods, delivered);
    ModifiedMappingsNumbered(s, t, ins, mods, delivered);
  }

  /** addObjectMappings appends one row per id, numbered after the last push sequence. */
  lemma AddedRowsNumbered(s: Tables, t: string, ins: seq<string>, delivered: set<string>, tracked: bool)
    ensures var s1 := AddObjectMappingsSpec(s, t, ins, delivered, tracked);
      |s1.docMaps| == |s.docMaps| + |ins| && s1.docMaps[..|s.docMaps|] == s.docMaps &&
      forall j :: 0 <= j < |ins| ==>
        Maps(s1.docMaps[|s.docMaps| + j], t, ins[j]) && s1.docMaps[|s.docMaps| + j].couchSequence == LastPush(s, t, delivered) + 1 + j
  {
    if |ins| > 0 {
      var last := LastPush(s, t, delivered);
      NewMappingsShape(s, t, ins, last);
      var s0 := WithNewMappings(s, t, ins, last);
      var s1 := AddObjectMappingsSpec(s, t, ins, delivered, tracked);
      assert s1 == WithTrackedPush(s0, t, tracked, last + |ins|);
      assert s1.docMaps == s0.docMaps;
      forall j | 0 <= j < |ins|
        ensures Maps(s1.docMaps[|s.docMaps| + j], t, ins[j]) && s1.docMaps[|s.docMaps| + j].couchSequence == last + 1 + j
      {
      }
    } else {
      assert s.docMaps[..|s.docMaps|] == s.docMaps;
    }
  }

  lemma InsertedMappingsNumbered(s: Tables, t: string, ins: seq<string>, mods: seq<string>, delivered: set<string>)
    requires t in delivered && t in s.sequences
    ensures var r := AddOrUpdateObjectMappingsSpec(AddObjectMappingsSpec(s, t, ins, delivered, true), t, mods, delivered, true);
      var last := s.sequences[t].lastPushSequence;
      |r.docMaps| >= |s.docMaps| + |ins| &&
      (forall j :: 0 <= j < |ins| && ins[j] !in mods ==>
         Maps(r.docMaps[|s.docMaps| + j], t, ins[j]) && r.docMaps[|s.docMaps| + j].couchSequence == last + 1 + j)
  {
    var s1 := AddObjectMappingsSpec(s, t, ins, delivered, true);
    AddedRowsNumbered(s, t, ins, delivered, true);
    var r := AddOrUpdateObjectMappingsSpec(s1, t, mods, delivered, true);
    if |mods| > 0 {
      var n := LastPush(s1, t, delivered);
      assert r.docMaps == WithUpdatedMappings(s1, t, mods, n).docMaps;
      assert |r.docMaps| >= |s1.docMaps| && forall i :: 0 <= i < |s1.docMaps| && !MapsOneOf(s1.docMaps[i], t, mods) ==> r.docMaps[i] == s1.docMaps[i] by {
        UpdatedMappingsShape(s1, t, mods, n);
      }
      forall j | 0 <= j < |ins| && ins[j] !in mods
        ensures r.docMaps[|s.docMaps| + j] == s1.docMaps[|s.docMaps| + j]
      {
        assert !MapsOneOf(s1.docMaps[|s.docMaps| + j], t, mods);
      }
    }
  }

  lemma ModifiedMappingsNumbered(s: Tables, t: string, ins: seq<string>, mods: seq<string>, delivered: set<string>)
    requires t in delivered && t in s.sequences
    ensures var r := AddOrUpdateObjectMappingsSpec(AddObjectMappingsSpec(s, t, ins, delivered, true), t, mods, delivered, true);
      var last := s.sequences[t].lastPushSequence;
      forall j, i :: 0 <= j < |mods| && mods[j] !in mods[j + 1..] && 0 <= i < |r.docMaps| && Maps(r.docMaps[i], t, mods[j]) ==>
        r.docMaps[i].couchSequence == last + |ins| + 1 + j
  {
    var s1 := AddObjectMappingsSpec(s, t, ins, delivered, true);
    assert LastPush(s1, t, delivered) == s.sequences[t].lastPushSequence + |ins|;
    if |mods| > 0 {
      var r := AddOrUpdateObjectMappingsSpec(s1, t, mods, delivered, true);
      assert r.docMaps == WithUpdatedMappings(s1, t, mods, LastPush(s1, t, delivered)).docMaps;
      UpdatedMappingsNumbered(s1, t, mods, LastPush(s1, t, delivered));
    }
  }

  /** Modifications never add a second row for an object that already has one. */
  lemma ModificationKeepsMappedRows(s: Tables, t: string, id: string, delivered: set<string>, tracked: bool)
    requires HasMapping(s.docMaps, t, id)
    ensures |AddOrUpdateObjectMappingsSpec(s, t, [id], delivered, tracked).docMaps| == |s.docMaps|
  {
    var last := LastPush(s, t, delivered);
    UpdatedMappingShape(s, t, id, last + 1);
    assert WithUpdatedMappings(s, t, [id], last) == WithUpdatedMappings(WithUpdatedMapping(s, t, id, last + 1), t, [], last + 1);
  }

  // ---------------------------------------------------------------- local changes

  predicate InWindow(m: DocMap, since: int, limit: int) {
    since < m.couchSequence <= since + limit
  }

  /** The `couchSequence > since AND couchSequence <= since + limit` query, rows of every type, in table order. */
  function RowsInWindow(rows: seq<DocMap>, since: int, limit: int): (r: seq<DocMap>)
    ensures forall m :: m in r <==> m in rows && InWindow(m, since, limit)
    ensures |r| <= |rows|
  {
    if rows == [] then []
    else
      var init := rows[..|rows| - 1];
      var last := rows[|rows| - 1];
      assert rows == init + [last];
      if InWindow(last, since, limit) then RowsInWindow(init, since, limit) + [last] else RowsInWindow(init, since, limit)
  }

  /** The greatest of `since` and the rows' sequences. */
  function MaxSequence(since: int, rows: seq<DocMap>): (r: int)
    ensures since <= r
    ensures forall i :: 0 <= i < |rows| ==> rows[i].couchSequence <= r
    ensures r == since || exists i :: 0 <= i < |rows| && rows[i].couchSequence == r
  {
    if rows == [] then since
    else
      var init := rows[..|rows| - 1];
      var m := MaxSequence(since, init);
      assert forall i :: 0 <= i < |init| ==> init[i] == rows[i];
      if rows[|rows| - 1].couchSequence > m then rows[|rows| - 1].couchSequence else m
  }

  /** localChanges: the rows in the window and the sequence to resume from. */
  function LocalChangesOf(rows: seq<DocMap>, since: int, limit: int): ObjectChanges {
    var window := RowsInWindow(rows, since, limit);
    ObjectChanges(MaxSequence(since, window), window)
  }

  /**
   * The batch holds exactly the rows in the window; its resume point is
   * `since` for an empty batch and otherwise the highest sequence in it,
   * never beyond the window.
   */
  lemma LocalChangesWindow(rows: seq<DocMap>, since: int, limit: int)
    requires 0 <= limit
    ensures var c := LocalChangesOf(rows, since, limit);
      (forall m :: m in c.realmDocMaps <==> m in rows && InWindow(m, since, limit)) &&
      since <= c.lastSequence <= since + limit &&
      (c.realmDocMaps == [] ==> c.lastSequence == since) &&
      (c.realmDocMaps != [] ==> exists i :: 0 <= i < |c.realmDocMaps| && c.realmDocMaps[i].couchSequence == c.lastSequence)
  {
    var c := LocalChangesOf(rows, since, limit);
    if c.realmDocMaps != [] {
      assert c.realmDocMaps[0] in c.realmDocMaps;
    }
    if c.lastSequence != since {
      var i :| 0 <= i < |c.realmDocMaps| && c.realmDocMaps[i].couchSequence == c.lastSequence;
      assert c.realmDocMaps[i] in rows;
    }
  }

  /** Rows written by a pull carry sequence 0 and are therefore never pushed back from a non-negative checkpoint. */
  lemma PulledRowsNeverPushed(rows: seq<DocMap>, since: int, limit: int, m: DocMap)
    requires 0 <= since && m in rows && m.couchSequence == 0
    ensures m !in LocalChangesOf(rows, since, limit).realmDocMaps
  {
  }
}

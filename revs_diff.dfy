/**
 * Which documents of a `_changes` feed the local store is missing
 * (ReplicationManager.localRevsDiff): a document counts as present when some
 * mapping row's document id is among the feed's ids and that row's revision
 * is among the feed's first revisions.
 */
module RevsDiff {
  import opened Wrappers
  import opened CouchDBTypes
  import opened RealmStore

  /** Every feed row lists at least one revision (`changes[0]` traps otherwise). */
  predicate HasRevisions(rows: seq<ChangeRow>) {
    forall i :: 0 <= i < |rows| ==> |rows[i].changes| > 0
  }

  function FeedIds(rows: seq<ChangeRow>): (r: seq<string>)
    ensures |r| == |rows| && forall i :: 0 <= i < |rows| ==> r[i] == rows[i].id
  {
    seq(|rows|, i requires 0 <= i < |rows| => rows[i].id)
  }

  function FeedRevs(rows: seq<ChangeRow>): (r: seq<string>)
    requires HasRevisions(rows)
    ensures |r| == |rows| && forall i :: 0 <= i < |rows| ==> r[i] == rows[i].changes[0]
  {
    seq(|rows|, i requires 0 <= i < |rows| => rows[i].changes[0])
  }

  /** The document ids of the rows matched by `couchDocId IN ids AND couchRev IN revs`, in table order. */
  function MatchingDocIds(docMaps: seq<DocMap>, ids: seq<string>, revs: seq<string>): (r: seq<string>)
    ensures forall x :: x in r <==> exists m :: m in docMaps && m.couchDocId == x && x in ids && m.couchRev in revs
  {
    if docMaps == [] then []
    else
      var init := docMaps[..|docMaps| - 1];
      var m := docMaps[|docMaps| - 1];
      assert docMaps == init + [m];
      var rest := MatchingDocIds(init, ids, revs);
      if m.couchDocId in ids && m.couchRev in revs then rest + [m.couchDocId] else rest
  }

  /** The bulk document a feed row turns into. */
  function BulkDocOf(row: ChangeRow): BulkDoc
    requires |row.changes| > 0
  {
    BulkDoc(DocRev(row.id, row.changes[0], row.deleted), row.doc)
  }

  /** The rows whose id is not in `matching`, as bulk documents, in feed order. */
  function MissingDocs(rows: seq<ChangeRow>, matching: seq<string>): (r: seq<BulkDoc>)
    requires HasRevisions(rows)
    ensures |r| <= |rows|
    ensures forall d :: d in r <==> exists i :: 0 <= i < |rows| && rows[i].id !in matching && d == BulkDocOf(rows[i])
  {
    if rows == [] then []
    else
      var init := rows[..|rows| - 1];
      var row := rows[|rows| - 1];
      assert rows == init + [row];
      var rest := MissingDocs(init, matching);
      if row.id !in matching then rest + [BulkDocOf(row)] else rest
  }

  /** localRevsDiff as a function of the mapping table and the feed. */
  function RevsDiffOf(docMaps: seq<DocMap>, rows: seq<ChangeRow>): seq<BulkDoc>
    requires HasRevisions(rows)
  {
    MissingDocs(rows, MatchingDocIds(docMaps, FeedIds(rows), FeedRevs(rows)))
  }

  /** The first loop of localRevsDiff: the feed's ids and first revisions, in feed order. */
  method FeedIdsAndRevs(rows: seq<ChangeRow>) returns (ids: seq<string>, revs: seq<string>)
    requires HasRevisions(rows)
    ensures ids == FeedIds(rows) && revs == FeedRevs(rows)
  {
    ids, revs := [], [];
    for i := 0 to |rows|
      invariant |ids| == i && forall j :: 0 <= j < i ==> ids[j] == rows[j].id
      invariant |revs| == i && forall j :: 0 <= j < i ==> revs[j] == rows[j].changes[0]
    {
      ids := ids + [rows[i].id];
      revs := revs + [rows[i].changes[0]];
    }
  }

  /** The mapping-table query of localRevsDiff, scanning the table in order. */
  method MatchingDocIdsIn(docMaps: seq<DocMap>, ids: seq<string>, revs: seq<string>) returns (matching: seq<string>)
    ensures matching == MatchingDocIds(docMaps, ids, revs)
  {
    matching := [];
    for k := 0 to |docMaps|
      invariant matching == MatchingDocIds(docMaps[..k], ids, revs)
    {
      assert docMaps[..k + 1][..k] == docMaps[..k];
      if docMaps[k].couchDocId in ids && docMaps[k].couchRev in revs {
        matching := matching + [docMaps[k].couchDocId];
      }
    }
    assert docMaps[..|docMaps|] == docMaps;
  }

  /** The last loop of localRevsDiff: the feed rows whose id was not matched. */
  method MissingRows(rows: seq<ChangeRow>, matching: seq<string>) returns (missingDocs: seq<BulkDoc>)
    requires HasRevisions(rows)
    ensures missingDocs == MissingDocs(rows, matching)
  {
    missingDocs := [];
    for i := 0 to |rows|
      invariant missingDocs == MissingDocs(rows[..i], matching)
    {
      assert rows[..i + 1][..i] == rows[..i];
      if rows[i].id !in matching {
        missingDocs := missingDocs + [BulkDoc(DocRev(rows[i].id, rows[i].changes[0], rows[i].deleted), rows[i].doc)];
      }
    }
    assert rows[..|rows|] == rows;
  }

  /** Some mapping row has document `id` and one of `revs`. */
  predicate Present(docMaps: seq<DocMap>, id: string, revs: seq<string>) {
    exists m :: m in docMaps && m.couchDocId == id && m.couchRev in revs
  }

  /**
   * A feed row is reported exactly when no mapping row carries its id with any
   * of the feed's first revisions; the reported document keeps the row's
   * id, first revision, deletion flag and body.
   */
  lemma RevsDiffExact(docMaps: seq<DocMap>, rows: seq<ChangeRow>)
    requires HasRevisions(rows)
    ensures forall d :: d in RevsDiffOf(docMaps, rows) <==>
      exists i :: 0 <= i < |rows| && !Present(docMaps, rows[i].id, FeedRevs(rows)) && d == BulkDocOf(rows[i])
  {
    var ids, revs := FeedIds(rows), FeedRevs(rows);
    var matching := MatchingDocIds(docMaps, ids, revs);
    forall i | 0 <= i < |rows| ensures rows[i].id in matching <==> Present(docMaps, rows[i].id, revs) {
      assert rows[i].id == ids[i];
    }
  }

  /** A document that the store holds at exactly the feed's revision is never reported missing. */
  lemma RevsDiffSound(docMaps: seq<DocMap>, rows: seq<ChangeRow>, i: int, m: DocMap)
    requires HasRevisions(rows) && 0 <= i < |rows|
    requires m in docMaps && m.couchDocId == rows[i].id && m.couchRev == rows[i].changes[0]
    ensures forall d :: d in RevsDiffOf(docMaps, rows) ==> d.docRev.docId != rows[i].id
  {
    var ids, revs := FeedIds(rows), FeedRevs(rows);
    assert ids[i] == rows[i].id && revs[i] == rows[i].changes[0];
    assert rows[i].id in MatchingDocIds(docMaps, ids, revs);
  }

  /**
   * The two IN sets are independent: a document held at another document's
   * revision counts as present. Here the store holds a at 1-y and b at 1-x,
   * the feed offers a at 1-x and b at 1-y, and nothing is reported.
   */
  lemma CrossMatchedRevisionsCountAsPresent()
    ensures var docMaps := [DocMap("Task", "o1", "a", "1-y", 1), DocMap("Task", "o2", "b", "1-x", 2)];
      var rows := [ChangeRow("1", "a", ["1-x"], false, None), ChangeRow("2", "b", ["1-y"], false, None)];
      (forall m :: m in docMaps ==> (m.couchDocId, m.couchRev) != ("a", "1-x") && (m.couchDocId, m.couchRev) != ("b", "1-y")) &&
      RevsDiffOf(docMaps, rows) == []
  {
    var docMaps := [DocMap("Task", "o1", "a", "1-y", 1), DocMap("Task", "o2", "b", "1-x", 2)];
    var rows := [ChangeRow("1", "a", ["1-x"], false, None), ChangeRow("2", "b", ["1-y"], false, None)];
    var ids, revs := FeedIds(rows), FeedRevs(rows);
    assert ids == ["a", "b"] && revs == ["1-x", "1-y"];
    var matching := MatchingDocIds(docMaps, ids, revs);
    assert docMaps[0] in docMaps && docMaps[1] in docMaps;
    assert "a" in matching && "b" in matching;
  }
}

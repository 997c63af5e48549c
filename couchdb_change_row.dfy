/**
 * Parsing of one `_changes` result row (CouchDBChangeRow.init(dict:)).
 * `seq` and `id` are force-cast to strings, and so is the `rev` of every
 * element of a `changes` list of objects: those casts trap in the source,
 * so they are the parser's precondition.
 */
module CouchDBChangeRow {
  import opened Wrappers
  import opened Json
  import opened CouchDBTypes

  /** `dict[k] as? [[String:AnyObject]]` succeeds: a list whose every element is an object. */
  predicate IsObjectList(j: Json) {
    j.JArr? && forall i :: 0 <= i < |j.items| ==> j.items[i].JObj?
  }

  predicate HasStringRev(j: Json) {
    j.JObj? && "rev" in j.fields && j.fields["rev"].JStr?
  }

  predicate IsStringAt(dict: Dict, k: string) {
    k in dict && dict[k].JStr?
  }

  /** The `changes` entry, when it is a list of objects. */
  function ChangesList(dict: Dict): Option<seq<Json>> {
    if "changes" in dict && IsObjectList(dict["changes"]) then Some(dict["changes"].items) else None
  }

  /** The row can be parsed without trapping. */
  predicate Parseable(dict: Dict) {
    && IsStringAt(dict, "seq")
    && IsStringAt(dict, "id")
    && (ChangesList(dict).Some? ==> forall i :: 0 <= i < |ChangesList(dict).value| ==> HasStringRev(ChangesList(dict).value[i]))
  }

  /** The `rev` strings of a list of change objects, in order. */
  function Revs(items: seq<Json>): (r: seq<string>)
    requires forall i :: 0 <= i < |items| ==> items[i].JObj? && "rev" in items[i].fields && items[i].fields["rev"].JStr?
    ensures |r| == |items|
    ensures forall i :: 0 <= i < |items| ==> r[i] == items[i].fields["rev"].s
  {
    if items == [] then [] else Revs(items[..|items| - 1]) + [items[|items| - 1].fields["rev"].s]
  }

  /**
   * `dict["deleted"] as? Bool ?? false`: a boolean is taken as it is and,
   * through the NSNumber bridge, a number counts as true unless it is zero;
   * anything else, or no entry, is false.
   */
  function DeletedFlag(dict: Dict): bool {
    if "deleted" !in dict then false
    else match dict["deleted"]
      case JBool(b) => b
      case JNum(n) => n != 0
      case _ => false
  }

  /** The row the parser produces for `dict`. */
  function RowOf(dict: Dict): ChangeRow
    requires Parseable(dict)
  {
    ChangeRow(
      dict["seq"].s,
      dict["id"].s,
      if ChangesList(dict).Some? then Revs(ChangesList(dict).value) else [],
      DeletedFlag(dict),
      if "doc" in dict && dict["doc"].JObj? then Some(dict["doc"].fields) else None)
  }

  /** CouchDBChangeRow.init(dict:). */
  method Parse(dict: Dict) returns (row: ChangeRow)
    requires Parseable(dict)
    ensures row == RowOf(dict)
    ensures row.sequence == dict["seq"].s && row.id == dict["id"].s
    ensures row.deleted <==> "deleted" in dict && (dict["deleted"] == JBool(true) || (dict["deleted"].JNum? && dict["deleted"].n != 0))
    ensures row.doc.Some? <==> "doc" in dict && dict["doc"].JObj?
    ensures row.doc.Some? ==> row.doc.value == dict["doc"].fields
    ensures ChangesList(dict).None? ==> row.changes == []
    ensures ChangesList(dict).Some? ==>
              |row.changes| == |ChangesList(dict).value|
              && forall i :: 0 <= i < |row.changes| ==> row.changes[i] == ChangesList(dict).value[i].fields["rev"].s
  {
    var sequence := dict["seq"].s;
    var id := dict["id"].s;
    var deleted := DeletedFlag(dict);
    var doc: Option<Dict> := if "doc" in dict && dict["doc"].JObj? then Some(dict["doc"].fields) else None;
    var changes: seq<string> := [];
    var changesArray := ChangesList(dict);
    if changesArray.Some? {
      var items := changesArray.value;
      for i := 0 to |items|
        invariant changes == Revs(items[..i])
      {
        assert items[..i + 1][..i] == items[..i];
        changes := changes + [items[i].fields["rev"].s];
      }
      assert items[..|items|] == items;
    }
    row := ChangeRow(sequence, id, changes, deleted, doc);
  }

  /** One row as the `_changes` feed writes it: `{seq, id, changes: [{rev}], deleted?, doc?}`. */
  function FeedRow(row: ChangeRow): Dict {
    map["seq" := JStr(row.sequence), "id" := JStr(row.id), "changes" := JArr(RevObjects(row.changes))]
    + (if row.deleted then map["deleted" := JBool(true)] else map[])
    + (if row.doc.Some? then map["doc" := JObj(row.doc.value)] else map[])
  }

  function RevObjects(revs: seq<string>): (r: seq<Json>)
    ensures |r| == |revs|
    ensures forall i :: 0 <= i < |revs| ==> r[i] == JObj(map["rev" := JStr(revs[i])])
  {
    seq(|revs|, i requires 0 <= i < |revs| => JObj(map["rev" := JStr(revs[i])]))
  }

  /** Parsing a row written in the feed's format gives the row back. */
  lemma {:induction false} ParseFeedRow(row: ChangeRow)
    ensures Parseable(FeedRow(row))
    ensures RowOf(FeedRow(row)) == row
  {
    var d := FeedRow(row);
    assert d["seq"] == JStr(row.sequence) && d["id"] == JStr(row.id);
    assert d["changes"] == JArr(RevObjects(row.changes));
    assert IsObjectList(d["changes"]);
    var revs := Revs(RevObjects(row.changes));
    assert revs == row.changes;
    assert DeletedFlag(d) == row.deleted;
  }
}

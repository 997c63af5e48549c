/**
 * Serialisation of one bulk document (CouchDBBulkDoc.toDictionary): the
 * payload is merged with `_id` and `_rev`; a payload key that is already
 * present in the result at the moment it is copied is written under
 * `"_" + key` instead.
 *
 * The payload's keys are visited in the dictionary's own (unspecified)
 * order, so the loop picks any key not yet visited. Every fact below holds
 * whatever that order is.
 */
module CouchDBBulkDoc {
  import opened Wrappers
  import opened Json
  import opened CouchDBTypes

  const IdKey: string := "_id"
  const RevKey: string := "_rev"

  predicate StartsWithUnderscore(k: string) {
    |k| > 0 && k[0] == '_'
  }

  /** The name a colliding payload key is written under. */
  function Renamed(k: string): (r: string)
    ensures StartsWithUnderscore(r) && r[1..] == k
  {
    "_" + k
  }

  /** Every key of `r` is `_id`, `_rev`, a key of `keys` or `"_"` + a key of `keys`. */
  ghost predicate KeysFrom(r: Dict, keys: set<string>) {
    forall w :: w in r ==> w == IdKey || w == RevKey || w in keys || (StartsWithUnderscore(w) && w[1..] in keys)
  }

  /**
   * Every payload value reaches the result under its own name or the
   * renamed one, except where a key `"_" + k` was overwritten by the
   * renamed copy of `k` (the lossy case of the collision rule).
   */
  ghost predicate ValuesArrive(r: Dict, payload: Dict, keys: set<string>)
    requires keys <= payload.Keys
  {
    forall k :: k in keys ==>
      (k in r && r[k] == payload[k])
      || (Renamed(k) in r && r[Renamed(k)] == payload[k])
      || (StartsWithUnderscore(k) && k[1..] in keys)
  }

  /** A key without a leading underscore never collides: it is copied verbatim. */
  ghost predicate PlainKeysVerbatim(r: Dict, payload: Dict, keys: set<string>)
    requires keys <= payload.Keys
  {
    forall k :: k in keys && !StartsWithUnderscore(k) ==> k in r && r[k] == payload[k]
  }

  /** A payload `_id` or `_rev` collides with the reserved field and ends up under `__id` / `__rev`. */
  ghost predicate ReservedKeysRenamed(r: Dict, payload: Dict, keys: set<string>)
    requires keys <= payload.Keys
  {
    forall k :: k in keys && (k == IdKey || k == RevKey) ==> Renamed(k) in r && r[Renamed(k)] == payload[k]
  }

  /** What `toDictionary` promises of its result for `bd`. */
  ghost predicate IsBulkDocDict(bd: BulkDoc, r: Dict) {
    && IdKey in r && r[IdKey] == JStr(bd.docRev.docId)
    && RevKey in r && r[RevKey] == JStr(bd.docRev.revision)
    && (bd.doc.None? ==> r.Keys == {IdKey, RevKey})
    && (bd.doc.Some? ==>
          && KeysFrom(r, bd.doc.value.Keys)
          && ValuesArrive(r, bd.doc.value, bd.doc.value.Keys)
          && PlainKeysVerbatim(r, bd.doc.value, bd.doc.value.Keys)
          && ReservedKeysRenamed(r, bd.doc.value, bd.doc.value.Keys))
  }

  lemma RenamedInjective(a: string, b: string)
    requires Renamed(a) == Renamed(b)
    ensures a == b
  {
    assert a == Renamed(a)[1..];
  }

  /** The invariant of toDictionary's loop once the payload keys `done` are copied. */
  ghost predicate CopiedSoFar(bd: BulkDoc, r: Dict, done: set<string>)
    requires bd.doc.Some? && done <= bd.doc.value.Keys
  {
    && IdKey in r && r[IdKey] == JStr(bd.docRev.docId)
    && RevKey in r && r[RevKey] == JStr(bd.docRev.revision)
    && KeysFrom(r, done)
    && ValuesArrive(r, bd.doc.value, done)
    && PlainKeysVerbatim(r, bd.doc.value, done)
    && ReservedKeysRenamed(r, bd.doc.value, done)
  }

  /** Copying a key that does not collide keeps the loop invariant. */
  lemma CopyVerbatimPreserves(bd: BulkDoc, before: Dict, done: set<string>, key: string)
    requires bd.doc.Some? && done <= bd.doc.value.Keys && key in bd.doc.value.Keys && key !in done
    requires CopiedSoFar(bd, before, done) && key !in before
    ensures CopiedSoFar(bd, before[key := bd.doc.value[key]], done + {key})
  {
  }

  /** Copying a colliding key under its renamed name keeps the loop invariant. */
  lemma CopyRenamedPreserves(bd: BulkDoc, before: Dict, done: set<string>, key: string)
    requires bd.doc.Some? && done <= bd.doc.value.Keys && key in bd.doc.value.Keys && key !in done
    requires CopiedSoFar(bd, before, done) && key in before
    ensures CopiedSoFar(bd, before[Renamed(key) := bd.doc.value[key]], done + {key})
  {
    var payload := bd.doc.value;
    var after := before[Renamed(key) := payload[key]];
    // "id" or "rev" is never present before it is visited, so `_id` and `_rev` survive
    assert key != "id" && key != "rev";
    assert Renamed(key) != IdKey && Renamed(key) != RevKey;
    RenamedKeysFrom(before, done, key, payload[key]);
    RenamedValuesArrive(before, payload, done, key);
    RenamedPlainKeysVerbatim(before, payload, done, key);
    RenamedReservedKeys(before, payload, done, key);
  }

  lemma RenamedKeysFrom(before: Dict, done: set<string>, key: string, v: Json)
    requires KeysFrom(before, done)
    ensures KeysFrom(before[Renamed(key) := v], done + {key})
  {
  }

  lemma RenamedValuesArrive(before: Dict, payload: Dict, done: set<string>, key: string)
    requires done <= payload.Keys && key in payload.Keys && key !in done
    requires ValuesArrive(before, payload, done)
    ensures ValuesArrive(before[Renamed(key) := payload[key]], payload, done + {key})
  {
    var after := before[Renamed(key) := payload[key]];
    forall k | k in done + {key}
      ensures (k in after && after[k] == payload[k])
        || (Renamed(k) in after && after[Renamed(k)] == payload[k])
        || (StartsWithUnderscore(k) && k[1..] in done + {key})
    {
      if k != key && Renamed(k) == Renamed(key) {
        RenamedInjective(k, key);
      }
    }
  }

  lemma RenamedPlainKeysVerbatim(before: Dict, payload: Dict, done: set<string>, key: string)
    requires done <= payload.Keys && key in payload.Keys && key !in done
    requires PlainKeysVerbatim(before, payload, done) && key in before
    requires key != IdKey && key != RevKey ==> StartsWithUnderscore(key)
    ensures PlainKeysVerbatim(before[Renamed(key) := payload[key]], payload, done + {key})
  {
  }

  lemma RenamedReservedKeys(before: Dict, payload: Dict, done: set<string>, key: string)
    requires done <= payload.Keys && key in payload.Keys && key !in done
    requires ReservedKeysRenamed(before, payload, done)
    ensures ReservedKeysRenamed(before[Renamed(key) := payload[key]], payload, done + {key})
  {
    forall k | k in done && (k == IdKey || k == RevKey) ensures Renamed(k) != Renamed(key) {
      if Renamed(k) == Renamed(key) { RenamedInjective(k, key); }
    }
  }

  /** CouchDBBulkDoc.toDictionary. The `deleted` flag is never written. */
  method ToDictionary(bd: BulkDoc) returns (dict: Dict)
    ensures IsBulkDocDict(bd, dict)
  {
    dict := map[IdKey := JStr(bd.docRev.docId), RevKey := JStr(bd.docRev.revision)];
    if bd.doc.Some? {
      var payload := bd.doc.value;
      var remaining := payload.Keys;
      ghost var done: set<string> := {};
      while remaining != {}
        invariant remaining + done == payload.Keys && remaining !! done
        invariant CopiedSoFar(bd, dict, done)
        decreases remaining
      {
        var key :| key in remaining;
        if key in dict {
          CopyRenamedPreserves(bd, dict, done, key);
          dict := dict[Renamed(key) := payload[key]];
        } else {
          CopyVerbatimPreserves(bd, dict, done, key);
          dict := dict[key := payload[key]];
        }
        remaining := remaining - {key};
        done := done + {key};
      }
    }
  }
}

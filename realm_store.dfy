/**
 * The local Realm database as the sync engine sees it: the objects of each
 * registered type, the mapping table (RealmObjectCouchDBDocMap rows), the
 * per-type sequence rows (RealmObjectCouchDBSequence, primary key
 * `realmObjectType`) and the issuing of notification tokens. Fresh UUIDs
 * (`NSUUID().UUIDString`) come from a counter-driven oracle.
 */
module RealmStore {
  import opened Wrappers
  import opened Json

  /** A realm object: its property values by name. */
  datatype RealmObject = RealmObject(fields: Dict)

  /** One mapping row: which CouchDB document and revision a realm object is. */
  datatype DocMap = DocMap(realmObjectType: string, realmObjectId: string, couchDocId: string, couchRev: string, couchSequence: int)

  /** The sequence row of one type. */
  datatype SequenceRow = SequenceRow(realmObjectType: string, realmObjectReplicatorId: string, lastPushSequence: int, lastPullSequence: Option<string>)

  /** A batch of mapping rows read for a push, with the highest sequence seen (RealmObjectChanges). */
  datatype ObjectChanges = ObjectChanges(lastSequence: int, realmDocMaps: seq<DocMap>)

  /** `realm.objects(T)` for the type named `t`. */
  function ObjectsOf(objects: map<string, seq<RealmObject>>, t: string): seq<RealmObject> {
    if t in objects then objects[t] else []
  }

  /** The sequence table holds each row under its own primary key. */
  predicate KeyedByType(sequences: map<string, SequenceRow>) {
    forall t :: t in sequences ==> sequences[t].realmObjectType == t
  }

  /**
   * The `n`-th UUID the oracle hands out. Only freshness matters to the
   * engine, so the n-th string is simply "uuid-" followed by n zeros.
   */
  function Uuid(n: nat): (u: string)
    ensures |u| == 5 + n
  {
    "uuid-" + seq(n, i => '0')
  }

  /** The oracle never hands out the same UUID twice. */
  lemma UuidInjective(a: nat, b: nat)
    ensures Uuid(a) == Uuid(b) ==> a == b
  {
  }

  /** Stand-in for NSUUID: the `counter`-th call yields Uuid(counter). */
  class UuidSource {
    var counter: nat

    constructor ()
      ensures counter == 0
    {
      counter := 0;
    }

    method Next() returns (u: string)
      modifies this
      ensures u == Uuid(old(counter)) && counter == old(counter) + 1
      ensures forall i :: 0 <= i < old(counter) ==> u != Uuid(i)
    {
      u := Uuid(counter);
      forall i | 0 <= i < counter ensures u != Uuid(i) { UuidInjective(i, counter); }
      counter := counter + 1;
    }
  }

  class Realm {
    var objects: map<string, seq<RealmObject>>
    var docMaps: seq<DocMap>
    var sequences: map<string, SequenceRow>
    var nextToken: nat

    ghost predicate Valid()
      reads this`sequences
    {
      KeyedByType(sequences)
    }

    constructor (objects: map<string, seq<RealmObject>>)
      ensures Valid()
      ensures this.objects == objects && docMaps == [] && sequences == map[] && nextToken == 0
    {
      this.objects := objects;
      docMaps := [];
      sequences := map[];
      nextToken := 0;
    }

    /** Registers a notification block and returns its (fresh) token. */
    method AddNotificationBlock() returns (token: nat)
      modifies this`nextToken
      ensures token == old(nextToken) && nextToken == token + 1
    {
      token := nextToken;
      nextToken := nextToken + 1;
    }
  }
}

/**
 * Identity-based access to the realm objects of one registered type
 * (RealmObjectManager): the configured id field, look-up by id and by a
 * list of ids, conversion to and from a dictionary, and the change
 * notification token.
 */
module RealmObjectManagers {
  import opened Wrappers
  import opened Json
  import opened RealmStore

  class RealmObjectManager {
    /** The property the manager reads an object's id from. */
    const idField: string
    /** The type's declared primary-key property (`T.primaryKey()`), which need not be `idField`. */
    const primaryKey: Option<string>
    /** The realm class name of the managed type. */
    const typeName: string
    /** The property names of the type's schema. */
    const properties: set<string>
    /** Whether `Object.objectClassFromString(typeName)` finds a class to instantiate. */
    const instantiable: bool
    var notificationToken: Option<nat>

    constructor (idField: string, typeName: string, primaryKey: Option<string>, properties: set<string>, instantiable: bool)
      ensures this.idField == idField && this.typeName == typeName && this.primaryKey == primaryKey
      ensures this.properties == properties && this.instantiable == instantiable
      ensures notificationToken.None?
    {
      this.idField := idField;
      this.primaryKey := primaryKey;
      this.typeName := typeName;
      this.properties := properties;
      this.instantiable := instantiable;
      notificationToken := None;
    }

    /** The object's id: the id field's value, when that is a string. */
    function IdOf(o: RealmObject): Option<string> {
      if idField in o.fields && o.fields[idField].JStr? then Some(o.fields[idField].s) else None
    }

    /** getObjectId: `object[idField] as! String` (the cast traps unless the value is a string). */
    function GetObjectId(o: RealmObject): (id: string)
      requires IdOf(o).Some?
      ensures idField in o.fields && o.fields[idField] == JStr(id)
      ensures IdOf(o) == Some(id)
    {
      o.fields[idField].s
    }

    /** The position of the first object whose id is `id`. */
    function FirstIndexOfId(objects: seq<RealmObject>, id: string): (r: Option<nat>)
      ensures r.None? <==> forall i :: 0 <= i < |objects| ==> IdOf(objects[i]) != Some(id)
      ensures r.Some? ==> r.value < |objects| && IdOf(objects[r.value]) == Some(id)
      ensures r.Some? ==> forall j :: 0 <= j < r.value ==> IdOf(objects[j]) != Some(id)
    {
      if objects == [] then None
      else if IdOf(objects[0]) == Some(id) then Some(0)
      else
        match FirstIndexOfId(objects[1..], id)
        case None => assert forall i :: 1 <= i < |objects| ==> objects[i] == objects[1..][i - 1]; None
        case Some(k) => Some(k + 1)
    }

    /** getObjectById: the first object whose id field equals `id`, if any. */
    function GetObjectById(objects: seq<RealmObject>, id: string): (r: Option<RealmObject>)
      ensures r.None? <==> forall i :: 0 <= i < |objects| ==> IdOf(objects[i]) != Some(id)
      ensures r.Some? ==> IdOf(r.value) == Some(id)
      ensures r.Some? ==> exists i :: 0 <= i < |objects| && objects[i] == r.value && forall j :: 0 <= j < i ==> IdOf(objects[j]) != Some(id)
    {
      match FirstIndexOfId(objects, id)
      case None => None
      case Some(i) => Some(objects[i])
    }

    predicate IdIn(o: RealmObject, ids: seq<string>) {
      IdOf(o).Some? && IdOf(o).value in ids
    }

    /** getObjectsMatchingIds: the objects whose id is in `ids`, in realm order. */
    function GetObjectsMatchingIds(objects: seq<RealmObject>, ids: seq<string>): (r: seq<RealmObject>)
      ensures forall o :: o in r <==> o in objects && IdIn(o, ids)
      ensures |r| <= |objects|
    {
      if objects == [] then []
      else
        var rest := GetObjectsMatchingIds(objects[..|objects| - 1], ids);
        var last := objects[|objects| - 1];
        assert objects == objects[..|objects| - 1] + [last];
        if IdIn(last, ids) then rest + [last] else rest
    }

    /** The objects whose id is not in `ids` (the `NOT (id IN ids)` filter). */
    function ObjectsNotMatching(objects: seq<RealmObject>, ids: seq<string>): (r: seq<RealmObject>)
      ensures forall o :: o in r <==> o in objects && !IdIn(o, ids)
      ensures |r| <= |objects|
    {
      if objects == [] then []
      else
        var rest := ObjectsNotMatching(objects[..|objects| - 1], ids);
        var last := objects[|objects| - 1];
        assert objects == objects[..|objects| - 1] + [last];
        if IdIn(last, ids) then rest else rest + [last]
    }

    /** getObjectsNotMatchingIds: all objects when `ids` is empty, otherwise the filter. */
    function GetObjectsNotMatchingIds(objects: seq<RealmObject>, ids: seq<string>): (r: seq<RealmObject>)
      ensures |ids| == 0 ==> r == objects
      ensures forall o :: o in r <==> o in objects && !IdIn(o, ids)
    {
      if |ids| == 0 then objects else ObjectsNotMatching(objects, ids)
    }

    /** The matching and the non-matching objects split the objects between them. */
    lemma {:induction false} MatchingPartition(objects: seq<RealmObject>, ids: seq<string>)
      ensures multiset(GetObjectsMatchingIds(objects, ids)) + multiset(GetObjectsNotMatchingIds(objects, ids)) == multiset(objects)
      ensures |GetObjectsMatchingIds(objects, ids)| + |GetObjectsNotMatchingIds(objects, ids)| == |objects|
    {
      if |ids| != 0 {
        NotMatchingComplements(objects, ids);
      } else {
        NoneMatchEmpty(objects, ids);
      }
    }

    lemma {:induction false} NotMatchingComplements(objects: seq<RealmObject>, ids: seq<string>)
      ensures multiset(GetObjectsMatchingIds(objects, ids)) + multiset(ObjectsNotMatching(objects, ids)) == multiset(objects)
    {
      if objects != [] {
        var init := objects[..|objects| - 1];
        NotMatchingComplements(init, ids);
        assert objects == init + [objects[|objects| - 1]];
      }
    }

    lemma {:induction false} NoneMatchEmpty(objects: seq<RealmObject>, ids: seq<string>)
      requires |ids| == 0
      ensures GetObjectsMatchingIds(objects, ids) == []
    {
      if objects != [] {
        NoneMatchEmpty(objects[..|objects| - 1], ids);
      }
    }

    /** objectToDictionary: the object's property values. */
    function ObjectToDictionary(o: RealmObject): Dict {
      o.fields
    }

    /** `k` is the primary key and the object already holds a value for it. */
    predicate KeySet(o: RealmObject, k: string) {
      primaryKey == Some(k) && k in o.fields
    }

    /** The object's primary-key value, if the type has a primary key and the object holds it. */
    function KeyOf(o: RealmObject): Option<Json> {
      if primaryKey.Some? && primaryKey.value in o.fields then Some(o.fields[primaryKey.value]) else None
    }

    /** The entries of `dict` that name a property of the schema. */
    function SchemaPart(dict: Dict): Dict {
      map k | k in dict.Keys && k in properties :: dict[k]
    }

    /**
     * updateFromDictionary: every schema property named in `dict` takes its
     * value, except that a primary key already set is left alone; keys that
     * are no property are ignored.
     */
    function UpdateObjectWithDictionary(o: RealmObject, dict: Dict): (r: RealmObject)
      ensures forall k :: KeySet(o, k) ==> k in r.fields && r.fields[k] == o.fields[k]
      ensures forall k :: k in dict && k in properties && !KeySet(o, k) ==> k in r.fields && r.fields[k] == dict[k]
      ensures forall k :: k in o.fields && (k !in dict || k !in properties) ==> k in r.fields && r.fields[k] == o.fields[k]
      ensures r.fields.Keys == o.fields.Keys + (dict.Keys * properties)
    {
      if primaryKey.Some? && primaryKey.value in o.fields then RealmObject(o.fields + (SchemaPart(dict) - {primaryKey.value}))
      else RealmObject(o.fields + SchemaPart(dict))
    }

    /** objectFromDictionary: a new object filled from `dict`, or nothing when the class cannot be found. */
    function ObjectFromDictionary(dict: Dict): (r: Option<RealmObject>)
      ensures r.None? <==> !instantiable
      ensures r.Some? ==> r.value.fields.Keys == dict.Keys * properties
      ensures r.Some? ==> forall k :: k in r.value.fields ==> r.value.fields[k] == dict[k]
    {
      if instantiable then Some(UpdateObjectWithDictionary(RealmObject(map[]), dict)) else None
    }

    /** Registers for change notifications; the new token replaces any previous one. */
    method StartMonitoringObjectChanges(realm: Realm)
      modifies this, realm`nextToken
      ensures notificationToken == Some(old(realm.nextToken)) && realm.nextToken == old(realm.nextToken) + 1
    {
      var token := realm.AddNotificationBlock();
      notificationToken := Some(token);
    }

    /** Stops the token, if any; calling it again changes nothing. */
    method StopMonitoringObjectChanges()
      modifies this
      ensures notificationToken.None?
    {
      if notificationToken.Some? {
        notificationToken := None;
      }
    }
  }
}

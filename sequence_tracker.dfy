/**
 * RealmObjectCouchDBSequenceTracker: keeps the sequence row of one realm
 * object type, creating it on start and writing the push sequence and the
 * pull checkpoint into it.
 */
module SequenceTrackers {
  import opened Wrappers
  import opened RealmStore
  import opened MappingStore

  class SequenceTracker {
    const realmObjectType: string
    /** The token of the notification block that reports the row to the manager. */
    var notificationToken: Option<nat>

    constructor (realmObjectType: string)
      ensures this.realmObjectType == realmObjectType && notificationToken.None?
    {
      this.realmObjectType := realmObjectType;
      notificationToken := None;
    }

    /** Subscribes to the row and creates it (push 0, no pull checkpoint, fresh replicator id) if missing. */
    method Start(realm: Realm, uuids: UuidSource)
      requires realm.Valid()
      modifies this, realm`nextToken, realm`sequences, uuids
      ensures notificationToken == Some(old(realm.nextToken)) && realm.nextToken == old(realm.nextToken) + 1
      ensures TablesOf(realm, uuids) == WithSequenceRow(old(TablesOf(realm, uuids)), realmObjectType)
      ensures realm.Valid()
    {
      var token := realm.AddNotificationBlock();
      notificationToken := Some(token);
      if realmObjectType !in realm.sequences {
        var id := uuids.Next();
        realm.sequences := realm.sequences[realmObjectType := SequenceRow(realmObjectType, id, 0, None)];
      }
    }

    method Stop()
      modifies this
      ensures notificationToken.None?
    {
      if notificationToken.Some? {
        notificationToken := None;
      }
    }

    method UpdateLastPushSequence(realm: Realm, uuids: UuidSource, lastPushSequence: int)
      requires realm.Valid()
      modifies realm`sequences, uuids
      ensures TablesOf(realm, uuids) == WithPushSequence(old(TablesOf(realm, uuids)), realmObjectType, lastPushSequence)
      ensures realm.Valid()
    {
      if realmObjectType !in realm.sequences {
        var id := uuids.Next();
        realm.sequences := realm.sequences[realmObjectType := SequenceRow(realmObjectType, id, lastPushSequence, None)];
      } else {
        realm.sequences := realm.sequences[realmObjectType := realm.sequences[realmObjectType].(lastPushSequence := lastPushSequence)];
      }
    }

    method UpdateLastPullSequence(realm: Realm, uuids: UuidSource, lastPullSequence: string)
      requires realm.Valid()
      modifies realm`sequences, uuids
      ensures TablesOf(realm, uuids) == WithPullSequence(old(TablesOf(realm, uuids)), realmObjectType, lastPullSequence)
      ensures realm.Valid()
    {
      if realmObjectType !in realm.sequences {
        var id := uuids.Next();
        realm.sequences := realm.sequences[realmObjectType := SequenceRow(realmObjectType, id, 0, Some(lastPullSequence))];
      } else {
        realm.sequences := realm.sequences[realmObjectType := realm.sequences[realmObjectType].(lastPullSequence := Some(lastPullSequence))];
      }
    }
  }
}

/**
 * The outcome of one push or pull (ReplicationResult): a success that
 * reports how many changes were processed, or a failure with an error and
 * a message. The replicator that produced it is recorded in both.
 */
module ReplicationResults {
  import opened Wrappers
  import opened CouchDBTypes

  /** The errors a remote call can surface. */
  datatype ReplicationError = TransportError(description: string) | EmptyResponse | SerializationError

  /** The replicator a result belongs to (the Replicator protocol's two implementations). */
  datatype Replicator =
    | PushReplicatorRef(target: Endpoint, objectType: string)
    | PullReplicatorRef(source: Endpoint, objectType: string)

  datatype ReplicationResult =
    | Completed(replicator: Replicator, processed: int)
    | Failed(replicator: Replicator, failure: Option<ReplicationError>, message: Option<string>)
  {
    predicate Success() { Completed? }

    function ChangesProcessed(): int { if Completed? then processed else 0 }

    function Error(): Option<ReplicationError> { if Failed? then failure else None }

    function ErrorMessage(): Option<string> { if Failed? then message else None }
  }

  /** A CouchDB client callback: an error, no value, or a value. */
  datatype ClientReply<T> = ReplyError(error: ReplicationError) | ReplyNil | ReplyValue(value: T)

  /**
   * The dictionary whose JSON serialisation is hashed into a replication id
   * (`getReplicatorId`): the replication's source and target.
   */
  function ReplicationIdInput(source: string, target: string): (d: map<string, string>)
    ensures d.Keys == {"source", "target"} && d["source"] == source && d["target"] == target
  {
    map["source" := source, "target" := target]
  }

  /** A push and a pull between the same two ends get different ids, unless both ends have the same name. */
  lemma PushPullIdsDiffer(local: string, remote: string)
    ensures ReplicationIdInput(local, remote) == ReplicationIdInput(remote, local) <==> local == remote
  {
    if ReplicationIdInput(local, remote) == ReplicationIdInput(remote, local) {
      assert ReplicationIdInput(local, remote)["source"] == ReplicationIdInput(remote, local)["source"];
    }
  }

  /** What each of the two initialisers stores in the record. */
  lemma ResultFields(rep: Replicator, n: int, e: Option<ReplicationError>, m: Option<string>)
    ensures var r := Completed(rep, n);
      r.Success() && r.ChangesProcessed() == n && r.Error().None? && r.ErrorMessage().None? && r.replicator == rep
    ensures var r := Failed(rep, e, m);
      !r.Success() && r.ChangesProcessed() == 0 && r.Error() == e && r.ErrorMessage() == m && r.replicator == rep
  {
  }
}

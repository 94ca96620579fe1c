/**
 * `StopDatabase` and `StartDatabase` of pkg/rds/databases.go: try the database as a cluster first,
 * and as an instance only when the cluster call failed with "cluster not found" or with an error
 * that is not a provider error.
 */
module RdsDatabases {
  import opened Wrappers
  import opened ErrorValues
  import opened Provider

  datatype Power = Start | Stop

  const EmptyIdMessage: string := "database identifier cannot be empty"

  function ClusterCall(p: Power, id: string): Call {
    match p
    case Start => StartDBCluster(id)
    case Stop => StopDBCluster(id)
  }

  function InstanceCall(p: Power, id: string): Call {
    match p
    case Start => StartDBInstance(id)
    case Stop => StopDBInstance(id)
  }

  /** The calls a start or stop issues, in order, and the error it returns (None for nil). */
  datatype Run = Run(calls: seq<Call>, err: Option<Error>)

  /** One start or stop against the provider's fault oracle. */
  function PowerDatabase(p: Power, id: string, fault: Call -> Option<Error>): (r: Run)
    ensures id == "" ==> r == Run([], Some(Plain(EmptyIdMessage)))
    ensures id != "" ==> |r.calls| >= 1 && r.calls[0] == ClusterCall(p, id)
    ensures id != "" && fault(ClusterCall(p, id)).None? ==> r == Run([ClusterCall(p, id)], None)
    ensures id != "" && fault(ClusterCall(p, id)).Some? ==>
      var e := fault(ClusterCall(p, id)).value;
      if e.Provider? && e.code != DBClusterNotFoundCode then r == Run([ClusterCall(p, id)], Some(e))
      else r == Run([ClusterCall(p, id), InstanceCall(p, id)], fault(InstanceCall(p, id)))
  {
    if id == "" then Run([], Some(Plain(EmptyIdMessage)))
    else match fault(ClusterCall(p, id))
      case None => Run([ClusterCall(p, id)], None)
      case Some(e) =>
        if e.Provider? && e.code != DBClusterNotFoundCode then Run([ClusterCall(p, id)], Some(e))
        else Run([ClusterCall(p, id), InstanceCall(p, id)], fault(InstanceCall(p, id)))
  }

  /** `StopDatabase`. */
  function StopDatabase(id: string, fault: Call -> Option<Error>): (r: Run)
    ensures r.calls == [] || r.calls == [StopDBCluster(id)] || r.calls == [StopDBCluster(id), StopDBInstance(id)]
  {
    PowerDatabase(Stop, id, fault)
  }

  /** `StartDatabase`. */
  function StartDatabase(id: string, fault: Call -> Option<Error>): (r: Run)
    ensures r.calls == [] || r.calls == [StartDBCluster(id)] || r.calls == [StartDBCluster(id), StartDBInstance(id)]
  {
    PowerDatabase(Start, id, fault)
  }

  /** The start call corresponding to a stop call (and back); other calls are left alone. */
  function Mirror(c: Call): Call {
    match c
    case StopDBCluster(id) => StartDBCluster(id)
    case StartDBCluster(id) => StopDBCluster(id)
    case StopDBInstance(id) => StartDBInstance(id)
    case StartDBInstance(id) => StopDBInstance(id)
    case _ => c
  }

  /**
   * Start and Stop follow the same control flow: starting against an oracle gives the mirror image
   * of stopping against the mirrored oracle, the same error and the mirrored calls.
   */
  lemma StartMirrorsStop(id: string, fault: Call -> Option<Error>)
    ensures var start := StartDatabase(id, fault);
      var stop := StopDatabase(id, (c: Call) => fault(Mirror(c)));
      start.err == stop.err && |start.calls| == |stop.calls| &&
      forall i :: 0 <= i < |start.calls| ==> start.calls[i] == Mirror(stop.calls[i])
  {
    var mirrored := (c: Call) => fault(Mirror(c));
    assert Mirror(StopDBCluster(id)) == StartDBCluster(id);
    assert Mirror(StopDBInstance(id)) == StartDBInstance(id);
    assert mirrored(StopDBCluster(id)) == fault(StartDBCluster(id));
    assert mirrored(StopDBInstance(id)) == fault(StartDBInstance(id));
  }

  /** Issues the calls of one start or stop to the client's provider. */
  method PowerOn(client: Client, p: Power, id: string) returns (err: Option<Error>)
    modifies client.service
    ensures var run := PowerDatabase(p, id, client.service.fault);
      err == run.err && client.service.log == old(client.service.log) + run.calls
  {
    if id == "" {
      return Some(Plain(EmptyIdMessage));
    }
    var reply := client.service.Issue(ClusterCall(p, id));
    if reply.err.None? {
      return None;
    }
    var e := reply.err.value;
    if e.Provider? && e.code != DBClusterNotFoundCode {
      return Some(e);
    }
    reply := client.service.Issue(InstanceCall(p, id));
    return reply.err;
  }
}

/**
 * The abstract RDS provider the core talks to, and the client configuration of pkg/rds/client.go.
 *
 * `Rds` holds the provider's inventory (clusters, instances with an optional parent-cluster link,
 * engine versions, cluster and instance snapshots), a log of every call issued to it, and an oracle
 * `fault` that decides which call fails and with which error. A call that does not fail answers from
 * the inventory. As the AWS SDK does, a failed call still yields an (empty) output next to its error.
 *
 * The inventory is fixed: a create, modify or delete is only recorded in the log. No operation of
 * the core reads back the inventory after changing it.
 */
module Provider {
  import opened Wrappers
  import opened ErrorValues

  /** `rds.Tag`: both fields are pointers and may be nil. */
  datatype RdsTag = RdsTag(key: Option<string>, value: Option<string>)

  datatype Cluster = Cluster(id: string, arn: Option<string>, engine: Option<string>)
  datatype Instance = Instance(id: string, arn: Option<string>, clusterId: Option<string>, engine: Option<string>)
  datatype EngineVersion = EngineVersion(engine: string, version: string, family: string)
  datatype ClusterSnapshot = ClusterSnapshot(id: string, clusterId: string, engine: Option<string>, engineVersion: Option<string>)
  datatype DbSnapshot = DbSnapshot(id: string, instanceId: string, engine: Option<string>, engineVersion: Option<string>)

  /** The fields of `rds.CreateDBClusterInput` the core reads or sets. */
  datatype ClusterSpec = ClusterSpec(
    identifier: Option<string>, subnetGroup: Option<string>, parameterGroup: Option<string>,
    engine: Option<string>, engineVersion: Option<string>, tags: seq<RdsTag>)

  /** The fields of `rds.CreateDBInstanceInput` the core reads or sets. */
  datatype InstanceSpec = InstanceSpec(
    identifier: Option<string>, clusterId: Option<string>, subnetGroup: Option<string>,
    parameterGroup: Option<string>, engine: Option<string>, engineVersion: Option<string>,
    tags: seq<RdsTag>)

  /** The fields of `rds.ModifyDBClusterInput` / `rds.ModifyDBInstanceInput` the core reads or sets. */
  datatype Change = Change(identifier: Option<string>, parameterGroup: Option<string>, engineVersion: Option<string>)

  /** Every provider call the core issues, with the input fields it sets. */
  datatype Call =
    | DescribeDBClusters(clusterId: Option<string>)
    | DescribeDBInstances(instanceId: Option<string>)
    | DescribeDBEngineVersions(engine: Option<string>, version: Option<string>)
    | CreateDBCluster(cluster: ClusterSpec)
    | CreateDBInstance(instance: InstanceSpec)
    | ModifyDBCluster(clusterChange: Change)
    | ModifyDBInstance(instanceChange: Change)
    | DeleteDBCluster(clusterName: Option<string>, skipFinalSnapshot: bool, finalSnapshot: Option<string>)
    | DeleteDBInstance(instanceName: string, skipFinalSnapshot: bool, finalSnapshot: Option<string>)
    | AddTagsToResource(resource: string, tags: seq<RdsTag>)
    | StartDBCluster(startCluster: string)
    | StopDBCluster(stopCluster: string)
    | StartDBInstance(startInstance: string)
    | StopDBInstance(stopInstance: string)
    | DescribeDBClusterSnapshots(clusterSnapshotId: Option<string>, ofCluster: Option<string>)
    | DescribeDBSnapshots(dbSnapshotId: Option<string>, ofInstance: Option<string>)

  /** The error (if any) and the listings a call answers with; listings a call does not produce are empty. */
  datatype Reply = Reply(
    err: Option<Error>, clusters: seq<Cluster>, instances: seq<Instance>,
    engineVersions: seq<EngineVersion>, clusterSnapshots: seq<ClusterSnapshot>, dbSnapshots: seq<DbSnapshot>)

  function Failed(e: Error): (r: Reply)
    ensures r.err == Some(e)
  {
    Reply(Some(e), [], [], [], [], [])
  }

  /** The elements of `s` that satisfy `p`, in their order in `s`. */
  function Filter<T(!new)>(s: seq<T>, p: T -> bool): (r: seq<T>)
    ensures |r| <= |s|
    ensures forall x :: x in r <==> x in s && p(x)
  {
    if s == [] then [] else (if p(s[0]) then [s[0]] else []) + Filter(s[1..], p)
  }

  /** An optional filter value: nil matches everything. */
  predicate Matches(filter: Option<string>, v: string) {
    filter.None? || filter.value == v
  }

  class Rds {
    const clusters: seq<Cluster>
    const instances: seq<Instance>
    const engineVersions: seq<EngineVersion>
    const clusterSnapshots: seq<ClusterSnapshot>
    const dbSnapshots: seq<DbSnapshot>
    const fault: Call -> Option<Error>
    /** Every call issued so far, oldest first. */
    var log: seq<Call>

    constructor (clusters: seq<Cluster>, instances: seq<Instance>, engineVersions: seq<EngineVersion>,
                 clusterSnapshots: seq<ClusterSnapshot>, dbSnapshots: seq<DbSnapshot>,
                 fault: Call -> Option<Error>)
      ensures this.clusters == clusters && this.instances == instances
      ensures this.engineVersions == engineVersions
      ensures this.clusterSnapshots == clusterSnapshots && this.dbSnapshots == dbSnapshots
      ensures this.fault == fault && log == []
    {
      this.clusters := clusters;
      this.instances := instances;
      this.engineVersions := engineVersions;
      this.clusterSnapshots := clusterSnapshots;
      this.dbSnapshots := dbSnapshots;
      this.fault := fault;
      log := [];
    }

    /** What the provider answers to `c`. */
    function Answer(c: Call): (r: Reply)
      ensures fault(c).Some? ==> r == Failed(fault(c).value)
      ensures fault(c).None? ==> r.err.None?
      ensures fault(c).None? && c.DescribeDBClusters? ==>
        forall x :: x in r.clusters <==> x in clusters && Matches(c.clusterId, x.id)
      ensures fault(c).None? && c.DescribeDBInstances? ==>
        forall x :: x in r.instances <==> x in instances && Matches(c.instanceId, x.id)
      ensures fault(c).None? && c.DescribeDBEngineVersions? ==>
        forall x :: x in r.engineVersions <==>
          x in engineVersions && Matches(c.engine, x.engine) && Matches(c.version, x.version)
      ensures !c.DescribeDBClusters? ==> r.clusters == []
      ensures !c.DescribeDBInstances? ==> r.instances == []
    {
      var none := Reply(None, [], [], [], [], []);
      if fault(c).Some? then Failed(fault(c).value)
      else match c
        case DescribeDBClusters(id) =>
          none.(clusters := Filter(clusters, (x: Cluster) => Matches(id, x.id)))
        case DescribeDBInstances(id) =>
          none.(instances := Filter(instances, (x: Instance) => Matches(id, x.id)))
        case DescribeDBEngineVersions(engine, version) =>
          none.(engineVersions := Filter(engineVersions,
            (x: EngineVersion) => Matches(engine, x.engine) && Matches(version, x.version)))
        case DescribeDBClusterSnapshots(snapshotId, clusterId) =>
          none.(clusterSnapshots := Filter(clusterSnapshots,
            (x: ClusterSnapshot) => Matches(snapshotId, x.id) && Matches(clusterId, x.clusterId)))
        case DescribeDBSnapshots(snapshotId, instanceId) =>
          none.(dbSnapshots := Filter(dbSnapshots,
            (x: DbSnapshot) => Matches(snapshotId, x.id) && Matches(instanceId, x.instanceId)))
        case _ => none
    }

    /** Issues `c`: it is appended to the log and answered. */
    method Issue(c: Call) returns (r: Reply)
      modifies this
      ensures r == Answer(c)
      ensures log == old(log) + [c]
    {
      r := Answer(c);
      log := log + [c];
    }
  }

  /** `rds.Client`: the provider plus the defaults read from configuration. */
  class Client {
    const service: Rds
    const defaultSubnetGroup: string
    /** Parameter-group family -> default instance parameter group. */
    const defaultParameterGroups: map<string, string>
    /** Parameter-group family -> default cluster parameter group. */
    const defaultClusterParameterGroups: map<string, string>

    constructor (service: Rds, defaultSubnetGroup: string, defaultParameterGroups: map<string, string>,
                 defaultClusterParameterGroups: map<string, string>)
      ensures this.service == service && this.defaultSubnetGroup == defaultSubnetGroup
      ensures this.defaultParameterGroups == defaultParameterGroups
      ensures this.defaultClusterParameterGroups == defaultClusterParameterGroups
    {
      this.service := service;
      this.defaultSubnetGroup := defaultSubnetGroup;
      this.defaultParameterGroups := defaultParameterGroups;
      this.defaultClusterParameterGroups := defaultClusterParameterGroups;
    }
  }
}
